/** Merging the streams of a batch: one stream per label set, nothing lost, times made increasing again. */
module Merge {
  import opened Basics
  import opened Alerts
  import opened Timestamps
  import opened TimestampProofs
  import opened StreamKeys
  import opened Streams
  import opened Entries

  ghost predicate HasLabels(ss: seq<Stream>, labels: Labels) {
    exists i :: 0 <= i < |ss| && ss[i].labels == labels
  }

  /** `out` holds one stream for each label set of `ss`: all its rows, in time order and de-collided. */
  ghost predicate IsMerge(ss: seq<Stream>, out: seq<Stream>) {
    && (forall i, j :: 0 <= i < j < |out| ==> out[i].labels != out[j].labels)
    && (forall labels :: HasLabels(ss, labels) <==> HasLabels(out, labels))
    && (forall i :: 0 <= i < |out| ==> out[i].values == Monotonic(Gathered(ss, out[i].labels)))
  }

  // ---- Conservation ----

  lemma {:induction false} NothingGathered(ss: seq<Stream>, labels: Labels)
    requires !HasLabels(ss, labels)
    ensures Gathered(ss, labels) == []
  {
    if ss != [] {
      var front := ss[..|ss| - 1];
      assert forall i :: 0 <= i < |front| ==> front[i] == ss[i];
      NothingGathered(front, labels);
    }
  }

  lemma {:induction false} OnlyOneGathered(ss: seq<Stream>, i: nat)
    requires i < |ss| && forall j :: 0 <= j < |ss| && j != i ==> ss[j].labels != ss[i].labels
    ensures Gathered(ss, ss[i].labels) == ss[i].values
  {
    var front := ss[..|ss| - 1];
    if i == |ss| - 1 {
      NothingGathered(front, ss[i].labels);
    } else {
      OnlyOneGathered(front, i);
    }
  }

  lemma GatheredFromMerge(ss: seq<Stream>, out: seq<Stream>, labels: Labels)
    requires IsMerge(ss, out)
    ensures Gathered(out, labels) == Monotonic(Gathered(ss, labels))
  {
    hide Gathered, Monotonic;
    if HasLabels(out, labels) {
      var i :| 0 <= i < |out| && out[i].labels == labels;
      OnlyOneGathered(out, i);
    } else {
      NothingGathered(out, labels);
      NothingGathered(ss, labels);
      ShortIsMonotonic([]);
    }
  }

  /** Merging conserves entries: the same labels, lines and metadata, each as often as before. */
  lemma MergeConserves(ss: seq<Stream>, out: seq<Stream>)
    requires IsMerge(ss, out)
    ensures multiset(AllEntries(out)) == multiset(AllEntries(ss))
  {
    hide IsMerge, Monotonic, Gathered, AllEntries;
    forall e ensures multiset(AllEntries(out))[e] == multiset(AllEntries(ss))[e] {
      AllEntriesCount(ss, e);
      AllEntriesCount(out, e);
      GatheredFromMerge(ss, out, e.labels);
      MonotonicConserves(Gathered(ss, e.labels));
    }
  }

  /** The time order Loki insists on holds again in every merged stream. */
  lemma MergedStreamsIncrease(ss: seq<Stream>, out: seq<Stream>, i: nat)
    requires IsMerge(ss, out) && i < |out|
    ensures Increasing(out[i].values)
  {
    NudgedIncreases(StableSort(Gathered(ss, out[i].labels)));
  }

  lemma {:induction false} CountAtLeastTwo(s: seq<Row>, i: nat, j: nat)
    requires i < j < |s| && s[i] == s[j]
    ensures multiset(s)[s[i]] >= 2
  {
    assert s == s[..j] + [s[j]] + s[j + 1..];
    assert s[i] in s[..j];
  }

  lemma DistinctCounts(s: seq<Row>, r: Row)
    requires Distinct(s)
    ensures multiset(s)[r] <= 1
  {
    CountAtTime(s, r);
    DistinctMeansOneEach(s, r.at);
    var at := RowsAt(s, r.at);
    assert at == [] || at == [at[0]];
  }

  lemma PermutationOfDistinct(s: seq<Row>, d: seq<Row>)
    requires multiset(s) == multiset(d) && Distinct(d)
    ensures Distinct(s)
  {
    forall i, j | 0 <= i < j < |s| ensures s[i].at != s[j].at {
      assert s[i] in multiset(d) && s[j] in multiset(d);
      if s[i] == s[j] {
        CountAtLeastTwo(s, i, j);
        DistinctCounts(d, s[i]);
      } else {
        var k :| 0 <= k < |d| && d[k] == s[i];
        var l :| 0 <= l < |d| && d[l] == s[j];
        assert k != l;
      }
    }
  }

  /** Merging keeps every receive timestamp if and only if no two gathered rows share one. */
  lemma MergeKeepsTimesUnlessTheyCollide(ss: seq<Stream>, out: seq<Stream>, i: nat)
    requires IsMerge(ss, out) && i < |out|
    ensures var rows := Gathered(ss, out[i].labels);
      multiset(out[i].values) == multiset(rows) <==> Distinct(rows)
  {
    hide Gathered, RowsAt;
    var rows := Gathered(ss, out[i].labels);
    MergedStreamsIncrease(ss, out, i);
    if Distinct(rows) {
      ShiftsOnlyCollisions(rows);
      StableSortIsStable(rows);
      StableSortPermutes(rows, StableSort(rows));
    }
    if multiset(out[i].values) == multiset(rows) {
      PermutationOfDistinct(rows, out[i].values);
    }
  }

  function ValuesOf(ss: seq<Stream>): seq<seq<Row>> {
    seq(|ss|, i requires 0 <= i < |ss| => ss[i].values)
  }

  /** The rows under one label set are those of its streams, one stream after the other. */
  lemma {:induction false} GatheringKeepsOrder(ss: seq<Stream>, labels: Labels) returns (own: seq<Stream>)
    ensures IsPart(ss, (s: Stream) => s.labels == labels, own) && Gathered(ss, labels) == Concat(ValuesOf(own))
  {
    hide IsPart;
    if ss == [] {
      NoPart((s: Stream) => s.labels == labels);
      own := [];
    } else {
      hide Concat;
      var n := |ss| - 1;
      own := GatheringKeepsOrder(ss[..n], labels);
      assert ss[..n] + [ss[n]] == ss;
      PartNext(ss[..n], (s: Stream) => s.labels == labels, own, ss[n]);
      if ss[n].labels == labels {
        ConcatSnoc(ValuesOf(own), ss[n].values);
        assert ValuesOf(own + [ss[n]]) == ValuesOf(own) + [ss[n].values];
        own := own + [ss[n]];
      } else {
        assert own + [] == own;
      }
    }
  }

  // ---- The map that is being filled ----

  /** What the map holds once the streams `done` have gone through it. */
  ghost predicate Holds(printable: char -> bool, m: map<string, Stream>, done: seq<Stream>) {
    && (forall k :: k in m ==>
          k == StreamKeyOf(printable, m[k].labels) && HasLabels(done, m[k].labels) && ValidNames(m[k].labels))
    && (forall i :: 0 <= i < |done| ==>
          StreamKeyOf(printable, done[i].labels) in m
          && m[StreamKeyOf(printable, done[i].labels)].labels == done[i].labels)
    && (forall k :: k in m ==> m[k].values == Gathered(done, m[k].labels))
  }

  /** One more stream, whose key is the key of its labels, is added to what that key holds. */
  function Added(m: map<string, Stream>, key: string, s: Stream): map<string, Stream> {
    m[key := if key in m then Stream(m[key].labels, m[key].values + s.values) else s]
  }

  lemma GatheredNext(done: seq<Stream>, s: Stream, labels: Labels)
    ensures Gathered(done + [s], labels) == Gathered(done, labels) + if s.labels == labels then s.values else []
  {
  }

  lemma HasLabelsNext(done: seq<Stream>, s: Stream, labels: Labels)
    ensures HasLabels(done + [s], labels) <==> HasLabels(done, labels) || s.labels == labels
  {
    if HasLabels(done, labels) {
      var i :| 0 <= i < |done| && done[i].labels == labels;
      assert (done + [s])[i].labels == labels;
    }
    assert (done + [s])[|done|] == s;
  }

  lemma HoldsNext(printable: char -> bool, m: map<string, Stream>, done: seq<Stream>, s: Stream)
    requires Holds(printable, m, done) && ValidNames(s.labels)
    ensures Holds(printable, Added(m, StreamKeyOf(printable, s.labels), s), done + [s])
  {
    hide StreamKeyOf, ValidNames, Gathered, HasLabels;
    var key := StreamKeyOf(printable, s.labels);
    var next := Added(m, key, s);
    forall k | k in next
      ensures && k == StreamKeyOf(printable, next[k].labels) && HasLabels(done + [s], next[k].labels)
        && ValidNames(next[k].labels) && next[k].values == Gathered(done + [s], next[k].labels)
    {
      HasLabelsNext(done, s, next[k].labels);
      GatheredNext(done, s, next[k].labels);
      KeyIdentifiesLabels(printable, next[k].labels, s.labels);
      if k == key && key !in m {
        NewKeyNewLabels(printable, m, done, s.labels);
      }
    }
    if key in m {
      KeyIdentifiesLabels(printable, m[key].labels, s.labels);
    }
    forall i | 0 <= i < |done + [s]|
      ensures StreamKeyOf(printable, (done + [s])[i].labels) in next
      ensures next[StreamKeyOf(printable, (done + [s])[i].labels)].labels == (done + [s])[i].labels
    {
      assert i < |done| ==> (done + [s])[i] == done[i];
    }
  }

  lemma NewKeyNewLabels(printable: char -> bool, m: map<string, Stream>, done: seq<Stream>, labels: Labels)
    requires Holds(printable, m, done) && StreamKeyOf(printable, labels) !in m
    ensures Gathered(done, labels) == []
  {
    hide StreamKeyOf;
    NothingGathered(done, labels);
  }

  /** The map emptied in any order, each stream normalised, is a merge. */
  lemma EmptyingIsMerge(printable: char -> bool, m: map<string, Stream>, done: seq<Stream>, order: seq<string>,
                        out: seq<Stream>)
    requires Holds(printable, m, done) && IteratesOver(order, m.Keys) && |out| == |order|
    requires forall i :: 0 <= i < |out| ==> out[i] == Stream(m[order[i]].labels, Monotonic(m[order[i]].values))
    ensures IsMerge(done, out)
  {
  }

  // ---- The method ----

  function MapView(m: map<string, Slice>): map<string, Stream>
    reads set k | k in m :: m[k].values
  {
    map k | k in m :: View(m[k])
  }

  ghost predicate Separate(m: map<string, Slice>) {
    forall k, l :: k in m && l in m && k != l ==> m[k].values != m[l].values
  }

  method Copied(from: array<Row>) returns (values: array<Row>)
    ensures fresh(values) && values[..] == from[..]
  {
    values := new Row[from.Length](i requires 0 <= i < from.Length reads from => from[i]);
  }

  /** `append(existing, more...)` into a slice of its own. */
  method Appended(existing: array<Row>, more: array<Row>) returns (values: array<Row>)
    ensures fresh(values) && values[..] == existing[..] + more[..]
  {
    values := new Row[existing.Length + more.Length](i requires 0 <= i < existing.Length + more.Length
      reads existing, more => if i < existing.Length then existing[i] else more[i - existing.Length]);
  }

  method AddStream(printable: char -> bool, m: map<string, Slice>, s: Slice) returns (next: map<string, Slice>)
    requires Separate(m)
    ensures Separate(next) && MapView(next) == Added(MapView(m), StreamKeyOf(printable, s.labels), View(s))
    ensures forall k :: k in next ==> fresh(next[k].values) || (k in m && next[k] == m[k])
  {
    hide StreamKeyOf;
    var key := StreamKey(printable, s.labels);
    if key in m {
      var values := Appended(m[key].values, s.values);
      next := m[key := Slice(m[key].labels, values)];
      MapViewUpdate(m, key, next[key]);
    } else {
      var values := Copied(s.values);
      next := m[key := Slice(s.labels, values)];
      MapViewUpdate(m, key, next[key]);
    }
  }

  lemma MapViewUpdate(m: map<string, Slice>, key: string, s: Slice)
    ensures MapView(m[key := s]) == MapView(m)[key := View(s)]
  {
  }

  /** Empties the map in whatever order it yields, normalising each stream in place. */
  method Normalise(m: map<string, Slice>) returns (out: seq<Slice>, ghost order: seq<string>)
    requires Separate(m)
    modifies set k | k in m :: m[k].values
    ensures IteratesOver(order, m.Keys) && |out| == |order|
    ensures forall i :: 0 <= i < |out| ==> order[i] in m && out[i] == m[order[i]]
    ensures forall i :: 0 <= i < |out| ==>
      View(out[i]) == Stream(out[i].labels, Monotonic(old(m[order[i]].values[..])))
  {
    hide Monotonic;
    out, order := [], [];
    var remaining := m.Keys;
    while remaining != {}
      invariant remaining <= m.Keys
      invariant IteratesOver(order, m.Keys - remaining) && |out| == |order|
      invariant forall i :: 0 <= i < |out| ==> order[i] in m && order[i] !in remaining && out[i] == m[order[i]]
      invariant forall k :: k in remaining ==> m[k].values[..] == old(m[k].values[..])
      invariant forall i :: 0 <= i < |out| ==> out[i].values[..] == Monotonic(old(m[order[i]].values[..]))
      decreases remaining
    {
      var key :| key in remaining;
      EnsureMonotonic(m[key].values);
      out := out + [m[key]];
      IterateNext(order, key, m.Keys - remaining);
      order := order + [key];
      assert m.Keys - (remaining - {key}) == m.Keys - remaining + {key};
      remaining := remaining - {key};
    }
    assert m.Keys - remaining == m.Keys;
  }

  /** Merges the streams of all groups. The groups' own slices are left as they were. */
  method MergeStreams(printable: char -> bool, groups: seq<seq<Slice>>) returns (out: seq<Slice>)
    requires forall s :: s in Concat(groups) ==> ValidNames(s.labels)
    ensures Views(Concat(groups)) == old(Views(Concat(groups)))
    ensures IsMerge(Views(Concat(groups)), Views(out))
    ensures forall s :: s in out ==> fresh(s.values)
  {
    hide StreamKeyOf, ValidNames, Added, IsMerge, Holds, Concat, Views, Monotonic, IteratesOver;
    var m: map<string, Slice> := map[];
    ghost var input := Views(Concat(groups));
    ghost var done: seq<Stream> := [];
    StartsEmpty(printable);
    NothingToConcat(groups);
    for i := 0 to |groups|
      invariant Separate(m) && Holds(printable, MapView(m), done)
      invariant done == Views(Concat(groups[..i]))
      invariant forall k :: k in m ==> fresh(m[k].values)
    {
      ConcatNext(groups, i);
      ghost var more := Views(groups[i]);
      ViewsOfConcat(Concat(groups[..i]), groups[i]);
      done := done + more;
      m := AddGroup(printable, m, groups[i], Views(Concat(groups[..i])));
    }
    assert groups[..|groups|] == groups;
    ghost var order: seq<string>;
    ghost var filled := MapView(m);
    assert filled.Keys == m.Keys;
    out, order := Normalise(m);
    EmptyingIsMerge(printable, filled, done, order, Views(out));
    assert Views(Concat(groups)) == input;
  }

  lemma ViewsOfConcat(a: seq<Slice>, b: seq<Slice>)
    ensures Views(a + b) == Views(a) + Views(b)
  {
  }

  /** The inner loop: one group's streams. */
  method AddGroup(printable: char -> bool, m: map<string, Slice>, g: seq<Slice>, ghost done: seq<Stream>)
    returns (next: map<string, Slice>)
    requires Separate(m) && Holds(printable, MapView(m), done)
    requires forall s :: s in g ==> ValidNames(s.labels)
    ensures Separate(next) && Holds(printable, MapView(next), done + Views(g))
    ensures forall k :: k in next ==> fresh(next[k].values) || (k in m && next[k] == m[k])
  {
    hide StreamKeyOf, ValidNames, Added, Holds;
    next := m;
    ghost var views := Views(g);
    assert done + views[..0] == done;
    for j := 0 to |g|
      invariant Separate(next) && Holds(printable, MapView(next), done + views[..j])
      invariant forall k :: k in next ==> fresh(next[k].values) || (k in m && next[k] == m[k])
    {
      HoldsNext(printable, MapView(next), done + views[..j], views[j]);
      next := AddStream(printable, next, g[j]);
      assert done + views[..j + 1] == done + views[..j] + [views[j]];
    }
    assert views[..|g|] == views;
  }

  lemma StartsEmpty(printable: char -> bool)
    ensures Holds(printable, map[], [])
  {
  }

  lemma NothingToConcat(groups: seq<seq<Slice>>)
    ensures Views(Concat(groups[..0])) == []
  {
  }
}
