/**
  De-collision of entry timestamps: a stable sort by time, then the least forward nudge that makes
  every timestamp of the stream strictly greater than the one before it.
 */
module Timestamps {
  import opened Alerts

  /** One Loki entry; the time is in nanoseconds. */
  datatype Row = Row(at: int, line: string, meta: Labels)

  predicate Sorted(s: seq<Row>) {
    forall i, j :: 0 <= i < j < |s| ==> s[i].at <= s[j].at
  }

  predicate Increasing(s: seq<Row>) {
    forall i, j :: 0 <= i < j < |s| ==> s[i].at < s[j].at
  }

  /** The rows with timestamp `t`, in order. */
  function RowsAt(s: seq<Row>, t: int): seq<Row> {
    if s == [] then []
    else if s[|s| - 1].at == t then RowsAt(s[..|s| - 1], t) + [s[|s| - 1]]
    else RowsAt(s[..|s| - 1], t)
  }

  /** `b` is `a` in time order, rows of equal time in their original order. */
  ghost predicate IsStableSort(a: seq<Row>, b: seq<Row>) {
    Sorted(b) && forall t: int :: RowsAt(b, t) == RowsAt(a, t)
  }

  function Insert(s: seq<Row>, r: Row): seq<Row> {
    if s == [] || s[|s| - 1].at <= r.at then s + [r]
    else Insert(s[..|s| - 1], r) + [s[|s| - 1]]
  }

  /** `sort.SliceStable` by time. */
  function StableSort(s: seq<Row>): seq<Row> {
    if s == [] then [] else Insert(StableSort(s[..|s| - 1]), s[|s| - 1])
  }

  function Bump(previous: int, r: Row): Row {
    if r.at > previous then r else r.(at := previous + 1)
  }

  /** The loop of `ensureMonotonic` over rows in time order. */
  function Nudged(s: seq<Row>): (out: seq<Row>)
    ensures |out| == |s|
  {
    if |s| == 0 then []
    else
      var before := Nudged(s[..|s| - 1]);
      before + [if before == [] then s[|s| - 1] else Bump(before[|before| - 1].at, s[|s| - 1])]
  }

  function Monotonic(s: seq<Row>): seq<Row> {
    Nudged(StableSort(s))
  }

  // ---- The method, in place ----

  method SliceStable(values: array<Row>)
    modifies values
    ensures values[..] == StableSort(old(values[..]))
  {
    var sorted := StableSort(values[..]);
    StableSortKeepsLength(values[..]);
    forall i | 0 <= i < values.Length {
      values[i] := sorted[i];
    }
    assert values[..] == sorted;
  }

  /** Sorts the slice and nudges colliding timestamps forward, in place. */
  method EnsureMonotonic(values: array<Row>)
    modifies values
    ensures values[..] == Monotonic(old(values[..]))
  {
    if values.Length < 2 {
      ShortIsMonotonic(values[..]);
      return;
    }
    SliceStable(values);
    Nudge(values);
  }

  /** The loop: each row's time is compared with the already final time before it. */
  method Nudge(values: array<Row>)
    requires values.Length > 0
    modifies values
    ensures values[..] == Nudged(old(values[..]))
  {
    ghost var sorted := values[..];
    NudgedAt(sorted, 0);
    hide Nudged;
    for i := 1 to values.Length
      invariant forall k :: 0 <= k < i ==> values[k] == Nudged(sorted)[k]
      invariant forall k :: i <= k < values.Length ==> values[k] == sorted[k]
    {
      NudgedAt(sorted, i);
      if values[i].at <= values[i - 1].at {
        values[i] := values[i].(at := values[i - 1].at + 1);
      }
    }
    assert values[..] == Nudged(sorted);
  }

  lemma {:induction false} NudgedAt(s: seq<Row>, i: nat)
    requires i < |s|
    ensures Nudged(s)[i] == if i == 0 then s[0] else Bump(Nudged(s)[i - 1].at, s[i])
  {
    if i < |s| - 1 {
      NudgedAt(s[..|s| - 1], i);
    }
  }

  // ---- Sorting ----

  lemma {:induction false} InsertKeepsLength(s: seq<Row>, r: Row)
    ensures |Insert(s, r)| == |s| + 1
  {
    if s != [] && s[|s| - 1].at > r.at {
      InsertKeepsLength(s[..|s| - 1], r);
    }
  }

  lemma {:induction false} StableSortKeepsLength(s: seq<Row>)
    ensures |StableSort(s)| == |s|
  {
    if s != [] {
      StableSortKeepsLength(s[..|s| - 1]);
      InsertKeepsLength(StableSort(s[..|s| - 1]), s[|s| - 1]);
    }
  }

  lemma ShortIsMonotonic(s: seq<Row>)
    requires |s| < 2
    ensures Monotonic(s) == s
  {
    if |s| == 1 {
      assert s[..0] == [];
      assert StableSort(s) == [s[0]] == s;
    }
  }

  lemma SortedSnoc(s: seq<Row>, r: Row)
    ensures Sorted(s + [r]) <==> Sorted(s) && (s == [] || s[|s| - 1].at <= r.at)
  {
    var t := s + [r];
    if Sorted(t) {
      forall i, j | 0 <= i < j < |s| ensures s[i].at <= s[j].at {
        assert t[i] == s[i] && t[j] == s[j];
      }
      if s != [] {
        assert t[|s| - 1] == s[|s| - 1] && t[|s|] == r;
      }
    }
  }

  lemma {:induction false} InsertKeepsSorted(s: seq<Row>, r: Row)
    requires Sorted(s)
    ensures Sorted(Insert(s, r))
    ensures var last := Insert(s, r)[|Insert(s, r)| - 1];
      last == (if s == [] || s[|s| - 1].at <= r.at then r else s[|s| - 1])
  {
    if s == [] || s[|s| - 1].at <= r.at {
      SortedSnoc(s, r);
    } else {
      var front := s[..|s| - 1];
      assert s == front + [s[|s| - 1]];
      SortedSnoc(front, s[|s| - 1]);
      InsertKeepsSorted(front, r);
      SortedSnoc(Insert(front, r), s[|s| - 1]);
    }
  }

  lemma {:induction false} RowsAtSnoc(s: seq<Row>, r: Row, t: int)
    ensures RowsAt(s + [r], t) == if r.at == t then RowsAt(s, t) + [r] else RowsAt(s, t)
  {
  }

  lemma {:induction false} NoRowsAbove(s: seq<Row>, t: int)
    requires Sorted(s) && (s == [] || s[|s| - 1].at < t)
    ensures RowsAt(s, t) == []
  {
    if s != [] {
      NoRowsAbove(s[..|s| - 1], t);
    }
  }

  lemma {:induction false} InsertIsStable(s: seq<Row>, r: Row, t: int)
    requires Sorted(s)
    ensures RowsAt(Insert(s, r), t) == if r.at == t then RowsAt(s, t) + [r] else RowsAt(s, t)
  {
    if s == [] || s[|s| - 1].at <= r.at {
      RowsAtSnoc(s, r, t);
    } else {
      var front, last := s[..|s| - 1], s[|s| - 1];
      assert s == front + [last];
      InsertIsStable(front, r, t);
      RowsAtSnoc(front, last, t);
      RowsAtSnoc(Insert(front, r), last, t);
    }
  }

  lemma {:induction false} StableSortIsStable(s: seq<Row>)
    ensures IsStableSort(s, StableSort(s))
  {
    if s != [] {
      var front, last := s[..|s| - 1], s[|s| - 1];
      StableSortIsStable(front);
      InsertKeepsSorted(StableSort(front), last);
      assert s == front + [last];
      forall t: int ensures RowsAt(StableSort(s), t) == RowsAt(s, t) {
        InsertIsStable(StableSort(front), last, t);
        RowsAtSnoc(front, last, t);
      }
    }
  }

  /** The last row of a sorted sequence is the last of the rows at the greatest time. */
  lemma LastRowAt(s: seq<Row>)
    requires s != []
    ensures var last := s[|s| - 1];
      RowsAt(s, last.at) != [] && RowsAt(s, last.at)[|RowsAt(s, last.at)| - 1] == last
  {
  }

  /** A sequence has only one stable sort. */
  lemma {:induction false} StableSortIsUnique(b1: seq<Row>, b2: seq<Row>)
    requires Sorted(b1) && Sorted(b2) && forall t: int :: RowsAt(b1, t) == RowsAt(b2, t)
    ensures b1 == b2
    decreases |b1|
  {
    if b1 == [] || b2 == [] {
      EmptyIfNoRows(b1, b2);
    } else {
      var l1, l2 := b1[|b1| - 1], b2[|b2| - 1];
      LastRowAt(b1);
      LastRowAt(b2);
      if l1.at < l2.at {
        NoRowsAbove(b1, l2.at);
      } else if l2.at < l1.at {
        NoRowsAbove(b2, l1.at);
      }
      var f1, f2 := b1[..|b1| - 1], b2[..|b2| - 1];
      assert b1 == f1 + [l1] && b2 == f2 + [l2];
      forall t: int ensures RowsAt(f1, t) == RowsAt(f2, t) {
        RowsAtSnoc(f1, l1, t);
        RowsAtSnoc(f2, l2, t);
        assert RowsAt(b1, t) == RowsAt(b2, t);
        if l1.at == t {
          assert RowsAt(f1, t) == RowsAt(b1, t)[..|RowsAt(b1, t)| - 1];
          assert RowsAt(f2, t) == RowsAt(b2, t)[..|RowsAt(b2, t)| - 1];
        }
      }
      StableSortIsUnique(f1, f2);
    }
  }

  lemma EmptyIfNoRows(b1: seq<Row>, b2: seq<Row>)
    requires b1 == [] || b2 == []
    requires forall t: int :: RowsAt(b1, t) == RowsAt(b2, t)
    ensures b1 == b2
  {
    if b1 != [] {
      LastRowAt(b1);
    }
    if b2 != [] {
      LastRowAt(b2);
    }
  }

  lemma {:induction false} CountAtTime(s: seq<Row>, r: Row)
    ensures multiset(s)[r] == multiset(RowsAt(s, r.at))[r]
  {
    if s != [] {
      assert s == s[..|s| - 1] + [s[|s| - 1]];
      CountAtTime(s[..|s| - 1], r);
    }
  }

  /** A stable sort permutes its input. */
  lemma StableSortPermutes(a: seq<Row>, b: seq<Row>)
    requires IsStableSort(a, b)
    ensures multiset(a) == multiset(b)
  {
    forall r: Row ensures multiset(a)[r] == multiset(b)[r] {
      CountAtTime(a, r);
      CountAtTime(b, r);
      assert RowsAt(b, r.at) == RowsAt(a, r.at);
    }
  }
}
