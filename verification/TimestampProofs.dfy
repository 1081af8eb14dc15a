/** `ensureMonotonic` is optimal: strictly increasing, no later than it has to be, and nothing else changes. */
module TimestampProofs {
  import opened Alerts
  import opened Timestamps

  /** Lines and metadata stay where the sort put them; times only grow, each past the one before. */
  lemma NudgedOnlyMovesTimeForward(s: seq<Row>)
    ensures forall i :: 0 <= i < |s| ==>
      Nudged(s)[i].line == s[i].line && Nudged(s)[i].meta == s[i].meta && Nudged(s)[i].at >= s[i].at
    ensures forall i :: 0 < i < |s| ==> Nudged(s)[i - 1].at < Nudged(s)[i].at
  {
    forall i | 0 <= i < |s|
      ensures Nudged(s)[i].line == s[i].line && Nudged(s)[i].meta == s[i].meta && Nudged(s)[i].at >= s[i].at
      ensures i > 0 ==> Nudged(s)[i - 1].at < Nudged(s)[i].at
    {
      NudgedAt(s, i);
    }
  }

  lemma {:induction false} StepsIncrease(s: seq<Row>, i: nat, j: nat)
    requires forall k :: 0 < k < |s| ==> s[k - 1].at < s[k].at
    requires i < j < |s|
    ensures s[i].at < s[j].at
    decreases j
  {
    if i < j - 1 {
      StepsIncrease(s, i, j - 1);
    }
  }

  lemma NudgedIncreases(s: seq<Row>)
    ensures Increasing(Nudged(s))
  {
  }

  /** No strictly increasing times at or above those of `s` are anywhere below the nudged ones. */
  lemma {:induction false} NudgedIsLeast(s: seq<Row>, t: seq<int>, i: nat)
    requires |t| == |s| && i < |s|
    requires forall k :: 0 <= k < |s| ==> t[k] >= s[k].at
    requires forall k :: 0 < k < |s| ==> t[k - 1] < t[k]
    ensures Nudged(s)[i].at <= t[i]
  {
    NudgedAt(s, i);
    if i > 0 {
      NudgedIsLeast(s, t, i - 1);
      assert t[i - 1] < t[i];
    }
  }

  /** In closed form: the greatest of s[j] + (i - j) over all j up to i. */
  lemma {:induction false} NudgedIsMaximum(s: seq<Row>, i: nat) returns (reached: nat)
    requires i < |s|
    ensures reached <= i && Nudged(s)[i].at == s[reached].at + (i - reached)
    ensures forall j :: 0 <= j <= i ==> s[j].at + (i - j) <= Nudged(s)[i].at
  {
    NudgedAt(s, i);
    if i == 0 {
      reached := 0;
    } else {
      reached := NudgedIsMaximum(s, i - 1);
      if s[i].at > Nudged(s)[i - 1].at {
        reached := i;
      }
      forall j | 0 <= j <= i ensures s[j].at + (i - j) <= Nudged(s)[i].at {
        if j < i {
          assert s[j].at + (i - 1 - j) <= Nudged(s)[i - 1].at;
        }
      }
    }
  }

  // ---- Drift ----

  /** The number of positions up to `i` whose time equals the one before. */
  function EqualPairs(s: seq<Row>, i: nat): nat
    requires i < |s|
  {
    if i == 0 then 0 else EqualPairs(s, i - 1) + if s[i - 1].at == s[i].at then 1 else 0
  }

  /** In a sorted stream no entry drifts by more than one nanosecond per collision before it. */
  lemma {:induction false} DriftIsBounded(s: seq<Row>, i: nat)
    requires Sorted(s) && i < |s|
    ensures Nudged(s)[i].at - s[i].at <= EqualPairs(s, i)
  {
    NudgedAt(s, i);
    if i > 0 {
      DriftIsBounded(s, i - 1);
      assert s[i - 1].at <= s[i].at;
    }
  }

  lemma {:induction false} IncreasingIsNotNudged(s: seq<Row>)
    requires Increasing(s)
    ensures Nudged(s) == s
  {
    if s != [] {
      IncreasingIsNotNudged(s[..|s| - 1]);
      assert s == s[..|s| - 1] + [s[|s| - 1]];
      assert |s| > 1 ==> s[|s| - 2].at < s[|s| - 1].at;
    }
  }

  lemma SortedIsItsOwnSort(s: seq<Row>)
    requires Sorted(s)
    ensures StableSort(s) == s
  {
  }

  /** Already increasing streams pass through unchanged; in particular a second pass changes nothing. */
  lemma IncreasingIsFixed(s: seq<Row>)
    requires Increasing(s)
    ensures Monotonic(s) == s
  {
    SortedIsItsOwnSort(s);
    IncreasingIsNotNudged(s);
  }

  lemma MonotonicIsIdempotent(s: seq<Row>)
    ensures Monotonic(Monotonic(s)) == Monotonic(s)
  {
    NudgedIncreases(StableSort(s));
    IncreasingIsFixed(Monotonic(s));
  }

  // ---- The whole function ----

  ghost predicate Distinct(s: seq<Row>) {
    forall i, j :: 0 <= i < j < |s| ==> s[i].at != s[j].at
  }

  /** Each time occurs at most once. */
  lemma {:induction false} DistinctMeansOneEach(s: seq<Row>, t: int)
    requires Distinct(s)
    ensures |RowsAt(s, t)| <= 1
  {
    if s != [] {
      var front, last := s[..|s| - 1], s[|s| - 1];
      DistinctMeansOneEach(front, t);
      if last.at == t {
        NoRowsIfNone(front, t);
      }
    }
  }

  lemma {:induction false} NoRowsIfNone(s: seq<Row>, t: int)
    requires forall i :: 0 <= i < |s| ==> s[i].at != t
    ensures RowsAt(s, t) == []
  {
    if s != [] {
      NoRowsIfNone(s[..|s| - 1], t);
    }
  }

  lemma {:induction false} TwoAtOneTime(s: seq<Row>, i: nat, j: nat)
    requires i < j < |s| && s[i].at == s[j].at
    ensures |RowsAt(s, s[i].at)| >= 2
  {
    var front := s[..|s| - 1];
    if j < |s| - 1 {
      TwoAtOneTime(front, i, j);
    } else {
      SomeRowAt(front, i);
    }
  }

  lemma {:induction false} SomeRowAt(s: seq<Row>, i: nat)
    requires i < |s|
    ensures RowsAt(s, s[i].at) != []
  {
    if i < |s| - 1 {
      SomeRowAt(s[..|s| - 1], i);
    }
  }

  lemma SortKeepsDistinct(a: seq<Row>, b: seq<Row>)
    requires forall t: int :: RowsAt(b, t) == RowsAt(a, t)
    requires Distinct(a)
    ensures Distinct(b)
  {
    forall i, j | 0 <= i < j < |b| ensures b[i].at != b[j].at {
      DistinctMeansOneEach(a, b[i].at);
      assert RowsAt(b, b[i].at) == RowsAt(a, b[i].at);
      if b[i].at == b[j].at {
        TwoAtOneTime(b, i, j);
      }
    }
  }

  lemma {:induction false} NudgeFreeIsIncreasing(s: seq<Row>)
    requires Nudged(s) == s
    ensures Increasing(s)
  {
    NudgedIncreases(s);
  }

  /** No row is shifted if and only if all timestamps were different to begin with. */
  lemma ShiftsOnlyCollisions(s: seq<Row>)
    ensures Monotonic(s) == StableSort(s) <==> Distinct(s)
  {
    var sorted := StableSort(s);
    StableSortIsStable(s);
    if Distinct(s) {
      SortKeepsDistinct(s, sorted);
      IncreasingIsNotNudged(sorted);
    } else if Nudged(sorted) == sorted {
      NudgeFreeIsIncreasing(sorted);
      assert Distinct(sorted);
      SortKeepsDistinct(sorted, s);
    }
  }

  /** The rows of a stream without their times. */
  function Untimed(s: seq<Row>): (u: seq<(string, Labels)>)
    ensures |u| == |s|
    ensures forall i :: 0 <= i < |s| ==> u[i] == (s[i].line, s[i].meta)
  {
    seq(|s|, i requires 0 <= i < |s| => (s[i].line, s[i].meta))
  }

  /**
    `ensureMonotonic` as a whole: its lines and metadata are those of the one stable sort of its input,
    its times increase strictly, and they are the least that do so without moving any entry back.
   */
  lemma EnsureMonotonicIsOptimal(s: seq<Row>, sorted: seq<Row>)
    requires IsStableSort(s, sorted)
    ensures var out := Monotonic(s);
      && Untimed(out) == Untimed(sorted) && Increasing(out)
      && (forall i :: 0 <= i < |out| ==> sorted[i].at <= out[i].at)
      && (forall t: seq<int> :: IncreasesAbove(sorted, t) ==> forall i :: 0 <= i < |out| ==> out[i].at <= t[i])
  {
    hide Nudged, StableSort, RowsAt;
    var out := Monotonic(s);
    StableSortIsStable(s);
    StableSortIsUnique(StableSort(s), sorted);
    NudgedOnlyMovesTimeForward(sorted);
    NudgedIncreases(sorted);
    forall t: seq<int>, i | IncreasesAbove(sorted, t) && 0 <= i < |out| ensures out[i].at <= t[i] {
      NudgedIsLeast(sorted, t, i);
    }
  }

  ghost predicate IncreasesAbove(s: seq<Row>, t: seq<int>) {
    && |t| == |s|
    && (forall k :: 0 <= k < |s| ==> t[k] >= s[k].at)
    && (forall k :: 0 < k < |s| ==> t[k - 1] < t[k])
  }

  function UntimedRow(r: Row): (string, Labels) {
    (r.line, r.meta)
  }

  lemma UntimedSnoc(s: seq<Row>, r: Row)
    ensures multiset(Untimed(s + [r])) == multiset(Untimed(s)) + multiset{UntimedRow(r)}
  {
    assert Untimed(s + [r]) == Untimed(s) + [UntimedRow(r)];
  }

  lemma {:induction false} InsertConserves(s: seq<Row>, r: Row)
    ensures multiset(Untimed(Insert(s, r))) == multiset(Untimed(s)) + multiset{UntimedRow(r)}
  {
    if s == [] || s[|s| - 1].at <= r.at {
      UntimedSnoc(s, r);
    } else {
      var front, last := s[..|s| - 1], s[|s| - 1];
      assert s == front + [last];
      InsertConserves(front, r);
      UntimedSnoc(front, last);
      UntimedSnoc(Insert(front, r), last);
    }
  }

  lemma {:induction false} SortConserves(s: seq<Row>)
    ensures multiset(Untimed(StableSort(s))) == multiset(Untimed(s))
  {
    if s != [] {
      var front, last := s[..|s| - 1], s[|s| - 1];
      assert s == front + [last];
      SortConserves(front);
      InsertConserves(StableSort(front), last);
      UntimedSnoc(front, last);
    }
  }

  /** No entry is lost or invented: lines and metadata are conserved, with multiplicity. */
  lemma MonotonicConserves(s: seq<Row>)
    ensures multiset(Untimed(Monotonic(s))) == multiset(Untimed(s)) && |Monotonic(s)| == |s|
  {
    var sorted := StableSort(s);
    SortConserves(s);
    StableSortKeepsLength(s);
    NudgedOnlyMovesTimeForward(sorted);
    assert Untimed(Monotonic(s)) == Untimed(sorted);
  }
}
