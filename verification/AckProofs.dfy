/** Acknowledgements commute: only the set of numbers acknowledged matters, not order, batching or repeats. */
module AckProofs {
  import opened Basics
  import opened WalSpec

  /** `m` ends the longest run of consecutive numbers of `s` that starts right above `checkpoint`. */
  ghost predicate EndsRun(checkpoint: u64, s: set<u64>, m: u64) {
    && checkpoint <= m
    && (forall n: u64 :: checkpoint < n <= m ==> n in s)
    && (m + 1 < TWO_TO_64 ==> m + 1 !in s)
  }

  lemma {:induction false} RunEndIsLongest(checkpoint: u64, s: set<u64>)
    ensures EndsRun(checkpoint, s, RunEnd(checkpoint, s))
    decreases TWO_TO_64 - checkpoint
  {
    if checkpoint + 1 < TWO_TO_64 && checkpoint + 1 in s {
      RunEndIsLongest(checkpoint + 1, s);
    }
  }

  /** The numbers a view accounts for: acknowledged, or at or below the checkpoint. */
  predicate Covers(v: AckView, n: u64) {
    n <= v.checkpoint || n in v.acked
  }

  /** Above the opening checkpoint `base`, exactly the numbers of `s` are accounted for, in normal form. */
  ghost predicate Accounts(base: u64, s: set<u64>, v: AckView) {
    && EndsRun(base, s, v.checkpoint)
    && v.acked == NumbersAbove(s, v.checkpoint)
  }

  lemma AccountsAtOpen(base: u64)
    ensures Accounts(base, {}, AckView(base, {}))
  {
  }

  /** One `ack` call adds its numbers to the account, whatever came before. */
  lemma AckAddsToAccount(base: u64, s: set<u64>, v: AckView, more: set<u64>)
    requires Accounts(base, s, v)
    ensures Accounts(base, s + more, Acked(v, more))
  {
    var all := v.acked + NumbersAbove(more, v.checkpoint);
    var end := RunEnd(v.checkpoint, all);
    RunEndIsLongest(v.checkpoint, all);
    forall n: u64 | base < n <= end ensures n in s + more {
      assert n > v.checkpoint ==> n in all;
    }
    assert NumbersAbove(all, end) == NumbersAbove(s + more, end);
  }

  lemma AccountIsUnique(base: u64, s: set<u64>, v1: AckView, v2: AckView)
    requires Accounts(base, s, v1) && Accounts(base, s, v2)
    ensures v1 == v2
  {
  }

  // ---- Whole sequences of calls ----

  function Union(calls: seq<set<u64>>): set<u64> {
    if calls == [] then {} else Union(calls[..|calls| - 1]) + calls[|calls| - 1]
  }

  /** The view after the given `ack` calls since the log was opened at checkpoint `base`. */
  function AfterAcks(base: u64, calls: seq<set<u64>>): AckView {
    if calls == [] then AckView(base, {})
    else Acked(AfterAcks(base, calls[..|calls| - 1]), calls[|calls| - 1])
  }

  /** The checkpoint is the end of the longest run inside the union of all calls; the rest is kept above it. */
  lemma {:induction false} AcksKeepTheAccount(base: u64, calls: seq<set<u64>>)
    ensures Accounts(base, Union(calls), AfterAcks(base, calls))
  {
    if calls == [] {
      AccountsAtOpen(base);
    } else {
      var before := calls[..|calls| - 1];
      AcksKeepTheAccount(base, before);
      AckAddsToAccount(base, Union(before), AfterAcks(base, before), calls[|calls| - 1]);
    }
  }

  /** Two histories that acknowledged the same numbers end in the same state. */
  lemma AcksCommute(base: u64, calls1: seq<set<u64>>, calls2: seq<set<u64>>)
    requires Union(calls1) == Union(calls2)
    ensures AfterAcks(base, calls1) == AfterAcks(base, calls2)
  {
    AcksKeepTheAccount(base, calls1);
    AcksKeepTheAccount(base, calls2);
    AccountIsUnique(base, Union(calls1), AfterAcks(base, calls1), AfterAcks(base, calls2));
  }

  /** What is acknowledged stays acknowledged, and nothing else becomes so. */
  lemma AckCoversExactly(v: AckView, more: set<u64>, n: u64)
    ensures Covers(Acked(v, more), n) <==> Covers(v, n) || n in more
  {
    var all := v.acked + NumbersAbove(more, v.checkpoint);
    RunEndIsLongest(v.checkpoint, all);
    assert n in all <==> n in v.acked || (n in more && n > v.checkpoint);
    assert v.checkpoint < n <= Acked(v, more).checkpoint ==> n in all;
  }
}
