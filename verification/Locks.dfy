/**
  Concurrent saves as lock-taking transactions: each takes exclusive row locks in the order of its plan
  and holds them to the end. Plans that ascend cannot wait for one another in a circle.
 */
module Locks {
  import opened Sorting

  /** A row of a unique index: the rank of its table in a save, and its key. */
  datatype Lock = Lock(table: nat, name: string)

  predicate Before(a: Lock, b: Lock) {
    a.table < b.table || (a.table == b.table && Less(a.name, b.name))
  }

  lemma BeforeIsTransitive(a: Lock, b: Lock, c: Lock)
    requires Before(a, b) && Before(b, c)
    ensures Before(a, c)
  {
    if a.table == b.table == c.table {
      LessIsTransitive(a.name, b.name, c.name);
    }
  }

  lemma BeforeIsStrict(a: Lock)
    ensures !Before(a, a)
  {
    LessIsTotal(a.name, a.name);
  }

  ghost predicate Ascends(plan: seq<Lock>) {
    forall i, j :: 0 <= i < j < |plan| ==> Before(plan[i], plan[j])
  }

  /** A transaction in progress: it holds the first `taken` locks of its plan, until it is done. */
  datatype Save = Save(plan: seq<Lock>, taken: nat, done: bool)

  ghost predicate Wellformed(ts: seq<Save>) {
    forall i :: 0 <= i < |ts| ==> ts[i].taken <= |ts[i].plan|
  }

  predicate Holds(t: Save, l: Lock) {
    !t.done && t.taken <= |t.plan| && l in t.plan[..t.taken]
  }

  /** No row is locked by two transactions. */
  ghost predicate Exclusive(ts: seq<Save>) {
    forall i, j, l :: 0 <= i < |ts| && 0 <= j < |ts| && Holds(ts[i], l) && Holds(ts[j], l) ==> i == j
  }

  predicate Waiting(t: Save) {
    !t.done && t.taken < |t.plan|
  }

  ghost predicate Free(ts: seq<Save>, l: Lock) {
    forall j :: 0 <= j < |ts| ==> !Holds(ts[j], l)
  }

  /** Transaction i can commit, or take its next lock. */
  ghost predicate CanStep(ts: seq<Save>, i: nat)
    requires i < |ts|
  {
    && !ts[i].done && ts[i].taken <= |ts[i].plan|
    && (Waiting(ts[i]) ==> Free(ts, ts[i].plan[ts[i].taken]))
  }

  /** One move of the scheduler: transaction i goes on, or fails and is rolled back, which drops its locks. */
  datatype Move = Move(i: nat, abort: bool)

  ghost predicate CanMove(ts: seq<Save>, m: Move) {
    m.i < |ts| && !ts[m.i].done && (m.abort || CanStep(ts, m.i))
  }

  function Moved(ts: seq<Save>, m: Move): seq<Save>
    requires m.i < |ts|
  {
    if m.abort then ts[m.i := ts[m.i].(done := true)] else Step(ts, m.i)
  }

  function Step(ts: seq<Save>, i: nat): seq<Save>
    requires i < |ts|
  {
    if Waiting(ts[i]) then ts[i := ts[i].(taken := ts[i].taken + 1)] else ts[i := ts[i].(done := true)]
  }

  lemma MoveKeepsExclusive(ts: seq<Save>, m: Move)
    requires Wellformed(ts) && Exclusive(ts) && CanMove(ts, m)
    ensures Wellformed(Moved(ts, m)) && Exclusive(Moved(ts, m))
  {
  }

  /** Transaction i waits for a row that j holds. */
  predicate WaitsFor(ts: seq<Save>, i: nat, j: nat) {
    i < |ts| && j < |ts| && Waiting(ts[i]) && Holds(ts[j], ts[i].plan[ts[i].taken])
  }

  ghost predicate WaitChain(ts: seq<Save>, chain: seq<nat>) {
    forall k :: 1 <= k < |chain| ==> WaitsFor(ts, chain[k - 1], chain[k])
  }

  /** Both transactions wait, i for an earlier row than j. */
  predicate WaitsEarlier(ts: seq<Save>, i: nat, j: nat) {
    && i < |ts| && Waiting(ts[i]) && j < |ts| && Waiting(ts[j])
    && Before(ts[i].plan[ts[i].taken], ts[j].plan[ts[j].taken])
  }

  lemma WaitsAscend(ts: seq<Save>, i: nat, j: nat)
    requires WaitsFor(ts, i, j) && Waiting(ts[j]) && Ascends(ts[j].plan)
    ensures WaitsEarlier(ts, i, j)
  {
  }

  /** In a chain of waits the locks waited for ascend. */
  lemma {:induction false} ChainAscends(ts: seq<Save>, chain: seq<nat>)
    requires |chain| >= 2 && WaitChain(ts, chain)
    requires chain[|chain| - 1] < |ts| && Waiting(ts[chain[|chain| - 1]])
    requires forall i :: 0 <= i < |ts| ==> Ascends(ts[i].plan)
    ensures WaitsEarlier(ts, chain[0], chain[|chain| - 1])
  {
    hide Ascends, Before;
    var last := |chain| - 1;
    WaitsAscend(ts, chain[last - 1], chain[last]);
    if last > 1 {
      ChainAscends(ts, chain[..last]);
      var i, j, k := chain[0], chain[last - 1], chain[last];
      BeforeIsTransitive(ts[i].plan[ts[i].taken], ts[j].plan[ts[j].taken], ts[k].plan[ts[k].taken]);
    }
  }

  /** No cyclic wait: a chain of waits never comes back to where it started. */
  lemma NoCyclicWait(ts: seq<Save>, chain: seq<nat>)
    requires |chain| >= 2 && WaitChain(ts, chain)
    requires forall i :: 0 <= i < |ts| ==> Ascends(ts[i].plan)
    ensures chain[0] != chain[|chain| - 1]
  {
    if chain[0] == chain[|chain| - 1] {
      assert WaitsFor(ts, chain[0], chain[1]);
      ChainAscends(ts, chain);
      BeforeIsStrict(ts[chain[0]].plan[ts[chain[0]].taken]);
    }
  }

  /** Among the waiting transactions, one whose awaited lock comes before no other awaited lock. */
  lemma {:induction false} LastWaiting(ts: seq<Save>, n: nat) returns (i: nat)
    requires n <= |ts| && exists j :: 0 <= j < n && Waiting(ts[j])
    ensures i < n && Waiting(ts[i])
    ensures forall j :: 0 <= j < n && Waiting(ts[j]) ==>
      !Before(ts[i].plan[ts[i].taken], ts[j].plan[ts[j].taken])
  {
    var last := n - 1;
    if exists j :: 0 <= j < last && Waiting(ts[j]) {
      i := LastWaiting(ts, last);
      if Waiting(ts[last]) && Before(ts[i].plan[ts[i].taken], ts[last].plan[ts[last].taken]) {
        forall j | 0 <= j < n && Waiting(ts[j])
          ensures !Before(ts[last].plan[ts[last].taken], ts[j].plan[ts[j].taken])
        {
          BeforeIsStrict(ts[last].plan[ts[last].taken]);
          if Before(ts[last].plan[ts[last].taken], ts[j].plan[ts[j].taken]) {
            BeforeIsTransitive(ts[i].plan[ts[i].taken], ts[last].plan[ts[last].taken], ts[j].plan[ts[j].taken]);
          }
        }
        i := last;
      }
    } else {
      i := last;
      BeforeIsStrict(ts[last].plan[ts[last].taken]);
    }
  }

  /** Some transaction can always step while one is unfinished. */
  lemma SomeSaveCanStep(ts: seq<Save>) returns (i: nat)
    requires Wellformed(ts) && forall j :: 0 <= j < |ts| ==> Ascends(ts[j].plan)
    requires exists j :: 0 <= j < |ts| && !ts[j].done
    ensures i < |ts| && CanStep(ts, i)
  {
    hide Ascends, Before;
    if exists j :: 0 <= j < |ts| && !ts[j].done && !Waiting(ts[j]) {
      i :| 0 <= i < |ts| && !ts[i].done && !Waiting(ts[i]);
    } else {
      i := LastWaiting(ts, |ts|);
      var l := ts[i].plan[ts[i].taken];
      forall j | 0 <= j < |ts| ensures !Holds(ts[j], l) {
        if Holds(ts[j], l) {
          WaitsAscend(ts, i, j);
        }
      }
    }
  }

  // ---- Every run ends ----

  function StepsLeft(t: Save): nat {
    if t.done then 0 else 1 + if t.taken <= |t.plan| then |t.plan| - t.taken else 0
  }

  function AllStepsLeft(ts: seq<Save>): nat {
    if ts == [] then 0 else AllStepsLeft(ts[..|ts| - 1]) + StepsLeft(ts[|ts| - 1])
  }

  lemma {:induction false} MoveTakesWorkOff(ts: seq<Save>, m: Move)
    requires m.i < |ts| && Wellformed(ts) && !ts[m.i].done
    ensures AllStepsLeft(Moved(ts, m)) < AllStepsLeft(ts)
  {
    var front, last := ts[..|ts| - 1], ts[|ts| - 1];
    if m.i < |ts| - 1 {
      MoveTakesWorkOff(front, m);
      assert Moved(ts, m)[..|ts| - 1] == Moved(front, m);
    } else {
      assert Moved(ts, m)[..|ts| - 1] == front;
    }
  }

  ghost predicate Runs(ts: seq<Save>, schedule: seq<Move>)
    decreases |schedule|
  {
    schedule == [] || (CanMove(ts, schedule[0]) && Runs(Moved(ts, schedule[0]), schedule[1..]))
  }

  ghost function After(ts: seq<Save>, schedule: seq<Move>): seq<Save>
    requires Runs(ts, schedule)
    decreases |schedule|
  {
    if schedule == [] then ts else After(Moved(ts, schedule[0]), schedule[1..])
  }

  /** Saves with ascending plans, at any point of their progress. */
  ghost predicate Ordered(ts: seq<Save>) {
    (forall i :: 0 <= i < |ts| ==> Ascends(ts[i].plan)) && Wellformed(ts) && Exclusive(ts)
  }

  /**
    However the saves are scheduled, and whichever of them fail, rows stay exclusively locked, the run
    has at most `AllStepsLeft` moves, and until every save is done one of them can go on.
   */
  lemma {:induction false} SavesNeverDeadlock(ts: seq<Save>, schedule: seq<Move>)
    requires Ordered(ts) && Runs(ts, schedule)
    ensures var us := After(ts, schedule);
      && Exclusive(us) && |us| == |ts|
      && |schedule| + AllStepsLeft(us) <= AllStepsLeft(ts)
      && ((exists i :: 0 <= i < |us| && CanStep(us, i)) <==> (exists i :: 0 <= i < |us| && !us[i].done))
    decreases |schedule|
  {
    hide AllStepsLeft, Exclusive, Ascends, Holds;
    if schedule == [] {
      if exists i :: 0 <= i < |ts| && !ts[i].done {
        var i := SomeSaveCanStep(ts);
      }
    } else {
      MoveKeepsExclusive(ts, schedule[0]);
      MoveTakesWorkOff(ts, schedule[0]);
      SavesNeverDeadlock(Moved(ts, schedule[0]), schedule[1..]);
    }
  }

  /** Without the order it can happen: two saves that take the same two rows the other way around. */
  lemma UnorderedSavesCanDeadlock(a: Lock, b: Lock) returns (stuck: seq<Save>)
    requires a != b
    ensures var ts, schedule :=
        [Save([a, b], 0, false), Save([b, a], 0, false)], [Move(0, false), Move(1, false)];
      Exclusive(ts) && Runs(ts, schedule) && After(ts, schedule) == stuck
    ensures !stuck[0].done && !stuck[1].done && !CanStep(stuck, 0) && !CanStep(stuck, 1)
    ensures WaitsFor(stuck, 0, 1) && WaitsFor(stuck, 1, 0)
  {
    var ts := [Save([a, b], 0, false), Save([b, a], 0, false)];
    var m0, m1 := Move(0, false), Move(1, false);
    var one := Moved(ts, m0);
    assert one == [Save([a, b], 1, false), Save([b, a], 0, false)];
    stuck := Moved(one, m1);
    assert stuck == [Save([a, b], 1, false), Save([b, a], 1, false)];
    assert stuck[0].plan[..1] == [a] && stuck[1].plan[..1] == [b];
    assert Holds(stuck[1], b) && Holds(stuck[0], a);
    assert [m0, m1][1..] == [m1] && [m1][1..] == [];
    assert Runs(stuck, []);
    assert Runs(one, [m1]);
  }
}
