/** The bounded retry of one transaction: when it succeeds, and why it never commits twice. */
module UnitOfWork {
  const DEADLOCK_MAX_RETRIES: nat := 5

  /**
    How one attempt ends. A commit that reports an error may still have been applied, except that a
    transaction chosen as a deadlock victim has been rolled back.
   */
  datatype Ending =
    | BeginFailed
    | ExecutionFailed(deadlock: bool)
    | CommitFailed(deadlock: bool, applied: bool)
    | Committed

  predicate IsDeadlock(e: Ending) {
    (e.ExecutionFailed? || e.CommitFailed?) && e.deadlock
  }

  predicate Applied(e: Ending) {
    e.Committed? || (e.CommitFailed? && e.applied)
  }

  ghost predicate VictimsAreRolledBack(endings: nat -> Ending) {
    forall k: nat :: IsDeadlock(endings(k)) ==> !Applied(endings(k))
  }

  /** Attempt k is made: every one before it was a deadlock, and the context outlived each wait. */
  ghost predicate Attempted(endings: nat -> Ending, canceled: nat -> bool, k: nat) {
    k < 5 && forall j: nat :: j < k ==> IsDeadlock(endings(j)) && !canceled(j)
  }

  /** The number of attempts before n whose transaction took effect. */
  function Effects(endings: nat -> Ending, n: nat): nat {
    if n == 0 then 0 else Effects(endings, n - 1) + if Applied(endings(n - 1)) then 1 else 0
  }

  /** `canceled(k)`: the context is done by the end of attempt k or of the wait after it. */
  method Run(endings: nat -> Ending, canceled: nat -> bool) returns (ok: bool, attempts: nat)
    requires VictimsAreRolledBack(endings)
    ensures 1 <= attempts <= 5
    ensures forall k: nat :: k < attempts <==> Attempted(endings, canceled, k)
    ensures ok <==> exists k: nat :: Attempted(endings, canceled, k) && endings(k).Committed?
    ensures Effects(endings, attempts) <= 1
    ensures ok ==> Effects(endings, attempts) == 1
  {
    attempts := 0;
    while attempts < DEADLOCK_MAX_RETRIES
      invariant attempts < DEADLOCK_MAX_RETRIES
      invariant Attempted(endings, canceled, attempts)
      invariant Effects(endings, attempts) == 0
    {
      var k := attempts;
      attempts := attempts + 1;
      if endings(k).Committed? {
        return true, attempts;
      }
      if canceled(k) || !IsDeadlock(endings(k)) {
        return false, attempts;
      }
      if attempts == DEADLOCK_MAX_RETRIES {
        break;
      }
    }
    ok := false;
  }
}
