/** Delivery with bounded retries, and why "saved" in the metrics means that Loki took the payload. */
module Delivery {
  import opened Pipeline
  import opened PipelineProofs

  /** How the world answers attempt k: the wait before it, the push itself, and the context after it. */
  datatype Answer = Answer(canceledWaiting: bool, accepted: bool, canceledAfter: bool)

  /** Attempt k is reached and made: all earlier ones failed and nothing was canceled on the way. */
  ghost predicate Reached(answers: nat -> Answer, k: nat) {
    && (forall j: nat :: j < k ==> !answers(j).accepted && !answers(j).canceledAfter)
    && (forall j: nat :: 0 < j <= k ==> !answers(j).canceledWaiting)
  }

  /** Some attempt within the limit is reached and accepted. */
  ghost predicate SomePushAccepted(answers: nat -> Answer, maxRetries: int) {
    exists k: nat :: k <= maxRetries && Reached(answers, k) && answers(k).accepted
  }

  /** The retry loop: it reports success when a push was accepted, and when it was not allowed to try. */
  method Deliver(streams: nat, maxRetries: int, answers: nat -> Answer) returns (ok: bool, pushes: nat)
    ensures ok <==> streams == 0 || maxRetries < 0 || SomePushAccepted(answers, maxRetries)
    ensures pushes > 0 <==> streams > 0 && maxRetries >= 0
    ensures pushes <= maxRetries + 1 || pushes == 0
    ensures pushes > 0 ==> Reached(answers, pushes - 1) && (ok <==> answers(pushes - 1).accepted)
  {
    pushes := 0;
    if streams == 0 {
      return true, 0;
    }
    var failed := false;
    var attempt: nat := 0;
    while attempt <= maxRetries
      invariant pushes == attempt && (maxRetries >= 0 ==> attempt <= maxRetries + 1)
      invariant maxRetries < 0 ==> attempt == 0
      invariant attempt > 0 ==> Reached(answers, attempt - 1)
      invariant forall j: nat :: j < attempt ==> !answers(j).accepted && !answers(j).canceledAfter
      invariant failed <==> attempt > 0
      decreases maxRetries + 1 - attempt
    {
      if attempt > 0 && answers(attempt).canceledWaiting {
        assert forall k: nat :: k >= attempt ==> !Reached(answers, k);
        return false, pushes;
      }
      pushes := pushes + 1;
      if answers(attempt).accepted {
        return true, pushes;
      }
      if answers(attempt).canceledAfter {
        assert forall k: nat :: k > attempt ==> !Reached(answers, k);
        return false, pushes;
      }
      failed := true;
      attempt := attempt + 1;
    }
    ok := !failed;
  }

  // ---- A producer in `enqueue` ----

  /** While it waits it can be canceled; it is let in exactly when there is room, and turned away otherwise. */
  lemma ProducerHasItsWay(cfg: Config, p: Pipe, i: nat)
    requires i < |p.waiting|
    ensures Enabled(cfg, p, Cancel(i))
    ensures Enabled(cfg, p, Admit(i)) <==> |p.queue| < 1000 || |p.queue| < 10 * cfg.size
    ensures Enabled(cfg, p, DropFull(i)) <==> !Enabled(cfg, p, Admit(i))
  {
  }

  lemma LeavesNothingBehind(cfg: Config, p: Pipe, e: Event)
    requires Enabled(cfg, p, e) && !e.Cancel? && !e.Stop? && !p.stopping
    ensures Step(cfg, p, e).abandoned == p.abandoned && !Step(cfg, p, e).stopping
  {
    hide Account, Matching, QueueCapacity;
  }

  /** Until the stop, nothing is left in the log unless its producer was canceled: the replay gives up nothing. */
  lemma {:induction false} NothingIsLeftBehind(cfg: Config, p: Pipe, es: seq<Event>)
    requires !p.stopping && Runs(cfg, p, es)
    requires forall k :: 0 <= k < |es| ==> !es[k].Cancel? && !es[k].Stop?
    ensures After(cfg, p, es).abandoned == p.abandoned
    decreases |es|
  {
    hide Step, Enabled;
    if es != [] {
      LeavesNothingBehind(cfg, p, es[0]);
      NothingIsLeftBehind(cfg, Step(cfg, p, es[0]), es[1..]);
    }
  }

  // ---- Saved means pushed ----

  /** For every item, as many "delivered" outcomes as times it was in an accepted payload. */
  ghost predicate SavedArePushed(p: Pipe) {
    forall x: Item :: multiset(p.accounted)[Accounted(x, Delivered)] == Count(p.pushed, x)
  }

  lemma {:induction false} DeliveredInAccount(items: seq<Item>, o: Outcome, x: Item)
    ensures multiset(Account(items, o))[Accounted(x, Delivered)] == if o == Delivered then Count(items, x) else 0
  {
    if items != [] {
      DeliveredInAccount(items[1..], o, x);
      AccountFirst(items, o);
      CountOfTail(items, x);
    }
  }

  lemma AccountFirst(items: seq<Item>, o: Outcome)
    requires items != []
    ensures Account(items, o) == [Accounted(items[0], o)] + Account(items[1..], o)
  {
  }

  function PushedBy(p: Pipe, e: Event): seq<Item> {
    if e == Push(true) && p.flusher.Delivering? then p.flusher.ready else []
  }

  lemma PushedAfter(cfg: Config, p: Pipe, e: Event)
    requires Enabled(cfg, p, e)
    ensures Step(cfg, p, e).pushed == p.pushed + PushedBy(p, e)
  {
    hide Account, Matching;
  }

  lemma DeliveredAdded(cfg: Config, p: Pipe, e: Event, x: Item)
    requires Enabled(cfg, p, e) && cfg.maxRetries >= 0
    ensures multiset(Adds(cfg, p, e))[Accounted(x, Delivered)] == Count(PushedBy(p, e), x)
  {
    hide Account, Matching;
    match e {
      case Convert =>
        DeliveredInAccount(Matching(p.flusher.batch, cfg.converts, false), ConversionFailed, x);
      case Push(_) =>
        DeliveredInAccount(p.flusher.ready, Delivered, x);
        DeliveredInAccount(p.flusher.ready, DeliveryFailed, x);
      case BackoffAborted =>
        DeliveredInAccount(p.flusher.ready, DeliveryFailed, x);
      case _ =>
    }
  }

  lemma SavedArePushedAfter(cfg: Config, p: Pipe, e: Event)
    requires cfg.maxRetries >= 0 && SavedArePushed(p) && Enabled(cfg, p, e)
    ensures SavedArePushed(Step(cfg, p, e))
  {
    hide Step, Adds, PushedBy;
    var q := Step(cfg, p, e);
    AccountedAfter(cfg, p, e);
    PushedAfter(cfg, p, e);
    forall x: Item ensures multiset(q.accounted)[Accounted(x, Delivered)] == Count(q.pushed, x) {
      DeliveredAdded(cfg, p, e, x);
      CountOfConcat(p.pushed, PushedBy(p, e), x);
    }
  }

  lemma {:induction false} SavedArePushedThroughout(cfg: Config, p: Pipe, es: seq<Event>)
    requires cfg.maxRetries >= 0 && SavedArePushed(p) && Runs(cfg, p, es)
    ensures SavedArePushed(After(cfg, p, es))
    decreases |es|
  {
    if es != [] {
      SavedArePushedAfter(cfg, p, es[0]);
      SavedArePushedThroughout(cfg, Step(cfg, p, es[0]), es[1..]);
    }
  }

  /** A negative limit would count groups as delivered that nobody pushed; no other event could end the delivery. */
  lemma NegativeLimitSavesUnpushed(cfg: Config, p: Pipe, e: Event)
    requires cfg.maxRetries < 0 && p.flusher.Delivering? && p.flusher.attempt == 0 && Enabled(cfg, p, e)
    ensures Enabled(cfg, p, NoAttempts)
    ensures var q := Step(cfg, p, e);
      if e.NoAttempts? then q.accounted == p.accounted + Account(p.flusher.ready, Delivered) && q.pushed == p.pushed
      else q.flusher == p.flusher
  {
    hide Account, Matching, QueueCapacity;
  }

  const DEFAULT_MAX_RETRIES := 3

  /** The limit the program configures for the one the operator asked for: a negative one is not taken over. */
  function MaxRetriesFor(requested: int): (n: int)
    ensures n >= 0 && (requested >= 0 ==> n == requested) && (requested < 0 ==> n == 3)
  {
    if requested >= 0 then requested else DEFAULT_MAX_RETRIES
  }

  /** Whatever limit was asked for, in every run "saved" counts exactly what was in a payload Loki accepted. */
  lemma SavedMeansPushed(cfg: Config, requested: int, replaying: seq<Item>, es: seq<Event>)
    requires cfg.maxRetries == MaxRetriesFor(requested) && Runs(cfg, Initial(replaying), es)
    ensures SavedArePushed(After(cfg, Initial(replaying), es))
  {
    SavedArePushedThroughout(cfg, Initial(replaying), es);
  }

  // ---- The loop as a run of the pipeline ----

  /** A run of one event more. */
  lemma {:induction false} RunsLast(cfg: Config, p: Pipe, es: seq<Event>, e: Event)
    ensures Runs(cfg, p, es + [e]) <==> Runs(cfg, p, es) && Enabled(cfg, After(cfg, p, es), e)
    ensures Runs(cfg, p, es + [e]) ==> After(cfg, p, es + [e]) == Step(cfg, After(cfg, p, es), e)
    decreases |es|
  {
    hide Step, Enabled;
    if es == [] {
      assert es + [e] == [e] && [e][1..] == [];
    } else {
      assert (es + [e])[1..] == es[1..] + [e];
      if Enabled(cfg, p, es[0]) {
        RunsLast(cfg, Step(cfg, p, es[0]), es[1..], e);
      }
    }
  }

  /** The number of pushes Loki rejected since the last conversion. */
  function Rejections(es: seq<Event>): nat {
    if es == [] then 0
    else
      var last := es[|es| - 1];
      if last.Convert? then 0
      else Rejections(es[..|es| - 1]) + if last == Push(false) then 1 else 0
  }

  lemma AttemptAfter(cfg: Config, p: Pipe, e: Event)
    requires Enabled(cfg, p, e)
    ensures var q := Step(cfg, p, e);
      q.flusher.Delivering? ==>
        if e.Convert? then q.flusher.attempt == 0
        else p.flusher.Delivering? && q.flusher.attempt == p.flusher.attempt + if e == Push(false) then 1 else 0
  {
    hide Account, Matching, QueueCapacity;
  }

  lemma {:induction false} AttemptsAreRejections(cfg: Config, replaying: seq<Item>, es: seq<Event>)
    requires Runs(cfg, Initial(replaying), es)
    ensures var p := After(cfg, Initial(replaying), es);
      p.flusher.Delivering? ==> p.flusher.attempt == Rejections(es)
    decreases |es|
  {
    hide Step, Enabled;
    if es != [] {
      var front, last := es[..|es| - 1], es[|es| - 1];
      assert es == front + [last];
      RunsLast(cfg, Initial(replaying), front, last);
      AttemptsAreRejections(cfg, replaying, front);
      AttemptAfter(cfg, After(cfg, Initial(replaying), front), last);
    }
  }

  /**
    In every run, a delivery is recorded as failed exactly for the converted items of the batch, and only
    when the last of `maxRetries + 1` pushes was rejected or the shutdown deadline aborted it.
   */
  lemma FailsAfterAllAttempts(cfg: Config, requested: int, replaying: seq<Item>, es: seq<Event>, e: Event, x: Item)
    requires cfg.maxRetries == MaxRetriesFor(requested)
    requires Runs(cfg, Initial(replaying), es) && Enabled(cfg, After(cfg, Initial(replaying), es), e)
    ensures var p := After(cfg, Initial(replaying), es);
      Accounted(x, DeliveryFailed) in Adds(cfg, p, e) <==>
        && p.flusher.Delivering? && x in p.flusher.ready
        && (if e == Push(false) then p.aborted || Rejections(es + [e]) == cfg.maxRetries + 1
            else e == BackoffAborted && p.aborted)
  {
    hide Step, Matching, Runs, After;
    var p := After(cfg, Initial(replaying), es);
    AttemptsAreRejections(cfg, replaying, es);
    InitialIsSound(cfg, replaying);
    EveryRunIsSound(cfg, Initial(replaying), es);
    assert (es + [e])[..|es|] == es;
    if p.flusher.Delivering? {
      AccountHasOnly(p.flusher.ready, DeliveryFailed, x);
    }
  }

  lemma AccountHasOnly(items: seq<Item>, o: Outcome, x: Item)
    ensures Accounted(x, o) in Account(items, o) <==> x in items
  {
    if x in items {
      var i :| 0 <= i < |items| && items[i] == x;
      assert Account(items, o)[i] == Accounted(x, o);
    }
  }

  /** A producer is turned away only when the queue holds all it can: ten batches, and at least a thousand. */
  lemma DropsNeedAFullQueue(cfg: Config, p: Pipe, e: Event, x: Item)
    requires Shaped(cfg, p) && Enabled(cfg, p, e)
    ensures Accounted(x, QueueFull) in Adds(cfg, p, e) <==>
      e.DropFull? && p.waiting[e.i] == x && |p.queue| == if cfg.size <= 100 then 1000 else 10 * cfg.size
  {
    hide Matching;
  }

  predicate IsPush(e: Event) {
    e.Push?
  }

  function Pushes(es: seq<Event>): nat {
    if es == [] then 0 else (if IsPush(es[0]) then 1 else 0) + Pushes(es[1..])
  }

  /** The batch in delivery has got the outcome, and nothing but the flusher has moved. */
  ghost predicate DeliveredAs(p: Pipe, q: Pipe, ok: bool)
    requires p.flusher.Delivering?
  {
    && q.flusher == Accounting(p.flusher.batch)
    && q.accounted == p.accounted + Account(p.flusher.ready, if ok then Delivered else DeliveryFailed)
    && q.pushed == p.pushed + (if ok then p.flusher.ready else [])
    && q.queue == p.queue && q.batch == p.batch && q.flushes == p.flushes
  }

  lemma OneEvent(cfg: Config, p: Pipe, e: Event)
    requires Enabled(cfg, p, e)
    ensures Runs(cfg, p, [e]) && After(cfg, p, [e]) == Step(cfg, p, e) && Pushes([e]) == if IsPush(e) then 1 else 0
  {
    assert [e][1..] == [];
  }

  lemma AbortFirst(cfg: Config, p: Pipe, e: Event)
    requires Enabled(cfg, p, Abort) && Enabled(cfg, p.(aborted := true), e)
    ensures Runs(cfg, p, [Abort, e]) && After(cfg, p, [Abort, e]) == Step(cfg, p.(aborted := true), e)
    ensures Pushes([Abort, e]) == if IsPush(e) then 1 else 0
  {
    hide Enabled;
    OneEvent(cfg, p.(aborted := true), e);
    assert [Abort, e][1..] == [e];
  }

  lemma PushAnswers(cfg: Config, p: Pipe, accepted: bool)
    requires p.flusher.Delivering? && p.flusher.attempt <= cfg.maxRetries
    ensures Enabled(cfg, p, Push(accepted))
    ensures var q := Step(cfg, p, Push(accepted));
      if accepted then DeliveredAs(p, q, true)
      else if p.aborted || p.flusher.attempt == cfg.maxRetries then DeliveredAs(p, q, false)
      else q == p.(flusher := p.flusher.(attempt := p.flusher.attempt + 1))
  {
    hide Account;
    assert p.pushed + [] == p.pushed;
  }

  lemma AbortIsEnabled(cfg: Config, p: Pipe)
    ensures Enabled(cfg, p, Abort) <==> p.stopping && !p.aborted
  {
  }

  lemma WaitAborted(cfg: Config, p: Pipe)
    requires p.flusher.Delivering? && p.flusher.attempt > 0 && p.aborted
    ensures Enabled(cfg, p, BackoffAborted) && DeliveredAs(p, Step(cfg, p, BackoffAborted), false)
  {
    hide Account;
    assert p.pushed + [] == p.pushed;
  }

  lemma DeliveredFrom(p: Pipe, p': Pipe, q: Pipe, ok: bool)
    requires p.flusher.Delivering? && p'.flusher.Delivering? && DeliveredAs(p', q, ok)
    requires p' == p.(aborted := p'.aborted, flusher := p'.flusher)
    requires p'.flusher == p.flusher.(attempt := p'.flusher.attempt)
    ensures DeliveredAs(p, q, ok)
  {
  }

  /** The loop has come to attempt k. */
  ghost predicate ComesTo(answers: nat -> Answer, k: nat) {
    k > 0 ==> Reached(answers, k - 1) && !answers(k - 1).accepted && !answers(k - 1).canceledAfter
  }

  /** How the loop goes on from there: it stops with a result, or comes to the next attempt. */
  lemma LoopGoesOn(answers: nat -> Answer, maxRetries: int, k: nat)
    requires k <= maxRetries && ComesTo(answers, k)
    ensures var a := answers(k);
      if k > 0 && a.canceledWaiting then !SomePushAccepted(answers, maxRetries)
      else Reached(answers, k) && if a.accepted then SomePushAccepted(answers, maxRetries)
      else if a.canceledAfter || k == maxRetries then !SomePushAccepted(answers, maxRetries)
      else ComesTo(answers, k + 1)
  {
    assert answers(k).accepted && Reached(answers, k) ==> SomePushAccepted(answers, maxRetries);
    forall j: nat | j <= maxRetries && Reached(answers, j) && answers(j).accepted
      ensures k > 0 && answers(k).canceledWaiting ==> false
      ensures !answers(k).accepted && (answers(k).canceledAfter || k == maxRetries) ==> false
    {
    }
  }

  /** What a run has to do to be the rest of the loop from attempt k on. */
  ghost predicate IsRestOfLoop(cfg: Config, p: Pipe, answers: nat -> Answer, k: nat, es: seq<Event>, ok: bool)
    requires p.flusher.Delivering?
  {
    && Runs(cfg, p, es) && DeliveredAs(p, After(cfg, p, es), ok)
    && (ok <==> SomePushAccepted(answers, cfg.maxRetries))
    && var pushes := k + Pushes(es);
       0 < pushes <= cfg.maxRetries + 1 && Reached(answers, pushes - 1) && (ok <==> answers(pushes - 1).accepted)
  }

  /** The loop stops at attempt k, or in the wait before it. */
  lemma LoopStops(cfg: Config, p: Pipe, answers: nat -> Answer, k: nat) returns (es: seq<Event>)
    requires p.flusher.Delivering? && p.flusher.attempt == k <= cfg.maxRetries && !p.aborted && ComesTo(answers, k)
    requires p.stopping || (!answers(k).canceledWaiting && !answers(k).canceledAfter)
    requires var a := answers(k);
      (k > 0 && a.canceledWaiting) || a.accepted || a.canceledAfter || k == cfg.maxRetries
    ensures IsRestOfLoop(cfg, p, answers, k, es, SomePushAccepted(answers, cfg.maxRetries))
  {
    LoopGoesOn(answers, cfg.maxRetries, k);
    hide SomePushAccepted, Runs, After, Step, Enabled, DeliveredAs;
    AbortIsEnabled(cfg, p);
    var a := p.(aborted := true);
    if k > 0 && answers(k).canceledWaiting {
      WaitAborted(cfg, a);
      AbortFirst(cfg, p, BackoffAborted);
      DeliveredFrom(p, a, Step(cfg, a, BackoffAborted), false);
      es := [Abort, BackoffAborted];
    } else if answers(k).accepted {
      PushAnswers(cfg, p, true);
      OneEvent(cfg, p, Push(true));
      es := [Push(true)];
    } else if answers(k).canceledAfter {
      PushAnswers(cfg, a, false);
      AbortFirst(cfg, p, Push(false));
      DeliveredFrom(p, a, Step(cfg, a, Push(false)), false);
      es := [Abort, Push(false)];
    } else {
      PushAnswers(cfg, p, false);
      OneEvent(cfg, p, Push(false));
      es := [Push(false)];
    }
  }

  /** What the loop does from attempt k on is a run of the flusher. */
  lemma {:induction false} DeliverRun(cfg: Config, p: Pipe, answers: nat -> Answer, k: nat)
    returns (es: seq<Event>)
    requires p.flusher.Delivering? && p.flusher.attempt == k <= cfg.maxRetries && !p.aborted && ComesTo(answers, k)
    requires p.stopping || forall j :: !answers(j).canceledWaiting && !answers(j).canceledAfter
    ensures IsRestOfLoop(cfg, p, answers, k, es, SomePushAccepted(answers, cfg.maxRetries))
    decreases cfg.maxRetries - k
  {
    hide SomePushAccepted, Reached, ComesTo, Step, Enabled, DeliveredAs, Runs, After;
    var a := answers(k);
    if (k > 0 && a.canceledWaiting) || a.accepted || a.canceledAfter || k == cfg.maxRetries {
      es := LoopStops(cfg, p, answers, k);
    } else {
      LoopGoesOn(answers, cfg.maxRetries, k);
      PushAnswers(cfg, p, false);
      var q := Step(cfg, p, Push(false));
      var rest := DeliverRun(cfg, q, answers, k + 1);
      RunsFirst(cfg, p, Push(false), rest);
      DeliveredFrom(p, q, After(cfg, q, rest), SomePushAccepted(answers, cfg.maxRetries));
      es := [Push(false)] + rest;
      assert es[1..] == rest;
    }
  }

  /** The retry loop refines the transition system: for any answers of the world its result is that of a run. */
  lemma DeliverIsARun(cfg: Config, p: Pipe, answers: nat -> Answer) returns (es: seq<Event>)
    requires p.flusher.Delivering? && p.flusher.attempt == 0 && !p.aborted && cfg.maxRetries >= 0
    requires p.stopping || forall j :: !answers(j).canceledWaiting && !answers(j).canceledAfter
    ensures Runs(cfg, p, es)
    ensures DeliveredAs(p, After(cfg, p, es), SomePushAccepted(answers, cfg.maxRetries))
    ensures 0 < Pushes(es) <= cfg.maxRetries + 1 && Reached(answers, Pushes(es) - 1)
    ensures SomePushAccepted(answers, cfg.maxRetries) <==> answers(Pushes(es) - 1).accepted
  {
    hide Reached, Runs, After, DeliveredAs, SomePushAccepted;
    es := DeliverRun(cfg, p, answers, 0);
  }
}
