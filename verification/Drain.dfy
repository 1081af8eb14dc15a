/**
  Shutdown: once the stop channel is closed and no further alert comes in, the pipeline runs dry in a
  bounded number of steps, never gets stuck on the bounded flush channel, and ends with everything
  accounted for, exactly when nothing was put in the queue behind the accumulator's last look at it.
 */
module Drain {
  import opened Pipeline
  import opened PipelineProofs

  /**
    What can still happen once shutdown has begun and no new alert comes in: the accumulator, the
    flusher, the deadline, the replay goroutine, and producers that were already on their way.
   */
  predicate Internal(e: Event) {
    !e.Offer? && !e.Stop?
  }

  /** All goroutines have ended, the replay among them, and no producer is left inside. */
  predicate Finished(p: Pipe) {
    && p.accumulator.Closed? && p.flusher.Exited?
    && p.replaying == [] && p.waiting == [] && p.dropped == []
  }

  // ---- The measure ----

  function Attempts(cfg: Config): nat {
    if cfg.maxRetries < 0 then 0 else cfg.maxRetries + 1
  }

  function FlusherWork(cfg: Config, f: Flusher): nat {
    match f
    case Exited => 0
    case Idle => 1
    case Accounting(_) => 2
    case Delivering(_, _, attempt) => if attempt <= Attempts(cfg) then 3 + Attempts(cfg) - attempt else 3
    case Converting(_) => 4 + Attempts(cfg)
  }

  function AccumulatorWork(a: Accumulator): nat {
    match a
    case Closed => 0
    case Draining => 2
    case Sending(last) => if last then 1 else 2
    case Running => 3
  }

  function BatchWork(cfg: Config): nat {
    5 + Attempts(cfg)
  }

  /** An item in the open batch may yet be dispatched alone, an item in the queue must be taken first. */
  function ItemWork(cfg: Config): nat {
    2 + BatchWork(cfg)
  }

  function Times(n: nat, w: nat): nat {
    if n == 0 then 0 else w + Times(n - 1, w)
  }

  /** Work left: items on their way in, queued, batched and dispatched, and the goroutines' own steps. */
  function Work(cfg: Config, p: Pipe): nat {
    Times(|p.waiting|, ItemWork(cfg) + 2) + Times(|p.replaying|, ItemWork(cfg) + 2) + Times(|p.dropped|, 1)
      + Times(|p.queue|, ItemWork(cfg) + 1) + Times(|p.batch|, ItemWork(cfg)) + Times(|p.flushes|, BatchWork(cfg))
      + AccumulatorWork(p.accumulator) + FlusherWork(cfg, p.flusher) + (if p.aborted then 0 else 1)
  }

  lemma AccumulatorWorks(cfg: Config, p: Pipe, e: Event)
    requires Shaped(cfg, p) && Enabled(cfg, p, e) && AccumulatorEvent(e)
    ensures var q := Step(cfg, p, e); q == p || Work(cfg, q) < Work(cfg, p)
  {
    var q := Step(cfg, p, e);
    match e {
      case Take =>
        assert |q.queue| == |p.queue| - 1 && |q.batch| == |p.batch| + 1;
      case Tick =>
      case SeeStop =>
      case Drained =>
      case Send =>
        assert |q.flushes| == |p.flushes| + 1 && |q.batch| == 0;
        assert Times(|p.batch|, ItemWork(cfg)) >= ItemWork(cfg);
    }
  }

  /** A producer or the replay goroutine that is done with an item takes its work off. */
  lemma ProducersWork(cfg: Config, p: Pipe, e: Event)
    requires Shaped(cfg, p) && Enabled(cfg, p, e) && Internal(e) && ProducerEvent(e)
    ensures Work(cfg, Step(cfg, p, e)) < Work(cfg, p)
  {
    var q := Step(cfg, p, e);
    match e {
      case Admit(i) =>
        assert |q.waiting| == |p.waiting| - 1 && |q.queue| == |p.queue| + 1;
      case Cancel(i) =>
        assert |q.waiting| == |p.waiting| - 1;
      case DropFull(i) =>
        assert |q.waiting| == |p.waiting| - 1 && |q.dropped| == |p.dropped| + 1;
      case DropAck(i) =>
        assert |q.dropped| == |p.dropped| - 1;
      case ReplaySend =>
        assert |q.replaying| == |p.replaying| - 1 && |q.queue| == |p.queue| + 1;
      case ReplayStop =>
        assert Times(|p.replaying|, ItemWork(cfg) + 2) > 0 == Times(|q.replaying|, ItemWork(cfg) + 2);
    }
  }

  /** The flusher's own steps leave everything else where it is. */
  lemma FlusherAlone(cfg: Config, p: Pipe, e: Event)
    requires Shaped(cfg, p) && Enabled(cfg, p, e)
    requires e.Convert? || e.Push? || e.NoAttempts? || e.BackoffAborted? || e.FlushAck? || e.Exit?
    ensures var q := Step(cfg, p, e);
      && q == p.(flusher := q.flusher, accounted := q.accounted, pushed := q.pushed)
      && FlusherWork(cfg, q.flusher) < FlusherWork(cfg, p.flusher)
  {
    hide Account, Matching, QueueCapacity;
  }

  lemma FlusherWorks(cfg: Config, p: Pipe, e: Event)
    requires Shaped(cfg, p) && Enabled(cfg, p, e) && Internal(e) && !ProducerEvent(e) && !AccumulatorEvent(e)
    ensures Work(cfg, Step(cfg, p, e)) < Work(cfg, p)
  {
    if e.TakeBatch? {
      hide Times, QueueCapacity;
      TimesNext(|p.flushes|, BatchWork(cfg));
      assert |Step(cfg, p, e).flushes| == |p.flushes| - 1;
    } else if !e.Abort? {
      hide Times, Step, Enabled, FlusherWork, Shaped, BatchWork;
      FlusherAlone(cfg, p, e);
    }
  }

  lemma TimesNext(n: nat, w: nat)
    requires n > 0
    ensures Times(n, w) == w + Times(n - 1, w)
  {
  }

  /** Every step of the drain either changes nothing (a tick with an empty batch) or takes work off. */
  lemma DrainStepsTakeWorkOff(cfg: Config, p: Pipe, e: Event)
    requires Shaped(cfg, p) && p.stopping && Enabled(cfg, p, e) && Internal(e)
    ensures var q := Step(cfg, p, e);
      && Shaped(cfg, q) && q.stopping
      && (q == p || Work(cfg, q) < Work(cfg, p))
      && (q == p ==> e.Tick? && p.batch == [])
  {
    ShapedAfter(cfg, p, e);
    if ProducerEvent(e) {
      ProducersWork(cfg, p, e);
    } else if AccumulatorEvent(e) {
      AccumulatorWorks(cfg, p, e);
    } else {
      FlusherWorks(cfg, p, e);
    }
  }

  // ---- Progress ----

  /** One step the drain can always take: the flusher first, since it is what makes room. */
  function NextStep(cfg: Config, p: Pipe): Event {
    match p.flusher
    case Converting(_) => Convert
    case Delivering(_, _, attempt) => if attempt <= cfg.maxRetries then Push(false) else NoAttempts
    case Accounting(_) => FlushAck
    case _ =>
      if p.flusher.Idle? && p.flushes != [] then TakeBatch
      else match p.accumulator
        case Running => SeeStop
        case Draining => if p.queue != [] then Take else Drained
        case Sending(_) => Send
        case Closed =>
          if p.flusher.Idle? then Exit
          else if p.dropped != [] then DropAck(0)
          else if p.replaying != [] then ReplayStop
          else if |p.queue| < QueueCapacity(cfg) then Admit(0)
          else DropFull(0)
  }

  lemma DrainIsNeverStuck(cfg: Config, p: Pipe)
    requires Shaped(cfg, p) && p.stopping && !Finished(p)
    ensures var e := NextStep(cfg, p);
      Internal(e) && Enabled(cfg, p, e) && Step(cfg, p, e) != p
  {
  }

  // ---- Whole drains ----

  /** A drain: internal steps only, none of them idle. */
  ghost predicate Drains(cfg: Config, p: Pipe, es: seq<Event>)
    decreases |es|
  {
    es == [] ||
    (Internal(es[0]) && Enabled(cfg, p, es[0]) && Step(cfg, p, es[0]) != p && Drains(cfg, Step(cfg, p, es[0]), es[1..]))
  }

  ghost function DrainedTo(cfg: Config, p: Pipe, es: seq<Event>): Pipe
    requires Drains(cfg, p, es)
    decreases |es|
  {
    if es == [] then p else DrainedTo(cfg, Step(cfg, p, es[0]), es[1..])
  }

  /** No drain takes more steps than there was work. */
  lemma {:induction false} DrainIsBounded(cfg: Config, p: Pipe, es: seq<Event>)
    requires Shaped(cfg, p) && p.stopping && Drains(cfg, p, es)
    ensures |es| + Work(cfg, DrainedTo(cfg, p, es)) <= Work(cfg, p)
    ensures Shaped(cfg, DrainedTo(cfg, p, es)) && DrainedTo(cfg, p, es).stopping
    decreases |es|
  {
    if es != [] {
      DrainStepsTakeWorkOff(cfg, p, es[0]);
      DrainIsBounded(cfg, Step(cfg, p, es[0]), es[1..]);
    }
  }

  /** A drain is a run. */
  lemma {:induction false} DrainsRuns(cfg: Config, p: Pipe, es: seq<Event>)
    requires Drains(cfg, p, es)
    ensures Runs(cfg, p, es) && After(cfg, p, es) == DrainedTo(cfg, p, es)
    decreases |es|
  {
    if es != [] {
      DrainsRuns(cfg, Step(cfg, p, es[0]), es[1..]);
    }
  }

  // ---- What is left behind ----

  /** The accumulator has found the queue empty for the last time. */
  predicate LookedLast(p: Pipe) {
    p.accumulator.Closed? || p.accumulator == Sending(true)
  }

  /** Items are in the queue behind that last look. */
  predicate Stranded(p: Pipe) {
    LookedLast(p) && p.queue != []
  }

  /** The two sends to the queue: the replay goroutine's and a producer's. */
  predicate FillsQueue(e: Event) {
    e.ReplaySend? || e.Admit?
  }

  /** Some send to the queue comes after the accumulator's last look at it, before or within the schedule. */
  ghost predicate SendsLate(p: Pipe, es: seq<Event>) {
    exists j :: 0 <= j < |es| && FillsQueue(es[j]) && (LookedLast(p) || Drained in es[..j])
  }

  lemma SendsLateFirst(p: Pipe, q: Pipe, es: seq<Event>)
    requires es != [] && (LookedLast(q) <==> LookedLast(p) || es[0] == Drained)
    ensures SendsLate(p, es) <==> (FillsQueue(es[0]) && LookedLast(p)) || SendsLate(q, es[1..])
  {
    if SendsLate(p, es) {
      var j :| 0 <= j < |es| && FillsQueue(es[j]) && (LookedLast(p) || Drained in es[..j]);
      if j > 0 {
        assert es[1..][j - 1] == es[j] && es[..j] == [es[0]] + es[1..][..j - 1];
      }
    }
    if SendsLate(q, es[1..]) {
      var j :| 0 <= j < |es[1..]| && FillsQueue(es[1..][j]) && (LookedLast(q) || Drained in es[1..][..j]);
      assert es[j + 1] == es[1..][j] && es[..j + 1] == [es[0]] + es[1..][..j];
    }
  }

  /** One step strands something exactly when it sends behind the last look. */
  lemma StrandedAfter(cfg: Config, p: Pipe, e: Event)
    requires Shaped(cfg, p) && Enabled(cfg, p, e) && Internal(e)
    ensures var q := Step(cfg, p, e);
      && (LookedLast(q) <==> LookedLast(p) || e == Drained)
      && (Stranded(q) <==> Stranded(p) || (FillsQueue(e) && LookedLast(p)))
  {
  }

  lemma {:induction false} StrandedThroughout(cfg: Config, p: Pipe, es: seq<Event>)
    requires Shaped(cfg, p) && p.stopping && Drains(cfg, p, es)
    ensures Stranded(DrainedTo(cfg, p, es)) <==> Stranded(p) || SendsLate(p, es)
    decreases |es|
  {
    hide Stranded, SendsLate, LookedLast, FillsQueue, Shaped, Step, Work;
    if es == [] {
      NothingSentLate(p);
    } else {
      var q := Step(cfg, p, es[0]);
      StrandedAfter(cfg, p, es[0]);
      SendsLateFirst(p, q, es);
      DrainStepsTakeWorkOff(cfg, p, es[0]);
      StrandedThroughout(cfg, q, es[1..]);
    }
  }

  lemma NothingSentLate(p: Pipe)
    ensures !SendsLate(p, [])
  {
  }

  /** Everything that ever came in has its outcome or was left in the log on purpose. */
  ghost predicate AllAccounted(p: Pipe) {
    forall x: Item :: p.entered[x] == Outcomes(p, x) + Count(p.abandoned, x)
  }

  lemma FinishedHoldsOnlyTheQueue(cfg: Config, p: Pipe)
    requires Shaped(cfg, p) && Conserves(cfg, p) && Finished(p)
    ensures AllAccounted(p) <==> p.queue == []
  {
    hide Outcomes;
    forall x: Item ensures Undecided(cfg, p, x) == Count(p.queue, x) {
    }
    if p.queue != [] {
      assert Count(p.queue, p.queue[0]) > 0;
    }
  }

  /** Nothing can happen any more that would change anything. */
  ghost predicate AtRest(cfg: Config, p: Pipe) {
    forall e :: Internal(e) && Enabled(cfg, p, e) ==> Step(cfg, p, e) == p
  }

  /**
    A drain that can go no further has finished: the accumulator, the flusher and the replay goroutine
    have ended. Then everything has its outcome or was left in the log, if and only if nothing was
    stranded before and no item was sent to the queue behind the accumulator's last look at it.
   */
  lemma DrainEnds(cfg: Config, p: Pipe, es: seq<Event>)
    requires Sound(cfg, p) && p.stopping && Drains(cfg, p, es)
    requires AtRest(cfg, DrainedTo(cfg, p, es))
    ensures var q := DrainedTo(cfg, p, es);
      Finished(q) && (AllAccounted(q) <==> !Stranded(p) && !SendsLate(p, es))
  {
    hide SendsLate, Conserves, Truthful, AllAccounted, Shaped, Step, Enabled, Internal;
    var q := DrainedTo(cfg, p, es);
    DrainIsBounded(cfg, p, es);
    if !Finished(q) {
      DrainIsNeverStuck(cfg, q);
      assert false;
    }
    DrainsRuns(cfg, p, es);
    EveryRunIsSound(cfg, p, es);
    StrandedThroughout(cfg, p, es);
    FinishedHoldsOnlyTheQueue(cfg, q);
  }

  /**
    The replay goroutine can strand an item: its `select` may still pick the queue after the accumulator
    has drained it and gone, and the stop then returns with the item neither delivered nor accounted.
   */
  lemma ReplayCanStrandAnItem(cfg: Config, x: Item)
    ensures var es := [Stop, SeeStop, Drained, ReplaySend, Exit];
      && Runs(cfg, Initial([x]), es)
      && var p := After(cfg, Initial([x]), es);
         && Finished(p) && Stranded(p)
         && Undecided(cfg, p, x) == 1 && Outcomes(p, x) == 0
  {
    hide After, Runs, Enabled, Step;
    var p5 := AfterTheRace(x);
    assert [Exit] + [] == [Exit];
    assert [ReplaySend] + [Exit] == [ReplaySend, Exit];
    assert [Drained] + [ReplaySend, Exit] == [Drained, ReplaySend, Exit];
    assert [SeeStop] + [Drained, ReplaySend, Exit] == [SeeStop, Drained, ReplaySend, Exit];
    assert [Stop] + [SeeStop, Drained, ReplaySend, Exit] == [Stop, SeeStop, Drained, ReplaySend, Exit];
    var p1 := Initial([x]).(stopping := true);
    var p3 := p1.(accumulator := Closed);
    StopEmptyPipe(cfg, Initial([x]));
    ReplayIntoClosedPipe(cfg, p3, x);
    RunsNothing(cfg, p5);
    RunsFirst(cfg, p3.(replaying := [], queue := [x]), Exit, []);
    RunsFirst(cfg, p3, ReplaySend, [Exit]);
    RunsFirst(cfg, p1.(accumulator := Draining), Drained, [ReplaySend, Exit]);
    RunsFirst(cfg, p1, SeeStop, [Drained, ReplaySend, Exit]);
    RunsFirst(cfg, Initial([x]), Stop, [SeeStop, Drained, ReplaySend, Exit]);
  }

  function AfterTheRace(x: Item): Pipe {
    Initial([x]).(stopping := true, accumulator := Closed, replaying := [], queue := [x], flusher := Exited)
  }

  lemma StopEmptyPipe(cfg: Config, p: Pipe)
    requires !p.stopping && p.accumulator.Running? && p.queue == [] && p.batch == []
    ensures var p1 := p.(stopping := true);
      && Enabled(cfg, p, Stop) && Step(cfg, p, Stop) == p1
      && Enabled(cfg, p1, SeeStop) && Step(cfg, p1, SeeStop) == p1.(accumulator := Draining)
      && Enabled(cfg, p1.(accumulator := Draining), Drained)
      && Step(cfg, p1.(accumulator := Draining), Drained) == p1.(accumulator := Closed)
  {
  }

  lemma ReplayIntoClosedPipe(cfg: Config, p: Pipe, x: Item)
    requires p.accumulator.Closed? && p.queue == [] && p.replaying == [x] && p.flushes == [] && p.flusher.Idle?
    ensures var q := p.(replaying := [], queue := [x]);
      && Enabled(cfg, p, ReplaySend) && Step(cfg, p, ReplaySend) == q
      && Enabled(cfg, q, Exit) && Step(cfg, q, Exit) == q.(flusher := Exited)
  {
  }

  lemma RunsNothing(cfg: Config, p: Pipe)
    ensures Runs(cfg, p, []) && After(cfg, p, []) == p
  {
  }
}
