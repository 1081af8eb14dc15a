/** Conservation: every item that came in is in exactly one place, or has exactly one recorded outcome. */
module PipelineProofs {
  import opened Pipeline

  // ---- Counting ----

  function Count(s: seq<Item>, x: Item): (n: nat)
    ensures n > 0 <==> x in s
  {
    multiset(s)[x]
  }

  lemma CountOfNone(x: Item)
    ensures Count([], x) == 0
  {
  }

  lemma CountOfConcat(a: seq<Item>, b: seq<Item>, x: Item)
    ensures Count(a + b, x) == Count(a, x) + Count(b, x)
  {
  }

  lemma CountOfWithout(s: seq<Item>, i: nat, x: Item)
    requires i < |s|
    ensures Count(s, x) == Count(Without(s, i), x) + Count([s[i]], x)
  {
    assert s == s[..i] + [s[i]] + s[i + 1..];
  }

  lemma CountOfTail(s: seq<Item>, x: Item)
    requires s != []
    ensures Count(s, x) == Count([s[0]], x) + Count(s[1..], x)
  {
    assert s == [s[0]] + s[1..];
  }

  lemma {:induction false} CountOfMatching(s: seq<Item>, f: Item -> bool, want: bool, x: Item)
    ensures Count(Matching(s, f, want), x) == if f(x) == want then Count(s, x) else 0
  {
    if s != [] {
      CountOfTail(s, x);
      CountOfMatching(s[1..], f, want, x);
      var first := if f(s[0]) == want then [s[0]] else [];
      CountOfConcat(first, Matching(s[1..], f, want), x);
    }
  }

  function CountFlushes(batches: seq<seq<Item>>, x: Item): nat {
    if batches == [] then 0 else Count(batches[0], x) + CountFlushes(batches[1..], x)
  }

  lemma {:induction false} CountFlushesOfNext(batches: seq<seq<Item>>, b: seq<Item>, x: Item)
    ensures CountFlushes(batches + [b], x) == CountFlushes(batches, x) + Count(b, x)
  {
    if batches == [] {
      assert batches + [b] == [b];
    } else {
      CountFlushesOfNext(batches[1..], b, x);
      assert (batches + [b])[1..] == batches[1..] + [b];
    }
  }

  function Items(a: seq<Accounted>): (s: seq<Item>)
    ensures |s| == |a|
    ensures forall k :: 0 <= k < |a| ==> s[k] == a[k].item
  {
    seq(|a|, k requires 0 <= k < |a| => a[k].item)
  }

  /** The number of outcomes recorded for `x`. */
  function Outcomes(p: Pipe, x: Item): nat {
    Count(Items(p.accounted), x)
  }

  lemma OutcomesOfNext(a: seq<Accounted>, items: seq<Item>, o: Outcome, x: Item)
    ensures Count(Items(a + Account(items, o)), x) == Count(Items(a), x) + Count(items, x)
  {
    assert Items(a + Account(items, o)) == Items(a) + items;
    CountOfConcat(Items(a), items, x);
  }

  // ---- Places ----

  /** With the flusher and still without an outcome. */
  function InFlight(cfg: Config, f: Flusher): seq<Item> {
    match f
    case Converting(b) => b
    case Delivering(_, ready, _) => ready
    case _ => []
  }

  /** With the flusher, outcome or not: what its acknowledgement will cover. */
  function InHand(f: Flusher): seq<Item> {
    match f
    case Converting(b) => b
    case Delivering(b, _, _) => b
    case Accounting(b) => b
    case _ => []
  }

  /** Upstream of the flusher. */
  function Upstream(p: Pipe, x: Item): nat {
    Count(p.waiting, x) + Count(p.replaying, x) + Count(p.queue, x) + Count(p.batch, x)
      + CountFlushes(p.flushes, x)
  }

  /** In the pipeline without a recorded outcome, counted once for every place it is in. */
  function Undecided(cfg: Config, p: Pipe, x: Item): nat {
    Upstream(p, x) + Count(InFlight(cfg, p.flusher), x)
  }

  /** In the pipeline and not yet acknowledged. */
  function Held(p: Pipe, x: Item): nat {
    Upstream(p, x) + Count(p.dropped, x) + Count(InHand(p.flusher), x)
  }

  ghost predicate Conserves(cfg: Config, p: Pipe) {
    forall x: Item :: p.entered[x] == Undecided(cfg, p, x) + Outcomes(p, x) + Count(p.abandoned, x)
  }

  /** The shape every reachable state has. */
  ghost predicate Shaped(cfg: Config, p: Pipe) {
    && |p.queue| <= QueueCapacity(cfg)
    && |p.flushes| <= FLUSH_CAPACITY
    && (p.accumulator.Sending? ==> p.batch != [])
    && (p.accumulator.Closed? ==> p.batch == [])
    && (p.accumulator.Draining? || p.accumulator.Closed? || p.accumulator == Sending(true) ==> p.stopping)
    && (p.aborted ==> p.stopping)
    && (forall k :: 0 <= k < |p.flushes| ==> p.flushes[k] != [])
    && FlusherShaped(cfg, p)
  }

  ghost predicate FlusherShaped(cfg: Config, p: Pipe) {
    match p.flusher
    case Idle => true
    case Converting(b) => b != []
    case Delivering(b, ready, attempt) =>
      && ready == Matching(b, cfg.converts, true) != []
      && (attempt == 0 || attempt <= cfg.maxRetries)
    case Accounting(b) => b != []
    case Exited => p.flushes == [] && p.accumulator.Closed?
  }

  /** Outcomes match conversions: nobody borrows a sibling's delivery, nobody is delivered unconverted. */
  ghost predicate Truthful(cfg: Config, p: Pipe) {
    forall k :: 0 <= k < |p.accounted| ==> TrueOutcome(cfg, p.accounted[k])
  }

  predicate TrueOutcome(cfg: Config, a: Accounted) {
    match a.outcome
    case QueueFull => true
    case ConversionFailed => !cfg.converts(a.item)
    case Delivered => cfg.converts(a.item)
    case DeliveryFailed => cfg.converts(a.item)
  }

  // ---- One event ----

  predicate ProducerEvent(e: Event) {
    e.Offer? || e.Admit? || e.Cancel? || e.DropFull? || e.DropAck? || e.ReplaySend? || e.ReplayStop?
  }

  predicate AccumulatorEvent(e: Event) {
    e.Take? || e.Tick? || e.SeeStop? || e.Drained? || e.Send?
  }

  /** What an event takes out of the pipeline for good. */
  function Released(p: Pipe, e: Event): seq<Item> {
    match e
    case Cancel(i) => if i < |p.waiting| then [p.waiting[i]] else []
    case DropAck(i) => if i < |p.dropped| then [p.dropped[i]] else []
    case ReplayStop => p.replaying
    case FlushAck => InHand(p.flusher)
    case _ => []
  }

  function Arriving(e: Event): seq<Item> {
    if e.Offer? then [e.item] else []
  }

  /** Producers only move their own items about. */
  lemma ProducerMoves(cfg: Config, p: Pipe, e: Event, x: Item)
    requires Enabled(cfg, p, e) && ProducerEvent(e)
    ensures var q := Step(cfg, p, e);
      && Upstream(q, x) + Count(q.dropped, x) + Count(Released(p, e), x)
         == Upstream(p, x) + Count(p.dropped, x) + Count(Arriving(e), x)
      && Upstream(q, x) + Outcomes(q, x) + Count(q.abandoned, x)
         == Upstream(p, x) + Outcomes(p, x) + Count(p.abandoned, x) + Count(Arriving(e), x)
  {
    hide Count, CountFlushes;
    match e {
      case Offer(y) =>
        CountOfConcat(p.waiting, [y], x);
      case Admit(i) =>
        CountOfWithout(p.waiting, i, x);
        CountOfConcat(p.queue, [p.waiting[i]], x);
      case Cancel(i) =>
        CountOfWithout(p.waiting, i, x);
        CountOfConcat(p.abandoned, [p.waiting[i]], x);
      case DropFull(i) =>
        CountOfWithout(p.waiting, i, x);
        CountOfConcat(p.dropped, [p.waiting[i]], x);
        assert [Accounted(p.waiting[i], QueueFull)] == Account([p.waiting[i]], QueueFull);
        OutcomesOfNext(p.accounted, [p.waiting[i]], QueueFull, x);
      case DropAck(i) =>
        CountOfWithout(p.dropped, i, x);
      case ReplaySend =>
        CountOfTail(p.replaying, x);
        CountOfConcat(p.queue, [p.replaying[0]], x);
      case ReplayStop =>
        CountOfConcat(p.abandoned, p.replaying, x);
    }
  }

  /** The accumulator moves items downstream and neither takes nor leaves any. */
  lemma AccumulatorMoves(cfg: Config, p: Pipe, e: Event, x: Item)
    requires Enabled(cfg, p, e) && AccumulatorEvent(e)
    ensures Upstream(Step(cfg, p, e), x) == Upstream(p, x)
  {
    hide Count, CountFlushes;
    match e {
      case Take =>
        CountOfTail(p.queue, x);
        CountOfConcat(p.batch, [p.queue[0]], x);
      case Tick =>
      case SeeStop =>
      case Drained =>
      case Send =>
        CountFlushesOfNext(p.flushes, p.batch, x);
    }
  }

  /** The flusher keeps its whole batch in hand, and trades items for outcomes one for one. */
  ghost predicate Trades(cfg: Config, p: Pipe, q: Pipe, x: Item) {
    && Upstream(q, x) + Count(InHand(q.flusher), x) == Upstream(p, x) + Count(InHand(p.flusher), x)
    && Undecided(cfg, q, x) + Outcomes(q, x) == Undecided(cfg, p, x) + Outcomes(p, x)
  }

  lemma TakeBatchMoves(cfg: Config, p: Pipe, x: Item)
    requires Enabled(cfg, p, TakeBatch)
    ensures Trades(cfg, p, p.(flushes := p.flushes[1..], flusher := Converting(p.flushes[0])), x)
  {
  }

  lemma ConvertMoves(cfg: Config, p: Pipe, x: Item)
    requires p.flusher.Converting?
    ensures Trades(cfg, p, Converted(cfg, p), x)
  {
    hide Matching, Count, CountFlushes;
    CountOfMatching(p.flusher.batch, cfg.converts, true, x);
    CountOfMatching(p.flusher.batch, cfg.converts, false, x);
    OutcomesOfNext(p.accounted, Matching(p.flusher.batch, cfg.converts, false), ConversionFailed, x);
  }

  lemma FinishMoves(cfg: Config, p: Pipe, ok: bool, x: Item)
    requires p.flusher.Delivering?
    ensures Trades(cfg, p, FinishDelivery(p, ok), x)
  {
    hide Count, CountFlushes;
    OutcomesOfNext(p.accounted, p.flusher.ready, if ok then Delivered else DeliveryFailed, x);
  }

  lemma AnswerMoves(cfg: Config, p: Pipe, accepted: bool, x: Item)
    requires p.flusher.Delivering?
    ensures Trades(cfg, p, Answered(cfg, p, accepted), x)
  {
    hide Count, CountFlushes;
    FinishMoves(cfg, p.(pushed := p.pushed + p.flusher.ready), true, x);
    FinishMoves(cfg, p, false, x);
  }

  lemma FlusherMoves(cfg: Config, p: Pipe, e: Event, x: Item)
    requires Enabled(cfg, p, e) && !ProducerEvent(e) && !AccumulatorEvent(e) && !e.FlushAck?
    ensures Trades(cfg, p, Step(cfg, p, e), x)
  {
    match e {
      case TakeBatch => TakeBatchMoves(cfg, p, x);
      case Convert => ConvertMoves(cfg, p, x);
      case Push(accepted) => AnswerMoves(cfg, p, accepted, x);
      case NoAttempts => FinishMoves(cfg, p, true, x);
      case BackoffAborted => FinishMoves(cfg, p, false, x);
      case _ =>
    }
  }

  /** What is held changes by arrivals and releases only. */
  lemma HeldAfter(cfg: Config, p: Pipe, e: Event, x: Item)
    requires Enabled(cfg, p, e)
    ensures Held(Step(cfg, p, e), x) + Count(Released(p, e), x) == Held(p, x) + Count(Arriving(e), x)
  {
    hide Count, CountFlushes;
    CountOfNone(x);
    if ProducerEvent(e) {
      ProducerMoves(cfg, p, e, x);
    } else if AccumulatorEvent(e) {
      AccumulatorMoves(cfg, p, e, x);
    } else if !e.FlushAck? {
      FlusherMoves(cfg, p, e, x);
    }
  }

  lemma ConservesAt(cfg: Config, p: Pipe, e: Event, x: Item)
    requires Enabled(cfg, p, e)
    ensures var q := Step(cfg, p, e);
      Undecided(cfg, q, x) + Outcomes(q, x) + Count(q.abandoned, x)
      == Undecided(cfg, p, x) + Outcomes(p, x) + Count(p.abandoned, x) + Count(Arriving(e), x)
  {
    hide Count, CountFlushes;
    CountOfNone(x);
    if ProducerEvent(e) {
      ProducerMoves(cfg, p, e, x);
    } else if AccumulatorEvent(e) {
      AccumulatorMoves(cfg, p, e, x);
    } else if !e.FlushAck? {
      FlusherMoves(cfg, p, e, x);
    }
  }

  lemma EnteredAfter(cfg: Config, p: Pipe, e: Event, x: Item)
    requires Enabled(cfg, p, e)
    ensures Step(cfg, p, e).entered[x] == p.entered[x] + Count(Arriving(e), x)
  {
  }

  lemma ConservesAfter(cfg: Config, p: Pipe, e: Event)
    requires Conserves(cfg, p) && Enabled(cfg, p, e)
    ensures Conserves(cfg, Step(cfg, p, e))
  {
    hide Step, Undecided, Outcomes;
    var q := Step(cfg, p, e);
    forall x: Item ensures q.entered[x] == Undecided(cfg, q, x) + Outcomes(q, x) + Count(q.abandoned, x) {
      ConservesAt(cfg, p, e, x);
      EnteredAfter(cfg, p, e, x);
    }
  }

  lemma ShapedAfterProducer(cfg: Config, p: Pipe, e: Event)
    requires Shaped(cfg, p) && Enabled(cfg, p, e) && ProducerEvent(e)
    ensures Shaped(cfg, Step(cfg, p, e))
  {
  }

  lemma ShapedAfterAccumulator(cfg: Config, p: Pipe, e: Event)
    requires Shaped(cfg, p) && Enabled(cfg, p, e) && AccumulatorEvent(e)
    ensures Shaped(cfg, Step(cfg, p, e))
  {
    hide Matching;
  }

  lemma ShapedAfterFlusher(cfg: Config, p: Pipe, e: Event)
    requires Shaped(cfg, p) && Enabled(cfg, p, e) && !ProducerEvent(e) && !AccumulatorEvent(e)
    ensures Shaped(cfg, Step(cfg, p, e))
  {
    if e.Convert? {
      MatchingIsPart(p.flusher.batch, cfg.converts);
    }
  }

  lemma MatchingIsPart(s: seq<Item>, f: Item -> bool)
    ensures Matching(s, f, true) != [] ==> s != []
  {
  }

  lemma ShapedAfter(cfg: Config, p: Pipe, e: Event)
    requires Shaped(cfg, p) && Enabled(cfg, p, e)
    ensures Shaped(cfg, Step(cfg, p, e))
  {
    hide Shaped, Step;
    if ProducerEvent(e) {
      ShapedAfterProducer(cfg, p, e);
    } else if AccumulatorEvent(e) {
      ShapedAfterAccumulator(cfg, p, e);
    } else {
      ShapedAfterFlusher(cfg, p, e);
    }
  }

  /** The outcomes one event adds. */
  function Adds(cfg: Config, p: Pipe, e: Event): seq<Accounted>
    requires Enabled(cfg, p, e)
  {
    match e
    case DropFull(i) => [Accounted(p.waiting[i], QueueFull)]
    case Convert => Account(Matching(p.flusher.batch, cfg.converts, false), ConversionFailed)
    case Push(accepted) =>
      if accepted then Account(p.flusher.ready, Delivered)
      else if p.aborted || p.flusher.attempt >= cfg.maxRetries then Account(p.flusher.ready, DeliveryFailed)
      else []
    case NoAttempts => Account(p.flusher.ready, Delivered)
    case BackoffAborted => Account(p.flusher.ready, DeliveryFailed)
    case _ => []
  }

  lemma AccountedAfter(cfg: Config, p: Pipe, e: Event)
    requires Enabled(cfg, p, e)
    ensures Step(cfg, p, e).accounted == p.accounted + Adds(cfg, p, e)
  {
    hide Account, Matching;
  }

  lemma AddsAreTruthful(cfg: Config, p: Pipe, e: Event)
    requires Shaped(cfg, p) && Enabled(cfg, p, e)
    ensures forall k :: 0 <= k < |Adds(cfg, p, e)| ==> TrueOutcome(cfg, Adds(cfg, p, e)[k])
  {
    hide Matching;
    if p.flusher.Converting? {
      MatchingMatches(p.flusher.batch, cfg.converts, false);
    } else if p.flusher.Delivering? {
      MatchingMatches(p.flusher.batch, cfg.converts, true);
    }
  }

  lemma TruthfulAfter(cfg: Config, p: Pipe, e: Event)
    requires Shaped(cfg, p) && Truthful(cfg, p) && Enabled(cfg, p, e)
    ensures Truthful(cfg, Step(cfg, p, e))
  {
    hide Step, Adds, Shaped;
    AccountedAfter(cfg, p, e);
    AddsAreTruthful(cfg, p, e);
  }

  lemma {:induction false} MatchingMatches(s: seq<Item>, f: Item -> bool, want: bool)
    ensures forall k :: 0 <= k < |Matching(s, f, want)| ==> f(Matching(s, f, want)[k]) == want
  {
    if s != [] {
      MatchingMatches(s[1..], f, want);
    }
  }

  // ---- All runs ----

  ghost predicate Sound(cfg: Config, p: Pipe) {
    Shaped(cfg, p) && Conserves(cfg, p) && Truthful(cfg, p)
  }

  lemma InitialIsSound(cfg: Config, replaying: seq<Item>)
    ensures Sound(cfg, Initial(replaying))
  {
  }

  lemma RunsFirst(cfg: Config, p: Pipe, e: Event, es: seq<Event>)
    requires Enabled(cfg, p, e) && Runs(cfg, Step(cfg, p, e), es)
    ensures Runs(cfg, p, [e] + es) && After(cfg, p, [e] + es) == After(cfg, Step(cfg, p, e), es)
  {
  }

  /** Conservation, shape and truthful outcomes hold in every state of every run. */
  lemma {:induction false} EveryRunIsSound(cfg: Config, p: Pipe, es: seq<Event>)
    requires Sound(cfg, p) && Runs(cfg, p, es)
    ensures Sound(cfg, After(cfg, p, es))
    decreases |es|
  {
    if es != [] {
      ShapedAfter(cfg, p, es[0]);
      ConservesAfter(cfg, p, es[0]);
      TruthfulAfter(cfg, p, es[0]);
      EveryRunIsSound(cfg, Step(cfg, p, es[0]), es[1..]);
    }
  }

  /** An item that came in once is in one place without outcome, or has one outcome, or was left in the log. */
  lemma ExactlyOnePlaceOrOutcome(cfg: Config, replaying: seq<Item>, es: seq<Event>, x: Item)
    requires Runs(cfg, Initial(replaying), es)
    requires After(cfg, Initial(replaying), es).entered[x] == 1
    ensures var p := After(cfg, Initial(replaying), es);
      Undecided(cfg, p, x) + Outcomes(p, x) + Count(p.abandoned, x) == 1
  {
    InitialIsSound(cfg, replaying);
    EveryRunIsSound(cfg, Initial(replaying), es);
  }
}
