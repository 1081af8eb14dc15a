/** How the accumulator cuts batches: no batch outgrows its size, full ones go out, and order is kept. */
module Batching {
  import opened Basics
  import opened Pipeline
  import opened PipelineProofs

  // ---- Size ----

  /** The number of items at which the accumulator dispatches; a size below one means at once. */
  function Limit(cfg: Config): int {
    Max(1, cfg.size)
  }

  /** An open batch is below the limit, and one that waits for the flusher has at most reached it. */
  ghost predicate WithinLimit(cfg: Config, p: Pipe) {
    && (p.accumulator.Running? ==> |p.batch| < Limit(cfg))
    && (p.accumulator == Sending(false) ==> |p.batch| <= Limit(cfg))
  }

  lemma WithinLimitAfter(cfg: Config, p: Pipe, e: Event)
    requires WithinLimit(cfg, p) && Enabled(cfg, p, e)
    ensures WithinLimit(cfg, Step(cfg, p, e))
  {
    hide Account, Matching, QueueCapacity;
  }

  lemma {:induction false} WithinLimitFrom(cfg: Config, p: Pipe, es: seq<Event>)
    requires WithinLimit(cfg, p) && Runs(cfg, p, es)
    ensures WithinLimit(cfg, After(cfg, p, es))
    decreases |es|
  {
    hide WithinLimit, Step, Enabled;
    if es != [] {
      WithinLimitAfter(cfg, p, es[0]);
      WithinLimitFrom(cfg, Step(cfg, p, es[0]), es[1..]);
    }
  }

  /** In every reachable state the accumulator has dispatched as soon as the batch was full. */
  lemma BatchesStayWithinLimit(cfg: Config, replaying: seq<Item>, es: seq<Event>)
    requires Runs(cfg, Initial(replaying), es)
    ensures WithinLimit(cfg, After(cfg, Initial(replaying), es))
  {
    WithinLimitFrom(cfg, Initial(replaying), es);
  }

  /** Every batch that has been dispatched is full. */
  ghost predicate AllFull(cfg: Config, p: Pipe) {
    && (p.accumulator.Running? || p.accumulator == Sending(false))
    && (p.accumulator == Sending(false) ==> |p.batch| == Limit(cfg))
    && (forall k :: 0 <= k < |p.flushes| ==> |p.flushes[k]| == Limit(cfg))
    && (InHand(p.flusher) == [] || |InHand(p.flusher)| == Limit(cfg))
  }

  /** Nothing but a full batch makes the accumulator dispatch: no tick, and the stop is not seen. */
  predicate BySizeOnly(es: seq<Event>) {
    forall k :: 0 <= k < |es| ==> !es[k].Tick? && !es[k].SeeStop?
  }

  lemma AllFullAfter(cfg: Config, p: Pipe, e: Event)
    requires WithinLimit(cfg, p) && AllFull(cfg, p) && Enabled(cfg, p, e) && !e.Tick? && !e.SeeStop?
    ensures AllFull(cfg, Step(cfg, p, e))
  {
    hide Account, Matching, QueueCapacity;
  }

  lemma {:induction false} AllFullFrom(cfg: Config, p: Pipe, es: seq<Event>)
    requires WithinLimit(cfg, p) && AllFull(cfg, p) && Runs(cfg, p, es) && BySizeOnly(es)
    ensures AllFull(cfg, After(cfg, p, es))
    decreases |es|
  {
    hide WithinLimit, AllFull, Step, Enabled;
    if es != [] {
      WithinLimitAfter(cfg, p, es[0]);
      AllFullAfter(cfg, p, es[0]);
      AllFullFrom(cfg, Step(cfg, p, es[0]), es[1..]);
    }
  }

  /** Without a tick or a stop no batch goes out early: each has exactly the limit. */
  lemma DispatchedBatchesAreFull(cfg: Config, replaying: seq<Item>, es: seq<Event>)
    requires Runs(cfg, Initial(replaying), es) && BySizeOnly(es)
    ensures AllFull(cfg, After(cfg, Initial(replaying), es))
  {
    AllFullFrom(cfg, Initial(replaying), es);
  }

  // ---- Order ----

  /** Everything between the mouth of the queue and the acknowledgement, oldest first. */
  function Line(p: Pipe): seq<Item> {
    InHand(p.flusher) + Concat(p.flushes) + p.batch + p.queue
  }

  /** What an event puts at the end of the queue. */
  function Entering(cfg: Config, p: Pipe, e: Event): seq<Item>
    requires Enabled(cfg, p, e)
  {
    match e
    case Admit(i) => [p.waiting[i]]
    case ReplaySend => [p.replaying[0]]
    case _ => []
  }

  /** What an event acknowledges at the far end. */
  function Leaving(p: Pipe, e: Event): seq<Item> {
    if e.FlushAck? then InHand(p.flusher) else []
  }

  lemma {:induction false} ConcatFirst(parts: seq<seq<Item>>)
    requires parts != []
    ensures Concat(parts) == parts[0] + Concat(parts[1..])
  {
    hide Concat;
    var front, last := parts[..|parts| - 1], parts[|parts| - 1];
    assert parts == front + [last];
    ConcatSnoc(front, last);
    if front == [] {
      ConcatNothing();
      assert parts[1..] == [];
    } else {
      ConcatFirst(front);
      ConcatSnoc(front[1..], last);
      assert parts[1..] == front[1..] + [last];
    }
  }

  lemma ConcatNothing()
    ensures Concat<Item>([]) == []
  {
  }

  /** One event lets items in at the end and out at the front, and keeps the order of the rest. */
  lemma LineAfter(cfg: Config, p: Pipe, e: Event)
    requires Shaped(cfg, p) && Enabled(cfg, p, e)
    ensures Leaving(p, e) + Line(Step(cfg, p, e)) == Line(p) + Entering(cfg, p, e)
  {
    if ProducerEvent(e) {
      LineAfterProducer(cfg, p, e);
    } else if AccumulatorEvent(e) {
      LineAfterAccumulator(cfg, p, e);
    } else {
      LineAfterFlusher(cfg, p, e);
    }
  }

  lemma LineAfterProducer(cfg: Config, p: Pipe, e: Event)
    requires Enabled(cfg, p, e) && ProducerEvent(e)
    ensures Leaving(p, e) + Line(Step(cfg, p, e)) == Line(p) + Entering(cfg, p, e)
  {
    hide Concat, InHand, QueueCapacity;
  }

  lemma LineAfterAccumulator(cfg: Config, p: Pipe, e: Event)
    requires Enabled(cfg, p, e) && AccumulatorEvent(e)
    ensures Leaving(p, e) + Line(Step(cfg, p, e)) == Line(p) + Entering(cfg, p, e)
  {
    hide Concat, InHand, QueueCapacity;
    var q := Step(cfg, p, e);
    if e.Take? {
      FirstMovesOver(InHand(p.flusher) + Concat(p.flushes), p.batch, p.queue);
      assert Line(q) == InHand(p.flusher) + Concat(p.flushes) + (p.batch + [p.queue[0]]) + p.queue[1..];
    } else if e.Send? {
      ConcatSnoc(p.flushes, p.batch);
      Regrouped(InHand(p.flusher), Concat(p.flushes), p.batch, p.queue);
      assert Line(q) == InHand(p.flusher) + (Concat(p.flushes) + p.batch) + [] + p.queue;
    } else {
      assert Line(q) == Line(p);
    }
    hide Line, Step;
    assert [] + Line(q) == Line(q) && Line(p) + [] == Line(p);
  }

  lemma FirstMovesOver(a: seq<Item>, b: seq<Item>, c: seq<Item>)
    requires c != []
    ensures a + b + c == a + (b + [c[0]]) + c[1..]
  {
    assert c == [c[0]] + c[1..];
  }

  lemma Regrouped(a: seq<Item>, b: seq<Item>, c: seq<Item>, d: seq<Item>)
    ensures a + b + c + d == a + (b + c) + [] + d
  {
  }

  lemma AtTheFront(a: seq<Item>, b: seq<Item>, c: seq<Item>, d: seq<Item>)
    ensures a + b + c + d == a + ([] + b + c + d)
    ensures [] + (a + b) + c + d == a + b + c + d
  {
  }

  lemma LineAfterFlusher(cfg: Config, p: Pipe, e: Event)
    requires Shaped(cfg, p) && Enabled(cfg, p, e) && !ProducerEvent(e) && !AccumulatorEvent(e)
    ensures Leaving(p, e) + Line(Step(cfg, p, e)) == Line(p) + Entering(cfg, p, e)
  {
    hide Concat, Account, Matching, QueueCapacity;
    var q := Step(cfg, p, e);
    if e.TakeBatch? {
      ConcatFirst(p.flushes);
      AtTheFront(p.flushes[0], Concat(p.flushes[1..]), p.batch, p.queue);
      assert Line(q) == p.flushes[0] + Concat(p.flushes[1..]) + p.batch + p.queue;
    } else if e.FlushAck? {
      AtTheFront(InHand(p.flusher), Concat(p.flushes), p.batch, p.queue);
      assert Line(q) == [] + Concat(p.flushes) + p.batch + p.queue;
    } else {
      assert Line(q) == Line(p);
    }
    hide Line, Step, Shaped, InHand;
    assert [] + Line(q) == Line(q) && Line(p) + [] == Line(p);
  }

  /** All that a run puts into the queue, and all that it acknowledges, in order. */
  ghost function Entered(cfg: Config, p: Pipe, es: seq<Event>): seq<Item>
    requires Runs(cfg, p, es)
    decreases |es|
  {
    if es == [] then [] else Entering(cfg, p, es[0]) + Entered(cfg, Step(cfg, p, es[0]), es[1..])
  }

  ghost function Left(cfg: Config, p: Pipe, es: seq<Event>): seq<Item>
    requires Runs(cfg, p, es)
    decreases |es|
  {
    if es == [] then [] else Leaving(p, es[0]) + Left(cfg, Step(cfg, p, es[0]), es[1..])
  }

  lemma {:induction false} LineFrom(cfg: Config, p: Pipe, es: seq<Event>)
    requires Shaped(cfg, p) && Runs(cfg, p, es)
    ensures Left(cfg, p, es) + Line(After(cfg, p, es)) == Line(p) + Entered(cfg, p, es)
    decreases |es|
  {
    hide Line, Leaving, Entering, Shaped, Step, Enabled;
    if es != [] {
      var q := Step(cfg, p, es[0]);
      ShapedAfter(cfg, p, es[0]);
      LineAfter(cfg, p, es[0]);
      LineFrom(cfg, q, es[1..]);
      var leaving, entering := Leaving(p, es[0]), Entering(cfg, p, es[0]);
      var left, entered := Left(cfg, q, es[1..]), Entered(cfg, q, es[1..]);
      var end := Line(After(cfg, p, es));
      assert leaving + left + end == leaving + (left + end) == leaving + Line(q) + entered;
      assert Line(p) + entering + entered == Line(p) + (entering + entered);
    }
  }

  /** First in, first out: what is acknowledged, then what is still on its way, is what entered, in that order. */
  lemma FirstInFirstOut(cfg: Config, replaying: seq<Item>, es: seq<Event>)
    requires Runs(cfg, Initial(replaying), es)
    ensures var p := Initial(replaying);
      Entered(cfg, p, es) == Left(cfg, p, es) + Line(After(cfg, p, es))
  {
    InitialIsSound(cfg, replaying);
    LineFrom(cfg, Initial(replaying), es);
  }
}
