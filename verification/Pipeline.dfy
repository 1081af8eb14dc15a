/**
  The batch processor as a transition system: producers and the replay goroutine feed a bounded queue,
  the accumulator cuts it into batches, the flusher converts, delivers and records an outcome.
  Each event is one choice of a `select` or one call; the scheduler picks among the enabled ones.
 */
module Pipeline {
  import opened Alerts

  const FLUSH_CAPACITY := 4

  /** A queued alert is a logged record; `seqNo` is 0 when the write-ahead log is disabled. */
  type Item = Record

  /** `converts` says whether an item's alerts can be turned into streams. */
  datatype Config = Config(size: int, maxRetries: int, converts: Item -> bool)

  function QueueCapacity(cfg: Config): (n: nat)
    ensures 1000 <= n && 10 * cfg.size <= n && (n == 1000 || n == 10 * cfg.size)
  {
    if cfg.size * 10 < 1000 then 1000 else cfg.size * 10
  }

  datatype Outcome = QueueFull | ConversionFailed | Delivered | DeliveryFailed

  datatype Accounted = Accounted(item: Item, outcome: Outcome)

  /** Where the accumulator goroutine is. `Sending` waits for room in the flush channel. */
  datatype Accumulator = Running | Draining | Sending(last: bool) | Closed

  /** Where the flusher goroutine is with the batch it took. */
  datatype Flusher =
    | Idle
    | Converting(batch: seq<Item>)
    | Delivering(batch: seq<Item>, ready: seq<Item>, attempt: nat)
    | Accounting(batch: seq<Item>)
    | Exited

  datatype Pipe = Pipe(
    waiting: seq<Item>,         // producers blocked in enqueue
    dropped: seq<Item>,         // producers that found the queue full, before their acknowledgement
    replaying: seq<Item>,       // what the replay goroutine has not sent yet
    queue: seq<Item>,           // b.in
    batch: seq<Item>,
    accumulator: Accumulator,
    flushes: seq<seq<Item>>,    // b.flushCh
    flusher: Flusher,
    stopping: bool,             // stopCh is closed
    aborted: bool,              // runCtx is canceled
    accounted: seq<Accounted>,  // history: outcomes recorded, in order
    pushed: seq<Item>,          // history: items in payloads Loki accepted
    abandoned: seq<Item>,       // history: left in the log on purpose (canceled, or replay stopped)
    entered: multiset<Item>)    // history: everything that ever came in

  function Initial(replaying: seq<Item>): Pipe {
    Pipe([], [], replaying, [], [], Running, [], Idle, false, false, [], [], [], multiset(replaying))
  }

  datatype Event =
    | Offer(item: Item)
    | Admit(i: nat)
    | Cancel(i: nat)
    | DropFull(i: nat)
    | DropAck(i: nat)
    | ReplaySend
    | ReplayStop
    | Stop
    | Abort
    | Take
    | Tick
    | SeeStop
    | Drained
    | Send
    | TakeBatch
    | Convert
    | Push(accepted: bool)
    | NoAttempts
    | BackoffAborted
    | FlushAck
    | Exit

  predicate Enabled(cfg: Config, p: Pipe, e: Event) {
    match e
    case Offer(_) => true
    case Admit(i) => i < |p.waiting| && |p.queue| < QueueCapacity(cfg)
    case Cancel(i) => i < |p.waiting|
    case DropFull(i) => i < |p.waiting| && |p.queue| >= QueueCapacity(cfg)
    case DropAck(i) => i < |p.dropped|
    case ReplaySend => p.replaying != [] && |p.queue| < QueueCapacity(cfg)
    case ReplayStop => p.replaying != [] && p.stopping
    case Stop => !p.stopping
    case Abort => p.stopping && !p.aborted
    case Take => p.queue != [] && (p.accumulator.Running? || p.accumulator.Draining?)
    case Tick => p.accumulator.Running?
    case SeeStop => p.accumulator.Running? && p.stopping
    case Drained => p.accumulator.Draining? && p.queue == []
    case Send => p.accumulator.Sending? && |p.flushes| < FLUSH_CAPACITY
    case TakeBatch => p.flusher.Idle? && p.flushes != []
    case Convert => p.flusher.Converting?
    case Push(_) => p.flusher.Delivering? && p.flusher.attempt <= cfg.maxRetries
    case NoAttempts => p.flusher.Delivering? && p.flusher.attempt == 0 > cfg.maxRetries
    case BackoffAborted => p.flusher.Delivering? && 0 < p.flusher.attempt && p.aborted
    case FlushAck => p.flusher.Accounting?
    case Exit => p.flusher.Idle? && p.flushes == [] && p.accumulator.Closed?
  }

  function Without<T>(s: seq<T>, i: nat): seq<T>
    requires i < |s|
  {
    s[..i] + s[i + 1..]
  }

  function Account(items: seq<Item>, o: Outcome): (r: seq<Accounted>)
    ensures |r| == |items|
    ensures forall k :: 0 <= k < |items| ==> r[k] == Accounted(items[k], o)
  {
    seq(|items|, k requires 0 <= k < |items| => Accounted(items[k], o))
  }

  function Matching(items: seq<Item>, f: Item -> bool, want: bool): seq<Item> {
    if items == [] then []
    else (if f(items[0]) == want then [items[0]] else []) + Matching(items[1..], f, want)
  }

  /** `deliver` returned: every converted group of the batch gets that one outcome. */
  function FinishDelivery(p: Pipe, ok: bool): Pipe
    requires p.flusher.Delivering?
  {
    p.(accounted := p.accounted + Account(p.flusher.ready, if ok then Delivered else DeliveryFailed),
       flusher := Accounting(p.flusher.batch))
  }

  function Took(cfg: Config, p: Pipe): Pipe
    requires p.queue != []
  {
    var q := p.(queue := p.queue[1..], batch := p.batch + [p.queue[0]]);
    if p.accumulator.Running? && |q.batch| >= cfg.size then q.(accumulator := Sending(false)) else q
  }

  function Sent(p: Pipe): Pipe
    requires p.accumulator.Sending?
  {
    p.(flushes := p.flushes + [p.batch], batch := [],
       accumulator := if p.accumulator.last then Closed else Running)
  }

  /** The first half of `flush`: a failed conversion is accounted at once, under its own name. */
  function Converted(cfg: Config, p: Pipe): Pipe
    requires p.flusher.Converting?
  {
    var ready := Matching(p.flusher.batch, cfg.converts, true);
    p.(accounted := p.accounted + Account(Matching(p.flusher.batch, cfg.converts, false), ConversionFailed),
       flusher := if ready == [] then Accounting(p.flusher.batch) else Delivering(p.flusher.batch, ready, 0))
  }

  function Answered(cfg: Config, p: Pipe, accepted: bool): Pipe
    requires p.flusher.Delivering?
  {
    if accepted then FinishDelivery(p.(pushed := p.pushed + p.flusher.ready), true)
    else if p.aborted || p.flusher.attempt >= cfg.maxRetries then FinishDelivery(p, false)
    else p.(flusher := p.flusher.(attempt := p.flusher.attempt + 1))
  }

  function Step(cfg: Config, p: Pipe, e: Event): Pipe
    requires Enabled(cfg, p, e)
  {
    match e
    case Offer(x) => p.(waiting := p.waiting + [x], entered := p.entered + multiset{x})
    case Admit(i) => p.(waiting := Without(p.waiting, i), queue := p.queue + [p.waiting[i]])
    case Cancel(i) => p.(waiting := Without(p.waiting, i), abandoned := p.abandoned + [p.waiting[i]])
    case DropFull(i) =>
      p.(waiting := Without(p.waiting, i), dropped := p.dropped + [p.waiting[i]],
         accounted := p.accounted + [Accounted(p.waiting[i], QueueFull)])
    case DropAck(i) => p.(dropped := Without(p.dropped, i))
    case ReplaySend => p.(replaying := p.replaying[1..], queue := p.queue + [p.replaying[0]])
    case ReplayStop => p.(replaying := [], abandoned := p.abandoned + p.replaying)
    case Stop => p.(stopping := true)
    case Abort => p.(aborted := true)
    case Take => Took(cfg, p)
    case Tick => if p.batch == [] then p else p.(accumulator := Sending(false))
    case SeeStop => p.(accumulator := Draining)
    case Drained => p.(accumulator := if p.batch == [] then Closed else Sending(true))
    case Send => Sent(p)
    case TakeBatch => p.(flushes := p.flushes[1..], flusher := Converting(p.flushes[0]))
    case Convert => Converted(cfg, p)
    case Push(accepted) => Answered(cfg, p, accepted)
    case NoAttempts => FinishDelivery(p, true)
    case BackoffAborted => FinishDelivery(p, false)
    case FlushAck => p.(flusher := Idle)
    case Exit => p.(flusher := Exited)
  }

  // ---- Runs ----

  ghost predicate Runs(cfg: Config, p: Pipe, es: seq<Event>)
    decreases |es|
  {
    es == [] || (Enabled(cfg, p, es[0]) && Runs(cfg, Step(cfg, p, es[0]), es[1..]))
  }

  ghost function After(cfg: Config, p: Pipe, es: seq<Event>): Pipe
    requires Runs(cfg, p, es)
    decreases |es|
  {
    if es == [] then p else After(cfg, Step(cfg, p, es[0]), es[1..])
  }
}
