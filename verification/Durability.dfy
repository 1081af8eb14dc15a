/**
  The write-ahead log and the pipeline together, over any number of process lives: every run of
  enqueues, pipeline steps, acknowledgements, compactions, crashes at any point, and restarts.
 */
module Durability {
  import opened Basics
  import opened Alerts
  import opened Framing
  import opened WalSpec
  import opened Pipeline
  import opened PipelineProofs

  /** A running process. */
  datatype Process = Process(mem: Mem, pipe: Pipe)

  /**
    The disk, the process if one is running, and history: `logged` lists every record whose frame is
    whole on disk, record n at index n - 1; `accepted` holds the numbers whose `append` returned;
    `terminal` those with a recorded outcome.
   */
  datatype World = World(
    disk: Disk,
    proc: Option<Process>,
    logged: seq<Record>,
    accepted: set<u64>,
    terminal: set<u64>)

  datatype Setup = Setup(codec: Codec, cfg: Config)

  /** How far an acknowledgement gets before the process dies. */
  datatype AckReach = BeforeCheckpoint | AfterCheckpoint | AfterCompaction

  datatype Happening =
    | Startup
    | Enqueue(group: AlertGroup, extraLabels: Labels, receivedAt: Instant, writeIo: AppendIo)
    | Work(e: Event, io: CkptIo, compactIo: CompactIo)
    | CloseLog
    | Crash
    | CrashInAppend(group: AlertGroup, extraLabels: Labels, receivedAt: Instant, bytes: nat)
    | CrashInAck(e: Event, io: CkptIo, compactIo: CompactIo, reach: AckReach)

  function NumbersOf(items: seq<Item>): set<u64> {
    set x | x in items :: x.seqNo
  }

  predicate Acknowledges(e: Event) {
    e.DropAck? || e.FlushAck?
  }

  /** The write-ahead log after the acknowledgement that event `e` makes. */
  function AfterAck(s: Setup, w: World, e: Event, io: CkptIo, compactIo: CompactIo): State
    requires w.proc.Some?
  {
    WalSpec.Ack(s.codec, State(w.disk, w.proc.value.mem), NumbersOf(Released(w.proc.value.pipe, e)), io, compactIo)
  }

  /** The disk between the rename of the checkpoint and the end of the acknowledgement. */
  function CheckpointedDisk(s: Setup, w: World, e: Event, io: CkptIo): Disk
    requires w.proc.Some?
  {
    MidAck(State(w.disk, w.proc.value.mem), NumbersOf(Released(w.proc.value.pipe, e)), io)
  }

  /**
    The conditions under which the log can take one more record: the file ends with a whole frame,
    numbering has not fallen behind the checkpoint, and numbers have not run out.
   */
  predicate CanTakeRecord(c: Codec, d: Disk, m: Mem) {
    TailClean(c, d) && m.checkpoint <= m.seqNo < TWO_TO_64 - 1
  }

  /** The run hypotheses: what is written goes to a log that can take it, and is written and synced. */
  predicate Allowed(s: Setup, w: World, h: Happening) {
    match h
    case Startup => w.proc.None? && Recovered(s.codec, w.disk).Some?
    case Enqueue(group, extraLabels, receivedAt, io) =>
      && w.proc.Some?
      && var m := w.proc.value.mem;
         (m.handle == Open && Encodable(s.codec, NextRecord(m, group, extraLabels, receivedAt)) ==>
           io.Written? && CanTakeRecord(s.codec, w.disk, m))
    case Work(e, _, _) => w.proc.Some? && !e.Offer? && Enabled(s.cfg, w.proc.value.pipe, e)
    case CloseLog => w.proc.Some? && w.proc.value.pipe.stopping
    case Crash => w.proc.Some?
    case CrashInAppend(group, extraLabels, receivedAt, bytes) =>
      && w.proc.Some?
      && var m := w.proc.value.mem;
         var r := NextRecord(m, group, extraLabels, receivedAt);
         && m.handle == Open && Encodable(s.codec, r) && bytes <= |FrameOf(s.codec, r)|
         && CanTakeRecord(s.codec, w.disk, m)
    case CrashInAck(e, _, _, _) =>
      w.proc.Some? && Acknowledges(e) && Enabled(s.cfg, w.proc.value.pipe, e)
  }

  function AfterEnqueue(s: Setup, w: World, r: Record, io: AppendIo): World
    requires w.proc.Some?
  {
    var p := w.proc.value;
    if AppendRejects(s.codec, p.mem, r, io).Some? then w
    else
      var t := Appended(s.codec, State(w.disk, p.mem), r, io);
      World(t.disk, Some(p.(mem := t.mem, pipe := Step(s.cfg, p.pipe, Offer(r)))),
            w.logged + [r], w.accepted + {r.seqNo}, w.terminal)
  }

  function AfterWork(s: Setup, w: World, e: Event, io: CkptIo, compactIo: CompactIo): World
    requires w.proc.Some? && Enabled(s.cfg, w.proc.value.pipe, e)
  {
    var p := w.proc.value;
    var pipe := Step(s.cfg, p.pipe, e);
    if Acknowledges(e) then
      var t := AfterAck(s, w, e, io, compactIo);
      w.(disk := t.disk, proc := Some(Process(t.mem, pipe)))
    else
      w.(proc := Some(p.(pipe := pipe)), terminal := w.terminal + NumbersOf(Items(Adds(s.cfg, p.pipe, e))))
  }

  function AfterStartup(s: Setup, w: World): World
    requires Recovered(s.codec, w.disk).Some?
  {
    var begun := AfterOpen(s.codec, w.disk);
    w.(disk := begun.disk,
       proc := Some(Process(begun.mem.(pending := []), Initial(begun.mem.pending))))
  }

  function Happens(s: Setup, w: World, h: Happening): World
    requires Allowed(s, w, h)
  {
    match h
    case Startup => AfterStartup(s, w)
    case Enqueue(group, extraLabels, receivedAt, io) =>
      AfterEnqueue(s, w, NextRecord(w.proc.value.mem, group, extraLabels, receivedAt), io)
    case Work(e, io, compactIo) => AfterWork(s, w, e, io, compactIo)
    case CloseLog =>
      var p := w.proc.value;
      w.(proc := Some(p.(mem := AfterClose(p.mem))))
    case Crash => w.(proc := None)
    case CrashInAppend(group, extraLabels, receivedAt, bytes) =>
      var r := NextRecord(w.proc.value.mem, group, extraLabels, receivedAt);
      w.(disk := Extend(w.disk, FrameOf(s.codec, r)[..bytes]), proc := None,
         logged := if bytes == |FrameOf(s.codec, r)| then w.logged + [r] else w.logged)
    case CrashInAck(e, io, compactIo, reach) =>
      w.(proc := None,
         disk := match reach
                 case BeforeCheckpoint => w.disk
                 case AfterCheckpoint => CheckpointedDisk(s, w, e, io)
                 case AfterCompaction => AfterAck(s, w, e, io, compactIo).disk)
  }

  const EmptyDirectory := World(Disk(None, None), None, [], {}, {})

  ghost predicate History(s: Setup, w: World, hs: seq<Happening>)
    decreases |hs|
  {
    hs == [] || (Allowed(s, w, hs[0]) && History(s, Happens(s, w, hs[0]), hs[1..]))
  }

  ghost function WorldAfter(s: Setup, w: World, hs: seq<Happening>): World
    requires History(s, w, hs)
    decreases |hs|
  {
    if hs == [] then w else WorldAfter(s, Happens(s, w, hs[0]), hs[1..])
  }

  // ---- What every world satisfies ----

  predicate Numbered(logged: seq<Record>) {
    |logged| < TWO_TO_64 && forall i :: 0 <= i < |logged| ==> logged[i].seqNo == i + 1
  }

  predicate IsLogged(logged: seq<Record>, x: Item) {
    1 <= x.seqNo <= |logged| && logged[x.seqNo - 1] == x
  }

  /** The log holds the records from some point at or below the durable checkpoint on, in order. */
  ghost predicate HoldsFrom(c: Codec, d: Disk, logged: seq<Record>, j: nat) {
    && DurableCheckpoint(d).Some?
    && j <= DurableCheckpoint(d).value <= |logged|
    && OnDisk(c, d).records == logged[j..]
  }

  ghost predicate DiskHolds(c: Codec, d: Disk, logged: seq<Record>, terminal: set<u64>) {
    && (exists j: nat :: HoldsFrom(c, d, logged, j))
    && (forall n: u64 :: 1 <= n <= DurableCheckpoint(d).value ==> n in terminal)
  }

  /** Still owed by this process: logged, not acknowledged, not left behind. */
  predicate Owed(logged: seq<Record>, m: Mem, abandoned: seq<Item>, x: Item) {
    IsLogged(logged, x) && x.seqNo > m.checkpoint && x.seqNo !in m.acked && x !in abandoned
  }

  /** The pipeline holds each owed record once, and nothing else. */
  ghost predicate Ledger(logged: seq<Record>, m: Mem, p: Pipe) {
    forall x: Item :: Held(p, x) == if Owed(logged, m, p.abandoned, x) then 1 else 0
  }

  ghost predicate MemHolds(m: Mem, logged: seq<Record>, terminal: set<u64>) {
    && Settled(m)
    && m.checkpoint <= |logged|
    && (m.seqNo == |logged| || m.seqNo < m.checkpoint == |logged|)
    && (forall n: u64 :: n in m.acked ==> n <= |logged| && n in terminal)
    && (forall n: u64 :: 1 <= n <= m.checkpoint ==> n in terminal)
  }

  /** What was left behind stays above the checkpoint and unacknowledged. */
  ghost predicate AbandonedPins(logged: seq<Record>, m: Mem, abandoned: seq<Item>) {
    forall x :: x in abandoned ==> IsLogged(logged, x) && x.seqNo > m.checkpoint && x.seqNo !in m.acked
  }

  /** Whatever awaits its acknowledgement has its outcome on record. */
  ghost predicate OutcomesFirst(cfg: Config, p: Pipe, terminal: set<u64>) {
    && (forall x :: x in p.dropped ==> x.seqNo in terminal)
    && (p.flusher.Accounting? ==> forall x :: x in p.flusher.batch ==> x.seqNo in terminal)
    && (p.flusher.Delivering? ==> forall x :: x in p.flusher.batch && !cfg.converts(x) ==> x.seqNo in terminal)
  }

  ghost predicate ProcHolds(s: Setup, w: World, p: Process) {
    && MemHolds(p.mem, w.logged, w.terminal)
    && Shaped(s.cfg, p.pipe)
    && Ledger(w.logged, p.mem, p.pipe)
    && AbandonedPins(w.logged, p.mem, p.pipe.abandoned)
    && OutcomesFirst(s.cfg, p.pipe, w.terminal)
    && DurableCheckpoint(w.disk).Some?
    && DurableCheckpoint(w.disk).value <= p.mem.checkpoint
  }

  ghost predicate Holds(s: Setup, w: World) {
    && Numbered(w.logged)
    && DiskHolds(s.codec, w.disk, w.logged, w.terminal)
    && (forall n: u64 :: n in w.accepted ==> 1 <= n <= |w.logged|)
    && (w.proc.Some? ==> ProcHolds(s, w, w.proc.value))
  }
}
