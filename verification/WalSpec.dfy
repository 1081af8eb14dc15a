/**
  The write-ahead log as a state: what is on disk, what the process holds, what a fresh open would
  recover, and what one `append`, `ack` or compaction makes of them.
 */
module WalSpec {
  import opened Basics
  import opened Alerts
  import opened Framing
  import opened Checkpoint

  const COMPACT_BYTES: nat := 8388608

  /** The two files an open reads; None is a file that does not exist. */
  datatype Disk = Disk(log: Option<seq<byte>>, ckpt: Option<string>)

  /** `w.f`: nil, usable, or kept although closing it failed. */
  datatype Handle = Nil | Open | Stale

  datatype Mem = Mem(
    handle: Handle,
    size: nat,
    seqNo: u64,
    checkpoint: u64,
    acked: set<u64>,
    pending: seq<Record>)

  /** Acknowledged numbers wait above the checkpoint, and the one right above it is not among them. */
  ghost predicate Settled(m: Mem) {
    && (forall n :: n in m.acked ==> n > m.checkpoint)
    && (m.checkpoint + 1 < TWO_TO_64 ==> m.checkpoint + 1 !in m.acked)
  }

  // ---- What is on disk ----

  function LogBytes(d: Disk): seq<byte> {
    if d.log.Some? then d.log.value else []
  }

  function OnDisk(c: Codec, d: Disk): Scan {
    Parse(c, LogBytes(d))
  }

  /** `readCheckpoint`; None when the file is there but holds no number. */
  function DurableCheckpoint(d: Disk): Option<u64> {
    match d.ckpt
    case None => Some(0)
    case Some(text) => ScanUint64(text)
  }

  /** The log ends with a whole frame. */
  predicate TailClean(c: Codec, d: Disk) {
    OnDisk(c, d).consumed == |LogBytes(d)|
  }

  /** The greatest sequence number among the records, 0 when there are none. */
  function Greatest(rs: seq<Record>): (g: u64)
    ensures forall i :: 0 <= i < |rs| ==> rs[i].seqNo <= g
    ensures rs != [] ==> exists i :: 0 <= i < |rs| && rs[i].seqNo == g
    ensures rs == [] ==> g == 0
  {
    if rs == [] then 0
    else
      var g := Greatest(rs[1..]);
      assert forall i :: 1 <= i < |rs| ==> rs[i] == rs[1..][i - 1];
      if rs[0].seqNo > g then rs[0].seqNo else
        assert rs[1..] != [] ==> exists i :: 0 <= i < |rs[1..]| && rs[1..][i].seqNo == g && rs[i + 1].seqNo == g;
        g
  }

  /** The records past a checkpoint, in order. */
  function Above(rs: seq<Record>, checkpoint: u64): seq<Record> {
    if rs == [] then []
    else if rs[0].seqNo > checkpoint then [rs[0]] + Above(rs[1..], checkpoint)
    else Above(rs[1..], checkpoint)
  }

  // ---- What a fresh open finds ----

  datatype Recovery = Recovery(seqNo: u64, checkpoint: u64, pending: seq<Record>)

  /** What `openWAL` would come up with on these files; None when the checkpoint file is unreadable. */
  function Recovered(c: Codec, d: Disk): Option<Recovery> {
    match DurableCheckpoint(d)
    case None => None
    case Some(cp) =>
      var rs := OnDisk(c, d).records;
      Some(Recovery(Greatest(rs), cp, Above(rs, cp)))
  }

  // ---- Acknowledgement ----

  /** The end of the run of consecutive numbers that starts right above `checkpoint` in `s`. */
  function RunEnd(checkpoint: u64, s: set<u64>): (m: u64)
    ensures checkpoint <= m
    decreases TWO_TO_64 - checkpoint
  {
    if checkpoint + 1 < TWO_TO_64 && checkpoint + 1 in s then RunEnd(checkpoint + 1, s) else checkpoint
  }

  function NumbersAbove(s: set<u64>, checkpoint: u64): set<u64> {
    set n | n in s && n > checkpoint
  }

  function ToSet(s: seq<u64>): set<u64> {
    set n | n in s
  }

  datatype AckView = AckView(checkpoint: u64, acked: set<u64>)

  /** The in-memory effect of acknowledging the numbers in `s`. */
  function Acked(v: AckView, s: set<u64>): AckView {
    var all := v.acked + NumbersAbove(s, v.checkpoint);
    var end := RunEnd(v.checkpoint, all);
    AckView(end, NumbersAbove(all, end))
  }

  // ---- One operation on the whole state ----

  datatype State = State(disk: Disk, mem: Mem)

  /** How the operating system answers the write and the sync of an `append`. */
  datatype AppendIo = Written | WriteFails(bytes: nat) | SyncFails

  datatype AppendError = Closed | Unmarshalable | TooLarge | WriteError | SyncError

  function Extend(d: Disk, bytes: seq<byte>): Disk {
    d.(log := Some(LogBytes(d) + bytes))
  }

  /** What a failed write leaves of the frame: any beginning of it, less than all. */
  function Partial(frame: seq<byte>, bytes: nat): (p: seq<byte>)
    ensures p <= frame && (frame != [] ==> |p| < |frame|)
    ensures bytes < |frame| ==> |p| == bytes
  {
    if bytes < |frame| then frame[..bytes] else if frame == [] then [] else frame[..|frame| - 1]
  }

  /** The record that the next `append` would write. */
  function NextRecord(m: Mem, group: AlertGroup, extraLabels: Labels, receivedAt: Instant): Record {
    Record(Inc(m.seqNo), group, extraLabels, receivedAt)
  }

  /** The error `append` returns, or None when it accepts `r`. */
  function AppendRejects(c: Codec, m: Mem, r: Record, io: AppendIo): Option<AppendError> {
    if m.handle == Nil then Some(Closed)
    else if c.encode(r).None? then Some(Unmarshalable)
    else if !Encodable(c, r) then Some(TooLarge)
    else if m.handle == Stale || io.WriteFails? then Some(WriteError)
    else if io.SyncFails? then Some(SyncError)
    else None
  }

  /** The bytes `append` puts at the end of the log. */
  function AppendWrites(c: Codec, m: Mem, r: Record, io: AppendIo): seq<byte> {
    if m.handle != Open || !Encodable(c, r) then []
    else if io.WriteFails? then Partial(FrameOf(c, r), io.bytes)
    else FrameOf(c, r)
  }

  /** The state after `append` was called for `r`. */
  function Appended(c: Codec, s: State, r: Record, io: AppendIo): State {
    var wrote := s.mem.handle == Open && Encodable(c, r);
    State(if wrote then Extend(s.disk, AppendWrites(c, s.mem, r, io)) else s.disk,
          if AppendRejects(c, s.mem, r, io).Some? then s.mem
          else s.mem.(seqNo := r.seqNo, size := s.mem.size + |FrameOf(c, r)|))
  }

  /** What an open of these files comes up with. */
  function AfterOpen(c: Codec, d: Disk): State
    requires Recovered(c, d).Some?
  {
    var found := Recovered(c, d).value;
    State(Extend(d, []), Mem(Open, OnDisk(c, d).consumed, found.seqNo, found.checkpoint, {}, found.pending))
  }

  /** The same once the replay has taken the pending records. */
  function Reopened(c: Codec, d: Disk): State
    requires Recovered(c, d).Some?
  {
    var s := AfterOpen(c, d);
    s.(mem := s.mem.(pending := []))
  }

  /** The memory after `close`. */
  function AfterClose(m: Mem): Mem {
    if m.handle == Nil then m else m.(handle := Nil, size := 0)
  }

  /** How the operating system answers the two steps of `writeCheckpoint`. */
  datatype CkptIo = CkptWritten | CkptWriteFails(bytes: nat) | CkptRenameFails

  /** The call inside `compactLocked` that fails first, if any. */
  datatype CompactIo =
    | Compacted
    | CompactReadFails
    | CompactCreateFails
    | CompactWriteFails(at: nat)
    | CompactSyncFails
    | CompactCloseFails
    | CompactRenameFails
    | CompactReopenFails

  /** The records compaction keeps. */
  function Survivors(c: Codec, s: State): seq<Record> {
    Above(OnDisk(c, s.disk).records, s.mem.checkpoint)
  }

  /** Whether the compacted copy is completed, synced and takes the place of the log. */
  predicate CompactionSwaps(c: Codec, s: State, io: CompactIo) {
    && s.mem.handle == Open
    && AllEncodable(c, Survivors(c, s))
    && (io.Compacted? || io.CompactReopenFails?)
  }

  /** The log handle after an attempt to compact. */
  function HandleAfterCompact(c: Codec, s: State, io: CompactIo): Handle {
    if s.mem.handle == Nil then Nil
    else if io.CompactReadFails? || io.CompactCreateFails? || !AllEncodable(c, Survivors(c, s))
         || io.CompactWriteFails? || io.CompactSyncFails? then s.mem.handle
    else if s.mem.handle == Stale || io.CompactCloseFails? then Stale
    else if io.Compacted? then Open
    else Nil
  }

  /** The disk after an attempt to compact. */
  function DiskAfterCompact(c: Codec, s: State, io: CompactIo): Disk {
    if CompactionSwaps(c, s, io) then s.disk.(log := Some(Log(c, Survivors(c, s)))) else s.disk
  }

  /** The bookkeeping after an attempt to compact: `size` follows the log only on full success. */
  function MemAfterCompact(c: Codec, s: State, io: CompactIo): Mem {
    s.mem.(
      handle := HandleAfterCompact(c, s, io),
      size := if CompactionSwaps(c, s, io) && io.Compacted? then |Log(c, Survivors(c, s))| else s.mem.size)
  }

  /** The states of the disk that a crash while `bytes` are appended to the log can leave. */
  function Growing(d: Disk, bytes: seq<byte>): (g: seq<Disk>)
    ensures |g| == |bytes| + 1
    ensures forall k :: 0 <= k < |g| ==> g[k] == Extend(d, bytes[..k])
  {
    seq(|bytes| + 1, k requires 0 <= k <= |bytes| => Extend(d, bytes[..k]))
  }

  // ---- The whole of `ack` ----

  /** The state when `ack` has done its bookkeeping and before it touches the disk. */
  function Advance(m: Mem, seqs: set<u64>): Mem {
    var v := Acked(AckView(m.checkpoint, m.acked), seqs);
    m.(checkpoint := v.checkpoint, acked := v.acked)
  }

  /** The state when the checkpoint in memory has been persisted and a large log compacted. */
  function Persisted(c: Codec, s: State, io: CkptIo, compactIo: CompactIo): State {
    if !io.CkptWritten? then s
    else
      var written := State(s.disk.(ckpt := Some(Decimal(s.mem.checkpoint))), s.mem);
      if s.mem.size > COMPACT_BYTES then
        State(DiskAfterCompact(c, written, compactIo), MemAfterCompact(c, written, compactIo))
      else written
  }

  function Ack(c: Codec, s: State, seqs: set<u64>, io: CkptIo, compactIo: CompactIo): State {
    var m := Advance(s.mem, seqs);
    if m.checkpoint == s.mem.checkpoint then State(s.disk, m) else Persisted(c, State(s.disk, m), io, compactIo)
  }

  /** The disk between the rename of the checkpoint and the end of `ack`. */
  function MidAck(s: State, seqs: set<u64>, io: CkptIo): Disk {
    var m := Advance(s.mem, seqs);
    if m.checkpoint == s.mem.checkpoint || !io.CkptWritten? then s.disk
    else s.disk.(ckpt := Some(Decimal(m.checkpoint)))
  }

  /** The states of the disk that a crash inside `ack` can leave. */
  function AckCrashes(c: Codec, s: State, seqs: set<u64>, io: CkptIo, compactIo: CompactIo): set<Disk> {
    {s.disk, MidAck(s, seqs, io), Ack(c, s, seqs, io, compactIo).disk}
  }

  /** The states of the disk that a crash inside `append` can leave, when it writes at all. */
  function AppendCrashes(c: Codec, s: State, r: Record, io: AppendIo): seq<Disk> {
    if s.mem.handle == Open && Encodable(c, r) then Growing(s.disk, AppendWrites(c, s.mem, r, io)) else []
  }

  /** How the operating system answers the sync and the close of `close`. */
  datatype CloseIo = CloseIo(syncFails: bool, closeFails: bool)

  datatype CloseError = FinalSyncError | FileCloseError

  /** The error `close` returns: the sync's before the close's, none when there is nothing to close. */
  function CloseReturns(h: Handle, io: CloseIo): Option<CloseError> {
    match h
    case Nil => None
    case Stale => Some(FinalSyncError)
    case Open =>
      if io.syncFails then Some(FinalSyncError) else if io.closeFails then Some(FileCloseError) else None
  }
}
