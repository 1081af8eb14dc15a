/** The write-ahead log itself. Every method runs under the log's mutex, so each is one atomic step. */
module WriteAheadLog {
  import opened Basics
  import opened Alerts
  import opened Framing
  import opened FramingProofs
  import opened Checkpoint
  import opened WalSpec
  import opened WalProofs
  import opened Directory

  datatype OpenError = MkdirError | CheckpointError | LogReadError | LogOpenError

  /** The system call inside `openWAL` that fails first, if any. */
  datatype OpenIo = Opened | MkdirFails | CheckpointReadFails | LogReadFails | LogOpenFails

  class Wal {
    const codec: Codec
    const dir: Dir
    var handle: Handle
    var size: nat
    var seqNo: u64
    var checkpoint: u64
    var acked: set<u64>
    var pending: seq<Record>

    ghost function Memory(): Mem
      reads this
    {
      Mem(handle, size, seqNo, checkpoint, acked, pending)
    }

    ghost function View(): State
      reads this, dir
    {
      State(dir.disk, Memory())
    }

    /** Only numbers above the checkpoint wait for the run to reach them. */
    ghost predicate Sorted()
      reads this
    {
      forall n :: n in acked ==> n > checkpoint
    }

    /** And the run has been followed to its end. */
    ghost predicate Valid()
      reads this
    {
      Settled(Memory())
    }

    /** The struct literal of `openWAL`. */
    constructor (codec: Codec, dir: Dir, size: nat, seqNo: u64, checkpoint: u64, pending: seq<Record>)
      ensures this.codec == codec && this.dir == dir
      ensures Memory() == Mem(Open, size, seqNo, checkpoint, {}, pending) && Valid()
    {
      this.codec, this.dir, this.size := codec, dir, size;
      this.seqNo, this.checkpoint, this.pending := seqNo, checkpoint, pending;
      this.handle, this.acked := Open, {};
    }

    /** Opens the log: what it comes up with is what `Recovered` says the disk holds. */
    static method OpenWal(codec: Codec, dir: Dir, io: OpenIo) returns (r: Result<Wal, OpenError>)
      modifies dir
      ensures dir.exposed == old(dir.exposed) + if r.Ok? then [dir.disk] else []
      ensures r.Ok? <==> io.Opened? && DurableCheckpoint(old(dir.disk)).Some?
      ensures r == Err(CheckpointError) <==>
        io.CheckpointReadFails? || (!io.MkdirFails? && DurableCheckpoint(old(dir.disk)).None?)
      ensures r.Ok? ==> fresh(r.value) && r.value.codec == codec && r.value.dir == dir && r.value.Valid()
      ensures r.Ok? ==> r.value.View() == AfterOpen(codec, old(dir.disk))
      ensures r.Err? ==> dir.disk == old(dir.disk)
    {
      if io.MkdirFails? {
        return Err(MkdirError);
      }
      var checkpoint := DurableCheckpoint(dir.disk);
      if io.CheckpointReadFails? || checkpoint.None? {
        return Err(CheckpointError);
      }
      if io.LogReadFails? {
        return Err(LogReadError);
      }
      var records, size := ReadRecords(codec, LogBytes(dir.disk));
      if io.LogOpenFails? {
        return Err(LogOpenError);
      }
      dir.OpenLog();

      var seqNo, pending := Load(records, checkpoint.value);
      var log := new Wal(codec, dir, size, seqNo, checkpoint.value, pending);
      return Ok(log);
    }

    /** The loop of `openWAL` over the records found. */
    static method Load(records: seq<Record>, checkpoint: u64) returns (seqNo: u64, pending: seq<Record>)
      ensures seqNo == Greatest(records) && pending == Above(records, checkpoint)
    {
      seqNo, pending := 0, [];
      for i := 0 to |records|
        invariant seqNo == Greatest(records[..i]) && pending == Above(records[..i], checkpoint)
      {
        GreatestOfNext(records, i);
        AboveOfNext(records, i, checkpoint);
        var rec := records[i];
        if rec.seqNo > seqNo {
          seqNo := rec.seqNo;
        }
        if rec.seqNo > checkpoint {
          pending := pending + [rec];
        }
      }
      assert records[..|records|] == records;
    }

    /** Hands over the records to replay, once. */
    method Recover() returns (out: seq<Record>)
      modifies this`pending
      ensures out == old(pending) && Memory() == old(Memory()).(pending := [])
    {
      out := pending;
      pending := [];
    }

    /** Appends one record; sequence numbers stay gap-free across every rejected append. */
    method Append(group: AlertGroup, extraLabels: Labels, receivedAt: Instant, io: AppendIo)
      returns (r: Result<u64, AppendError>)
      requires Valid()
      modifies this`seqNo, this`size, dir`disk, dir`exposed
      ensures Valid()
      ensures var rec := NextRecord(old(Memory()), group, extraLabels, receivedAt);
        var rejects := AppendRejects(codec, old(Memory()), rec, io);
        && r == (if rejects.Some? then Err(rejects.value) else Ok(rec.seqNo))
        && View() == Appended(codec, old(View()), rec, io)
        && dir.exposed == old(dir.exposed) + AppendCrashes(codec, old(View()), rec, io)
      ensures var rec := Record(Inc(old(seqNo)), group, extraLabels, receivedAt);
        && (r.Ok? <==> old(handle) == Open && Encodable(codec, rec) && io.Written?)
        && (r.Ok? ==> r.value == seqNo == rec.seqNo
                      && LogBytes(dir.disk) == LogBytes(old(dir.disk)) + FrameOf(codec, rec))
        && (r.Err? ==> Memory() == old(Memory()))
        && (r == Err(Closed) <==> old(handle) == Nil)
        && (r == Err(Unmarshalable) <==> old(handle) != Nil && codec.encode(rec).None?)
        && (r == Err(TooLarge) <==>
              old(handle) != Nil && codec.encode(rec).Some? && |codec.encode(rec).value| > 8 * 1024 * 1024)
    {
      if handle == Nil {
        return Err(Closed);
      }
      seqNo := Inc(seqNo);
      var rec := Record(seqNo, group, extraLabels, receivedAt);
      var body := codec.encode(rec);
      if body.None? {
        seqNo := Dec(seqNo);
        return Err(Unmarshalable);
      }
      if |body.value| > MAX_RECORD_LEN {
        seqNo := Dec(seqNo);
        return Err(TooLarge);
      }
      var frame := Frame(body.value);
      if handle == Stale {
        seqNo := Dec(seqNo);
        return Err(WriteError);
      }
      if io.WriteFails? {
        dir.AppendLog(Partial(frame, io.bytes));
        seqNo := Dec(seqNo);
        return Err(WriteError);
      }
      dir.AppendLog(frame);
      if io.SyncFails? {
        seqNo := Dec(seqNo);
        return Err(SyncError);
      }
      size := size + |frame|;
      return Ok(seqNo);
    }

    /** Marks numbers as terminal, advances and persists the checkpoint, compacts a log grown large. */
    method Ack(seqs: seq<u64>, io: CkptIo, compactIo: CompactIo) returns (ok: bool)
      requires Valid()
      modifies this`handle, this`size, this`checkpoint, this`acked, dir
      ensures Valid()
      ensures View() == WalSpec.Ack(codec, old(View()), ToSet(seqs), io, compactIo)
      ensures ok <==> checkpoint == old(checkpoint) || io.CkptWritten?
      ensures old(dir.exposed) <= dir.exposed
      ensures forall i :: |old(dir.exposed)| <= i < |dir.exposed| ==>
        dir.exposed[i] in AckCrashes(codec, old(View()), ToSet(seqs), io, compactIo)
    {
      if |seqs| == 0 {
        AckNothing(codec, View(), io, compactIo);
        assert ToSet(seqs) == {};
        return true;
      }
      MarkAcked(seqs);
      var advanced := AdvanceCheckpoint();
      if !advanced {
        return true;
      }
      ok := Persist(io, compactIo);
    }

    /** The disk half of `Ack`: the checkpoint first, then the log if it has grown large. */
    method Persist(io: CkptIo, compactIo: CompactIo) returns (ok: bool)
      modifies this`handle, this`size, dir
      ensures View() == Persisted(codec, old(View()), io, compactIo)
      ensures ok <==> io.CkptWritten?
      ensures old(dir.exposed) <= dir.exposed
      ensures var mid := old(dir.disk).(ckpt := if ok then Some(Decimal(checkpoint)) else old(dir.disk).ckpt);
        forall i :: |old(dir.exposed)| <= i < |dir.exposed| ==> dir.exposed[i] in {old(dir.disk), mid, dir.disk}
    {
      ok := WriteCheckpoint(io);
      if !ok {
        return;
      }
      if size > COMPACT_BYTES {
        var _ := Compact(compactIo);
      }
    }

    method MarkAcked(seqs: seq<u64>)
      requires Sorted()
      modifies this`acked
      ensures Sorted() && acked == old(acked) + NumbersAbove(ToSet(seqs), checkpoint)
    {
      for i := 0 to |seqs|
        invariant acked == old(acked) + NumbersAbove(ToSet(seqs[..i]), checkpoint)
      {
        var s := seqs[i];
        assert ToSet(seqs[..i + 1]) == ToSet(seqs[..i]) + {s};
        if s > checkpoint {
          acked := acked + {s};
        }
      }
      assert seqs[..|seqs|] == seqs;
    }

    /** The loop that walks the checkpoint up the contiguous run; it ends because `acked` shrinks. */
    method AdvanceCheckpoint() returns (advanced: bool)
      requires Sorted()
      modifies this`checkpoint, this`acked
      ensures Valid()
      ensures checkpoint == RunEnd(old(checkpoint), old(acked)) && acked == NumbersAbove(old(acked), checkpoint)
      ensures advanced <==> checkpoint != old(checkpoint)
    {
      advanced := false;
      while Inc(checkpoint) in acked
        invariant Sorted()
        invariant old(checkpoint) <= checkpoint
        invariant RunEnd(old(checkpoint), old(acked)) == RunEnd(checkpoint, old(acked))
        invariant acked == NumbersAbove(old(acked), checkpoint)
        invariant advanced <==> checkpoint != old(checkpoint)
        decreases acked
      {
        checkpoint := Inc(checkpoint);
        acked := acked - {checkpoint};
        advanced := true;
      }
    }

    /** Persists the checkpoint through a temporary file; only the rename is visible to an open. */
    method WriteCheckpoint(io: CkptIo) returns (ok: bool)
      modifies dir
      ensures ok <==> io.CkptWritten?
      ensures dir.disk == if ok then old(dir.disk).(ckpt := Some(Decimal(checkpoint))) else old(dir.disk)
      ensures old(dir.exposed) <= dir.exposed
      ensures forall i :: |old(dir.exposed)| <= i < |dir.exposed| ==> dir.exposed[i] in {old(dir.disk), dir.disk}
    {
      var text := Decimal(checkpoint);
      match io {
        case CkptWriteFails(n) =>
          dir.PutCkptTmp(if n < |text| then text[..n] else text);
          return false;
        case CkptRenameFails =>
          dir.PutCkptTmp(text);
          return false;
        case CkptWritten =>
          dir.PutCkptTmp(text);
          dir.RenameCkptTmp();
          return true;
      }
    }

    /**
      Rewrites the log without the acknowledged records. When the checkpoint on disk is the one in
      memory, a crash at any point of it recovers the same records in the same order.
     */
    method Compact(io: CompactIo) returns (ok: bool)
      modifies this`handle, this`size, dir`disk, dir`logTmp, dir`exposed
      ensures dir.disk == DiskAfterCompact(codec, old(View()), io)
      ensures Memory() == MemAfterCompact(codec, old(View()), io)
      ensures old(dir.exposed) <= dir.exposed
      ensures forall i :: |old(dir.exposed)| <= i < |dir.exposed| ==> dir.exposed[i] in {old(dir.disk), dir.disk}
      ensures ok <==> CompactionSwaps(codec, old(View()), io) && io.Compacted?
      ensures ok ==> handle == Open && size == |LogBytes(dir.disk)|
      ensures RoundTrips(codec) && DurableCheckpoint(old(dir.disk)) == Some(old(checkpoint)) ==>
        forall i :: |old(dir.exposed)| <= i < |dir.exposed| ==> RecoversLike(codec, old(dir.disk), dir.exposed[i])
    {
      if RoundTrips(codec) && DurableCheckpoint(dir.disk) == Some(checkpoint) {
        CompactedRecoversLike(codec, View(), io);
      }
      hide RecoversLike, RoundTrips;
      ok := Rewrite(io);
    }

    /** The rewrite itself, through a temporary copy that takes the log's place in one rename. */
    method Rewrite(io: CompactIo) returns (ok: bool)
      modifies this`handle, this`size, dir`disk, dir`logTmp, dir`exposed
      ensures dir.disk == DiskAfterCompact(codec, old(View()), io)
      ensures Memory() == MemAfterCompact(codec, old(View()), io)
      ensures ok <==> CompactionSwaps(codec, old(View()), io) && io.Compacted?
      ensures ok ==> handle == Open && size == |LogBytes(dir.disk)|
      ensures old(dir.exposed) <= dir.exposed
      ensures forall i :: |old(dir.exposed)| <= i < |dir.exposed| ==> dir.exposed[i] in {old(dir.disk), dir.disk}
    {
      if handle == Nil || io.CompactReadFails? {
        return false;
      }
      var records, _ := ReadRecords(codec, LogBytes(dir.disk));
      if io.CompactCreateFails? {
        return false;
      }
      var newSize := CopySurvivors(records, if io.CompactWriteFails? then Some(io.at) else None);
      if newSize.None? || io.CompactSyncFails? {
        dir.PutLogTmp(None);
        return false;
      }
      if handle == Stale || io.CompactCloseFails? {
        handle := Stale;
        return false;
      }
      handle := Nil;
      if io.CompactRenameFails? {
        return false;
      }
      dir.RenameLogTmp();
      if io.CompactReopenFails? {
        return false;
      }
      handle := Open;
      size := newSize.value;
      return true;
    }

    /** Fills the compaction copy; None when a record cannot be written, at `failAt` or because it is not encodable. */
    method CopySurvivors(records: seq<Record>, failAt: Option<nat>) returns (newSize: Option<nat>)
      modifies dir`logTmp, dir`exposed
      ensures newSize.Some? <==> failAt.None? && AllEncodable(codec, Above(records, checkpoint))
      ensures newSize.Some? ==>
        var copy := Framing.Log(codec, Above(records, checkpoint));
        dir.logTmp == Some(copy) && newSize.value == |copy|
      ensures old(dir.exposed) <= dir.exposed
      ensures forall i :: |old(dir.exposed)| <= i < |dir.exposed| ==> dir.exposed[i] == dir.disk
    {
      dir.PutLogTmp(Some([]));
      newSize := Some(0);
      var copied: seq<byte> := [];
      for i := 0 to |records|
        invariant AllEncodable(codec, Above(records[..i], checkpoint))
        invariant copied == Framing.Log(codec, Above(records[..i], checkpoint))
        invariant newSize == Some(|copied|) && dir.logTmp == Some(copied)
        invariant old(dir.exposed) <= dir.exposed
        invariant forall k :: |old(dir.exposed)| <= k < |dir.exposed| ==> dir.exposed[k] == dir.disk
      {
        AboveOfNext(records, i, checkpoint);
        var rec := records[i];
        if rec.seqNo > checkpoint {
          if failAt == Some(i) {
            return None;
          }
          if !Encodable(codec, rec) {
            AboveIsSubset(records, checkpoint);
            assert rec in Above(records, checkpoint);
            return None;
          }
          LogOfNext(codec, Above(records[..i], checkpoint), rec);
          copied := copied + FrameOf(codec, rec);
          dir.PutLogTmp(Some(copied));
          newSize := Some(|copied|);
        }
      }
      assert records[..|records|] == records;
      if failAt.Some? {
        return None;
      }
    }

    /** Releases the file; `size` drops to zero so a late `ack` cannot start a compaction. */
    method Close(io: CloseIo) returns (e: Option<CloseError>)
      modifies this`handle, this`size
      ensures e == CloseReturns(old(handle), io)
      ensures e == Some(FinalSyncError) <==> old(handle) == Stale || (old(handle) == Open && io.syncFails)
      ensures e == Some(FileCloseError) <==> old(handle) == Open && !io.syncFails && io.closeFails
      ensures Memory() == AfterClose(old(Memory())) && handle == Nil
      ensures old(handle) != Nil ==> size == 0
    {
      if handle == Nil {
        return None;
      }
      var syncErr := handle == Stale || io.syncFails;
      var closeErr := handle == Stale || io.closeFails;
      handle := Nil;
      size := 0;
      return if syncErr then Some(FinalSyncError) else if closeErr then Some(FileCloseError) else None;
    }
  }
}
