/** What the log counts as its size, over whole histories, and when it is therefore compacted. */
module LogSize {
  import opened Basics
  import opened Alerts
  import opened Framing
  import opened WalSpec
  import opened WalProofs
  import FramingProofs
  import opened Pipeline
  import opened PipelineProofs
  import opened Durability
  import opened DurabilityProofs

  /** A usable log counts exactly the bytes that a reader takes in. */
  predicate Sized(c: Codec, d: Disk, m: Mem) {
    m.handle == Open ==> m.size == OnDisk(c, d).consumed
  }

  ghost predicate SizedWorld(s: Setup, w: World) {
    w.proc.Some? ==> Sized(s.codec, w.disk, w.proc.value.mem)
  }

  /** `ack` opens no handle that was not open. */
  lemma AckOpensNothing(c: Codec, s: State, seqs: set<u64>, io: CkptIo, compactIo: CompactIo)
    ensures Ack(c, s, seqs, io, compactIo).mem.handle == Open ==> s.mem.handle == Open
  {
    hide Acked, AllEncodable, Parse, Above, Log;
  }

  lemma SizedAfterAck(c: Codec, s: State, seqs: set<u64>, io: CkptIo, compactIo: CompactIo)
    requires RoundTrips(c) && Sized(c, s.disk, s.mem)
    ensures var t := Ack(c, s, seqs, io, compactIo); Sized(c, t.disk, t.mem)
  {
    hide Ack, Parse, Log, Above, AllEncodable, Encodable;
    var t := Ack(c, s, seqs, io, compactIo);
    AckOpensNothing(c, s, seqs, io, compactIo);
    if t.mem.handle == Open {
      LogAfterAck(c, s, seqs, io, compactIo);
      var kept := Above(OnDisk(c, s.disk).records, t.mem.checkpoint);
      if AllEncodable(c, kept) {
        FramingProofs.ParseOfLog(c, kept);
      }
    }
  }

  lemma SizedAfterAppend(c: Codec, s: State, r: Record, io: AppendIo)
    requires RoundTrips(c) && Sized(c, s.disk, s.mem)
    requires s.mem.handle == Open && Encodable(c, r) ==> io.Written? && TailClean(c, s.disk)
    ensures var t := Appended(c, s, r, io); Sized(c, t.disk, t.mem)
  {
    hide Parse, FrameOf;
    if s.mem.handle == Open && Encodable(c, r) {
      CleanAppend(c, s.disk, r);
    }
  }

  lemma SizedAfter(s: Setup, w: World, h: Happening)
    requires RoundTrips(s.codec) && Allowed(s, w, h) && SizedWorld(s, w)
    ensures SizedWorld(s, Happens(s, w, h))
  {
    hide Sized, Step, Enabled, WalSpec.Ack, Appended, Encodable, TailClean, AppendRejects, Parse;
    match h {
      case Startup =>
        SizedAtStart(s, w);
      case Enqueue(group, extraLabels, receivedAt, io) =>
        var m := w.proc.value.mem;
        SizedAfterAppend(s.codec, State(w.disk, m), NextRecord(m, group, extraLabels, receivedAt), io);
      case Work(e, io, compactIo) =>
        SizedAfterAck(s.codec, State(w.disk, w.proc.value.mem), NumbersOf(Released(w.proc.value.pipe, e)), io,
                      compactIo);
      case CloseLog =>
        SizedWhenClosed(s.codec, w.disk, w.proc.value.mem);
      case _ =>
    }
  }

  lemma SizedAtStart(s: Setup, w: World)
    requires Allowed(s, w, Startup)
    ensures SizedWorld(s, AfterStartup(s, w))
  {
    hide Parse;
    OpeningChangesNothing(s.codec, w.disk);
  }

  lemma SizedWhenClosed(c: Codec, d: Disk, m: Mem)
    ensures Sized(c, d, AfterClose(m))
  {
  }

  ghost predicate LoggedEncodes(s: Setup, w: World) {
    forall r :: r in w.logged ==> Encodable(s.codec, r)
  }

  lemma EncodesAfter(s: Setup, w: World, h: Happening)
    requires Allowed(s, w, h) && LoggedEncodes(s, w)
    ensures LoggedEncodes(s, Happens(s, w, h))
  {
    hide Step, Enabled, Encodable, TailClean, AfterAck, Recovered;
  }

  lemma {:induction false} SizedThroughout(s: Setup, w: World, hs: seq<Happening>)
    requires RoundTrips(s.codec) && SizedWorld(s, w) && LoggedEncodes(s, w) && History(s, w, hs)
    ensures SizedWorld(s, WorldAfter(s, w, hs)) && LoggedEncodes(s, WorldAfter(s, w, hs))
    decreases |hs|
  {
    hide Allowed, Happens, SizedWorld, LoggedEncodes;
    if hs != [] {
      SizedAfter(s, w, hs[0]);
      EncodesAfter(s, w, hs[0]);
      SizedThroughout(s, Happens(s, w, hs[0]), hs[1..]);
    }
  }

  lemma DiskEncodes(s: Setup, w: World)
    requires Holds(s, w) && LoggedEncodes(s, w)
    ensures forall r :: r in OnDisk(s.codec, w.disk).records ==> Encodable(s.codec, r)
  {
    hide Encodable, Numbered, ProcHolds, OnDisk;
    var j: nat :| HoldsFrom(s.codec, w.disk, w.logged, j);
    assert forall r :: r in w.logged[j..] ==> r in w.logged;
  }

  /**
    In every history from an empty directory, a persisted advance of the checkpoint rewrites an open log
    exactly when more than 8 MiB of it can be read, and then to the frames of the records past the
    checkpoint.
   */
  lemma LargeLogsAreCompacted(s: Setup, hs: seq<Happening>, seqs: set<u64>)
    requires RoundTrips(s.codec) && History(s, EmptyDirectory, hs)
    requires var w := WorldAfter(s, EmptyDirectory, hs);
      && w.proc.Some? && w.proc.value.mem.handle == Open
      && Advance(w.proc.value.mem, seqs).checkpoint != w.proc.value.mem.checkpoint
    ensures var w := WorldAfter(s, EmptyDirectory, hs);
      var t := WalSpec.Ack(s.codec, State(w.disk, w.proc.value.mem), seqs, CkptWritten, Compacted);
      var kept := Above(OnDisk(s.codec, w.disk).records, t.mem.checkpoint);
      && t.mem.handle == Open
      && (if OnDisk(s.codec, w.disk).consumed > 8 * 1024 * 1024
          then AllEncodable(s.codec, kept) && LogBytes(t.disk) == Log(s.codec, kept)
          else LogBytes(t.disk) == LogBytes(w.disk))
  {
    hide History, WorldAfter, Parse, Log, Above, Encodable, AllEncodable, Acked, Holds, WalSpec.Ack;
    SizedThroughout(s, EmptyDirectory, hs);
    EmptyDirectoryHolds(s);
    EveryHistoryHolds(s, EmptyDirectory, hs);
    var w := WorldAfter(s, EmptyDirectory, hs);
    DiskEncodes(s, w);
    var st := State(w.disk, w.proc.value.mem);
    AckCheckpointIs(s.codec, st, seqs, CkptWritten, Compacted);
    LogAfterAck(s.codec, st, seqs, CkptWritten, Compacted);
  }

  lemma AckCheckpointIs(c: Codec, s: State, seqs: set<u64>, io: CkptIo, compactIo: CompactIo)
    ensures Ack(c, s, seqs, io, compactIo).mem.checkpoint == Advance(s.mem, seqs).checkpoint
  {
    hide Acked, AllEncodable, Parse, Above, Log;
  }
}
