/**
  The exact conditions of durability, and what happens outside them: where an appended record does
  not come back although `append` reported success.
 */
module Hazards {
  import opened Basics
  import opened Alerts
  import opened Framing
  import opened FramingProofs
  import opened TornTail
  import opened Checkpoint
  import opened WalSpec
  import opened WalProofs
  import opened AckProofs
  import opened Pipeline
  import opened PipelineProofs
  import opened Drain
  import opened Durability
  import opened LogProofs

  /** The log is whole records, or whole records and one frame cut short by a crash. */
  ghost predicate CrashShaped(c: Codec, d: Disk, whole: seq<byte>, torn: Record, cut: nat) {
    && Parse(c, whole).consumed == |whole|
    && Encodable(c, torn) && cut < |FrameOf(c, torn)|
    && LogBytes(d) == whole + FrameOf(c, torn)[..cut]
  }

  lemma {:induction false} UnnumberedIsNeverPending(rs: seq<Record>, k: u64)
    requires NoneNumbered(rs)
    ensures Above(rs, k) == [] && Greatest(rs) == 0
  {
    if rs != [] {
      forall i | 0 <= i < |rs[1..]| ensures rs[1..][i].seqNo == 0 {
        assert rs[1..][i] == rs[i + 1];
      }
      UnnumberedIsNeverPending(rs[1..], k);
    }
  }

  lemma CrashShapedScan(c: Codec, d: Disk, whole: seq<byte>, torn: Record, cut: nat)
    requires RoundTrips(c) && CrashShaped(c, d, whole, torn, cut)
    ensures OnDisk(c, d) == Parse(c, whole) && (TailClean(c, d) <==> cut == 0)
  {
    ReadFrameOfCut(c, torn, cut);
    ParseAfterClean(c, whole, FrameOf(c, torn)[..cut]);
    assert Parse(c, FrameOf(c, torn)[..cut]) == Scan([], 0);
  }

  /** What is read behind a tear: records that carry no number. */
  function ReadBehindTear(c: Codec, torn: Record, cut: nat, later: seq<Record>): seq<Record>
    requires Encodable(c, torn) && cut <= |FrameOf(c, torn)| && AllEncodable(c, later)
  {
    Parse(c, FrameOf(c, torn)[..cut] + Log(c, later)).records
  }

  lemma TornAppend(c: Codec, d: Disk, whole: seq<byte>, torn: Record, cut: nat, later: seq<Record>)
    requires JsonLike(c) && CrashShaped(c, d, whole, torn, cut) && cut > 0 && AllEncodable(c, later)
    ensures NoneNumbered(ReadBehindTear(c, torn, cut, later))
    ensures OnDisk(c, Extend(d, Log(c, later))).records
      == OnDisk(c, d).records + ReadBehindTear(c, torn, cut, later)
  {
    hide Parse, Log, Frame, FrameOf, NoneNumbered, JsonLike;
    var fragment := FrameOf(c, torn)[..cut];
    RoundTripsIfJsonLike(c);
    CrashShapedScan(c, d, whole, torn, cut);
    TornTailHidesLaterRecords(c, torn, cut, later);
    assert LogBytes(d) + Log(c, later) == whole + (fragment + Log(c, later));
    ParseAfterClean(c, whole, fragment + Log(c, later));
  }

  lemma RoundTripsIfJsonLike(c: Codec)
    requires JsonLike(c)
    ensures RoundTrips(c)
  {
  }

  /**
    On any log a crash can have left, an appended record comes back from the next open if and only if
    the log ended with a whole frame and the record's number is above the durable checkpoint.
   */
  lemma AppendedRecordComesBack(c: Codec, d: Disk, whole: seq<byte>, torn: Record, cut: nat, r: Record)
    requires JsonLike(c) && CrashShaped(c, d, whole, torn, cut) && Encodable(c, r)
    requires DurableCheckpoint(d).Some?
    ensures var before := Recovered(c, d).value.pending;
      Recovered(c, Extend(d, FrameOf(c, r))).value.pending ==
        if TailClean(c, d) && r.seqNo > DurableCheckpoint(d).value then before + [r] else before
  {
    hide Parse, Log, Frame, FrameOf, JsonLike;
    RoundTripsIfJsonLike(c);
    var k := DurableCheckpoint(d).value;
    CrashShapedScan(c, d, whole, torn, cut);
    var rs := OnDisk(c, d).records;
    if cut == 0 {
      CleanAppend(c, d, r);
      AboveOfConcat(rs, [r], k);
      AboveOfOne(r, k);
    } else {
      LogOfOne(c, r);
      TornAppend(c, d, whole, torn, cut, [r]);
      var extra := ReadBehindTear(c, torn, cut, [r]);
      AboveOfConcat(rs, extra, k);
      UnnumberedIsNeverPending(extra, k);
    }
  }

  /** After a tear, nothing that is appended is ever recovered, however much it is. */
  lemma NothingAfterTearComesBack(c: Codec, d: Disk, whole: seq<byte>, torn: Record, cut: nat, later: seq<Record>)
    requires JsonLike(c) && CrashShaped(c, d, whole, torn, cut) && cut > 0 && AllEncodable(c, later)
    requires DurableCheckpoint(d).Some?
    ensures Recovered(c, Extend(d, Log(c, later))) == Recovered(c, d)
  {
    hide Parse, Log, Frame, FrameOf, JsonLike;
    TornAppend(c, d, whole, torn, cut, later);
    var rs := OnDisk(c, d).records;
    var extra := ReadBehindTear(c, torn, cut, later);
    AboveOfConcat(rs, extra, DurableCheckpoint(d).value);
    GreatestOfConcat(rs, extra);
    UnnumberedIsNeverPending(extra, DurableCheckpoint(d).value);
    assert Above(rs, DurableCheckpoint(d).value) + [] == Above(rs, DurableCheckpoint(d).value);
  }

  // ---- Numbering that falls behind the checkpoint ----

  /** The state after `append` was called for each of the records, every one written and synced. */
  function AfterAppends(c: Codec, s: State, rs: seq<Record>): State
    requires AllEncodable(c, rs)
  {
    if rs == [] then s else Appended(c, AfterAppends(c, s, rs[..|rs| - 1]), rs[|rs| - 1], Written)
  }

  /** Each of the records is the next one `append` makes, and `append` reports success for it. */
  ghost predicate AllAccepted(c: Codec, s: State, rs: seq<Record>)
    requires AllEncodable(c, rs)
  {
    forall i :: 0 <= i < |rs| ==>
      && rs[i].seqNo == Inc(AfterAppends(c, s, rs[..i]).mem.seqNo)
      && AppendRejects(c, AfterAppends(c, s, rs[..i]).mem, rs[i], Written) == None
  }

  lemma ExtendTwice(d: Disk, a: seq<byte>, b: seq<byte>)
    ensures Extend(Extend(d, a), b) == Extend(d, a + b)
  {
    assert LogBytes(d) + a + b == LogBytes(d) + (a + b);
  }

  /** Appends that are all written add the frames of their records and leave the rest of the memory alone. */
  lemma {:induction false} AppendsAre(c: Codec, s: State, rs: seq<Record>)
    requires AllEncodable(c, rs) && s.mem.handle == Open && s.disk.log.Some?
    ensures var t := AfterAppends(c, s, rs);
      && t.disk == Extend(s.disk, Log(c, rs))
      && t.mem == s.mem.(seqNo := if rs == [] then s.mem.seqNo else rs[|rs| - 1].seqNo, size := t.mem.size)
  {
    hide Log, FrameOf, Extend;
    if rs == [] {
      NothingLogged(c);
      ExtendByNothing(s.disk);
    } else {
      var front, last := rs[..|rs| - 1], rs[|rs| - 1];
      AppendsAre(c, s, front);
      LogOfNext(c, front, last);
      ExtendTwice(s.disk, Log(c, front), FrameOf(c, last));
      assert rs == front + [last];
    }
  }

  lemma ExtendByNothing(d: Disk)
    requires d.log.Some?
    ensures Extend(d, []) == d
  {
    assert LogBytes(d) + [] == LogBytes(d);
  }

  lemma AppendsAreAccepted(c: Codec, s: State, rs: seq<Record>)
    requires AllEncodable(c, rs) && s.mem.handle == Open && s.disk.log.Some? && s.mem.seqNo == 0 && Numbered(rs)
    ensures AllAccepted(c, s, rs)
  {
    hide AfterAppends;
    forall i | 0 <= i < |rs|
      ensures rs[i].seqNo == Inc(AfterAppends(c, s, rs[..i]).mem.seqNo)
      ensures AppendRejects(c, AfterAppends(c, s, rs[..i]).mem, rs[i], Written) == None
    {
      AppendsAre(c, s, rs[..i]);
    }
  }

  lemma NothingLogged(c: Codec)
    ensures Log(c, []) == []
  {
  }

  /**
    A compaction that empties the log restarts numbering below the checkpoint. However much is appended
    after the next open, each record is accepted, under the numbers 1, 2, 3, ...; an open at any point
    after that goes on numbering and hands out only the records above the checkpoint, so the ones that
    it has already passed are never replayed.
   */
  lemma EmptiedLogForgetsNextRecords(c: Codec, s: State, io: CompactIo, rs: seq<Record>)
    requires RoundTrips(c) && DurableCheckpoint(s.disk) == Some(s.mem.checkpoint)
    requires CompactionSwaps(c, s, io) && Survivors(c, s) == []
    requires AllEncodable(c, rs) && Numbered(rs)
    ensures var d := DiskAfterCompact(c, s, io);
      && Recovered(c, d) == Some(Recovery(0, s.mem.checkpoint, []))
      && AllAccepted(c, Reopened(c, d), rs)
      && Recovered(c, AfterAppends(c, Reopened(c, d), rs).disk)
        == Some(Recovery(|rs|, s.mem.checkpoint, if |rs| <= s.mem.checkpoint then [] else rs[s.mem.checkpoint..]))
  {
    hide Parse, Log, FrameOf;
    var d, k := DiskAfterCompact(c, s, io), s.mem.checkpoint;
    CompactionIsInvisible(c, s, io);
    NothingLogged(c);
    AppendsAre(c, Reopened(c, d), rs);
    AppendsAreAccepted(c, Reopened(c, d), rs);
    ParseOfLog(c, rs);
    assert LogBytes(d) == [] && [] + [] + Log(c, rs) == Log(c, rs);
    assert rs[0..] == rs;
    GreatestOfSuffix(rs, 0);
    if |rs| <= k {
      AboveIsSubset(rs, k);
      FirstIsMember(Above(rs, k));
    } else {
      AboveOfSuffix(rs, 0, k);
    }
  }

  /** One record appended before the restart keeps the numbering above the checkpoint. */
  lemma OneAppendKeepsNumbering(c: Codec, s: State, io: CompactIo, r: Record)
    requires RoundTrips(c) && DurableCheckpoint(s.disk) == Some(s.mem.checkpoint)
    requires CompactionSwaps(c, s, io) && Survivors(c, s) == []
    requires Encodable(c, r) && r.seqNo > s.mem.checkpoint
    ensures Recovered(c, Extend(DiskAfterCompact(c, s, io), FrameOf(c, r)))
      == Some(Recovery(r.seqNo, s.mem.checkpoint, [r]))
  {
    CompactionCleansTail(c, s, io);
    var d := DiskAfterCompact(c, s, io);
    CleanAppend(c, d, r);
    assert OnDisk(c, d).records == [];
    assert [] + [r] == [r];
    AboveOfOne(r, s.mem.checkpoint);
    GreatestIs([r], r.seqNo);
  }

  // ---- A number that is given away twice ----

  /** An open would come up without handing the record out. */
  predicate Forgets(c: Codec, d: Disk, r: Record) {
    Recovered(c, d).Some? && r !in Recovered(c, d).value.pending
  }

  /** The disk after an append whose sync fails and one that succeeds. */
  function AfterFailedSync(c: Codec, d: Disk, m: Mem, rejected: Record, accepted: Record): Disk {
    Extend(Extend(d, AppendWrites(c, m, rejected, SyncFails)), AppendWrites(c, m, accepted, Written))
  }

  /** Both records are the next one of the same process, and both can be encoded. */
  predicate SameNumber(c: Codec, d: Disk, m: Mem, rejected: Record, accepted: Record) {
    && TailClean(c, d) && DurableCheckpoint(d).Some? && DurableCheckpoint(d).value < Inc(m.seqNo)
    && m.handle == Open && rejected.seqNo == accepted.seqNo == Inc(m.seqNo)
    && Encodable(c, rejected) && Encodable(c, accepted)
  }

  /** A failed sync gives its number away twice: the rejected record and the next, accepted one are both replayed. */
  lemma FailedSyncSharesNumber(c: Codec, d: Disk, m: Mem, rejected: Record, accepted: Record)
    requires RoundTrips(c) && SameNumber(c, d, m, rejected, accepted)
    ensures AppendRejects(c, m, rejected, SyncFails) == Some(SyncError)
    ensures AppendRejects(c, m, accepted, Written) == None
    ensures var after := AfterFailedSync(c, d, m, rejected, accepted);
      && Recovered(c, after).Some? && DurableCheckpoint(after) == DurableCheckpoint(d)
      && Recovered(c, after).value.pending == Recovered(c, d).value.pending + [rejected, accepted]
  {
    hide Parse, Log, Frame;
    var d1 := Extend(d, FrameOf(c, rejected));
    CleanAppend(c, d, rejected);
    CleanAppend(c, d1, accepted);
    var rs, k := OnDisk(c, d).records, DurableCheckpoint(d).value;
    AboveOfConcat(rs, [rejected], k);
    AboveOfOne(rejected, k);
    AboveOfConcat(rs + [rejected], [accepted], k);
    AboveOfOne(accepted, k);
  }

  /** An acknowledgement that closes the run up to `n` makes every later open forget what carries `n` or less. */
  lemma AckForgets(c: Codec, s: State, seqs: set<u64>, n: u64, io: CompactIo, r: Record)
    requires RoundTrips(c) && DurableCheckpoint(s.disk) == Some(s.mem.checkpoint)
    requires s.mem.checkpoint < n && forall i: u64 :: s.mem.checkpoint < i <= n ==> i in seqs
    requires r.seqNo <= n
    ensures Forgets(c, Ack(c, s, seqs, CkptWritten, io).disk, r)
  {
    hide Parse, Log, Decimal, ScanUint64, RunEnd, AllEncodable;
    var m := Advance(s.mem, seqs);
    RunEndIsLongest(s.mem.checkpoint, s.mem.acked + NumbersAbove(seqs, s.mem.checkpoint));
    assert m.checkpoint >= n;
    CheckpointRoundTrip(m.checkpoint);
    var written := State(s.disk.(ckpt := Some(Decimal(m.checkpoint))), m);
    CompactionIsInvisible(c, written, io);
    AboveIsSubset(OnDisk(c, written.disk).records, m.checkpoint);
  }

  /**
    In the process that replays both, acknowledging a batch with the rejected record and everything
    before it, but without the accepted one, makes every later open forget the accepted one.
   */
  lemma AckOfRejectedForgetsAccepted(c: Codec, d: Disk, m: Mem, rejected: Record, accepted: Record,
                                     batch: seq<Record>, io: CompactIo)
    requires RoundTrips(c) && SameNumber(c, d, m, rejected, accepted)
    requires rejected in batch && accepted !in batch
    requires forall i: u64 :: DurableCheckpoint(d).value < i < rejected.seqNo ==> i in NumbersOf(batch)
    ensures var after := AfterFailedSync(c, d, m, rejected, accepted);
      && Recovered(c, after).Some? && accepted in Recovered(c, after).value.pending
      && Forgets(c, Ack(c, Reopened(c, after), NumbersOf(batch), CkptWritten, io).disk, accepted)
  {
    hide Recovered, Parse, AppendWrites, Ack;
    FailedSyncSharesNumber(c, d, m, rejected, accepted);
    var after := AfterFailedSync(c, d, m, rejected, accepted);
    ReopenedCheckpoint(c, after);
    AckForgets(c, Reopened(c, after), NumbersOf(batch), rejected.seqNo, io, accepted);
  }

  lemma ReopenedCheckpoint(c: Codec, d: Disk)
    requires Recovered(c, d).Some?
    ensures var s := Reopened(c, d);
      DurableCheckpoint(s.disk) == DurableCheckpoint(d) == Some(s.mem.checkpoint)
  {
  }

  // ---- The run that loses it ----

  /** The replay of two records in which the first is delivered while the second is still to be sent. */
  const REPLAY_OF_FIRST := [ReplaySend, Take, Tick, Send, TakeBatch, Convert, Push(true)]

  function FirstDelivered(x: Item, y: Item): Pipe {
    Initial([x, y]).(replaying := [y], accounted := [Accounted(x, Delivered)], pushed := [x],
                     flusher := Accounting([x]))
  }

  lemma FirstIsBatched(cfg: Config, x: Item, y: Item)
    requires cfg.size > 1
    ensures var p0 := Initial([x, y]);
      var p1 := p0.(replaying := [y], queue := [x]);
      var p2 := p1.(queue := [], batch := [x]);
      && Enabled(cfg, p0, ReplaySend) && Step(cfg, p0, ReplaySend) == p1
      && Enabled(cfg, p1, Take) && Step(cfg, p1, Take) == p2
      && Enabled(cfg, p2, Tick) && Step(cfg, p2, Tick) == p2.(accumulator := Sending(false))
  {
    assert [x, y][1..] == [y] && [] + [x] == [x];
  }

  lemma FirstIsTaken(cfg: Config, p: Pipe, x: Item)
    requires p.accumulator == Sending(false) && p.batch == [x] && p.flushes == [] && p.flusher.Idle?
    ensures var p1 := p.(batch := [], flushes := [[x]], accumulator := Running);
      && Enabled(cfg, p, Send) && Step(cfg, p, Send) == p1
      && Enabled(cfg, p1, TakeBatch) && Step(cfg, p1, TakeBatch) == p1.(flushes := [], flusher := Converting([x]))
  {
  }

  lemma FirstIsDelivered(cfg: Config, p: Pipe, x: Item)
    requires cfg.maxRetries >= 0 && cfg.converts(x)
    requires p.flusher == Converting([x]) && p.accounted == [] && p.pushed == []
    ensures var p1 := p.(flusher := Delivering([x], [x], 0));
      && Enabled(cfg, p, Convert) && Step(cfg, p, Convert) == p1
      && Enabled(cfg, p1, Push(true))
      && Step(cfg, p1, Push(true))
        == p1.(accounted := [Accounted(x, Delivered)], pushed := [x], flusher := Accounting([x]))
  {
    assert [x][1..] == [];
    assert Matching([x], cfg.converts, true) == [x] && Matching([x], cfg.converts, false) == [];
    assert Account([x], Delivered) == [Accounted(x, Delivered)];
    assert p.accounted + Account([], ConversionFailed) == p.accounted;
  }

  lemma ReplayReaches(cfg: Config, x: Item, y: Item)
    requires cfg.size > 1 && cfg.maxRetries >= 0 && cfg.converts(x)
    ensures Runs(cfg, Initial([x, y]), REPLAY_OF_FIRST)
    ensures After(cfg, Initial([x, y]), REPLAY_OF_FIRST) == FirstDelivered(x, y)
  {
    hide Runs, After, Enabled, Step;
    var p0 := Initial([x, y]);
    var p2 := p0.(replaying := [y], batch := [x]);
    var p3 := p2.(accumulator := Sending(false));
    var p4 := p2.(batch := [], flushes := [[x]]);
    var p5 := p2.(batch := [], flusher := Converting([x]));
    FirstIsBatched(cfg, x, y);
    FirstIsTaken(cfg, p3, x);
    FirstIsDelivered(cfg, p5, x);
    RunsNothing(cfg, FirstDelivered(x, y));
    RunsFirst(cfg, p5.(flusher := Delivering([x], [x], 0)), Push(true), []);
    RunsFirst(cfg, p5, Convert, [Push(true)] + []);
    RunsFirst(cfg, p4, TakeBatch, [Convert] + ([Push(true)] + []));
    RunsFirst(cfg, p3, Send, [TakeBatch] + ([Convert] + ([Push(true)] + [])));
    RunsFirst(cfg, p2, Tick, [Send] + ([TakeBatch] + ([Convert] + ([Push(true)] + []))));
    RunsFirst(cfg, p0.(replaying := [y], queue := [x]), Take,
              [Tick] + ([Send] + ([TakeBatch] + ([Convert] + ([Push(true)] + [])))));
    RunsFirst(cfg, p0, ReplaySend, [Take] + ([Tick] + ([Send] + ([TakeBatch] + ([Convert] + ([Push(true)] + []))))));
    assert [ReplaySend] + ([Take] + ([Tick] + ([Send] + ([TakeBatch] + ([Convert] + ([Push(true)] + []))))))
        == REPLAY_OF_FIRST;
  }

  /**
    So an accepted record is lost: the process that replays both acknowledges the batch of the rejected
    one, dies with the accepted one still to be sent and without an outcome, and no open hands it out.
   */
  lemma AcceptedRecordIsLost(c: Codec, cfg: Config, d: Disk, m: Mem, rejected: Record, accepted: Record, io: CompactIo)
    requires RoundTrips(c) && SameNumber(c, d, m, rejected, accepted) && rejected != accepted
    requires DurableCheckpoint(d).value == m.seqNo && Recovered(c, d).value.pending == []
    requires cfg.size > 1 && cfg.maxRetries >= 0 && cfg.converts(rejected)
    ensures var after := AfterFailedSync(c, d, m, rejected, accepted);
      && Recovered(c, after).Some? && Recovered(c, after).value.pending == [rejected, accepted]
      && Runs(cfg, Initial([rejected, accepted]), REPLAY_OF_FIRST)
      && var p := After(cfg, Initial([rejected, accepted]), REPLAY_OF_FIRST);
         && Enabled(cfg, p, FlushAck) && Undecided(cfg, p, accepted) == 1 && Outcomes(p, accepted) == 0
         && Forgets(c, Ack(c, Reopened(c, after), NumbersOf(Released(p, FlushAck)), CkptWritten, io).disk, accepted)
  {
    hide Recovered, Parse, AppendWrites, Ack, Runs, After, Reopened;
    FailedSyncSharesNumber(c, d, m, rejected, accepted);
    ReplayReaches(cfg, rejected, accepted);
    AckOfRejectedForgetsAccepted(c, d, m, rejected, accepted, [rejected], io);
    assert [] + [rejected, accepted] == [rejected, accepted];
    assert Items([Accounted(rejected, Delivered)]) == [rejected];
  }
}
