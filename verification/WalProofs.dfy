/** What recovery makes of the log: it survives compaction unchanged and an append exactly when it should. */
module WalProofs {
  import opened Basics
  import opened Alerts
  import opened Framing
  import opened FramingProofs
  import opened Checkpoint
  import opened WalSpec
  import opened AckProofs

  // ---- Greatest and Above over sequences ----

  lemma GreatestIs(rs: seq<Record>, g: u64)
    requires forall i :: 0 <= i < |rs| ==> rs[i].seqNo <= g
    requires g == 0 || exists i :: 0 <= i < |rs| && rs[i].seqNo == g
    ensures Greatest(rs) == g
  {
  }

  lemma GreatestOfConcat(a: seq<Record>, b: seq<Record>)
    ensures Greatest(a + b) == Max(Greatest(a), Greatest(b))
  {
    var g := Max(Greatest(a), Greatest(b));
    if g != 0 {
      if g == Greatest(a) {
        var i :| 0 <= i < |a| && a[i].seqNo == g;
        assert (a + b)[i].seqNo == g;
      } else {
        var i :| 0 <= i < |b| && b[i].seqNo == g;
        assert (a + b)[|a| + i].seqNo == g;
      }
    }
    GreatestIs(a + b, g);
  }

  lemma {:induction false} AboveOfConcat(a: seq<Record>, b: seq<Record>, cp: u64)
    ensures Above(a + b, cp) == Above(a, cp) + Above(b, cp)
  {
    if a == [] {
      assert a + b == b;
    } else {
      var first := if a[0].seqNo > cp then [a[0]] else [];
      AboveOfConcat(a[1..], b, cp);
      assert (a + b)[0] == a[0] && (a + b)[1..] == a[1..] + b;
      AboveFirst(a, cp);
      AboveFirst(a + b, cp);
      hide Above;
      assert first + (Above(a[1..], cp) + Above(b, cp)) == first + Above(a[1..], cp) + Above(b, cp);
    }
  }

  lemma AboveFirst(rs: seq<Record>, cp: u64)
    requires rs != []
    ensures Above(rs, cp) == (if rs[0].seqNo > cp then [rs[0]] else []) + Above(rs[1..], cp)
  {
  }

  lemma AboveOfOne(r: Record, cp: u64)
    ensures Above([r], cp) == if r.seqNo > cp then [r] else []
  {
  }

  lemma GreatestOfNext(rs: seq<Record>, i: nat)
    requires i < |rs|
    ensures Greatest(rs[..i + 1]) == Max(Greatest(rs[..i]), rs[i].seqNo)
  {
    assert rs[..i + 1] == rs[..i] + [rs[i]];
    GreatestOfConcat(rs[..i], [rs[i]]);
    GreatestIs([rs[i]], rs[i].seqNo);
  }

  lemma AboveOfNext(rs: seq<Record>, i: nat, cp: u64)
    requires i < |rs|
    ensures Above(rs[..i + 1], cp) == if rs[i].seqNo > cp then Above(rs[..i], cp) + [rs[i]] else Above(rs[..i], cp)
  {
    assert rs[..i + 1] == rs[..i] + [rs[i]];
    AboveOfConcat(rs[..i], [rs[i]], cp);
    AboveOfOne(rs[i], cp);
  }

  /** Recovery and compaction keep exactly the records past the checkpoint, in the order of the log. */
  lemma {:induction false} AboveKeepsOrder(rs: seq<Record>, cp: u64)
    ensures IsPart(rs, (r: Record) => r.seqNo > cp, Above(rs, cp))
  {
    hide IsPart;
    if rs == [] {
      NoPart((r: Record) => r.seqNo > cp);
    } else {
      var n := |rs| - 1;
      AboveKeepsOrder(rs[..n], cp);
      AboveOfNext(rs, n, cp);
      assert rs[..n + 1] == rs && rs == rs[..n] + [rs[n]];
      assert Above(rs, cp) == Above(rs[..n], cp) + if rs[n].seqNo > cp then [rs[n]] else [];
      PartNext(rs[..n], (r: Record) => r.seqNo > cp, Above(rs[..n], cp), rs[n]);
    }
  }

  lemma {:induction false} AboveIsSubset(rs: seq<Record>, cp: u64)
    ensures forall r :: r in Above(rs, cp) <==> r in rs && r.seqNo > cp
  {
    if rs != [] {
      AboveIsSubset(rs[1..], cp);
      assert rs == [rs[0]] + rs[1..];
    }
  }

  lemma {:induction false} AboveTwice(rs: seq<Record>, low: u64, high: u64)
    requires low <= high
    ensures Above(Above(rs, low), high) == Above(rs, high)
  {
    if rs != [] {
      AboveTwice(rs[1..], low, high);
    }
  }

  lemma GreatestIsReached(rs: seq<Record>) returns (r: Record)
    requires rs != []
    ensures r in rs && r.seqNo == Greatest(rs)
  {
    var i :| 0 <= i < |rs| && rs[i].seqNo == Greatest(rs);
    r := rs[i];
  }

  lemma NoneAboveGreatest(rs: seq<Record>, r: Record)
    requires r in rs
    ensures r.seqNo <= Greatest(rs)
  {
  }

  /** Dropping the records at or below `cp` keeps the greatest number as long as one record is left. */
  lemma GreatestSurvives(rs: seq<Record>, cp: u64)
    ensures Greatest(Above(rs, cp)) == if Above(rs, cp) == [] then 0 else Greatest(rs)
  {
    AboveIsSubset(rs, cp);
    var kept := Above(rs, cp);
    if kept != [] {
      var lowest := GreatestIsReached(kept);
      NoneAboveGreatest(rs, lowest);
      var top := GreatestIsReached(rs);
      assert top in kept;
      NoneAboveGreatest(kept, top);
    }
  }

  // ---- Compaction ----

  /**
    Compaction is invisible to recovery: with the checkpoint on disk equal to the one in memory, the
    compacted log recovers the same checkpoint and the same records in the same order, and the same
    last number unless nothing survived, when numbering restarts from zero.
   */
  lemma CompactionIsInvisible(c: Codec, s: State, io: CompactIo)
    requires RoundTrips(c) && DurableCheckpoint(s.disk) == Some(s.mem.checkpoint)
    ensures var before := Recovered(c, s.disk).value;
      Recovered(c, DiskAfterCompact(c, s, io)) == Some(
        if CompactionSwaps(c, s, io) && before.pending == [] then before.(seqNo := 0) else before)
  {
    if CompactionSwaps(c, s, io) {
      var rs := OnDisk(c, s.disk).records;
      var kept := Survivors(c, s);
      ParseOfLog(c, kept);
      AboveTwice(rs, s.mem.checkpoint, s.mem.checkpoint);
      GreatestSurvives(rs, s.mem.checkpoint);
    }
  }

  /** An open finds the same checkpoint and pending records; the last number only counts while some are left. */
  ghost predicate RecoversLike(c: Codec, before: Disk, after: Disk) {
    && Recovered(c, before).Some? && Recovered(c, after).Some?
    && var x, y := Recovered(c, before).value, Recovered(c, after).value;
       && x.checkpoint == y.checkpoint && x.pending == y.pending
       && (x.pending != [] ==> x.seqNo == y.seqNo)
  }

  lemma CompactedRecoversLike(c: Codec, s: State, io: CompactIo)
    requires RoundTrips(c) && DurableCheckpoint(s.disk) == Some(s.mem.checkpoint)
    ensures RecoversLike(c, s.disk, s.disk) && RecoversLike(c, s.disk, DiskAfterCompact(c, s, io))
  {
    CompactionIsInvisible(c, s, io);
  }

  /** A compacted log ends with a whole frame, whatever the old one ended with. */
  lemma CompactionCleansTail(c: Codec, s: State, io: CompactIo)
    requires RoundTrips(c) && CompactionSwaps(c, s, io)
    ensures var d := DiskAfterCompact(c, s, io);
      TailClean(c, d) && OnDisk(c, d) == Scan(Survivors(c, s), |LogBytes(d)|)
  {
    ParseOfLog(c, Survivors(c, s));
  }

  lemma AckNothing(c: Codec, s: State, io: CkptIo, compactIo: CompactIo)
    requires Settled(s.mem)
    ensures Ack(c, s, {}, io, compactIo) == s
  {
  }

  /** Every `ack` leaves the run followed to its end. */
  lemma AckSettles(c: Codec, s: State, seqs: set<u64>, io: CkptIo, compactIo: CompactIo)
    ensures Settled(Ack(c, s, seqs, io, compactIo).mem)
  {
    RunEndIsLongest(s.mem.checkpoint, s.mem.acked + NumbersAbove(seqs, s.mem.checkpoint));
  }

  lemma CleanAppend(c: Codec, d: Disk, r: Record)
    requires RoundTrips(c) && Encodable(c, r) && TailClean(c, d)
    ensures OnDisk(c, Extend(d, FrameOf(c, r))).records == OnDisk(c, d).records + [r]
    ensures TailClean(c, Extend(d, FrameOf(c, r)))
  {
    LogOfOne(c, r);
    ParseOfLog(c, [r]);
    ParseAfterClean(c, LogBytes(d), FrameOf(c, r));
  }

  // ---- What becomes of the log, the handle and the size ----

  /** An `ack` gets as far as compacting: the checkpoint moved and was written, and the log is past 8 MiB. */
  predicate Compacts(s: State, after: Mem, io: CkptIo) {
    after.checkpoint != s.mem.checkpoint && io.CkptWritten? && s.mem.size > 8 * 1024 * 1024
  }

  /** The compacted copy was completed and synced. */
  predicate Copied(c: Codec, rs: seq<Record>, checkpoint: u64, io: CompactIo) {
    && (forall r :: r in rs && r.seqNo > checkpoint ==> Encodable(c, r))
    && !io.CompactReadFails? && !io.CompactCreateFails? && !io.CompactWriteFails? && !io.CompactSyncFails?
  }

  lemma CopiedMeansEncodable(c: Codec, rs: seq<Record>, checkpoint: u64)
    ensures AllEncodable(c, Above(rs, checkpoint)) <==> forall r :: r in rs && r.seqNo > checkpoint ==> Encodable(c, r)
  {
    hide Encodable;
    AboveIsSubset(rs, checkpoint);
    var kept := Above(rs, checkpoint);
    forall r | r in kept ensures exists i :: 0 <= i < |kept| && kept[i] == r {
    }
  }

  /**
    What an `ack` leaves of an open log. The handle is lost exactly when the rename or the reopen failed
    behind a completed copy, and stale exactly when the close did. The log is rewritten exactly when a
    completed copy was renamed, and the size then follows it unless the reopen failed.
   */
  lemma LogAfterAck(c: Codec, s: State, seqs: set<u64>, io: CkptIo, compactIo: CompactIo)
    requires s.mem.handle == Open
    ensures var t := Ack(c, s, seqs, io, compactIo);
      var rs, k := OnDisk(c, s.disk).records, t.mem.checkpoint;
      var copied := Compacts(s, t.mem, io) && Copied(c, rs, k, compactIo);
      && (t.mem.handle == Nil <==> copied && (compactIo.CompactRenameFails? || compactIo.CompactReopenFails?))
      && (t.mem.handle == Stale <==> copied && compactIo.CompactCloseFails?)
      && (if copied && (compactIo.Compacted? || compactIo.CompactReopenFails?)
          then AllEncodable(c, Above(rs, k)) && LogBytes(t.disk) == Log(c, Above(rs, k))
          else LogBytes(t.disk) == LogBytes(s.disk))
      && t.mem.size == (if copied && compactIo.Compacted? then |LogBytes(t.disk)| else s.mem.size)
      && t.mem.seqNo == s.mem.seqNo
  {
    hide Parse, Log, Above, Encodable, AllEncodable, Acked;
    CopiedMeansEncodable(c, OnDisk(c, s.disk).records, Advance(s.mem, seqs).checkpoint);
  }

  /** The checkpoint an open would read is the new one exactly when the advance was persisted. */
  lemma CheckpointAfterAck(c: Codec, s: State, seqs: set<u64>, io: CkptIo, compactIo: CompactIo)
    ensures var t := Ack(c, s, seqs, io, compactIo);
      DurableCheckpoint(t.disk) ==
        if t.mem.checkpoint != s.mem.checkpoint && io.CkptWritten? then Some(t.mem.checkpoint)
        else DurableCheckpoint(s.disk)
  {
    hide Parse, Log, Above, AllEncodable, Advance, Decimal, ScanUint64;
    CheckpointRoundTrip(Advance(s.mem, seqs).checkpoint);
  }

  /**
    A compacted log goes on working: its handle is open, its size is that of the file, the next record is
    accepted, and an open then recovers the old pending records and that one.
   */
  lemma CompactedLogTakesRecords(c: Codec, s: State, io: CompactIo, r: Record)
    requires RoundTrips(c) && DurableCheckpoint(s.disk) == Some(s.mem.checkpoint)
    requires CompactionSwaps(c, s, io) && io.Compacted? && Encodable(c, r) && r.seqNo > s.mem.checkpoint
    ensures var t := State(DiskAfterCompact(c, s, io), MemAfterCompact(c, s, io));
      && t.mem.handle == Open && t.mem.size == |LogBytes(t.disk)|
      && AppendRejects(c, t.mem, r, Written) == None
      && Recovered(c, Appended(c, t, r, Written).disk).Some?
      && Recovered(c, Appended(c, t, r, Written).disk).value.pending == Recovered(c, s.disk).value.pending + [r]
  {
    hide Parse, Log, FrameOf, Above;
    var d := DiskAfterCompact(c, s, io);
    CompactionIsInvisible(c, s, io);
    CompactionCleansTail(c, s, io);
    CleanAppend(c, d, r);
    AboveOfConcat(OnDisk(c, d).records, [r], s.mem.checkpoint);
    AboveOfOne(r, s.mem.checkpoint);
  }
}
