/** The guarantees a reader of the log's documentation relies on, over whole histories. */
module AtLeastOnce {
  import opened Basics
  import opened Alerts
  import opened Framing
  import opened WalSpec
  import opened Pipeline
  import opened PipelineProofs
  import opened Drain
  import opened Durability
  import opened LogProofs
  import opened DurabilityProofs
  import opened Histories

  // ---- Nothing accepted is lost ----

  lemma PendingIs(s: Setup, w: World)
    requires Holds(s, w)
    ensures var k := DurableCheckpoint(w.disk);
      && k.Some? && k.value <= |w.logged|
      && Recovered(s.codec, w.disk).Some?
      && Recovered(s.codec, w.disk).value.pending == w.logged[k.value..]
  {
    hide ProcHolds, Parse, Numbered;
    var j: nat :| HoldsFrom(s.codec, w.disk, w.logged, j);
    RecoveredAre(s.codec, w.disk, w.logged, j);
  }

  /** A logged record whose number has no outcome is above the checkpoint, and so it is pending. */
  lemma UndecidedIsPending(s: Setup, w: World, r: Record)
    requires Holds(s, w) && IsLogged(w.logged, r) && r.seqNo !in w.terminal
    ensures Recovered(s.codec, w.disk).Some? && r in Recovered(s.codec, w.disk).value.pending
  {
    hide ProcHolds, Recovered, Numbered;
    PendingIs(s, w);
    var k := DurableCheckpoint(w.disk).value;
    assert w.logged[r.seqNo - 1] == w.logged[k..][r.seqNo - 1 - k];
  }

  /**
    At-least-once: in every history from an empty directory, whatever crashed where, each record whose
    append returned had an outcome recorded for it, or the next open hands it out with all that was
    passed to `append`.
   */
  lemma AcceptedRecordsAreSafe(s: Setup, hs: seq<Happening>, r: Record)
    requires RoundTrips(s.codec) && History(s, EmptyDirectory, hs) && Accepted(s, EmptyDirectory, hs, r)
    ensures var d := WorldAfter(s, EmptyDirectory, hs).disk;
      Decided(s, EmptyDirectory, hs, r) || (Recovered(s.codec, d).Some? && r in Recovered(s.codec, d).value.pending)
  {
    hide Holds, History, WorldAfter, Recovered, Accepted, Decided;
    var w := WorldAfter(s, EmptyDirectory, hs);
    EmptyDirectoryHolds(s);
    EveryHistoryHolds(s, EmptyDirectory, hs);
    AcceptedIsLogged(s, EmptyDirectory, hs, r);
    TerminalOver(s, EmptyDirectory, hs, r.seqNo);
    if r.seqNo in w.terminal {
      var x :| Decided(s, EmptyDirectory, hs, x) && x.seqNo == r.seqNo;
      DecidedIsLogged(s, EmptyDirectory, hs, x);
    } else {
      UndecidedIsPending(s, w, r);
    }
  }

  /** After any history, with the process dead, the log can be opened again. */
  lemma RestartIsAlwaysPossible(s: Setup, hs: seq<Happening>)
    requires RoundTrips(s.codec) && History(s, EmptyDirectory, hs) && WorldAfter(s, EmptyDirectory, hs).proc.None?
    ensures Allowed(s, WorldAfter(s, EmptyDirectory, hs), Startup)
  {
    hide Holds, History, WorldAfter, Recovered;
    EmptyDirectoryHolds(s);
    EveryHistoryHolds(s, EmptyDirectory, hs);
    PendingIs(s, WorldAfter(s, EmptyDirectory, hs));
  }

  // ---- A clean stop ----

  /** The pipeline holds nothing any more. */
  ghost predicate Empty(p: Pipe) {
    forall x: Item :: Held(p, x) == 0
  }

  /** The checkpoint in memory is the one on disk. */
  predicate Current(w: World) {
    w.proc.Some? && DurableCheckpoint(w.disk) == Some(w.proc.value.mem.checkpoint)
  }

  /** It is after a start, and from then on exactly as long as the last advance was persisted. */
  lemma CurrentAfter(s: Setup, w: World, h: Happening)
    requires RoundTrips(s.codec) && Holds(s, w) && Allowed(s, w, h) && Happens(s, w, h).proc.Some?
    ensures var v := Happens(s, w, h);
      Current(v) <==>
        if h.Startup? then true
        else if v.proc.value.mem.checkpoint == w.proc.value.mem.checkpoint then Current(w)
        else h.Work? && h.io.CkptWritten?
  {
    hide DiskHolds, Shaped, Ledger, OutcomesFirst, Step, Enabled, AfterAck, Encodable, TailClean;
    if h.Startup? {
      StartupDisk(s, w);
    }
    if h.Work? && Acknowledges(h.e) {
      AckMemHolds(s, w, h.e, h.io, h.compactIo);
    }
  }

  /** So it is at the end of every run in which each write of the checkpoint succeeds. */
  lemma {:induction false} CurrentThroughout(s: Setup, w: World, hs: seq<Happening>)
    requires RoundTrips(s.codec) && Holds(s, w) && History(s, w, hs) && WorldAfter(s, w, hs).proc.Some?
    requires w.proc.None? || Current(w)
    requires forall i :: 0 <= i < |hs| && hs[i].Work? ==> hs[i].io.CkptWritten?
    ensures Current(WorldAfter(s, w, hs))
    decreases |hs|
  {
    hide Holds, Allowed, Happens, Current;
    if hs != [] {
      var v := Happens(s, w, hs[0]);
      HappeningHolds(s, w, hs[0]);
      if v.proc.Some? {
        RunningOrStartup(s, w, hs[0]);
        CurrentAfter(s, w, hs[0]);
      }
      CurrentThroughout(s, v, hs[1..]);
    }
  }

  lemma RunningOrStartup(s: Setup, w: World, h: Happening)
    requires Allowed(s, w, h)
    ensures w.proc.Some? || h.Startup?
    ensures w.proc.Some? && !Acknowledging(h) && Happens(s, w, h).proc.Some? ==>
      Happens(s, w, h).proc.value.mem.checkpoint == w.proc.value.mem.checkpoint
  {
    hide Step, Enabled, Encodable, TailClean;
  }

  predicate Acknowledging(h: Happening) {
    h.Work? && Acknowledges(h.e)
  }

  /**
    When the checkpoint in memory is the one on disk, the next open has nothing to replay if and only if
    the pipeline is empty and nothing was left behind; the durable checkpoint then is the last number.
   */
  lemma CleanStopLeavesNothing(s: Setup, w: World)
    requires Holds(s, w) && Current(w)
    ensures var p := w.proc.value;
      && (Recovered(s.codec, w.disk).value.pending == [] <==> Empty(p.pipe) && p.pipe.abandoned == [])
      && (Recovered(s.codec, w.disk).value.pending == [] ==>
            DurableCheckpoint(w.disk) == Some(p.mem.checkpoint) && p.mem.checkpoint == |w.logged|)
      && (p.mem.checkpoint <= p.mem.seqNo ==> p.mem.seqNo == |w.logged|)
  {
    hide Shaped, DiskHolds, Held, OutcomesFirst;
    var p := w.proc.value;
    var m := p.mem;
    PendingIs(s, w);
    if m.checkpoint < |w.logged| {
      var next := w.logged[m.checkpoint];
      assert next.seqNo == m.checkpoint + 1 && IsLogged(w.logged, next);
      if next !in p.pipe.abandoned {
        assert Owed(w.logged, m, p.pipe.abandoned, next);
        assert Held(p.pipe, next) == 1;
      }
      assert w.logged[m.checkpoint..] != [];
    } else {
      forall x: Item ensures Held(p.pipe, x) == 0 {
        assert !Owed(w.logged, m, p.pipe.abandoned, x);
      }
      NothingPinnedAtEnd(w.logged, m, p.pipe.abandoned);
    }
  }

  lemma NothingPinnedAtEnd(logged: seq<Record>, m: Mem, abandoned: seq<Item>)
    requires AbandonedPins(logged, m, abandoned) && m.checkpoint >= |logged|
    ensures abandoned == []
  {
    FirstIsMember(abandoned);
  }

  lemma FinishedIsEmpty(cfg: Config, p: Pipe)
    requires Shaped(cfg, p) && Finished(p) && p.queue == []
    ensures Empty(p)
  {
  }

  /**
    A clean stop: after a drain that ran to its end with nothing stranded, nothing canceled and the last
    checkpoint persisted, the durable checkpoint is the last number and the next open replays nothing.
   */
  lemma CleanDrainLeavesNothing(s: Setup, w: World)
    requires Holds(s, w) && Current(w)
    requires var p := w.proc.value.pipe; Finished(p) && !Stranded(p) && p.abandoned == []
    requires w.proc.value.mem.checkpoint <= w.proc.value.mem.seqNo
    ensures Recovered(s.codec, w.disk).Some? && Recovered(s.codec, w.disk).value.pending == []
    ensures DurableCheckpoint(w.disk) == Some(w.proc.value.mem.seqNo)
  {
    hide DiskHolds, Ledger, OutcomesFirst, Empty, Recovered;
    PendingIs(s, w);
    FinishedIsEmpty(s.cfg, w.proc.value.pipe);
    CleanStopLeavesNothing(s, w);
  }

  /** The checkpoint on disk never goes back, whatever happens, and never runs ahead of the one in memory. */
  lemma CheckpointNeverGoesBack(s: Setup, w: World, h: Happening)
    requires RoundTrips(s.codec) && Holds(s, w) && Allowed(s, w, h)
    ensures var v := Happens(s, w, h);
      && DurableCheckpoint(w.disk).Some? && DurableCheckpoint(v.disk).Some?
      && DurableCheckpoint(w.disk).value <= DurableCheckpoint(v.disk).value
      && (v.proc.Some? ==> DurableCheckpoint(v.disk).value <= v.proc.value.mem.checkpoint)
  {
    hide DiskHolds, Shaped, Ledger, OutcomesFirst, Step, Enabled, AfterAck, MemHolds;
    HappeningHolds(s, w, h);
    PendingIs(s, w);
    PendingIs(s, Happens(s, w, h));
    if (h.Work? && Acknowledges(h.e)) || h.CrashInAck? {
      AckCheckpoint(s, w, h.e, h.io, h.compactIo);
    }
  }

  lemma AckCheckpoint(s: Setup, w: World, e: Event, io: CkptIo, compactIo: CompactIo)
    requires w.proc.Some?
    ensures var m := Advance(w.proc.value.mem, NumbersOf(Released(w.proc.value.pipe, e)));
      && w.proc.value.mem.checkpoint <= m.checkpoint
      && (forall d :: d in {AfterAck(s, w, e, io, compactIo).disk, CheckpointedDisk(s, w, e, io)} ==>
            DurableCheckpoint(d) == DurableCheckpoint(w.disk) || DurableCheckpoint(d) == Some(m.checkpoint))
  {
    hide Checkpoint.Decimal, Checkpoint.ScanUint64, AllEncodable, Log, Above, Parse, RunEnd;
    var m := Advance(w.proc.value.mem, NumbersOf(Released(w.proc.value.pipe, e)));
    Checkpoint.CheckpointRoundTrip(m.checkpoint);
  }

  // ---- A canceled enqueue ----

  ghost predicate Pinned(s: Setup, w: World, x: Item) {
    && DurableCheckpoint(w.disk).Some? && DurableCheckpoint(w.disk).value < x.seqNo
    && IsLogged(w.logged, x)
    && (w.proc.Some? ==> x in w.proc.value.pipe.abandoned && w.proc.value.mem.checkpoint < x.seqNo)
  }

  lemma AbandonedIsPinned(s: Setup, w: World, x: Item)
    requires Holds(s, w) && w.proc.Some? && x in w.proc.value.pipe.abandoned
    ensures Pinned(s, w, x)
  {
  }

  lemma AbandonedRemains(cfg: Config, p: Pipe, e: Event, x: Item)
    requires Enabled(cfg, p, e) && x in p.abandoned
    ensures x in Step(cfg, p, e).abandoned
  {
    hide Account, Matching;
  }

  /** Dying in an acknowledgement persists no checkpoint beyond the one it was about to reach. */
  lemma CrashInAckPins(s: Setup, w: World, h: Happening, x: Item)
    requires RoundTrips(s.codec) && Holds(s, w) && Allowed(s, w, h) && h.CrashInAck?
    requires w.proc.Some? && x in w.proc.value.pipe.abandoned
    ensures Pinned(s, Happens(s, w, h), x)
  {
    hide Shaped, Step, Enabled, Ledger, DiskHolds, OutcomesFirst, AfterAck;
    AbandonedIsPinned(s, w, x);
    var done := AfterWork(s, w, h.e, h.io, h.compactIo);
    AckHolds(s, w, h.e, h.io, h.compactIo);
    AbandonedRemains(s.cfg, w.proc.value.pipe, h.e, x);
    AbandonedIsPinned(s, done, x);
    AckMemHolds(s, w, h.e, h.io, h.compactIo);
    CheckpointRoundTripOf(s, w, h.e, h.io);
  }

  lemma CheckpointRoundTripOf(s: Setup, w: World, e: Event, io: CkptIo)
    requires w.proc.Some?
    ensures var m := Advance(w.proc.value.mem, NumbersOf(Released(w.proc.value.pipe, e)));
      DurableCheckpoint(CheckpointedDisk(s, w, e, io)) == DurableCheckpoint(w.disk)
      || DurableCheckpoint(CheckpointedDisk(s, w, e, io)) == Some(m.checkpoint)
  {
    var m := Advance(w.proc.value.mem, NumbersOf(Released(w.proc.value.pipe, e)));
    Checkpoint.CheckpointRoundTrip(m.checkpoint);
  }

  lemma PinnedAfter(s: Setup, w: World, h: Happening, x: Item)
    requires RoundTrips(s.codec) && Holds(s, w) && Allowed(s, w, h) && !h.Startup?
    requires w.proc.Some? && x in w.proc.value.pipe.abandoned
    ensures Pinned(s, Happens(s, w, h), x)
  {
    AbandonedIsPinned(s, w, x);
    HappeningHolds(s, w, h);
    LoggedRemains(s, w, h, x);
    if h.CrashInAck? {
      CrashInAckPins(s, w, h, x);
    } else {
      PinnedUnlessCrashedInAck(s, w, h, x);
    }
  }

  lemma PinnedUnlessCrashedInAck(s: Setup, w: World, h: Happening, x: Item)
    requires Holds(s, w) && Allowed(s, w, h) && !h.Startup? && !h.CrashInAck?
    requires w.proc.Some? && x in w.proc.value.pipe.abandoned && Pinned(s, w, x)
    requires Holds(s, Happens(s, w, h)) && IsLogged(Happens(s, w, h).logged, x)
    ensures Pinned(s, Happens(s, w, h), x)
  {
    hide Holds, Step, Enabled, AfterAck, Encodable, TailClean;
    var v := Happens(s, w, h);
    if h.Work? {
      AbandonedRemains(s.cfg, w.proc.value.pipe, h.e, x);
    }
    if h.Enqueue? {
      OfferKeepsAbandoned(s.cfg, w.proc.value.pipe,
                          NextRecord(w.proc.value.mem, h.group, h.extraLabels, h.receivedAt));
    }
    if v.proc.Some? {
      assert x in v.proc.value.pipe.abandoned;
      AbandonedIsPinned(s, v, x);
    }
  }

  lemma OfferKeepsAbandoned(cfg: Config, p: Pipe, r: Item)
    ensures Enabled(cfg, p, Offer(r)) && Step(cfg, p, Offer(r)).abandoned == p.abandoned
  {
  }

  lemma {:induction false} PinnedThroughout(s: Setup, w: World, hs: seq<Happening>, x: Item)
    requires RoundTrips(s.codec) && Holds(s, w) && History(s, w, hs) && NoStartup(hs)
    requires Pinned(s, w, x)
    ensures Holds(s, WorldAfter(s, w, hs)) && Pinned(s, WorldAfter(s, w, hs), x)
    decreases |hs|
  {
    hide Holds, Happens, Pinned;
    if hs != [] {
      var v := Happens(s, w, hs[0]);
      RunningUnlessStartup(s, w, hs[0], x);
      HappeningHolds(s, w, hs[0]);
      PinnedAfter(s, w, hs[0], x);
      PinnedThroughout(s, v, hs[1..], x);
    }
  }

  lemma RunningUnlessStartup(s: Setup, w: World, h: Happening, x: Item)
    requires Allowed(s, w, h) && !h.Startup? && Pinned(s, w, x)
    ensures w.proc.Some? && x in w.proc.value.pipe.abandoned
  {
  }

  /**
    A canceled enqueue pins the checkpoint below its record for the rest of the process, and whenever
    and however that process ends, the next open hands the record out for replay.
   */
  lemma CanceledEnqueueIsReplayed(s: Setup, w: World, hs: seq<Happening>, x: Item)
    requires RoundTrips(s.codec) && Holds(s, w) && w.proc.Some? && x in w.proc.value.pipe.abandoned
    requires History(s, w, hs) && NoStartup(hs)
    ensures var v := WorldAfter(s, w, hs);
      && (v.proc.Some? ==> v.proc.value.mem.checkpoint < x.seqNo)
      && Recovered(s.codec, v.disk).Some? && x in Recovered(s.codec, v.disk).value.pending
  {
    hide Holds, History, WorldAfter, Recovered, Parse, Pinned;
    AbandonedIsPinned(s, w, x);
    PinnedThroughout(s, w, hs, x);
    PinnedIsPending(s, WorldAfter(s, w, hs), x);
  }

  lemma PinnedIsPending(s: Setup, w: World, x: Item)
    requires Holds(s, w) && Pinned(s, w, x)
    ensures Recovered(s.codec, w.disk).Some? && x in Recovered(s.codec, w.disk).value.pending
    ensures w.proc.Some? ==> w.proc.value.mem.checkpoint < x.seqNo
  {
    hide Holds, Recovered;
    PendingIs(s, w);
    var k := DurableCheckpoint(w.disk).value;
    assert w.logged[x.seqNo - 1] == w.logged[k..][x.seqNo - 1 - k];
  }
}
