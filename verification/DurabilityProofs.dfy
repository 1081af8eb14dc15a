/** At-least-once: every happening, crashes included, keeps each accepted record either accounted or on disk. */
module DurabilityProofs {
  import opened Basics
  import opened Alerts
  import opened Framing
  import opened WalSpec
  import opened WalProofs
  import opened AckProofs
  import opened Pipeline
  import opened PipelineProofs
  import opened Durability
  import opened LogProofs

  // ---- Startup ----

  lemma HeldAtStart(replaying: seq<Item>, x: Item)
    ensures Held(Initial(replaying), x) == Count(replaying, x)
  {
  }

  lemma OpeningChangesNothing(c: Codec, d: Disk)
    ensures LogBytes(Extend(d, [])) == LogBytes(d) && DurableCheckpoint(Extend(d, [])) == DurableCheckpoint(d)
    ensures OnDisk(c, Extend(d, [])) == OnDisk(c, d)
  {
  }

  lemma LedgerAtStart(logged: seq<Record>, k: u64, m: Mem)
    requires Numbered(logged) && k <= |logged| && m.checkpoint == k && m.acked == {}
    ensures Ledger(logged, m, Initial(logged[k..]))
  {
    forall x: Item
      ensures Held(Initial(logged[k..]), x) == if Owed(logged, m, [], x) then 1 else 0
    {
      HeldAtStart(logged[k..], x);
      CountOfSuffix(logged, k, x);
    }
  }

  lemma FreshProcessHolds(s: Setup, w: World, size: nat, k: u64, seqNo: u64)
    requires Numbered(w.logged) && k <= |w.logged| && DurableCheckpoint(w.disk) == Some(k)
    requires forall n: u64 :: 1 <= n <= k ==> n in w.terminal
    requires seqNo == |w.logged| || seqNo < k == |w.logged|
    ensures ProcHolds(s, w, Process(Mem(Open, size, seqNo, k, {}, []), Initial(w.logged[k..])))
  {
    hide Ledger;
    LedgerAtStart(w.logged, k, Mem(Open, size, seqNo, k, {}, []));
  }

  lemma StartupDisk(s: Setup, w: World)
    requires Holds(s, w) && w.proc.None?
    ensures DiskHolds(s.codec, Extend(w.disk, []), w.logged, w.terminal)
    ensures var k := DurableCheckpoint(w.disk).value;
      && k <= |w.logged| && DurableCheckpoint(Extend(w.disk, [])) == Some(k)
      && Recovered(s.codec, w.disk).Some?
      && var found := Recovered(s.codec, w.disk).value;
         && found.checkpoint == k && found.pending == w.logged[k..]
         && (found.seqNo == |w.logged| || found.seqNo < k == |w.logged|)
  {
    hide Parse, Above, Greatest, Numbered;
    var j: nat :| HoldsFrom(s.codec, w.disk, w.logged, j);
    OpeningChangesNothing(s.codec, w.disk);
    assert HoldsFrom(s.codec, Extend(w.disk, []), w.logged, j);
    RecoveredAre(s.codec, w.disk, w.logged, j);
  }

  lemma StartupHolds(s: Setup, w: World)
    requires Holds(s, w) && Allowed(s, w, Startup)
    ensures Holds(s, AfterStartup(s, w))
  {
    hide ProcHolds, Parse, Recovered, OnDisk, Initial, Numbered, HoldsFrom, Extend;
    StartupDisk(s, w);
    var found := Recovered(s.codec, w.disk).value;
    var v := AfterStartup(s, w);
    FreshProcessHolds(s, v, v.proc.value.mem.size, found.checkpoint, found.seqNo);
  }

  // ---- Appending ----

  /** A log that can take a record numbers it next. */
  lemma NextIsNext(s: Setup, w: World, r: Record)
    requires Holds(s, w) && w.proc.Some? && CanTakeRecord(s.codec, w.disk, w.proc.value.mem)
    requires r.seqNo == Inc(w.proc.value.mem.seqNo)
    ensures r.seqNo == |w.logged| + 1 && Numbered(w.logged + [r])
  {
  }

  lemma LoggedGrows(logged: seq<Record>, r: Record, x: Item)
    requires Numbered(logged + [r])
    ensures IsLogged(logged + [r], x) <==> IsLogged(logged, x) || x == r
    ensures !IsLogged(logged, r)
  {
    assert (logged + [r])[|logged|] == r;
  }

  lemma LedgerTakesRecord(logged: seq<Record>, m: Mem, cfg: Config, p: Pipe, r: Record, m': Mem)
    requires Numbered(logged + [r]) && Ledger(logged, m, p)
    requires m.checkpoint <= |logged| && forall n: u64 :: n in m.acked ==> n <= |logged|
    requires AbandonedPins(logged, m, p.abandoned)
    requires m'.checkpoint == m.checkpoint && m'.acked == m.acked
    ensures Ledger(logged + [r], m', Step(cfg, p, Offer(r)))
  {
    hide Held;
    var q := Step(cfg, p, Offer(r));
    forall x: Item ensures Held(q, x) == if Owed(logged + [r], m', q.abandoned, x) then 1 else 0 {
      HeldAfter(cfg, p, Offer(r), x);
      LoggedGrows(logged, r, x);
      assert Count([r], x) == if x == r then 1 else 0;
    }
  }

  lemma EnqueueHolds(s: Setup, w: World, r: Record, io: AppendIo)
    requires RoundTrips(s.codec) && Holds(s, w) && w.proc.Some?
    requires r.seqNo == Inc(w.proc.value.mem.seqNo)
    requires AppendRejects(s.codec, w.proc.value.mem, r, io).None? ==> CanTakeRecord(s.codec, w.disk, w.proc.value.mem)
    ensures Holds(s, AfterEnqueue(s, w, r, io))
  {
    hide Ledger, Shaped, OutcomesFirst, AbandonedPins, MemHolds, Parse, Held;
    var p := w.proc.value;
    if AppendRejects(s.codec, p.mem, r, io).None? {
      NextIsNext(s, w, r);
      EnqueueDisk(s, w, r, io);
      EnqueuePipe(s, w, r, io);
      EnqueueProc(s, w, r, io);
    }
  }

  lemma EnqueueDisk(s: Setup, w: World, r: Record, io: AppendIo)
    requires RoundTrips(s.codec) && Holds(s, w) && w.proc.Some? && TailClean(s.codec, w.disk)
    requires AppendRejects(s.codec, w.proc.value.mem, r, io).None?
    ensures var v := AfterEnqueue(s, w, r, io);
      DiskHolds(s.codec, v.disk, v.logged, v.terminal) && DurableCheckpoint(v.disk) == DurableCheckpoint(w.disk)
  {
    hide ProcHolds, Parse, Numbered;
    var j: nat :| HoldsFrom(s.codec, w.disk, w.logged, j);
    AppendedWhole(s.codec, w.disk, w.logged, j, r);
    assert HoldsFrom(s.codec, Extend(w.disk, FrameOf(s.codec, r)), w.logged + [r], j);
  }

  lemma EnqueuePipe(s: Setup, w: World, r: Record, io: AppendIo)
    requires Holds(s, w) && w.proc.Some? && Numbered(w.logged + [r])
    requires AppendRejects(s.codec, w.proc.value.mem, r, io).None?
    ensures var v := AfterEnqueue(s, w, r, io);
      var p := v.proc.value;
      && Shaped(s.cfg, p.pipe) && Ledger(v.logged, p.mem, p.pipe)
      && AbandonedPins(v.logged, p.mem, p.pipe.abandoned)
  {
    hide Ledger, Shaped, OutcomesFirst, DiskHolds, AbandonedPins, Numbered;
    var p := w.proc.value;
    var m := AfterEnqueue(s, w, r, io).proc.value.mem;
    LedgerTakesRecord(w.logged, p.mem, s.cfg, p.pipe, r, m);
    ShapedAfter(s.cfg, p.pipe, Offer(r));
    AbandonedStaysPinned(w.logged, r, p.mem, m, p.pipe.abandoned);
  }

  lemma AbandonedStaysPinned(logged: seq<Record>, r: Record, m: Mem, m': Mem, abandoned: seq<Item>)
    requires Numbered(logged + [r]) && AbandonedPins(logged, m, abandoned)
    requires m'.checkpoint == m.checkpoint && m'.acked == m.acked
    ensures AbandonedPins(logged + [r], m', abandoned)
  {
  }

  lemma EnqueueProc(s: Setup, w: World, r: Record, io: AppendIo)
    requires Holds(s, w) && w.proc.Some? && r.seqNo == |w.logged| + 1
    requires AppendRejects(s.codec, w.proc.value.mem, r, io).None?
    ensures var v := AfterEnqueue(s, w, r, io);
      && MemHolds(v.proc.value.mem, v.logged, v.terminal)
      && OutcomesFirst(s.cfg, v.proc.value.pipe, v.terminal)
  {
  }

  // ---- Pipeline steps that acknowledge nothing ----

  lemma HeldOnceIsOwed(logged: seq<Record>, m: Mem, p: Pipe, x: Item)
    requires Ledger(logged, m, p) && Held(p, x) > 0
    ensures Owed(logged, m, p.abandoned, x) && Held(p, x) == 1
  {
  }

  lemma ReleasedIsHeld(cfg: Config, p: Pipe, e: Event, x: Item)
    requires Enabled(cfg, p, e) && !e.Offer?
    ensures Count(Released(p, e), x) <= Held(p, x)
  {
  }

  /** What leaves without an acknowledgement is what is left behind. */
  lemma AbandonedAfter(cfg: Config, p: Pipe, e: Event)
    requires Enabled(cfg, p, e) && !Acknowledges(e)
    ensures Step(cfg, p, e).abandoned == p.abandoned + Released(p, e)
  {
    hide Account, Matching;
  }

  lemma LedgerAfterWork(logged: seq<Record>, m: Mem, cfg: Config, p: Pipe, e: Event)
    requires Enabled(cfg, p, e) && !e.Offer? && !Acknowledges(e) && Ledger(logged, m, p)
    ensures Ledger(logged, m, Step(cfg, p, e))
  {
    hide Held, Step, Released;
    var q := Step(cfg, p, e);
    AbandonedAfter(cfg, p, e);
    forall x: Item ensures Held(q, x) == if Owed(logged, m, q.abandoned, x) then 1 else 0 {
      HeldAfter(cfg, p, e, x);
      ReleasedIsHeld(cfg, p, e, x);
      assert Count([], x) == 0;
      assert Count(Released(p, e), x) > 0 <==> x in Released(p, e);
    }
  }

  lemma PinsAfterWork(logged: seq<Record>, m: Mem, cfg: Config, p: Pipe, e: Event)
    requires Enabled(cfg, p, e) && !e.Offer? && !Acknowledges(e)
    requires Ledger(logged, m, p) && AbandonedPins(logged, m, p.abandoned)
    ensures AbandonedPins(logged, m, Step(cfg, p, e).abandoned)
  {
    hide Held, Step, Released;
    AbandonedAfter(cfg, p, e);
    forall x | x in Released(p, e) ensures Owed(logged, m, p.abandoned, x) {
      assert Count(Released(p, e), x) > 0;
      ReleasedIsHeld(cfg, p, e, x);
      HeldOnceIsOwed(logged, m, p, x);
    }
  }

  lemma {:induction false} MatchingHasAll(items: seq<Item>, f: Item -> bool, want: bool, x: Item)
    requires x in items && f(x) == want
    ensures x in Matching(items, f, want)
  {
    if items[0] != x {
      MatchingHasAll(items[1..], f, want, x);
    }
  }

  lemma AccountHas(items: seq<Item>, o: Outcome, x: Item)
    requires x in items
    ensures x in Items(Account(items, o))
  {
  }

  /** An item gets its outcome before it is put up for acknowledgement. */
  lemma OutcomesFirstAfter(cfg: Config, p: Pipe, e: Event, terminal: set<u64>)
    requires Shaped(cfg, p) && Enabled(cfg, p, e) && OutcomesFirst(cfg, p, terminal)
    ensures OutcomesFirst(cfg, Step(cfg, p, e), terminal + NumbersOf(Items(Adds(cfg, p, e))))
  {
    var more := terminal + NumbersOf(Items(Adds(cfg, p, e)));
    match e {
      case DropFull(i) =>
        assert Adds(cfg, p, e) == Account([p.waiting[i]], QueueFull);
        AccountHas([p.waiting[i]], QueueFull, p.waiting[i]);
      case Convert =>
        ConvertRecordsFailures(cfg, p, terminal);
      case Push(_) =>
        DeliveryRecordsReady(cfg, p, terminal, Delivered);
        DeliveryRecordsReady(cfg, p, terminal, DeliveryFailed);
      case NoAttempts =>
        DeliveryRecordsReady(cfg, p, terminal, Delivered);
      case BackoffAborted =>
        DeliveryRecordsReady(cfg, p, terminal, DeliveryFailed);
      case _ =>
    }
  }

  lemma ConvertRecordsFailures(cfg: Config, p: Pipe, terminal: set<u64>)
    requires p.flusher.Converting?
    ensures var failed := Matching(p.flusher.batch, cfg.converts, false);
      forall x :: x in p.flusher.batch && (!cfg.converts(x) || Matching(p.flusher.batch, cfg.converts, true) == []) ==>
        x.seqNo in terminal + NumbersOf(Items(Account(failed, ConversionFailed)))
  {
    var b := p.flusher.batch;
    forall x | x in b && (!cfg.converts(x) || Matching(b, cfg.converts, true) == [])
      ensures x in Items(Account(Matching(b, cfg.converts, false), ConversionFailed))
    {
      if cfg.converts(x) {
        MatchingHasAll(b, cfg.converts, true, x);
        assert false;
      }
      MatchingHasAll(b, cfg.converts, false, x);
      AccountHas(Matching(b, cfg.converts, false), ConversionFailed, x);
    }
  }

  lemma DeliveryRecordsReady(cfg: Config, p: Pipe, terminal: set<u64>, o: Outcome)
    requires Shaped(cfg, p) && p.flusher.Delivering? && OutcomesFirst(cfg, p, terminal)
    ensures forall x :: x in p.flusher.batch ==> x.seqNo in terminal + NumbersOf(Items(Account(p.flusher.ready, o)))
  {
    forall x | x in p.flusher.batch
      ensures x.seqNo in terminal + NumbersOf(Items(Account(p.flusher.ready, o)))
    {
      if cfg.converts(x) {
        MatchingHasAll(p.flusher.batch, cfg.converts, true, x);
        AccountHas(p.flusher.ready, o, x);
      }
    }
  }

  lemma MoreTerminal(s: Setup, w: World, more: set<u64>)
    requires Holds(s, w) && w.terminal <= more
    ensures DiskHolds(s.codec, w.disk, w.logged, more)
    ensures w.proc.Some? ==> MemHolds(w.proc.value.mem, w.logged, more)
  {
  }

  lemma WorkHolds(s: Setup, w: World, e: Event, io: CkptIo, compactIo: CompactIo)
    requires Holds(s, w) && Allowed(s, w, Work(e, io, compactIo)) && !Acknowledges(e)
    ensures Holds(s, AfterWork(s, w, e, io, compactIo))
  {
    hide Ledger, Shaped, Step, Enabled, MemHolds, OutcomesFirst, Numbered, DiskHolds, AbandonedPins;
    var p := w.proc.value;
    var v := AfterWork(s, w, e, io, compactIo);
    LedgerAfterWork(w.logged, p.mem, s.cfg, p.pipe, e);
    PinsAfterWork(w.logged, p.mem, s.cfg, p.pipe, e);
    ShapedAfter(s.cfg, p.pipe, e);
    OutcomesFirstAfter(s.cfg, p.pipe, e, w.terminal);
    MoreTerminal(s, w, v.terminal);
  }

  // ---- Acknowledgements ----

  /** Everything an acknowledgement covers has its outcome on record and is owed. */
  lemma AcknowledgedAreTerminal(s: Setup, w: World, e: Event)
    requires Holds(s, w) && w.proc.Some? && Acknowledges(e) && Enabled(s.cfg, w.proc.value.pipe, e)
    ensures var p := w.proc.value;
      forall x :: x in Released(p.pipe, e) ==> x.seqNo in w.terminal && Owed(w.logged, p.mem, p.pipe.abandoned, x)
  {
  }

  predicate CoveredBy(m: Mem, n: u64) {
    n <= m.checkpoint || n in m.acked
  }

  /** The numbers covered after an acknowledgement are those covered before and those acknowledged. */
  lemma AdvanceCovers(m: Mem, seqs: set<u64>, n: u64)
    requires Settled(m)
    ensures CoveredBy(Advance(m, seqs), n) <==> CoveredBy(m, n) || n in seqs
  {
    AckCoversExactly(AckView(m.checkpoint, m.acked), seqs, n);
  }

  lemma MemAfterAck(m: Mem, seqs: set<u64>, logged: seq<Record>, terminal: set<u64>)
    requires Numbered(logged) && MemHolds(m, logged, terminal)
    requires forall n :: n in seqs ==> n <= |logged| && n in terminal
    ensures var a := Advance(m, seqs);
      && m.checkpoint <= a.checkpoint <= |logged|
      && (forall n: u64 :: n in a.acked ==> n <= |logged| && n in terminal)
      && (forall n: u64 :: 1 <= n <= a.checkpoint ==> n in terminal)
  {
    var a := Advance(m, seqs);
    forall n: u64 | CoveredBy(a, n) ensures n <= |logged| && (n >= 1 ==> n in terminal) {
      AdvanceCovers(m, seqs, n);
    }
    assert CoveredBy(a, a.checkpoint);
    RunEndIsLongest(m.checkpoint, m.acked + NumbersAbove(seqs, m.checkpoint));
    forall n: u64 | n in a.acked ensures n <= |logged| && n in terminal {
      assert CoveredBy(a, n) && n > a.checkpoint;
    }
    forall n: u64 | 1 <= n <= a.checkpoint ensures n in terminal {
      assert CoveredBy(a, n);
    }
  }

  lemma NumberIsItem(logged: seq<Record>, items: seq<Item>, x: Item)
    requires IsLogged(logged, x) && forall y :: y in items ==> IsLogged(logged, y)
    ensures x.seqNo in NumbersOf(items) <==> x in items
  {
  }

  lemma LedgerAfterAck(logged: seq<Record>, m: Mem, cfg: Config, p: Pipe, e: Event, m': Mem)
    requires Settled(m) && Enabled(cfg, p, e) && Acknowledges(e) && Ledger(logged, m, p)
    requires AbandonedPins(logged, m, p.abandoned)
    requires forall x :: x in Released(p, e) ==> Owed(logged, m, p.abandoned, x)
    requires var a := Advance(m, NumbersOf(Released(p, e))); m'.checkpoint == a.checkpoint && m'.acked == a.acked
    ensures Ledger(logged, m', Step(cfg, p, e)) && AbandonedPins(logged, m', Step(cfg, p, e).abandoned)
  {
    hide Held, Advance, NumbersOf, Released;
    var q, rel := Step(cfg, p, e), Released(p, e);
    forall x: Item | IsLogged(logged, x)
      ensures CoveredBy(m', x.seqNo) <==> CoveredBy(m, x.seqNo) || x in rel
    {
      AdvanceCovers(m, NumbersOf(rel), x.seqNo);
      NumberIsItem(logged, rel, x);
    }
    forall x: Item ensures Held(q, x) == if Owed(logged, m', q.abandoned, x) then 1 else 0 {
      HeldAfter(cfg, p, e, x);
      ReleasedIsHeld(cfg, p, e, x);
      assert Count([], x) == 0;
      assert Count(rel, x) > 0 <==> x in rel;
    }
  }

  lemma AckedNumbers(s: Setup, w: World, e: Event)
    requires Holds(s, w) && w.proc.Some? && Acknowledges(e) && Enabled(s.cfg, w.proc.value.pipe, e)
    ensures forall n :: n in NumbersOf(Released(w.proc.value.pipe, e)) ==> n <= |w.logged| && n in w.terminal
  {
    hide ProcHolds, DiskHolds, Released;
    AcknowledgedAreTerminal(s, w, e);
  }

  lemma TerminalUpTo(c: Codec, d: Disk, logged: seq<Record>, j: nat, terminal: set<u64>)
    requires HoldsFrom(c, d, logged, j)
    requires forall n: u64 :: 1 <= n <= DurableCheckpoint(d).value ==> n in terminal
    ensures DiskHolds(c, d, logged, terminal)
  {
  }

  /** The disk after an acknowledgement, at each point where the process may die in it. */
  lemma AckDiskHolds(s: Setup, w: World, e: Event, io: CkptIo, compactIo: CompactIo)
    requires RoundTrips(s.codec) && Holds(s, w) && w.proc.Some?
    requires Acknowledges(e) && Enabled(s.cfg, w.proc.value.pipe, e)
    ensures DiskHolds(s.codec, AfterAck(s, w, e, io, compactIo).disk, w.logged, w.terminal)
    ensures DiskHolds(s.codec, CheckpointedDisk(s, w, e, io), w.logged, w.terminal)
  {
    hide Ledger, Shaped, Advance, Released, Settled, Parse, Step, Enabled, NumbersOf, HoldsFrom, WalSpec.Ack,
      DurableCheckpoint, OutcomesFirst, AbandonedPins;
    var m, seqs := w.proc.value.mem, NumbersOf(Released(w.proc.value.pipe, e));
    AckedNumbers(s, w, e);
    MemAfterAck(m, seqs, w.logged, w.terminal);
    var j: nat :| HoldsFrom(s.codec, w.disk, w.logged, j);
    AckKeepsDisk(s.codec, State(w.disk, m), seqs, io, compactIo, w.logged, j);
    var i: nat :| HoldsFrom(s.codec, AfterAck(s, w, e, io, compactIo).disk, w.logged, i);
    HoldsFromHasCheckpoint(s.codec, w.disk, w.logged, j);
    TerminalUpTo(s.codec, AfterAck(s, w, e, io, compactIo).disk, w.logged, i, w.terminal);
    Checkpointed(s.codec, w.disk, w.logged, j, Advance(m, seqs).checkpoint);
    TerminalUpTo(s.codec, CheckpointedDisk(s, w, e, io), w.logged, j, w.terminal);
  }

  lemma HoldsFromHasCheckpoint(c: Codec, d: Disk, logged: seq<Record>, j: nat)
    requires HoldsFrom(c, d, logged, j)
    ensures DurableCheckpoint(d).Some? && DurableCheckpoint(d).value <= |logged|
  {
  }

  lemma AckMemHolds(s: Setup, w: World, e: Event, io: CkptIo, compactIo: CompactIo)
    requires RoundTrips(s.codec) && Holds(s, w) && w.proc.Some?
    requires Acknowledges(e) && Enabled(s.cfg, w.proc.value.pipe, e)
    ensures var t := AfterAck(s, w, e, io, compactIo);
      var m := w.proc.value.mem;
      && MemHolds(t.mem, w.logged, w.terminal)
      && t.mem.checkpoint == Advance(m, NumbersOf(Released(w.proc.value.pipe, e))).checkpoint
      && t.mem.acked == Advance(m, NumbersOf(Released(w.proc.value.pipe, e))).acked
      && m.checkpoint <= t.mem.checkpoint
      && DurableCheckpoint(t.disk) == (
        if t.mem.checkpoint == m.checkpoint || !io.CkptWritten? then DurableCheckpoint(w.disk)
        else Some(t.mem.checkpoint))
  {
    hide Ledger, Shaped, Advance, Released, Parse, Step, Enabled, NumbersOf, OutcomesFirst, AbandonedPins, HoldsFrom,
         Numbered, WalSpec.Ack;
    var m, seqs := w.proc.value.mem, NumbersOf(Released(w.proc.value.pipe, e));
    AckedNumbers(s, w, e);
    MemAfterAck(m, seqs, w.logged, w.terminal);
    var j: nat :| HoldsFrom(s.codec, w.disk, w.logged, j);
    AckKeepsDisk(s.codec, State(w.disk, m), seqs, io, compactIo, w.logged, j);
    AckSettles(s.codec, State(w.disk, m), seqs, io, compactIo);
  }

  lemma OutcomesFirstAfterAck(cfg: Config, p: Pipe, e: Event, terminal: set<u64>)
    requires Shaped(cfg, p) && Enabled(cfg, p, e) && Acknowledges(e) && OutcomesFirst(cfg, p, terminal)
    ensures OutcomesFirst(cfg, Step(cfg, p, e), terminal)
  {
  }

  lemma AckHolds(s: Setup, w: World, e: Event, io: CkptIo, compactIo: CompactIo)
    requires RoundTrips(s.codec) && Holds(s, w) && w.proc.Some?
    requires Acknowledges(e) && Enabled(s.cfg, w.proc.value.pipe, e)
    ensures Holds(s, AfterWork(s, w, e, io, compactIo))
  {
    hide Ledger, Shaped, Step, Enabled, OutcomesFirst, Numbered, DiskHolds, AbandonedPins, Advance, Released,
         AfterAck, NumbersOf;
    var p := w.proc.value;
    AckDiskHolds(s, w, e, io, compactIo);
    AckMemHolds(s, w, e, io, compactIo);
    AcknowledgedAreTerminal(s, w, e);
    LedgerAfterAck(w.logged, p.mem, s.cfg, p.pipe, e, AfterAck(s, w, e, io, compactIo).mem);
    ShapedAfter(s.cfg, p.pipe, e);
    OutcomesFirstAfterAck(s.cfg, p.pipe, e, w.terminal);
  }

  // ---- Crashes ----

  lemma CrashInAppendHolds(s: Setup, w: World, r: Record, bytes: nat)
    requires RoundTrips(s.codec) && Holds(s, w) && w.proc.Some? && r.seqNo == Inc(w.proc.value.mem.seqNo)
    requires CanTakeRecord(s.codec, w.disk, w.proc.value.mem)
    requires Encodable(s.codec, r) && bytes <= |FrameOf(s.codec, r)|
    ensures var logged := if bytes == |FrameOf(s.codec, r)| then w.logged + [r] else w.logged;
      && Numbered(logged)
      && DiskHolds(s.codec, Extend(w.disk, FrameOf(s.codec, r)[..bytes]), logged, w.terminal)
  {
    hide Ledger, Shaped, Parse, MemHolds;
    NextIsNext(s, w, r);
    var j: nat :| HoldsFrom(s.codec, w.disk, w.logged, j);
    var frame := FrameOf(s.codec, r);
    if bytes == |frame| {
      assert frame[..bytes] == frame;
      AppendedWhole(s.codec, w.disk, w.logged, j, r);
      assert HoldsFrom(s.codec, Extend(w.disk, frame), w.logged + [r], j);
    } else {
      AppendedInPart(s.codec, w.disk, w.logged, j, r, bytes);
      assert HoldsFrom(s.codec, Extend(w.disk, frame[..bytes]), w.logged, j);
    }
  }

  // ---- Any happening ----

  lemma HappeningHolds(s: Setup, w: World, h: Happening)
    requires RoundTrips(s.codec) && Holds(s, w) && Allowed(s, w, h)
    ensures Holds(s, Happens(s, w, h))
  {
    hide AfterStartup, AfterEnqueue, AfterWork, AfterAck, CheckpointedDisk, DiskHolds, Ledger, Shaped, Step, Enabled,
         OutcomesFirst, AbandonedPins, Numbered, Encodable, TailClean;
    match h {
      case Startup => StartupHolds(s, w);
      case Enqueue(group, extraLabels, receivedAt, io) =>
        EnqueueAllowed(s, w, h);
        EnqueueHolds(s, w, NextRecord(w.proc.value.mem, group, extraLabels, receivedAt), io);
      case Work(e, io, compactIo) =>
        if Acknowledges(e) {
          AckHolds(s, w, e, io, compactIo);
        } else {
          WorkHolds(s, w, e, io, compactIo);
        }
      case CloseLog => CloseHolds(s, w);
      case Crash =>
      case CrashInAppend(group, extraLabels, receivedAt, bytes) =>
        CrashInAppendHolds(s, w, NextRecord(w.proc.value.mem, group, extraLabels, receivedAt), bytes);
      case CrashInAck(e, io, compactIo, reach) =>
        AckDiskHolds(s, w, e, io, compactIo);
    }
  }

  lemma CloseHolds(s: Setup, w: World)
    requires Holds(s, w) && w.proc.Some?
    ensures var p := w.proc.value;
      Holds(s, w.(proc := Some(p.(mem := AfterClose(p.mem)))))
  {
  }

  lemma EnqueueAllowed(s: Setup, w: World, h: Happening)
    requires h.Enqueue? && Allowed(s, w, h)
    ensures var r := NextRecord(w.proc.value.mem, h.group, h.extraLabels, h.receivedAt);
      AppendRejects(s.codec, w.proc.value.mem, r, h.writeIo).None? ==> CanTakeRecord(s.codec, w.disk, w.proc.value.mem)
  {
  }

  lemma EmptyDirectoryHolds(s: Setup)
    ensures Holds(s, EmptyDirectory)
  {
    assert HoldsFrom(s.codec, EmptyDirectory.disk, [], 0);
  }

  lemma {:induction false} EveryHistoryHolds(s: Setup, w: World, hs: seq<Happening>)
    requires RoundTrips(s.codec) && Holds(s, w) && History(s, w, hs)
    ensures Holds(s, WorldAfter(s, w, hs))
    decreases |hs|
  {
    hide Holds, Allowed, Happens;
    if hs != [] {
      HappeningHolds(s, w, hs[0]);
      EveryHistoryHolds(s, Happens(s, w, hs[0]), hs[1..]);
    }
  }

  // ---- The crash states of the log are the ones of the histories ----

  /** Wherever an append dies, the disk it leaves is one that `CrashInAppend` leaves. */
  lemma AppendCrashesAreHistories(s: Setup, w: World, group: AlertGroup, extraLabels: Labels, receivedAt: Instant,
                                  d: Disk) returns (bytes: nat)
    requires w.proc.Some? && Allowed(s, w, Enqueue(group, extraLabels, receivedAt, Written))
    requires var m := w.proc.value.mem;
      d in AppendCrashes(s.codec, State(w.disk, m), NextRecord(m, group, extraLabels, receivedAt), Written)
    ensures Allowed(s, w, CrashInAppend(group, extraLabels, receivedAt, bytes))
    ensures Happens(s, w, CrashInAppend(group, extraLabels, receivedAt, bytes)).disk == d
  {
    hide TailClean, Parse;
    var m := w.proc.value.mem;
    var crashes := AppendCrashes(s.codec, State(w.disk, m), NextRecord(m, group, extraLabels, receivedAt), Written);
    bytes :| bytes < |crashes| && crashes[bytes] == d;
  }

  /** And every disk that these crashes leave is one at which the calls may die. */
  lemma HistoriesCrashesAreExposed(s: Setup, w: World, h: Happening)
    requires Allowed(s, w, h) && (h.CrashInAppend? || h.CrashInAck?)
    ensures var st, d := State(w.disk, w.proc.value.mem), Happens(s, w, h).disk;
      if h.CrashInAppend? then
        d in AppendCrashes(s.codec, st, NextRecord(st.mem, h.group, h.extraLabels, h.receivedAt), Written)
      else d in AckCrashes(s.codec, st, NumbersOf(Released(w.proc.value.pipe, h.e)), h.io, h.compactIo)
  {
    hide TailClean, Parse, WalSpec.Ack, Enabled;
    if h.CrashInAppend? {
      var m := w.proc.value.mem;
      var r := NextRecord(m, h.group, h.extraLabels, h.receivedAt);
      assert AppendCrashes(s.codec, State(w.disk, m), r, Written)[h.bytes]
          == Extend(w.disk, FrameOf(s.codec, r)[..h.bytes]);
    }
  }

  /** Wherever an acknowledgement dies, the disk it leaves is one that `CrashInAck` leaves. */
  lemma AckCrashesAreHistories(s: Setup, w: World, e: Event, io: CkptIo, compactIo: CompactIo, d: Disk)
    returns (reach: AckReach)
    requires w.proc.Some? && Acknowledges(e) && Enabled(s.cfg, w.proc.value.pipe, e)
    requires var seqs := NumbersOf(Released(w.proc.value.pipe, e));
      d in AckCrashes(s.codec, State(w.disk, w.proc.value.mem), seqs, io, compactIo)
    ensures Allowed(s, w, CrashInAck(e, io, compactIo, reach))
    ensures Happens(s, w, CrashInAck(e, io, compactIo, reach)).disk == d
  {
    hide WalSpec.Ack, MidAck, Enabled;
    reach :=
      if d == w.disk then BeforeCheckpoint
      else if d == CheckpointedDisk(s, w, e, io) then AfterCheckpoint
      else AfterCompaction;
  }
}
