/**
  What happens in a history, told from the outside: which records `append` reported as accepted, and
  for which items an outcome was recorded. The history fields of a world hold exactly that.
 */
module Histories {
  import opened Basics
  import opened Alerts
  import opened Framing
  import opened WalSpec
  import opened Pipeline
  import opened PipelineProofs
  import opened Durability
  import opened DurabilityProofs

  /** This is a call of `append` that returns, and `r` is what it was called with under the next number. */
  predicate Returns(s: Setup, w: World, h: Happening, r: Record) {
    && h.Enqueue? && w.proc.Some?
    && r.group == h.group && r.extraLabels == h.extraLabels && r.receivedAt == h.receivedAt
    && r.seqNo == Inc(w.proc.value.mem.seqNo)
    && w.proc.value.mem.handle == Open && Encodable(s.codec, r) && h.writeIo.Written?
  }

  /** The outcomes recorded by the running process. */
  function Outcomes(w: World): seq<Accounted> {
    if w.proc.Some? then w.proc.value.pipe.accounted else []
  }

  /** The entries that one happening adds to those outcomes. */
  function Added(s: Setup, w: World, h: Happening): seq<Accounted>
    requires Allowed(s, w, h)
  {
    var before, after := Outcomes(w), Outcomes(Happens(s, w, h));
    if |before| <= |after| then after[|before|..] else []
  }

  predicate Records(s: Setup, w: World, h: Happening, x: Item)
    requires Allowed(s, w, h)
  {
    exists a :: a in Added(s, w, h) && a.item == x
  }

  // ---- One happening ----

  lemma ReturnsIsNext(s: Setup, w: World, h: Happening, r: Record)
    requires h.Enqueue? && w.proc.Some?
    ensures var m := w.proc.value.mem;
      var next := NextRecord(m, h.group, h.extraLabels, h.receivedAt);
      Returns(s, w, h, r) <==> r == next && AppendRejects(s.codec, m, next, h.writeIo).None?
  {
  }

  /** A number is newly accepted exactly when an append returned it. */
  lemma AcceptedAfter(s: Setup, w: World, h: Happening, n: u64)
    requires Allowed(s, w, h)
    ensures n in Happens(s, w, h).accepted <==> n in w.accepted || exists r :: Returns(s, w, h, r) && r.seqNo == n
  {
    hide Step, Enabled, AppendRejects, Returns, Encodable, TailClean, Appended;
    if h.Enqueue? {
      var next := NextRecord(w.proc.value.mem, h.group, h.extraLabels, h.receivedAt);
      ReturnsIsNext(s, w, h, next);
      forall r: Record {
        ReturnsIsNext(s, w, h, r);
      }
    } else {
      NothingReturned(s, w, h);
    }
  }

  lemma NothingReturned(s: Setup, w: World, h: Happening)
    requires !h.Enqueue?
    ensures forall r :: !Returns(s, w, h, r)
  {
  }

  /** A step of the pipeline adds the entries that the event adds; nothing else adds any. */
  lemma AddedIs(s: Setup, w: World, h: Happening)
    requires Allowed(s, w, h)
    ensures Added(s, w, h) == if h.Work? then Adds(s.cfg, w.proc.value.pipe, h.e) else []
    ensures w.proc.Some? && Happens(s, w, h).proc.Some? ==> Outcomes(Happens(s, w, h)) == Outcomes(w) + Added(s, w, h)
  {
    hide Step, Enabled, Adds, Encodable, TailClean, AfterAck;
    if h.Work? {
      AccountedAfter(s.cfg, w.proc.value.pipe, h.e);
    } else if h.Enqueue? {
      OfferRecordsNothing(s.cfg, w.proc.value.pipe,
                          NextRecord(w.proc.value.mem, h.group, h.extraLabels, h.receivedAt));
    }
  }

  lemma OfferRecordsNothing(cfg: Config, p: Pipe, r: Item)
    ensures Enabled(cfg, p, Offer(r)) && Step(cfg, p, Offer(r)).accounted == p.accounted
  {
  }

  lemma AcksRecordNothing(cfg: Config, p: Pipe, e: Event)
    requires Enabled(cfg, p, e) && Acknowledges(e)
    ensures Adds(cfg, p, e) == []
  {
  }

  /** A number newly has an outcome exactly when the pipeline recorded one for an item that carries it. */
  lemma TerminalAfter(s: Setup, w: World, h: Happening, n: u64)
    requires Allowed(s, w, h)
    ensures n in Happens(s, w, h).terminal <==> n in w.terminal || exists x :: Records(s, w, h, x) && x.seqNo == n
  {
    hide Step, Enabled, Adds, Encodable, TailClean, AfterAck, Added;
    AddedIs(s, w, h);
    if h.Work? && Acknowledges(h.e) {
      AcksRecordNothing(s.cfg, w.proc.value.pipe, h.e);
    }
    NumbersOfItems(Added(s, w, h), n);
    if n in Happens(s, w, h).terminal && n !in w.terminal {
      var a :| a in Added(s, w, h) && a.item.seqNo == n;
      assert Records(s, w, h, a.item);
    }
  }

  lemma NumbersOfItems(a: seq<Accounted>, n: u64)
    ensures n in NumbersOf(Items(a)) <==> exists e :: e in a && e.item.seqNo == n
  {
    if n in NumbersOf(Items(a)) {
      var x :| x in Items(a) && x.seqNo == n;
      var i :| 0 <= i < |a| && Items(a)[i] == x;
      assert a[i] in a;
    }
    if e :| e in a && e.item.seqNo == n {
      var i :| 0 <= i < |a| && a[i] == e;
      assert Items(a)[i] == e.item;
    }
  }

  /** What was returned is logged under its number, with what the caller passed in. */
  lemma ReturnedIsLogged(s: Setup, w: World, h: Happening, r: Record)
    requires Holds(s, w) && Allowed(s, w, h) && Returns(s, w, h, r)
    ensures IsLogged(Happens(s, w, h).logged, r) && r.seqNo in Happens(s, w, h).accepted
  {
    hide Step, Enabled, Shaped, Ledger, DiskHolds, OutcomesFirst, TailClean;
    NextIsNext(s, w, r);
  }

  lemma LoggedRemains(s: Setup, w: World, h: Happening, x: Item)
    requires Holds(s, w) && Allowed(s, w, h) && IsLogged(w.logged, x)
    ensures IsLogged(Happens(s, w, h).logged, x)
  {
    hide Step, Enabled, Shaped, Ledger, DiskHolds, OutcomesFirst, TailClean, AfterAck;
  }

  lemma AddsAreHeld(cfg: Config, p: Pipe, e: Event, x: Item)
    requires Shaped(cfg, p) && Enabled(cfg, p, e) && x in Items(Adds(cfg, p, e))
    ensures Held(p, x) > 0
  {
    hide Matching, CountFlushes;
    match e {
      case DropFull(i) =>
        assert x in p.waiting;
      case Convert =>
        AccountedIsListed(Matching(p.flusher.batch, cfg.converts, false), ConversionFailed, x);
        MatchingIsFrom(p.flusher.batch, cfg.converts, false, x);
      case Push(_) =>
        AccountedIsListed(p.flusher.ready, Delivered, x);
        AccountedIsListed(p.flusher.ready, DeliveryFailed, x);
        MatchingIsFrom(p.flusher.batch, cfg.converts, true, x);
      case NoAttempts =>
        AccountedIsListed(p.flusher.ready, Delivered, x);
        MatchingIsFrom(p.flusher.batch, cfg.converts, true, x);
      case BackoffAborted =>
        AccountedIsListed(p.flusher.ready, DeliveryFailed, x);
        MatchingIsFrom(p.flusher.batch, cfg.converts, true, x);
      case _ =>
    }
  }

  lemma AccountedIsListed(items: seq<Item>, o: Outcome, x: Item)
    ensures x in Items(Account(items, o)) <==> x in items
  {
    assert Items(Account(items, o)) == items;
  }

  lemma {:induction false} MatchingIsFrom(s: seq<Item>, f: Item -> bool, want: bool, x: Item)
    ensures x in Matching(s, f, want) ==> x in s
  {
    if s != [] {
      MatchingIsFrom(s[1..], f, want, x);
    }
  }

  /** An outcome is recorded only for a logged record. */
  lemma RecordedIsLogged(s: Setup, w: World, h: Happening, x: Item)
    requires Holds(s, w) && Allowed(s, w, h) && Records(s, w, h, x)
    ensures IsLogged(Happens(s, w, h).logged, x)
  {
    hide Step, Enabled, Adds, Added, Ledger, DiskHolds, OutcomesFirst, Held, Shaped;
    AddedIs(s, w, h);
    var a :| a in Added(s, w, h) && a.item == x;
    var i :| 0 <= i < |Added(s, w, h)| && Added(s, w, h)[i] == a;
    var p := w.proc.value;
    assert Items(Adds(s.cfg, p.pipe, h.e))[i] == x;
    AddsAreHeld(s.cfg, p.pipe, h.e, x);
    HeldOnceIsOwed(w.logged, p.mem, p.pipe, x);
    LoggedRemains(s, w, h, x);
  }

  // ---- Whole histories ----

  /** Somewhere in the history the append of `r` returned. */
  ghost predicate Accepted(s: Setup, w: World, hs: seq<Happening>, r: Record)
    requires History(s, w, hs)
    decreases |hs|
  {
    hs != [] && (Returns(s, w, hs[0], r) || Accepted(s, Happens(s, w, hs[0]), hs[1..], r))
  }

  /** Somewhere in the history an outcome was recorded for `x`. */
  ghost predicate Decided(s: Setup, w: World, hs: seq<Happening>, x: Item)
    requires History(s, w, hs)
    decreases |hs|
  {
    hs != [] && (Records(s, w, hs[0], x) || Decided(s, Happens(s, w, hs[0]), hs[1..], x))
  }

  lemma {:induction false} LoggedThroughout(s: Setup, w: World, hs: seq<Happening>, x: Item)
    requires RoundTrips(s.codec) && Holds(s, w) && History(s, w, hs) && IsLogged(w.logged, x)
    ensures IsLogged(WorldAfter(s, w, hs).logged, x)
    decreases |hs|
  {
    hide Holds, Allowed, Happens, IsLogged;
    if hs != [] {
      HappeningHolds(s, w, hs[0]);
      LoggedRemains(s, w, hs[0], x);
      LoggedThroughout(s, Happens(s, w, hs[0]), hs[1..], x);
    }
  }

  lemma {:induction false} AcceptedIsLogged(s: Setup, w: World, hs: seq<Happening>, r: Record)
    requires RoundTrips(s.codec) && Holds(s, w) && History(s, w, hs) && Accepted(s, w, hs, r)
    ensures IsLogged(WorldAfter(s, w, hs).logged, r)
    decreases |hs|
  {
    hide Holds, Allowed, Happens, IsLogged, Returns;
    HappeningHolds(s, w, hs[0]);
    if Returns(s, w, hs[0], r) {
      ReturnedIsLogged(s, w, hs[0], r);
      LoggedThroughout(s, Happens(s, w, hs[0]), hs[1..], r);
    } else {
      AcceptedIsLogged(s, Happens(s, w, hs[0]), hs[1..], r);
    }
  }

  lemma {:induction false} DecidedIsLogged(s: Setup, w: World, hs: seq<Happening>, x: Item)
    requires RoundTrips(s.codec) && Holds(s, w) && History(s, w, hs) && Decided(s, w, hs, x)
    ensures IsLogged(WorldAfter(s, w, hs).logged, x)
    decreases |hs|
  {
    hide Holds, Allowed, Happens, IsLogged, Records;
    HappeningHolds(s, w, hs[0]);
    if Records(s, w, hs[0], x) {
      RecordedIsLogged(s, w, hs[0], x);
      LoggedThroughout(s, Happens(s, w, hs[0]), hs[1..], x);
    } else {
      DecidedIsLogged(s, Happens(s, w, hs[0]), hs[1..], x);
    }
  }

  /** The numbers accepted over a history are those of the records whose append returned in it. */
  lemma {:induction false} AcceptedOver(s: Setup, w: World, hs: seq<Happening>, n: u64)
    requires History(s, w, hs)
    ensures n in WorldAfter(s, w, hs).accepted
      <==> n in w.accepted || exists r :: Accepted(s, w, hs, r) && r.seqNo == n
    decreases |hs|
  {
    hide Allowed, Happens, Returns;
    if hs != [] {
      var v := Happens(s, w, hs[0]);
      AcceptedAfter(s, w, hs[0], n);
      AcceptedOver(s, v, hs[1..], n);
      if r :| Returns(s, w, hs[0], r) && r.seqNo == n {
        assert Accepted(s, w, hs, r);
      }
      if r :| Accepted(s, v, hs[1..], r) && r.seqNo == n {
        assert Accepted(s, w, hs, r);
      }
    }
  }

  /** The numbers with an outcome after a history are those of the items it recorded one for. */
  lemma {:induction false} TerminalOver(s: Setup, w: World, hs: seq<Happening>, n: u64)
    requires History(s, w, hs)
    ensures n in WorldAfter(s, w, hs).terminal
      <==> n in w.terminal || exists x :: Decided(s, w, hs, x) && x.seqNo == n
    decreases |hs|
  {
    hide Allowed, Happens, Records;
    if hs != [] {
      var v := Happens(s, w, hs[0]);
      TerminalAfter(s, w, hs[0], n);
      TerminalOver(s, v, hs[1..], n);
      if x :| Records(s, w, hs[0], x) && x.seqNo == n {
        assert Decided(s, w, hs, x);
      }
      if x :| Decided(s, v, hs[1..], x) && x.seqNo == n {
        assert Decided(s, w, hs, x);
      }
    }
  }

  // ---- The life of one process ----

  /** Until the next start: every history that does not contain one. */
  predicate NoStartup(hs: seq<Happening>) {
    forall i :: 0 <= i < |hs| ==> !hs[i].Startup?
  }

  ghost predicate HasOutcome(a: seq<Accounted>, n: u64) {
    exists e :: e in a && e.item.seqNo == n
  }

  lemma RunningUntil(s: Setup, w: World, hs: seq<Happening>)
    requires History(s, w, hs) && NoStartup(hs) && w.proc.None?
    ensures WorldAfter(s, w, hs).proc.None?
  {
    hide Enabled, Encodable, TailClean;
  }

  lemma {:induction false} ProcessOutcomes(s: Setup, w: World, hs: seq<Happening>, n: u64)
    requires History(s, w, hs) && NoStartup(hs) && w.proc.Some? && WorldAfter(s, w, hs).proc.Some?
    ensures var v := WorldAfter(s, w, hs);
      && Outcomes(w) <= Outcomes(v)
      && (n in v.terminal <==> n in w.terminal || HasOutcome(Outcomes(v)[|Outcomes(w)|..], n))
    decreases |hs|
  {
    hide Allowed, Happens, HasOutcome, Outcomes, Added;
    if hs == [] {
      NoOutcome(n);
    } else {
      var u, v := Happens(s, w, hs[0]), WorldAfter(s, w, hs);
      if u.proc.None? {
        RunningUntil(s, u, hs[1..]);
      }
      ProcessOutcomes(s, u, hs[1..], n);
      AddedIs(s, w, hs[0]);
      TerminalAfter(s, w, hs[0], n);
      var rest := Outcomes(v)[|Outcomes(u)|..];
      assert Outcomes(v)[|Outcomes(w)|..] == Added(s, w, hs[0]) + rest;
      OutcomeInEither(Added(s, w, hs[0]), rest, n);
      RecordsIsAdded(s, w, hs[0], n);
    }
  }

  lemma NoOutcome(n: u64)
    ensures !HasOutcome([], n)
  {
  }

  lemma OutcomeInEither(a: seq<Accounted>, b: seq<Accounted>, n: u64)
    ensures HasOutcome(a + b, n) <==> HasOutcome(a, n) || HasOutcome(b, n)
  {
    forall e ensures e in a + b <==> e in a || e in b {
    }
  }

  lemma RecordsIsAdded(s: Setup, w: World, h: Happening, n: u64)
    requires Allowed(s, w, h)
    ensures HasOutcome(Added(s, w, h), n) <==> exists x :: Records(s, w, h, x) && x.seqNo == n
  {
    hide Allowed, Happens, Added;
    if HasOutcome(Added(s, w, h), n) {
      var e :| e in Added(s, w, h) && e.item.seqNo == n;
      assert Records(s, w, h, e.item);
    }
  }

  /** From its start to any later moment, a process gives an outcome to exactly the numbers it accounts for. */
  lemma OutcomesSinceStartup(s: Setup, w: World, hs: seq<Happening>, n: u64)
    requires hs != [] && hs[0].Startup? && NoStartup(hs[1..]) && History(s, w, hs)
    requires WorldAfter(s, w, hs).proc.Some?
    ensures var v := WorldAfter(s, w, hs);
      n in v.terminal <==> n in w.terminal || HasOutcome(v.proc.value.pipe.accounted, n)
  {
    hide HasOutcome, Recovered;
    var u := Happens(s, w, hs[0]);
    ProcessOutcomes(s, u, hs[1..], n);
    var all := Outcomes(WorldAfter(s, w, hs));
    assert Outcomes(u) == [] && all[0..] == all;
  }
}
