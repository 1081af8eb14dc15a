/**
  One flush of the batch processor: convert each group, merge, deliver, and record outcomes. Its main
  result ties the metrics to the payload, label by label.
 */
module Flush {
  import opened Basics
  import opened Alerts
  import opened Timestamps
  import opened StreamKeys
  import opened Streams
  import opened Entries
  import opened Merge
  import Pipeline
  import PipelineProofs
  import Delivery
  import WalSpec
  import Durability

  type Item = Pipeline.Item

  /** The labels of a counter: receiver and group status. */
  type CounterKey = (string, string)

  function KeyOf(g: AlertGroup): CounterKey {
    (g.receiver, g.status)
  }

  /** The saved and failed counters, each a vector by receiver and status. */
  class Metrics {
    var saved: map<CounterKey, nat>
    var failed: map<CounterKey, nat>

    constructor ()
      ensures saved == map[] && failed == map[]
    {
      saved, failed := map[], map[];
    }

    method RecordSaveOutcome(receiver: string, status: string, count: nat, ok: bool)
      modifies this
      ensures forall k :: At(saved, k) == At(old(saved), k) + if ok && k == (receiver, status) then count else 0
      ensures forall k :: At(failed, k) == At(old(failed), k) + if !ok && k == (receiver, status) then count else 0
      ensures count == 0 ==> saved == old(saved) && failed == old(failed)
    {
      if count == 0 {
        return;
      }
      if !ok {
        failed := failed[(receiver, status) := At(failed, (receiver, status)) + count];
        return;
      }
      saved := saved[(receiver, status) := At(saved, (receiver, status)) + count];
    }
  }

  /** A counter that was never incremented reads zero. */
  function At(m: map<CounterKey, nat>, k: CounterKey): nat {
    if k in m then m[k] else 0
  }

  // ---- What a batch of groups stands for ----

  /** The alerts of the groups counted under one key. */
  function AlertsUnder(items: seq<Item>, k: CounterKey): nat {
    if items == [] then 0
    else
      var last := items[|items| - 1];
      AlertsUnder(items[..|items| - 1], k) + if KeyOf(last.group) == k then |last.group.alerts| else 0
  }

  /** Whether an item converts: what the pipeline's transition system takes as given. */
  function ItemConverts(c: Client): Item -> bool {
    (x: Item) => Converts(c, x.group)
  }

  /** The clock reading at, and the order in which the status map yielded, one conversion. */
  datatype Choice = Choice(now: int, order: seq<string>)

  ghost predicate Chosen(c: Client, ready: seq<Item>, choices: seq<Choice>) {
    && |choices| == |ready|
    && forall i :: 0 <= i < |ready| ==>
      Converts(c, ready[i].group) && IteratesOver(choices[i].order, Statuses(ready[i].group.alerts))
  }

  function ItemStreams(c: Client, x: Item, choice: Choice): seq<Stream>
    requires Converts(c, x.group)
  {
    StreamsFor(c, x.group, x.extraLabels, ReceiveTime(x.receivedAt, choice.now), choice.order)
  }

  /** The streams of all groups of a batch, before merging. */
  ghost function BatchStreams(c: Client, ready: seq<Item>, choices: seq<Choice>): seq<Stream>
    requires Chosen(c, ready, choices)
  {
    if ready == [] then []
    else
      var n := |ready| - 1;
      BatchStreams(c, ready[..n], choices[..n]) + ItemStreams(c, ready[n], choices[n])
  }

  /** The entries of all alerts of a batch. */
  ghost function BatchEntries(c: Client, ready: seq<Item>): seq<Entry>
    requires forall x :: x in ready ==> Converts(c, x.group)
  {
    if ready == [] then []
    else
      var last := ready[|ready| - 1];
      assert last in ready && Converts(c, last.group);
      BatchEntries(c, ready[..|ready| - 1]) + GroupEntries(c, last.group, last.extraLabels, last.group.alerts)
  }

  lemma {:induction false} BatchStreamsHoldBatchEntries(c: Client, ready: seq<Item>, choices: seq<Choice>)
    requires Chosen(c, ready, choices)
    ensures forall x :: x in ready ==> Converts(c, x.group)
    ensures multiset(AllEntries(BatchStreams(c, ready, choices))) == multiset(BatchEntries(c, ready))
  {
    hide AllEntries, GroupEntries, Converts, StreamsFor, Statuses, IteratesOver;
    if ready == [] {
      EmptyPayload();
    } else {
      var n := |ready| - 1;
      var last := ready[n];
      BatchStreamsHoldBatchEntries(c, ready[..n], choices[..n]);
      AllEntriesOfConcat(BatchStreams(c, ready[..n], choices[..n]), ItemStreams(c, last, choices[n]));
      ConversionKeepsEveryAlert(c, last.group, last.extraLabels, ReceiveTime(last.receivedAt, choices[n].now),
                                choices[n].order);
    }
  }

  // ---- Counting entries under a counter's key ----

  /** Whether an entry's stream carries the receiver and status of a counter. */
  predicate Under(e: Entry, k: CounterKey) {
    && "receiver" in e.labels && e.labels["receiver"] == k.0
    && "status" in e.labels && e.labels["status"] == k.1
  }

  function EntriesUnder(es: seq<Entry>, k: CounterKey): nat {
    if es == [] then 0
    else EntriesUnder(es[..|es| - 1], k) + if Under(es[|es| - 1], k) then 1 else 0
  }

  lemma {:induction false} EntriesUnderOfConcat(a: seq<Entry>, b: seq<Entry>, k: CounterKey)
    ensures EntriesUnder(a + b, k) == EntriesUnder(a, k) + EntriesUnder(b, k)
    decreases |b|
  {
    hide Under;
    if b == [] {
      assert a + b == a;
    } else {
      assert (a + b)[..|a + b| - 1] == a + b[..|b| - 1];
      EntriesUnderOfConcat(a, b[..|b| - 1], k);
    }
  }

  lemma {:induction false} TakeOut(es: seq<Entry>, e: Entry, k: CounterKey) returns (rest: seq<Entry>)
    requires e in es
    ensures multiset(es) == multiset(rest) + multiset{e} && |rest| == |es| - 1
    ensures EntriesUnder(es, k) == EntriesUnder(rest, k) + if Under(e, k) then 1 else 0
  {
    hide Under;
    var front, last := es[..|es| - 1], es[|es| - 1];
    assert es == front + [last];
    if last == e {
      rest := front;
    } else {
      var less := TakeOut(front, e, k);
      rest := less + [last];
      assert rest[..|rest| - 1] == less;
    }
  }

  /** The count does not depend on the order of the entries. */
  lemma {:induction false} EntriesUnderPermutes(a: seq<Entry>, b: seq<Entry>, k: CounterKey)
    requires multiset(a) == multiset(b)
    ensures EntriesUnder(a, k) == EntriesUnder(b, k)
    decreases |a|
  {
    hide Under;
    if a == [] {
      assert |b| == |multiset(b)| == 0;
    } else {
      var front, last := a[..|a| - 1], a[|a| - 1];
      assert a == front + [last];
      assert last in multiset(b);
      var rest := TakeOut(b, last, k);
      assert multiset(front) == multiset(a) - multiset{last} == multiset(rest);
      EntriesUnderPermutes(front, rest, k);
    }
  }

  /** An alert's entry is labelled with its group's receiver and status, whatever other labels say. */
  lemma EntryIsUnderItsGroup(c: Client, g: AlertGroup, extra: Labels, a: Alert, k: CounterKey)
    requires c.marshal(Flatten(g, a)).Some?
    ensures Under(EntryOf(c, g, extra, a), k) <==> KeyOf(g) == k
  {
  }

  lemma {:induction false} GroupEntriesUnder(c: Client, g: AlertGroup, extra: Labels, alerts: seq<Alert>, k: CounterKey)
    requires Marshals(c, g, alerts)
    ensures EntriesUnder(GroupEntries(c, g, extra, alerts), k) == if KeyOf(g) == k then |alerts| else 0
  {
    hide EntryOf, Flatten, Under;
    if alerts != [] {
      var front, last := alerts[..|alerts| - 1], alerts[|alerts| - 1];
      GroupEntriesUnder(c, g, extra, front, k);
      EntryIsUnderItsGroup(c, g, extra, last, k);
      var es := GroupEntries(c, g, extra, alerts);
      assert es[..|es| - 1] == GroupEntries(c, g, extra, front);
    }
  }

  lemma {:induction false} BatchEntriesUnder(c: Client, ready: seq<Item>, k: CounterKey)
    requires forall x :: x in ready ==> Converts(c, x.group)
    ensures EntriesUnder(BatchEntries(c, ready), k) == AlertsUnder(ready, k)
  {
    hide GroupEntries, EntriesUnder;
    if ready == [] {
      NoneUnder(k);
    } else {
      var front, last := ready[..|ready| - 1], ready[|ready| - 1];
      BatchEntriesUnder(c, front, k);
      GroupEntriesUnder(c, last.group, last.extraLabels, last.group.alerts, k);
      EntriesUnderOfConcat(BatchEntries(c, front),
                           GroupEntries(c, last.group, last.extraLabels, last.group.alerts), k);
    }
  }

  lemma NoneUnder(k: CounterKey)
    ensures EntriesUnder([], k) == 0
  {
  }

  /** The merged payload holds, under each counter's key, as many rows as there were alerts. */
  lemma PayloadMatchesAlerts(c: Client, ready: seq<Item>, choices: seq<Choice>, out: seq<Stream>, k: CounterKey)
    requires Chosen(c, ready, choices) && IsMerge(BatchStreams(c, ready, choices), out)
    ensures EntriesUnder(AllEntries(out), k) == AlertsUnder(ready, k)
  {
    hide EntriesUnder, AllEntries, BatchStreams, BatchEntries, Converts, IsMerge, Chosen;
    var ss := BatchStreams(c, ready, choices);
    BatchStreamsHoldBatchEntries(c, ready, choices);
    MergeConserves(ss, out);
    EntriesUnderPermutes(AllEntries(out), BatchEntries(c, ready), k);
    BatchEntriesUnder(c, ready, k);
  }

  // ---- The method ----

  /** The numbers `ackBatch` hands to the log: those of items that were logged. */
  function LoggedNumbers(batch: seq<Item>): seq<u64> {
    if batch == [] then []
    else
      var last := batch[|batch| - 1];
      LoggedNumbers(batch[..|batch| - 1]) + if last.seqNo != 0 then [last.seqNo] else []
  }

  /** One number for each logged item, in the order of the batch. */
  lemma {:induction false} LoggedNumbersKeepOrder(batch: seq<Item>) returns (logged: seq<Item>)
    ensures IsPart(batch, (x: Item) => x.seqNo != 0, logged) && |LoggedNumbers(batch)| == |logged|
    ensures forall j :: 0 <= j < |logged| ==> LoggedNumbers(batch)[j] == logged[j].seqNo
  {
    hide IsPart;
    if batch == [] {
      NoPart((x: Item) => x.seqNo != 0);
      logged := [];
    } else {
      var n := |batch| - 1;
      logged := LoggedNumbersKeepOrder(batch[..n]);
      assert batch == batch[..n] + [batch[n]];
      PartNext(batch[..n], (x: Item) => x.seqNo != 0, logged, batch[n]);
      logged := logged + if batch[n].seqNo != 0 then [batch[n]] else [];
    }
  }

  lemma LoggedNumbersAre(batch: seq<Item>)
    ensures forall n :: n in LoggedNumbers(batch) <==> n != 0 && exists x :: x in batch && x.seqNo == n
  {
    var logged := LoggedNumbersKeepOrder(batch);
    PartMembers(batch, (x: Item) => x.seqNo != 0, logged);
    hide LoggedNumbers, IsPart;
    forall n ensures n in LoggedNumbers(batch) <==> n != 0 && exists x :: x in batch && x.seqNo == n {
      if n in LoggedNumbers(batch) {
        var j :| 0 <= j < |logged| && LoggedNumbers(batch)[j] == n;
        assert logged[j] in logged;
      }
      if x :| n != 0 && x in batch && x.seqNo == n {
        var j :| 0 <= j < |logged| && logged[j] == x;
        assert LoggedNumbers(batch)[j] == n;
      }
    }
  }

  /** Handing these numbers to the log is what the pipeline's acknowledgement of the batch stands for. */
  lemma FlushAcknowledgesItsBatch(s: Durability.Setup, w: Durability.World, io: WalSpec.CkptIo,
                                  compactIo: WalSpec.CompactIo)
    requires w.proc.Some? && w.proc.value.pipe.flusher.Accounting?
    ensures var p := w.proc.value;
      var released := WalSpec.ToSet(LoggedNumbers(p.pipe.flusher.batch));
      && released == Durability.NumbersOf(PipelineProofs.Released(p.pipe, Pipeline.FlushAck)) - {0}
      && Durability.AfterAck(s, w, Pipeline.FlushAck, io, compactIo)
        == WalSpec.Ack(s.codec, WalSpec.State(w.disk, p.mem), released, io, compactIo)
  {
    var p := w.proc.value;
    LoggedNumbersAre(p.pipe.flusher.batch);
    hide LoggedNumbers, WalSpec.RunEnd, WalSpec.Persisted;
    var released := WalSpec.ToSet(LoggedNumbers(p.pipe.flusher.batch));
    var numbers := Durability.NumbersOf(PipelineProofs.Released(p.pipe, Pipeline.FlushAck));
    assert released == numbers - {0};
    assert WalSpec.NumbersAbove(released, p.mem.checkpoint) == WalSpec.NumbersAbove(numbers, p.mem.checkpoint);
  }

  method BatchNumbers(batch: seq<Item>) returns (seqs: seq<u64>)
    ensures seqs == LoggedNumbers(batch)
    ensures forall n :: n in seqs <==> n != 0 && exists x :: x in batch && x.seqNo == n
  {
    LoggedNumbersAre(batch);
    seqs := [];
    for i := 0 to |batch|
      invariant seqs == LoggedNumbers(batch[..i])
    {
      assert batch[..i + 1][..i] == batch[..i];
      if batch[i].seqNo != 0 {
        seqs := seqs + [batch[i].seqNo];
      }
    }
    assert batch[..|batch|] == batch;
  }

  lemma AlertsUnderNext(items: seq<Item>, x: Item, k: CounterKey)
    ensures AlertsUnder(items + [x], k) == AlertsUnder(items, k) + if KeyOf(x.group) == k then |x.group.alerts| else 0
  {
  }

  lemma {:induction false} MatchingNext(items: seq<Item>, x: Item, f: Item -> bool, want: bool)
    ensures Pipeline.Matching(items + [x], f, want)
      == Pipeline.Matching(items, f, want) + if f(x) == want then [x] else []
  {
    if items == [] {
      assert items + [x] == [x] && [x][1..] == [];
    } else {
      var whole := items + [x];
      assert whole[0] == items[0] && whole[1..] == items[1..] + [x];
      MatchingNext(items[1..], x, f, want);
      assert Pipeline.Matching(whole, f, want)
          == (if f(items[0]) == want then [items[0]] else []) + Pipeline.Matching(whole[1..], f, want);
    }
  }

  /** The items that convert, and those that do not, keep their order. */
  lemma {:induction false} MatchingKeepsOrder(items: seq<Item>, f: Item -> bool, want: bool)
    ensures IsPart(items, (x: Item) => f(x) == want, Pipeline.Matching(items, f, want))
  {
    hide IsPart;
    if items == [] {
      NoPart((x: Item) => f(x) == want);
    } else {
      var n := |items| - 1;
      MatchingKeepsOrder(items[..n], f, want);
      MatchingNext(items[..n], items[n], f, want);
      assert items[..n] + [items[n]] == items;
      PartNext(items[..n], (x: Item) => f(x) == want, Pipeline.Matching(items[..n], f, want), items[n]);
    }
  }

  lemma NothingToConvert(c: Client)
    ensures Chosen(c, [], []) && BatchStreams(c, [], []) == []
    ensures Views(Concat([])) == [] && Concat<Slice>([]) == []
    ensures forall k :: AlertsUnder([], k) == 0
  {
  }

  lemma BatchStreamsNext(c: Client, ready: seq<Item>, choices: seq<Choice>, x: Item, choice: Choice)
    requires Chosen(c, ready, choices)
    requires Converts(c, x.group) && IteratesOver(choice.order, Statuses(x.group.alerts))
    ensures Chosen(c, ready + [x], choices + [choice])
    ensures BatchStreams(c, ready + [x], choices + [choice])
      == BatchStreams(c, ready, choices) + ItemStreams(c, x, choice)
  {
  }

  lemma SlicesAreValid(c: Client, x: Item, choice: Choice, slices: seq<Slice>)
    requires Converts(c, x.group) && Views(slices) == ItemStreams(c, x, choice)
    ensures forall s :: s in slices ==> ValidNames(s.labels)
  {
    hide Converts, ValidNames, AlertLabels, Monotonic;
    forall i | 0 <= i < |slices| ensures ValidNames(slices[i].labels) {
      assert View(slices[i]) == ItemStreams(c, x, choice)[i];
      AlertLabelsAreValid(c, x.group, x.extraLabels, choice.order[i]);
    }
  }

  /** The first loop: a group that does not convert is counted as failed at once. */
  method ConvertBatch(c: Client, batch: seq<Item>, clock: nat -> int, metrics: Metrics)
    returns (ready: seq<Item>, groups: seq<seq<Slice>>, ghost choices: seq<Choice>)
    modifies metrics
    ensures ready == Pipeline.Matching(batch, ItemConverts(c), true)
    ensures Chosen(c, ready, choices) && |groups| == |ready|
    ensures Views(Concat(groups)) == BatchStreams(c, ready, choices)
    ensures forall s :: s in Concat(groups) ==> fresh(s.values) && ValidNames(s.labels)
    ensures forall k :: At(metrics.saved, k) == At(old(metrics.saved), k)
    ensures forall k :: (
        At(metrics.failed, k)
        == At(old(metrics.failed), k) + AlertsUnder(Pipeline.Matching(batch, ItemConverts(c), false), k))
  {
    hide Converts, ValidNames, BaseLabels, StreamFor, Statuses, IteratesOver, BatchStreams, Concat, At, AlertsUnder,
      Chosen;
    NothingToConvert(c);
    ready, groups, choices := [], [], [];
    ghost var failing: seq<Item> := [];
    for i := 0 to |batch|
      invariant ready == Pipeline.Matching(batch[..i], ItemConverts(c), true)
      invariant failing == Pipeline.Matching(batch[..i], ItemConverts(c), false)
      invariant Chosen(c, ready, choices) && |groups| == |ready|
      invariant Views(Concat(groups)) == BatchStreams(c, ready, choices)
      invariant forall s :: s in Concat(groups) ==> fresh(s.values) && ValidNames(s.labels)
      invariant forall k :: At(metrics.saved, k) == At(old(metrics.saved), k)
      invariant forall k :: At(metrics.failed, k) == At(old(metrics.failed), k) + AlertsUnder(failing, k)
    {
      var x := batch[i];
      assert batch[..i + 1] == batch[..i] + [x];
      MatchingNext(batch[..i], x, ItemConverts(c), true);
      MatchingNext(batch[..i], x, ItemConverts(c), false);
      ghost var order: seq<string>;
      var r: Result<seq<Slice>, ConversionError>;
      ghost var sofar := Concat(groups);
      ghost var views := Views(sofar);
      r, order := DataToStream(c, x.group, x.extraLabels, x.receivedAt, clock(i));
      assert Views(sofar) == views;
      if r.Err? {
        metrics.RecordSaveOutcome(x.group.receiver, x.group.status, |x.group.alerts|, false);
        forall k {
          AlertsUnderNext(failing, x, k);
        }
        failing := failing + [x];
      } else {
        BatchStreamsNext(c, ready, choices, x, Choice(clock(i), order));
        ConcatSnoc(groups, r.value);
        ViewsOfConcat(Concat(groups), r.value);
        SlicesAreValid(c, x, Choice(clock(i), order), r.value);
        ready, groups, choices := ready + [x], groups + [r.value], choices + [Choice(clock(i), order)];
      }
    }
    assert batch[..|batch|] == batch;
  }

  method RecordAll(items: seq<Item>, ok: bool, metrics: Metrics)
    modifies metrics
    ensures forall k :: At(metrics.saved, k) == At(old(metrics.saved), k) + if ok then AlertsUnder(items, k) else 0
    ensures forall k :: At(metrics.failed, k) == At(old(metrics.failed), k) + if ok then 0 else AlertsUnder(items, k)
  {
    hide At, AlertsUnder;
    NothingUnder();
    assert items[..0] == [];
    for i := 0 to |items|
      invariant forall k :: (
          At(metrics.saved, k) == At(old(metrics.saved), k) + if ok then AlertsUnder(items[..i], k) else 0)
      invariant forall k :: (
          At(metrics.failed, k) == At(old(metrics.failed), k) + if ok then 0 else AlertsUnder(items[..i], k))
    {
      var g := items[i].group;
      assert items[..i + 1] == items[..i] + [items[i]];
      forall k {
        AlertsUnderNext(items[..i], items[i], k);
      }
      metrics.RecordSaveOutcome(g.receiver, g.status, |g.alerts|, ok);
    }
    assert items[..|items|] == items;
  }

  lemma NothingUnder()
    ensures forall k :: AlertsUnder([], k) == 0
  {
  }

  /**
    One flush. The payload is the merge of the converted groups' streams; under every counter's key,
    what is counted as saved, or else as failed to be delivered, is the number of payload rows that
    carry that receiver and status, and groups that did not convert are counted as failed by
    themselves. All logged numbers of the batch are released for acknowledgement.
   */
  method FlushBatch(c: Client, batch: seq<Item>, clock: nat -> int, maxRetries: int,
                    answers: nat -> Delivery.Answer, metrics: Metrics)
    returns (payload: seq<Slice>, ok: bool, released: seq<u64>, ghost choices: seq<Choice>)
    modifies metrics
    ensures released == LoggedNumbers(batch)
    ensures forall n :: n in released <==> n != 0 && exists x :: x in batch && x.seqNo == n
    ensures var ready := Pipeline.Matching(batch, ItemConverts(c), true);
      && Chosen(c, ready, choices) && IsMerge(BatchStreams(c, ready, choices), Views(payload))
      && (ok <==> ready == [] || maxRetries < 0 || Delivery.SomePushAccepted(answers, maxRetries))
    ensures forall k :: (
        At(metrics.saved, k) == At(old(metrics.saved), k)
          + if ok then EntriesUnder(AllEntries(Views(payload)), k) else 0)
    ensures forall k :: (
        At(metrics.failed, k) == At(old(metrics.failed), k)
          + AlertsUnder(Pipeline.Matching(batch, ItemConverts(c), false), k)
          + if ok then 0 else EntriesUnder(AllEntries(Views(payload)), k))
  {
    hide At, AlertsUnder, LoggedNumbers, Chosen, BatchStreams, EntriesUnder, AllEntries, IsMerge, ValidNames, Concat,
      Views, Delivery.SomePushAccepted;
    released := BatchNumbers(batch);
    var ready: seq<Item>, groups: seq<seq<Slice>>;
    ready, groups, choices := ConvertBatch(c, batch, clock, metrics);
    payload := MergeStreams(c.printable, groups);
    forall k {
      PayloadMatchesAlerts(c, ready, choices, Views(payload), k);
    }
    if |ready| == 0 {
      NothingUnder();
      return payload, true, released, choices;
    }
    PayloadNotEmpty(c, ready, choices, Views(payload));
    var pushes: nat;
    ok, pushes := Delivery.Deliver(|payload|, maxRetries, answers);
    RecordAll(ready, ok, metrics);
  }

  lemma PayloadNotEmpty(c: Client, ready: seq<Item>, choices: seq<Choice>, out: seq<Stream>)
    requires Chosen(c, ready, choices) && ready != [] && IsMerge(BatchStreams(c, ready, choices), out)
    ensures out != []
  {
    hide Converts, StreamFor, Statuses, Gathered, Monotonic;
    var n := |ready| - 1;
    var ss := BatchStreams(c, ready, choices);
    var alert := ready[n].group.alerts;
    SomeStatus(c, ready[n].group, choices[n].order);
    var own := ItemStreams(c, ready[n], choices[n]);
    var last := ss[|ss| - 1];
    assert |own| > 0;
    assert HasLabels(ss, last.labels);
    assert HasLabels(out, last.labels);
  }

  lemma SomeStatus(c: Client, g: AlertGroup, order: seq<string>)
    requires Converts(c, g) && IteratesOver(order, Statuses(g.alerts))
    ensures order != []
  {
    assert g.alerts[0].status in Statuses(g.alerts);
  }
}
