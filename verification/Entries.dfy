/** The log entries a payload holds, and the proof that conversion puts every alert in exactly one of them. */
module Entries {
  import opened Basics
  import opened Alerts
  import opened Timestamps
  import opened TimestampProofs
  import opened Streams

  /** One entry without its time: what Loki stores, and under which labels. */
  datatype Entry = Entry(labels: Labels, line: string, meta: Labels)

  function EntriesIn(s: Stream): (es: seq<Entry>)
    ensures |es| == |s.values|
    ensures forall i :: 0 <= i < |es| ==> es[i] == Entry(s.labels, s.values[i].line, s.values[i].meta)
  {
    seq(|s.values|, i requires 0 <= i < |s.values| => Entry(s.labels, s.values[i].line, s.values[i].meta))
  }

  function AllEntries(ss: seq<Stream>): seq<Entry> {
    if ss == [] then [] else AllEntries(ss[..|ss| - 1]) + EntriesIn(ss[|ss| - 1])
  }

  /** The rows that all streams with the same labels hold together, in order. */
  function Gathered(ss: seq<Stream>, labels: Labels): seq<Row> {
    if ss == [] then []
    else
      var last := ss[|ss| - 1];
      Gathered(ss[..|ss| - 1], labels) + if last.labels == labels then last.values else []
  }

  lemma {:induction false} AllEntriesOfConcat(a: seq<Stream>, b: seq<Stream>)
    ensures AllEntries(a + b) == AllEntries(a) + AllEntries(b)
    decreases |b|
  {
    hide AllEntries, EntriesIn;
    if b == [] {
      EmptyPayload();
      assert a + b == a;
    } else {
      var front, last := b[..|b| - 1], b[|b| - 1];
      AllEntriesOfConcat(a, front);
      AllEntriesNext(a + front, last);
      AllEntriesNext(front, last);
      assert b == front + [last] && a + b == a + front + [last];
    }
  }

  lemma EmptyPayload()
    ensures AllEntries([]) == []
  {
  }

  lemma AllEntriesNext(ss: seq<Stream>, s: Stream)
    ensures AllEntries(ss + [s]) == AllEntries(ss) + EntriesIn(s)
  {
  }

  // ---- Counting ----

  lemma {:induction false} EntriesCount(labels: Labels, values: seq<Row>, e: Entry)
    ensures multiset(EntriesIn(Stream(labels, values)))[e]
      == if e.labels == labels then multiset(Untimed(values))[(e.line, e.meta)] else 0
  {
    hide EntriesIn, Untimed;
    if values == [] {
      NoEntries(labels);
    } else {
      var front, last := values[..|values| - 1], values[|values| - 1];
      EntriesCount(labels, front, e);
      assert values == front + [last];
      UntimedSnoc(front, last);
      EntriesInSnoc(labels, front, last);
    }
  }

  lemma NoEntries(labels: Labels)
    ensures EntriesIn(Stream(labels, [])) == [] && Untimed([]) == []
  {
  }

  lemma EntriesInSnoc(labels: Labels, values: seq<Row>, r: Row)
    ensures EntriesIn(Stream(labels, values + [r]))
      == EntriesIn(Stream(labels, values)) + [Entry(labels, r.line, r.meta)]
  {
  }

  lemma SameUntimedSameEntries(labels: Labels, v1: seq<Row>, v2: seq<Row>)
    requires multiset(Untimed(v1)) == multiset(Untimed(v2))
    ensures multiset(EntriesIn(Stream(labels, v1))) == multiset(EntriesIn(Stream(labels, v2)))
  {
    forall e ensures multiset(EntriesIn(Stream(labels, v1)))[e] == multiset(EntriesIn(Stream(labels, v2)))[e] {
      EntriesCount(labels, v1, e);
      EntriesCount(labels, v2, e);
    }
  }

  lemma UntimedOfConcat(a: seq<Row>, b: seq<Row>)
    ensures Untimed(a + b) == Untimed(a) + Untimed(b)
  {
  }

  /** An entry is in the payload as often as its row is among the rows gathered for its labels. */
  lemma {:induction false} AllEntriesCount(ss: seq<Stream>, e: Entry)
    ensures multiset(AllEntries(ss))[e] == multiset(Untimed(Gathered(ss, e.labels)))[(e.line, e.meta)]
  {
    if ss != [] {
      var front, last := ss[..|ss| - 1], ss[|ss| - 1];
      AllEntriesCount(front, e);
      EntriesCount(last.labels, last.values, e);
      assert last == Stream(last.labels, last.values);
      UntimedOfConcat(Gathered(front, e.labels), if last.labels == e.labels then last.values else []);
    }
  }

  // ---- Conversion ----

  /** The one entry an alert becomes. */
  function EntryOf(c: Client, g: AlertGroup, extra: Labels, a: Alert): Entry
    requires c.marshal(Flatten(g, a)).Some?
  {
    Entry(AlertLabels(c, g, extra, a.status), c.marshal(Flatten(g, a)).value,
          if c.structuredMetadata then c.metadata(a) else map[])
  }

  function GroupEntries(c: Client, g: AlertGroup, extra: Labels, alerts: seq<Alert>): (es: seq<Entry>)
    requires Marshals(c, g, alerts)
    ensures |es| == |alerts|
    ensures forall i :: 0 <= i < |alerts| ==> es[i] == EntryOf(c, g, extra, alerts[i])
  {
    seq(|alerts|, i requires 0 <= i < |alerts| => EntryOf(c, g, extra, alerts[i]))
  }

  lemma StreamHoldsItsAlerts(c: Client, g: AlertGroup, extra: Labels, at: int, status: string)
    requires Converts(c, g)
    ensures multiset(EntriesIn(StreamFor(c, g, extra, at, status)))
      == multiset(GroupEntries(c, g, extra, WithStatus(g.alerts, status)))
  {
    hide Monotonic, AlertLabels, WithStatus, Flatten, BaseLabels;
    var part := WithStatus(g.alerts, status);
    var labels := AlertLabels(c, g, extra, status);
    var rows := RowsOf(c, g, part, at);
    MonotonicConserves(rows);
    SameUntimedSameEntries(labels, Monotonic(rows), rows);
    assert EntriesIn(Stream(labels, rows)) == GroupEntries(c, g, extra, part);
  }

  /** The alerts whose status is among `names`. */
  function WithStatuses(alerts: seq<Alert>, names: set<string>): (part: seq<Alert>)
    ensures forall a :: a in part ==> a in alerts
  {
    if alerts == [] then []
    else
      var front, last := alerts[..|alerts| - 1], alerts[|alerts| - 1];
      WithStatuses(front, names) + if last.status in names then [last] else []
  }

  lemma {:induction false} WithAllStatuses(alerts: seq<Alert>, names: set<string>)
    requires Statuses(alerts) <= names
    ensures WithStatuses(alerts, names) == alerts
  {
    if alerts != [] {
      var front, last := alerts[..|alerts| - 1], alerts[|alerts| - 1];
      assert alerts == front + [last];
      assert last in alerts && last.status in Statuses(alerts);
      assert forall st :: st in Statuses(front) ==> st in Statuses(alerts);
      WithAllStatuses(front, names);
    }
  }

  lemma {:induction false} NoStatuses(alerts: seq<Alert>)
    ensures WithStatuses(alerts, {}) == []
  {
    if alerts != [] {
      NoStatuses(alerts[..|alerts| - 1]);
    }
  }

  lemma GroupEntriesNext(c: Client, g: AlertGroup, extra: Labels, alerts: seq<Alert>, a: Alert, keep: bool)
    requires Marshals(c, g, alerts) && c.marshal(Flatten(g, a)).Some?
    ensures var whole := alerts + if keep then [a] else [];
      && Marshals(c, g, whole)
      && multiset(GroupEntries(c, g, extra, whole))
        == multiset(GroupEntries(c, g, extra, alerts))
          + if keep then multiset{EntryOf(c, g, extra, a)} else multiset{}
  {
    hide EntryOf, Flatten;
    if keep {
      assert GroupEntries(c, g, extra, alerts + [a])
          == GroupEntries(c, g, extra, alerts) + [EntryOf(c, g, extra, a)];
    } else {
      assert alerts + [] == alerts;
    }
  }

  lemma PartMarshals(c: Client, g: AlertGroup, alerts: seq<Alert>, part: seq<Alert>)
    requires Marshals(c, g, alerts) && forall a :: a in part ==> a in alerts
    ensures Marshals(c, g, part)
  {
  }

  lemma LastOfPart(alerts: seq<Alert>, names: set<string>, status: string)
    requires alerts != []
    ensures var front, last := alerts[..|alerts| - 1], alerts[|alerts| - 1];
      && WithStatuses(alerts, names) == WithStatuses(front, names) + (if last.status in names then [last] else [])
      && WithStatus(alerts, status) == WithStatus(front, status) + if last.status == status then [last] else []
  {
  }

  lemma NoPartOfNone(names: set<string>, status: string)
    ensures WithStatuses([], names) == [] && WithStatus([], status) == []
  {
  }

  /** One more status adds the entries of exactly its alerts. */
  lemma {:induction false} OneMoreStatus(c: Client, g: AlertGroup, extra: Labels, alerts: seq<Alert>,
                                         names: set<string>, status: string)
    requires Marshals(c, g, alerts) && status !in names
    ensures var more, fewer, one :=
        WithStatuses(alerts, names + {status}), WithStatuses(alerts, names), WithStatus(alerts, status);
      && Marshals(c, g, more) && Marshals(c, g, fewer) && Marshals(c, g, one)
      && multiset(GroupEntries(c, g, extra, more))
        == multiset(GroupEntries(c, g, extra, fewer)) + multiset(GroupEntries(c, g, extra, one))
  {
    hide EntryOf, Flatten, Marshals, GroupEntries, WithStatuses, WithStatus;
    var more, fewer, one :=
      WithStatuses(alerts, names + {status}), WithStatuses(alerts, names), WithStatus(alerts, status);
    PartMarshals(c, g, alerts, more);
    PartMarshals(c, g, alerts, fewer);
    PartMarshals(c, g, alerts, one);
    if alerts == [] {
      NoPartOfNone(names, status);
      NoPartOfNone(names + {status}, status);
    } else {
      var front, last := alerts[..|alerts| - 1], alerts[|alerts| - 1];
      PartMarshals(c, g, alerts, front);
      OneMoreStatus(c, g, extra, front, names, status);
      LastMarshals(c, g, alerts);
      LastOfPart(alerts, names, status);
      LastOfPart(alerts, names + {status}, status);
      GroupEntriesNext(c, g, extra, WithStatuses(front, names + {status}), last, last.status in names + {status});
      GroupEntriesNext(c, g, extra, WithStatuses(front, names), last, last.status in names);
      GroupEntriesNext(c, g, extra, WithStatus(front, status), last, last.status == status);
    }
  }

  lemma LastMarshals(c: Client, g: AlertGroup, alerts: seq<Alert>)
    requires Marshals(c, g, alerts) && alerts != []
    ensures c.marshal(Flatten(g, alerts[|alerts| - 1])).Some?
  {
  }

  function Members(order: seq<string>): set<string> {
    set st | st in order
  }

  lemma {:induction false} StreamsHoldTheirAlerts(c: Client, g: AlertGroup, extra: Labels, at: int, order: seq<string>)
    requires Converts(c, g)
    requires forall i, j :: 0 <= i < j < |order| ==> order[i] != order[j]
    ensures var part := WithStatuses(g.alerts, Members(order));
      Marshals(c, g, part)
      && multiset(AllEntries(StreamsFor(c, g, extra, at, order))) == multiset(GroupEntries(c, g, extra, part))
  {
    hide EntryOf, StreamFor, EntriesIn, GroupEntries, Marshals, WithStatuses, WithStatus;
    var part := WithStatuses(g.alerts, Members(order));
    PartMarshals(c, g, g.alerts, part);
    if order == [] {
      assert Members(order) == {};
      NoStatuses(g.alerts);
    } else {
      var front, last := order[..|order| - 1], order[|order| - 1];
      StreamsHoldTheirAlerts(c, g, extra, at, front);
      assert Members(order) == Members(front) + {last};
      OneMoreStatus(c, g, extra, g.alerts, Members(front), last);
      StreamHoldsItsAlerts(c, g, extra, at, last);
      var ss := StreamsFor(c, g, extra, at, order);
      assert ss[..|ss| - 1] == StreamsFor(c, g, extra, at, front);
    }
  }

  /**
    Conversion loses no alert and repeats none: whatever order the status map is iterated in, the
    streams together hold one entry for each alert, with its own labels, line and metadata.
   */
  lemma ConversionKeepsEveryAlert(c: Client, g: AlertGroup, extra: Labels, at: int, order: seq<string>)
    requires Converts(c, g) && IteratesOver(order, Statuses(g.alerts))
    ensures multiset(AllEntries(StreamsFor(c, g, extra, at, order)))
      == multiset(GroupEntries(c, g, extra, g.alerts))
  {
    hide AllEntries, GroupEntries, Marshals, StreamsFor;
    StreamsHoldTheirAlerts(c, g, extra, at, order);
    WithAllStatuses(g.alerts, Members(order));
  }
}
