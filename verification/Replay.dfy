/** Entry times within a group, and why a record replayed after a crash becomes the same entries. */
module Replay {
  import opened Basics
  import opened Alerts
  import opened Framing
  import opened Timestamps
  import opened TimestampProofs
  import opened Streams
  import opened Entries
  import opened Merge
  import opened Flush

  lemma {:induction false} EqualTimesCountUp(s: seq<Row>, t: int, i: nat)
    requires i < |s| && forall k :: 0 <= k < |s| ==> s[k].at == t
    ensures Nudged(s)[i] == s[i].(at := t + i)
  {
    NudgedAt(s, i);
    if i > 0 {
      EqualTimesCountUp(s, t, i - 1);
    }
  }

  /** The i-th alert of a status is stamped exactly i nanoseconds after the group was received. */
  lemma EntryIsStamped(c: Client, g: AlertGroup, extra: Labels, at: int, status: string, i: nat)
    requires Converts(c, g) && i < |WithStatus(g.alerts, status)|
    ensures var s := StreamFor(c, g, extra, at, status);
      |s.values| == |WithStatus(g.alerts, status)|
      && s.values[i] == RowOf(c, g, WithStatus(g.alerts, status)[i], at + i)
  {
    hide Nudged, WithStatus, Flatten;
    var rows := RowsOf(c, g, WithStatus(g.alerts, status), at);
    SortedIsItsOwnSort(rows);
    EqualTimesCountUp(rows, at, i);
  }

  /** The stream a logged record becomes when it is converted at time `now`. */
  function StreamAt(c: Client, r: Record, now: int, status: string): Stream
    requires Converts(c, r.group)
  {
    StreamFor(c, r.group, r.extraLabels, ReceiveTime(r.receivedAt, now), status)
  }

  /** A record without a receive time is stamped with the time of its conversion, any other with its own. */
  lemma RecordIsStamped(c: Client, r: Record, now: int, status: string, i: nat)
    requires Converts(c, r.group) && i < |WithStatus(r.group.alerts, status)|
    ensures var s := StreamAt(c, r, now, status);
      i < |s.values| && s.values[i].at == i + match r.receivedAt { case Some(t) => t case None => now }
  {
    hide Nudged, WithStatus, Flatten;
    EntryIsStamped(c, r.group, r.extraLabels, ReceiveTime(r.receivedAt, now), status, i);
  }

  /** Two conversions of a record give the same stream of every status, whatever the clock says. */
  ghost predicate Reproducible(c: Client, r: Record)
    requires Converts(c, r.group)
  {
    forall now1: int, now2: int, status: string ::
      status in Statuses(r.group.alerts) ==> StreamAt(c, r, now1, status) == StreamAt(c, r, now2, status)
  }

  /**
    A record can be converted again with the same result exactly when its receive time was logged: only
    then does replay not stamp it with the time of the replay.
   */
  lemma ReproducibleWhenStamped(c: Client, r: Record)
    requires Converts(c, r.group)
    ensures Reproducible(c, r) <==> r.receivedAt.Some?
  {
    hide WithStatus, Monotonic, BaseLabels, Marshals;
    if r.receivedAt.None? {
      var status := SomeAlert(r.group);
      EntryIsStamped(c, r.group, r.extraLabels, 0, status, 0);
      EntryIsStamped(c, r.group, r.extraLabels, 1, status, 0);
      assert StreamAt(c, r, 0, status) != StreamAt(c, r, 1, status);
    }
  }

  lemma SomeAlert(g: AlertGroup) returns (status: string)
    requires g.alerts != []
    ensures status in Statuses(g.alerts) && WithStatus(g.alerts, status) != []
  {
    status := g.alerts[0].status;
    InItsPart(g.alerts, g.alerts[0]);
  }

  /**
    Replay reproduces entries: what is read back from the log converts to the same streams as before the
    crash, whenever each conversion happens, with every alert at its receive time plus its position.
   */
  lemma ReplayReproducesEntries(codec: Codec, c: Client, r: Record, body: seq<byte>, now1: int, now2: int,
                                status: string, i: nat)
    requires RoundTrips(codec) && codec.encode(r) == Some(body) && r.receivedAt.Some?
    requires Converts(c, r.group) && i < |WithStatus(r.group.alerts, status)|
    ensures var back := codec.decode(body);
      && back.Some? && Converts(c, back.value.group)
      && StreamAt(c, back.value, now2, status) == StreamAt(c, r, now1, status)
      && i < |StreamAt(c, r, now1, status).values|
      && StreamAt(c, r, now1, status).values[i]
        == RowOf(c, r.group, WithStatus(r.group.alerts, status)[i], r.receivedAt.value + i)
  {
    hide Monotonic, WithStatus, Converts;
    assert codec.decode(body) == Some(r);
    EntryIsStamped(c, r.group, r.extraLabels, r.receivedAt.value, status, i);
  }

  // ---- A whole batch ----

  lemma {:induction false} GatheredOfConcat(a: seq<Stream>, b: seq<Stream>, labels: Labels)
    ensures Gathered(a + b, labels) == Gathered(a, labels) + Gathered(b, labels)
    decreases |b|
  {
    hide Gathered;
    if b == [] {
      NoStreamsGathered(labels);
      assert a + b == a;
    } else {
      var front, last := b[..|b| - 1], b[|b| - 1];
      GatheredOfConcat(a, front, labels);
      GatheredNext(a + front, last, labels);
      GatheredNext(front, last, labels);
      assert b == front + [last] && a + b == a + front + [last];
    }
  }

  lemma NoStreamsGathered(labels: Labels)
    ensures Gathered([], labels) == []
  {
  }

  /** The one stream of a group that can have the given labels, or no rows. */
  lemma GatheredFromItem(c: Client, x: Item, choice: Choice, labels: Labels)
    requires Converts(c, x.group) && IteratesOver(choice.order, Statuses(x.group.alerts))
    ensures Gathered(ItemStreams(c, x, choice), labels)
      == if (exists status :: status in Statuses(x.group.alerts)
                              && AlertLabels(c, x.group, x.extraLabels, status) == labels)
        then StreamAt(c, x, choice.now, labels["alert_status"]).values else []
  {
    hide Gathered, Converts, BaseLabels, Monotonic, WithStatus, Statuses;
    var ss := ItemStreams(c, x, choice);
    if status :| status in Statuses(x.group.alerts) && AlertLabels(c, x.group, x.extraLabels, status) == labels {
      var i :| 0 <= i < |choice.order| && choice.order[i] == status;
      assert ss[i] == StreamAt(c, x, choice.now, status);
      forall j | 0 <= j < |ss| && j != i ensures ss[j].labels != ss[i].labels {
        assert choice.order[j] != choice.order[i];
        assert ss[j].labels["alert_status"] == choice.order[j];
      }
      OnlyOneGathered(ss, i);
    } else {
      NothingGathered(ss, labels);
    }
  }

  lemma {:induction false} SameRowsGathered(c: Client, ready: seq<Item>, ch1: seq<Choice>, ch2: seq<Choice>,
                                            labels: Labels)
    requires Chosen(c, ready, ch1) && Chosen(c, ready, ch2)
    requires forall x :: x in ready ==> x.receivedAt.Some?
    ensures Gathered(BatchStreams(c, ready, ch1), labels) == Gathered(BatchStreams(c, ready, ch2), labels)
  {
    hide Gathered, Converts, IteratesOver, Statuses, ItemStreams, AlertLabels, StreamFor;
    if ready != [] {
      var n := |ready| - 1;
      SameRowsGathered(c, ready[..n], ch1[..n], ch2[..n], labels);
      GatheredOfConcat(BatchStreams(c, ready[..n], ch1[..n]), ItemStreams(c, ready[n], ch1[n]), labels);
      GatheredOfConcat(BatchStreams(c, ready[..n], ch2[..n]), ItemStreams(c, ready[n], ch2[n]), labels);
      GatheredFromItem(c, ready[n], ch1[n], labels);
      GatheredFromItem(c, ready[n], ch2[n], labels);
    }
  }

  lemma {:induction false} NoStreamIsEmpty(c: Client, ready: seq<Item>, choices: seq<Choice>, i: nat)
    requires Chosen(c, ready, choices) && i < |BatchStreams(c, ready, choices)|
    ensures BatchStreams(c, ready, choices)[i].values != []
  {
    hide Converts, IteratesOver, Statuses, WithStatus, AlertLabels;
    var n := |ready| - 1;
    var before := BatchStreams(c, ready[..n], choices[..n]);
    if i < |before| {
      NoStreamIsEmpty(c, ready[..n], choices[..n], i);
    } else {
      var status := choices[n].order[i - |before|];
      StatusHasAlerts(c, ready[n], choices[n], status);
      EntryIsStamped(c, ready[n].group, ready[n].extraLabels, ReceiveTime(ready[n].receivedAt, choices[n].now),
                     status, 0);
    }
  }

  lemma StatusHasAlerts(c: Client, x: Item, choice: Choice, status: string)
    requires IteratesOver(choice.order, Statuses(x.group.alerts)) && status in choice.order
    ensures WithStatus(x.group.alerts, status) != []
  {
    var a :| a in x.group.alerts && a.status == status;
    InItsPart(x.group.alerts, a);
  }

  lemma {:induction false} LabelledStreamsHaveRows(ss: seq<Stream>, labels: Labels)
    requires forall i :: 0 <= i < |ss| ==> ss[i].values != []
    ensures HasLabels(ss, labels) <==> Gathered(ss, labels) != []
  {
    if ss != [] {
      var front, last := ss[..|ss| - 1], ss[|ss| - 1];
      LabelledStreamsHaveRows(front, labels);
      HasLabelsNext(front, last, labels);
      assert ss == front + [last];
    }
  }

  /**
    The payload of a batch of stamped records depends on neither the clock nor any map iteration order:
    two flushes of it push the same label sets, each with the same rows at the same times.
   */
  lemma PayloadIsReproducible(c: Client, ready: seq<Item>, ch1: seq<Choice>, ch2: seq<Choice>,
                              out1: seq<Stream>, out2: seq<Stream>)
    requires Chosen(c, ready, ch1) && Chosen(c, ready, ch2)
    requires forall x :: x in ready ==> x.receivedAt.Some?
    requires IsMerge(BatchStreams(c, ready, ch1), out1) && IsMerge(BatchStreams(c, ready, ch2), out2)
    ensures forall s :: s in out1 <==> s in out2
  {
    forall s ensures s in out1 <==> s in out2 {
      if s in out1 {
        AlsoInOther(c, ready, ch1, ch2, out1, out2, s);
      }
      if s in out2 {
        AlsoInOther(c, ready, ch2, ch1, out2, out1, s);
      }
    }
  }

  lemma AlsoInOther(c: Client, ready: seq<Item>, ch1: seq<Choice>, ch2: seq<Choice>,
                    out1: seq<Stream>, out2: seq<Stream>, s: Stream)
    requires Chosen(c, ready, ch1) && Chosen(c, ready, ch2)
    requires forall x :: x in ready ==> x.receivedAt.Some?
    requires IsMerge(BatchStreams(c, ready, ch1), out1) && IsMerge(BatchStreams(c, ready, ch2), out2)
    requires s in out1
    ensures s in out2
  {
    hide BatchStreams, Chosen, Gathered, Monotonic;
    var ss1, ss2 := BatchStreams(c, ready, ch1), BatchStreams(c, ready, ch2);
    SameRowsGathered(c, ready, ch1, ch2, s.labels);
    forall i | 0 <= i < |ss1| ensures ss1[i].values != [] {
      NoStreamIsEmpty(c, ready, ch1, i);
    }
    forall i | 0 <= i < |ss2| ensures ss2[i].values != [] {
      NoStreamIsEmpty(c, ready, ch2, i);
    }
    LabelledStreamsHaveRows(ss1, s.labels);
    LabelledStreamsHaveRows(ss2, s.labels);
    var i :| 0 <= i < |out1| && out1[i] == s;
    assert HasLabels(out1, s.labels);
    var j :| 0 <= j < |out2| && out2[j].labels == s.labels;
    assert out2[j] == s;
  }
}
