/** Conversion of one alert group into Loki streams, one per alert status. */
module Streams {
  import opened Basics
  import opened Alerts
  import opened Timestamps
  import opened StreamKeys

  datatype Stream = Stream(labels: Labels, values: seq<Row>)

  /** A stream in memory: its values are a slice, which `EnsureMonotonic` rewrites in place. */
  datatype Slice = Slice(labels: Labels, values: array<Row>)

  function View(s: Slice): Stream
    reads s.values
  {
    Stream(s.labels, s.values[..])
  }

  /** One alert with its group's context: what is written as a log line. */
  datatype Flattened = Flattened(
    version: string, groupKey: string, receiver: string, status: string, alert: Alert,
    groupLabels: Labels, commonLabels: Labels, commonAnnotations: Labels, externalURL: string)

  /** The client's configuration; `marshal` is the JSON encoder of a log line, which may fail. */
  datatype Client = Client(
    allowed: set<string>,
    structuredMetadata: bool,
    metadata: Alert -> Labels,
    marshal: Flattened -> Option<string>,
    printable: char -> bool)

  function Flatten(g: AlertGroup, a: Alert): Flattened {
    Flattened(g.version, g.groupKey, g.receiver, g.status, a, g.groupLabels, g.commonLabels, g.commonAnnotations,
              g.externalURL)
  }

  /** The group, with this one alert, that a line stands for. */
  function GroupOf(f: Flattened): AlertGroup {
    AlertGroup(f.version, f.groupKey, f.receiver, f.status, [f.alert], f.groupLabels, f.commonLabels,
               f.commonAnnotations, f.externalURL)
  }

  // ---- Labels ----

  const FIXED: set<string> := {"service_name", "receiver", "status", "alert_name"}

  function FixedLabel(g: AlertGroup, name: string): string {
    if name == "service_name" then "alertsnitch"
    else if name == "receiver" then g.receiver
    else if name == "status" then g.status
    else if "alertname" in g.commonLabels then g.commonLabels["alertname"]
    else ""
  }

  /** A label a source map can contribute: present, not empty, validly named. */
  predicate Usable(src: Labels, name: string) {
    name in src && src[name] != "" && ValidName(name)
  }

  /**
    The value of one stream label: fixed labels win, then allowed group labels, then allowed common
    labels, then the labels of the webhook's query string.
   */
  function StreamLabel(c: Client, g: AlertGroup, extra: Labels, name: string): Option<string> {
    if name in FIXED then Some(FixedLabel(g, name))
    else if name in c.allowed && Usable(g.groupLabels, name) then Some(g.groupLabels[name])
    else if name in c.allowed && Usable(g.commonLabels, name) then Some(g.commonLabels[name])
    else if Usable(extra, name) then Some(extra[name])
    else None
  }

  /** The labels of every stream of a group, before the alert status is added. */
  function BaseLabels(c: Client, g: AlertGroup, extra: Labels): Labels {
    map k | k in FIXED + g.groupLabels.Keys + g.commonLabels.Keys + extra.Keys && StreamLabel(c, g, extra, k).Some?
      :: StreamLabel(c, g, extra, k).value
  }

  function Look(m: Labels, name: string): Option<string> {
    if name in m then Some(m[name]) else None
  }

  /** `putStreamLabel`: what one label does to the map being built. */
  function Put(dst: Labels, name: string, value: string): Labels {
    if value == "" || !ValidName(name) then dst else dst[name := value]
  }

  /** Lays the usable labels of `src`, limited to `limit`, over `dst`, whatever order the map yields. */
  method PutAll(dst: Labels, src: Labels, limit: string -> bool) returns (out: Labels)
    ensures forall k :: Look(out, k) == (if Usable(src, k) && limit(k) then Some(src[k]) else Look(dst, k))
  {
    hide ValidName;
    out := dst;
    var remaining := src.Keys;
    while remaining != {}
      invariant remaining <= src.Keys
      invariant forall k :: (
          Look(out, k) == if k !in remaining && Usable(src, k) && limit(k) then Some(src[k]) else Look(dst, k))
      decreases remaining
    {
      var k :| k in remaining;
      if limit(k) {
        out := Put(out, k, src[k]);
      }
      remaining := remaining - {k};
    }
  }

  /** The order of the five writes is what decides between clashing sources. */
  method BuildStreamLabels(c: Client, g: AlertGroup, extra: Labels) returns (labels: Labels)
    ensures labels == BaseLabels(c, g, extra)
  {
    hide ValidName;
    var l0 := PutAll(map[], extra, _ => true);
    var l1 := PutAll(l0, g.commonLabels, k => k in c.allowed);
    var l2 := PutAll(l1, g.groupLabels, k => k in c.allowed);
    labels := PutFixed(g, l2);
    forall k ensures Look(labels, k) == StreamLabel(c, g, extra, k) {
      assert Look(l0, k) == if Usable(extra, k) then Some(extra[k]) else None;
    }
    BaseLabelsAre(c, g, extra, labels);
  }

  method PutFixed(g: AlertGroup, sofar: Labels) returns (labels: Labels)
    ensures forall k :: Look(labels, k) == if k in FIXED then Some(FixedLabel(g, k)) else Look(sofar, k)
  {
    labels := sofar["service_name" := "alertsnitch"];
    labels := labels["receiver" := g.receiver];
    labels := labels["status" := g.status];
    labels := labels["alert_name" := if "alertname" in g.commonLabels then g.commonLabels["alertname"] else ""];
  }

  lemma BaseLabelsAre(c: Client, g: AlertGroup, extra: Labels, labels: Labels)
    requires forall k :: Look(labels, k) == StreamLabel(c, g, extra, k)
    ensures labels == BaseLabels(c, g, extra)
  {
    hide FixedLabel, ValidName;
    var base := BaseLabels(c, g, extra);
    forall k ensures Look(labels, k) == Look(base, k) {
      assert Look(labels, k) == StreamLabel(c, g, extra, k);
    }
    forall k ensures k in labels <==> k in base {
      assert Look(labels, k) == Look(base, k);
    }
    forall k | k in labels ensures labels[k] == base[k] {
      assert Look(labels, k) == Look(base, k);
    }
  }

  function AlertLabels(c: Client, g: AlertGroup, extra: Labels, status: string): Labels {
    BaseLabels(c, g, extra)["alert_status" := status]
  }

  lemma FixedAreNames(name: string)
    requires name in FIXED || name == "alert_status"
    ensures ValidName(name)
  {
  }

  /** Whatever the webhook sent, every stream label has a name Loki accepts. */
  lemma AlertLabelsAreValid(c: Client, g: AlertGroup, extra: Labels, status: string)
    ensures ValidNames(AlertLabels(c, g, extra, status))
  {
    hide ValidName;
    forall k | k in AlertLabels(c, g, extra, status) ensures ValidName(k) {
      if k in FIXED || k == "alert_status" {
        FixedAreNames(k);
      }
    }
  }

  /** Which names a stream's labels have, told from the maps alone. */
  lemma LabelNames(c: Client, g: AlertGroup, extra: Labels, status: string, name: string)
    ensures name in AlertLabels(c, g, extra, status) <==>
      name in {"service_name", "receiver", "status", "alert_name", "alert_status"}
      || (ValidName(name) && (
            (name in c.allowed && name in g.groupLabels && g.groupLabels[name] != "")
            || (name in c.allowed && name in g.commonLabels && g.commonLabels[name] != "")
            || (name in extra && extra[name] != "")))
  {
    hide ValidName;
  }

  /** Which value each of them has: a group label hides a common label, and that one a query label. */
  lemma LabelValues(c: Client, g: AlertGroup, extra: Labels, status: string)
    ensures var ls := AlertLabels(c, g, extra, status);
      && map["service_name" := "alertsnitch", "receiver" := g.receiver, "status" := g.status,
             "alert_status" := status].Items <= ls.Items
      && ("alert_name", if "alertname" in g.commonLabels then g.commonLabels["alertname"] else "") in ls.Items
      && forall name :: name in ls ==>
        name in {"service_name", "receiver", "status", "alert_name", "alert_status"}
        || (name in c.allowed && name in g.groupLabels && g.groupLabels[name] == ls[name] != "")
        || (!(name in c.allowed && name in g.groupLabels && g.groupLabels[name] != "")
            && name in c.allowed && name in g.commonLabels && g.commonLabels[name] == ls[name] != "")
        || (!(name in c.allowed && name in g.groupLabels && g.groupLabels[name] != "")
            && !(name in c.allowed && name in g.commonLabels && g.commonLabels[name] != "")
            && name in extra && extra[name] == ls[name] != "")
  {
    hide ValidName;
  }

  // ---- Grouping by status ----

  function WithStatus(alerts: seq<Alert>, status: string): (part: seq<Alert>)
    ensures forall a :: a in part ==> a in alerts && a.status == status
  {
    if alerts == [] then []
    else
      var front, last := alerts[..|alerts| - 1], alerts[|alerts| - 1];
      WithStatus(front, status) + if last.status == status then [last] else []
  }

  /** The alerts of a status keep their order. */
  lemma {:induction false} WithStatusKeepsOrder(alerts: seq<Alert>, status: string)
    ensures IsPart(alerts, (a: Alert) => a.status == status, WithStatus(alerts, status))
  {
    hide IsPart;
    if alerts == [] {
      NoPart((a: Alert) => a.status == status);
    } else {
      var n := |alerts| - 1;
      WithStatusKeepsOrder(alerts[..n], status);
      assert alerts == alerts[..n] + [alerts[n]];
      PartNext(alerts[..n], (a: Alert) => a.status == status, WithStatus(alerts[..n], status), alerts[n]);
    }
  }

  function Statuses(alerts: seq<Alert>): set<string> {
    set a | a in alerts :: a.status
  }

  method GroupAlertsByStatus(alerts: seq<Alert>) returns (byStatus: map<string, seq<Alert>>)
    ensures byStatus.Keys == Statuses(alerts)
    ensures forall st :: st in byStatus ==> byStatus[st] == WithStatus(alerts, st)
  {
    byStatus := map[];
    hide WithStatus;
    for i := 0 to |alerts|
      invariant byStatus.Keys == Statuses(alerts[..i])
      invariant forall st :: st in byStatus ==> byStatus[st] == WithStatus(alerts[..i], st)
    {
      var a := alerts[i];
      WithStatusNext(alerts, i);
      var sofar := if a.status in byStatus then byStatus[a.status] else [];
      byStatus := byStatus[a.status := sofar + [a]];
    }
    assert alerts[..|alerts|] == alerts;
  }

  lemma WithStatusNext(alerts: seq<Alert>, i: nat)
    requires i < |alerts|
    ensures Statuses(alerts[..i + 1]) == Statuses(alerts[..i]) + {alerts[i].status}
    ensures forall st :: (
        WithStatus(alerts[..i + 1], st)
        == WithStatus(alerts[..i], st) + if alerts[i].status == st then [alerts[i]] else [])
    ensures alerts[i].status !in Statuses(alerts[..i]) ==> WithStatus(alerts[..i], alerts[i].status) == []
  {
    assert alerts[..i + 1] == alerts[..i] + [alerts[i]];
    assert alerts[..i + 1][..i] == alerts[..i];
    NoneWithStatus(alerts[..i], alerts[i].status);
  }

  lemma NoneWithStatus(alerts: seq<Alert>, status: string)
    ensures status !in Statuses(alerts) ==> WithStatus(alerts, status) == []
  {
  }

  // ---- Conversion ----

  predicate Marshals(c: Client, g: AlertGroup, alerts: seq<Alert>) {
    forall a :: a in alerts ==> c.marshal(Flatten(g, a)).Some?
  }

  /** Whether the group converts: it has alerts and every line can be encoded. */
  predicate Converts(c: Client, g: AlertGroup) {
    g.alerts != [] && Marshals(c, g, g.alerts)
  }

  /** The row of one alert, before de-collision. */
  function RowOf(c: Client, g: AlertGroup, a: Alert, at: int): Row
    requires c.marshal(Flatten(g, a)).Some?
  {
    Row(at, c.marshal(Flatten(g, a)).value, if c.structuredMetadata then c.metadata(a) else map[])
  }

  /** A line carries the alert and all of its group, and the metadata goes along when it is switched on. */
  lemma RowCarriesAlert(c: Client, g: AlertGroup, a: Alert, at: int)
    requires c.marshal(Flatten(g, a)).Some?
    ensures RowOf(c, g, a, at).at == at
    ensures exists f :: c.marshal(f) == Some(RowOf(c, g, a, at).line) && GroupOf(f) == g.(alerts := [a])
    ensures RowOf(c, g, a, at).meta == map k | c.structuredMetadata && k in c.metadata(a) :: c.metadata(a)[k]
  {
    assert GroupOf(Flatten(g, a)) == g.(alerts := [a]);
  }

  function RowsOf(c: Client, g: AlertGroup, alerts: seq<Alert>, at: int): (rows: seq<Row>)
    requires Marshals(c, g, alerts)
    ensures |rows| == |alerts|
    ensures forall i :: 0 <= i < |alerts| ==> rows[i] == RowOf(c, g, alerts[i], at)
  {
    seq(|alerts|, i requires 0 <= i < |alerts| => RowOf(c, g, alerts[i], at))
  }

  /** The stream a group has for one status. */
  function StreamFor(c: Client, g: AlertGroup, extra: Labels, at: int, status: string): Stream
    requires Converts(c, g)
  {
    Stream(AlertLabels(c, g, extra, status), Monotonic(RowsOf(c, g, WithStatus(g.alerts, status), at)))
  }

  function StreamsFor(c: Client, g: AlertGroup, extra: Labels, at: int, order: seq<string>): (ss: seq<Stream>)
    requires Converts(c, g)
    ensures |ss| == |order|
    ensures forall i :: 0 <= i < |order| ==> ss[i] == StreamFor(c, g, extra, at, order[i])
  {
    seq(|order|, i requires 0 <= i < |order| => StreamFor(c, g, extra, at, order[i]))
  }

  method CreateStreamForStatus(c: Client, status: string, alerts: seq<Alert>, g: AlertGroup, base: Labels, at: int)
    returns (r: Option<Slice>)
    ensures r.Some? <==> Marshals(c, g, alerts)
    ensures r.Some? ==> fresh(r.value.values)
    ensures r.Some? ==> View(r.value) == Stream(base["alert_status" := status], Monotonic(RowsOf(c, g, alerts, at)))
  {
    hide Monotonic, Flatten;
    var rows: seq<Row> := [];
    for i := 0 to |alerts|
      invariant forall k :: 0 <= k < i ==> c.marshal(Flatten(g, alerts[k])).Some?
      invariant |rows| == i && forall k :: 0 <= k < i ==> rows[k] == RowOf(c, g, alerts[k], at)
    {
      if c.marshal(Flatten(g, alerts[i])).None? {
        return None;
      }
      rows := rows + [RowOf(c, g, alerts[i], at)];
    }
    assert rows == RowsOf(c, g, alerts, at);
    var values := new Row[|rows|](i requires 0 <= i < |rows| => rows[i]);
    assert values[..] == rows;
    EnsureMonotonic(values);
    return Some(Slice(base["alert_status" := status], values));
  }

  datatype ConversionError = NoAlerts | LineNotEncodable

  /** A zero receive time, as in records logged before it was persisted, becomes the current time. */
  function ReceiveTime(receivedAt: Instant, now: int): int {
    if receivedAt.Some? then receivedAt.value else now
  }

  function Views(ss: seq<Slice>): (vs: seq<Stream>)
    reads set s | s in ss :: s.values
    ensures |vs| == |ss|
    ensures forall i :: 0 <= i < |ss| ==> vs[i] == View(ss[i])
  {
    seq(|ss|, i requires 0 <= i < |ss| reads set s | s in ss :: s.values => View(ss[i]))
  }

  /** One stream per status, in the order the status map happens to be iterated; or the error that stopped it. */
  method DataToStream(c: Client, g: AlertGroup, extra: Labels, receivedAt: Instant, now: int)
    returns (r: Result<seq<Slice>, ConversionError>, ghost order: seq<string>)
    ensures r.Ok? <==> Converts(c, g)
    ensures r == Err(NoAlerts) <==> g.alerts == []
    ensures r.Ok? ==> IteratesOver(order, Statuses(g.alerts))
    ensures r.Ok? ==> forall s :: s in r.value ==> fresh(s.values)
    ensures r.Ok? ==> Views(r.value) == StreamsFor(c, g, extra, ReceiveTime(receivedAt, now), order)
  {
    order := [];
    if |g.alerts| == 0 {
      return Err(NoAlerts), [];
    }
    var at := if receivedAt.None? then now else receivedAt.value;
    var byStatus := GroupAlertsByStatus(g.alerts);
    var base := BuildStreamLabels(c, g, extra);
    hide WithStatus, Monotonic, BaseLabels, Marshals;
    var out: Option<seq<Slice>>;
    out, order := ConvertEach(c, g, base, at, byStatus);
    if out.None? {
      SomePartFails(c, g, order);
      return Err(LineNotEncodable), order;
    }
    AllPartsMarshal(c, g, order);
    assert Views(out.value) == StreamsFor(c, g, extra, at, order);
    return Ok(out.value), order;
  }

  /** The loop over the status map; it gives up at the first status that does not convert. */
  method ConvertEach(c: Client, g: AlertGroup, base: Labels, at: int, byStatus: map<string, seq<Alert>>)
    returns (out: Option<seq<Slice>>, ghost order: seq<string>)
    requires forall st :: st in byStatus ==> byStatus[st] == WithStatus(g.alerts, st)
    ensures out.Some? <==> forall i :: 0 <= i < |order| ==> Marshals(c, g, WithStatus(g.alerts, order[i]))
    ensures out.Some? ==> IteratesOver(order, byStatus.Keys) && |out.value| == |order|
    ensures out.Some? ==> forall s :: s in out.value ==> fresh(s.values)
    ensures out.Some? ==> (
        forall i :: 0 <= i < |order| ==> IsStreamFor(c, g, base, at, order[i], View(out.value[i])))
  {
    hide WithStatus, Monotonic, Marshals, IsStreamFor;
    order := [];
    var made: seq<Slice> := [];
    var remaining := byStatus.Keys;
    while remaining != {}
      invariant remaining <= byStatus.Keys
      invariant IteratesOver(order, byStatus.Keys - remaining)
      invariant |made| == |order|
      invariant forall s :: s in made ==> fresh(s.values)
      invariant forall i :: 0 <= i < |made| ==> Marshals(c, g, WithStatus(g.alerts, order[i]))
      invariant forall i :: 0 <= i < |made| ==> IsStreamFor(c, g, base, at, order[i], View(made[i]))
      decreases remaining
    {
      var status :| status in remaining;
      var s := CreateStreamForStatus(c, status, byStatus[status], g, base, at);
      IterateNext(order, status, byStatus.Keys - remaining);
      order := order + [status];
      if s.None? {
        return None, order;
      }
      ItsStreamIs(c, g, base, at, status, View(s.value));
      made := made + [s.value];
      assert byStatus.Keys - (remaining - {status}) == byStatus.Keys - remaining + {status};
      remaining := remaining - {status};
    }
    assert byStatus.Keys - remaining == byStatus.Keys;
    return Some(made), order;
  }

  lemma ItsStreamIs(c: Client, g: AlertGroup, base: Labels, at: int, status: string, s: Stream)
    requires Marshals(c, g, WithStatus(g.alerts, status))
    requires s == Stream(base["alert_status" := status], Monotonic(RowsOf(c, g, WithStatus(g.alerts, status), at)))
    ensures IsStreamFor(c, g, base, at, status, s)
  {
  }

  ghost predicate IsStreamFor(c: Client, g: AlertGroup, base: Labels, at: int, status: string, s: Stream)
    requires Marshals(c, g, WithStatus(g.alerts, status))
  {
    s == Stream(base["alert_status" := status], Monotonic(RowsOf(c, g, WithStatus(g.alerts, status), at)))
  }

  lemma SomePartFails(c: Client, g: AlertGroup, order: seq<string>)
    requires exists i :: 0 <= i < |order| && !Marshals(c, g, WithStatus(g.alerts, order[i]))
    ensures !Marshals(c, g, g.alerts)
  {
  }

  lemma {:induction false} InItsPart(alerts: seq<Alert>, a: Alert)
    requires a in alerts
    ensures a in WithStatus(alerts, a.status)
  {
    if alerts[|alerts| - 1] != a {
      InItsPart(alerts[..|alerts| - 1], a);
    }
  }

  lemma AllPartsMarshal(c: Client, g: AlertGroup, order: seq<string>)
    requires forall st :: st in Statuses(g.alerts) ==> st in order
    requires forall i :: 0 <= i < |order| ==> Marshals(c, g, WithStatus(g.alerts, order[i]))
    ensures Marshals(c, g, g.alerts)
  {
    forall a | a in g.alerts ensures c.marshal(Flatten(g, a)).Some? {
      InItsPart(g.alerts, a);
      assert a.status in Statuses(g.alerts);
    }
  }
}
