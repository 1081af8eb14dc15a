/**
  The MySQL save of one alert group: name rows, pair rows, the group, its alerts and their links, in one
  transaction. Its locks ascend, and what it stored reads back as what it was given.
 */
module SqlSave {
  import opened Basics
  import opened Alerts
  import opened KvPairs
  import opened Locks
  import opened KvStore

  datatype Link = Link(owner: int, kv: int)

  datatype GroupRow = GroupRow(status: string, receiver: int, externalURL: int, key: int)

  datatype AlertRow = AlertRow(
    group: int, status: string, startsAt: int, endsAt: Option<int>, generatorURL: string, fingerprint: string)

  // The tables in the order in which a save first locks their rows.
  const RECEIVER: nat := 0
  const EXTERNAL_URL: nat := 1
  const GROUP_KEY: nat := 2
  const LABEL_KV: nat := 3
  const ANNOTATION_KV: nat := 4

  // The link tables.
  const GROUP_LABEL: nat := 0
  const COMMON_LABEL: nat := 1
  const COMMON_ANNOTATION: nat := 2
  const ALERT_LABEL: nat := 3
  const ALERT_ANNOTATION: nat := 4

  // ---- Links ----

  /** The links of an owner are those of the map's pairs. */
  ghost predicate Linked(digest: string -> string, cache: map<string, int>, links: seq<Link>, owner: int, kv: Labels) {
    forall id :: Link(owner, id) in links <==> exists k :: k in kv && id == KvIDFromCache(digest, cache, k, kv[k])
  }

  ghost predicate Unlinked(links: seq<Link>, owner: int) {
    forall id :: Link(owner, id) !in links
  }

  /** Nothing but links of `owner` was added. */
  ghost predicate OnlyAdds(before: seq<Link>, after: seq<Link>, owner: int) {
    before <= after && forall l :: l in after && l !in before ==> l.owner == owner
  }

  /** No two pairs of the map share a cached id. */
  ghost predicate IdsDiffer(digest: string -> string, cache: map<string, int>, kv: Labels) {
    forall k1, k2 :: (
        k1 in kv && k2 in kv
        && KvIDFromCache(digest, cache, k1, kv[k1]) == KvIDFromCache(digest, cache, k2, kv[k2])) ==> k1 == k2
  }

  /** No insert of the map's pairs fails for a reason of its own. */
  ghost predicate NoneFails(digest: string -> string, cache: map<string, int>, kv: Labels, table: nat, owner: int,
                            fails: Statement -> bool) {
    forall k :: k in kv ==> !fails(InsertLink(table, owner, KvIDFromCache(digest, cache, k, kv[k])))
  }

  /**
    One row for each pair of the map, with the cached id. The five insert functions differ in the table
    alone; each table has a unique key on owner and pair id, which rejects an equal second row.
   */
  method InsertLinks(digest: string -> string, links: seq<Link>, table: nat, owner: int, kv: Labels,
                     cache: map<string, int>, fails: Statement -> bool)
    returns (out: seq<Link>, ok: bool)
    requires Unlinked(links, owner)
    ensures ok ==> |out| == |links| + |kv| && Linked(digest, cache, out, owner, kv)
    ensures OnlyAdds(links, out, owner)
    ensures ok <==> IdsDiffer(digest, cache, kv) && NoneFails(digest, cache, kv, table, owner, fails)
    ensures (forall st :: !fails(st)) ==> NoneFails(digest, cache, kv, table, owner, fails)
  {
    hide KvIDFromCache;
    out, ok := links, true;
    var remaining := kv.Keys;
    while remaining != {}
      invariant remaining <= kv.Keys && |out| == |links| + |kv| - |remaining|
      invariant forall id :: (
          Link(owner, id) in out
          <==> exists k :: k in kv && k !in remaining && id == KvIDFromCache(digest, cache, k, kv[k]))
      invariant OnlyAdds(links, out, owner)
      invariant forall k :: k in kv && k !in remaining ==>
        !fails(InsertLink(table, owner, KvIDFromCache(digest, cache, k, kv[k])))
      invariant forall k1, k2 :: (
          k1 in kv && k2 in kv && k1 !in remaining && k2 !in remaining
          && KvIDFromCache(digest, cache, k1, kv[k1]) == KvIDFromCache(digest, cache, k2, kv[k2])) ==> k1 == k2
      decreases remaining
    {
      var k :| k in remaining;
      var id := KvIDFromCache(digest, cache, k, kv[k]);
      if Link(owner, id) in out || fails(InsertLink(table, owner, id)) {
        return out, false;
      }
      out := out + [Link(owner, id)];
      remaining := remaining - {k};
    }
  }

  // ---- Reading back ----

  /** The pairs that a query joining the links of `owner` with the pair table returns. */
  function ReadBack(links: seq<Link>, owner: int, rows: KvTable): set<(string, string)> {
    set h | h in rows && Link(owner, rows[h].id) in links :: (rows[h].key, rows[h].value)
  }

  /** What is read back is the map that was saved if and only if each pair has a row of its own. */
  lemma ReadsBackWhatWasSaved(digest: string -> string, cache: map<string, int>, hashes: seq<string>, rows: KvTable,
                              links: seq<Link>, owner: int, kv: Labels)
    requires ValidTable(digest, rows) && Caches(cache, rows, hashes) && Linked(digest, cache, links, owner, kv)
    requires forall k :: k in kv ==> KvPairHash(digest, k, kv[k]) in hashes
    ensures ReadBack(links, owner, rows) == kv.Items <==> forall k :: k in kv ==> Stores(digest, rows, k, kv[k])
  {
    if ReadBack(links, owner, rows) == kv.Items {
      forall k | k in kv ensures Stores(digest, rows, k, kv[k]) {
        assert (k, kv[k]) in kv.Items;
        assert (k, kv[k]) in ReadBack(links, owner, rows);
      }
    }
    if forall k :: k in kv ==> Stores(digest, rows, k, kv[k]) {
      forall p | p in ReadBack(links, owner, rows) ensures p in kv.Items {
        OnlySavedIsRead(digest, cache, hashes, rows, links, owner, kv, p);
      }
      forall p | p in kv.Items ensures p in ReadBack(links, owner, rows) {
        AllSavedIsRead(digest, cache, hashes, rows, links, owner, kv, p);
      }
    }
  }

  lemma OnlySavedIsRead(digest: string -> string, cache: map<string, int>, hashes: seq<string>, rows: KvTable,
                        links: seq<Link>, owner: int, kv: Labels, p: (string, string))
    requires ValidTable(digest, rows) && Caches(cache, rows, hashes) && Linked(digest, cache, links, owner, kv)
    requires forall k :: k in kv ==> KvPairHash(digest, k, kv[k]) in hashes && Stores(digest, rows, k, kv[k])
    requires p in ReadBack(links, owner, rows)
    ensures p in kv.Items
  {
  }

  lemma AllSavedIsRead(digest: string -> string, cache: map<string, int>, hashes: seq<string>, rows: KvTable,
                       links: seq<Link>, owner: int, kv: Labels, p: (string, string))
    requires ValidTable(digest, rows) && Caches(cache, rows, hashes) && Linked(digest, cache, links, owner, kv)
    requires forall k :: k in kv ==> KvPairHash(digest, k, kv[k]) in hashes && Stores(digest, rows, k, kv[k])
    requires p in kv.Items
    ensures p in ReadBack(links, owner, rows)
  {
  }

  // ---- The lock plan ----

  function NameLocks(g: AlertGroup): seq<Lock> {
    [Lock(RECEIVER, g.receiver), Lock(EXTERNAL_URL, g.externalURL), Lock(GROUP_KEY, g.groupKey)]
  }

  /** The rows a save locks, in order. */
  function LockPlan(g: AlertGroup, labels: seq<string>, annotations: seq<string>): seq<Lock> {
    NameLocks(g) + LocksOf(LABEL_KV, labels) + LocksOf(ANNOTATION_KV, annotations)
  }

  function LabelsOf(alerts: seq<Alert>): (maps: seq<Labels>)
    ensures |maps| == |alerts| && forall i :: 0 <= i < |maps| ==> maps[i] == alerts[i].labels
  {
    seq(|alerts|, i requires 0 <= i < |alerts| => alerts[i].labels)
  }

  function AnnotationsOf(alerts: seq<Alert>): (maps: seq<Labels>)
    ensures |maps| == |alerts| && forall i :: 0 <= i < |maps| ==> maps[i] == alerts[i].annotations
  {
    seq(|alerts|, i requires 0 <= i < |alerts| => alerts[i].annotations)
  }

  function LabelMaps(g: AlertGroup): seq<Labels> {
    [g.groupLabels, g.commonLabels] + LabelsOf(g.alerts)
  }

  function AnnotationMaps(g: AlertGroup): seq<Labels> {
    [g.commonAnnotations] + AnnotationsOf(g.alerts)
  }

  lemma LocksOfAscend(digest: string -> string, maps: seq<Labels>, pairs: seq<KvPair>, rank: nat)
    requires IsLockList(digest, maps, pairs)
    ensures Ascends(LocksOf(rank, Hashes(pairs)))
  {
  }

  lemma AscendsConcat(a: seq<Lock>, b: seq<Lock>)
    requires Ascends(a) && Ascends(b) && forall x, y :: x in a && y in b ==> x.table < y.table
    ensures Ascends(a + b)
  {
  }

  /** Every save takes its locks in strictly ascending order, whatever order its maps are iterated in. */
  lemma LockPlanAscends(digest: string -> string, g: AlertGroup, labels: seq<KvPair>, annotations: seq<KvPair>)
    requires IsLockList(digest, LabelMaps(g), labels) && IsLockList(digest, AnnotationMaps(g), annotations)
    ensures Ascends(LockPlan(g, Hashes(labels), Hashes(annotations)))
  {
    hide IsLockList;
    var names := NameLocks(g);
    LocksOfAscend(digest, LabelMaps(g), labels, LABEL_KV);
    LocksOfAscend(digest, AnnotationMaps(g), annotations, ANNOTATION_KV);
    AscendsConcat(names, LocksOf(LABEL_KV, Hashes(labels)));
    AscendsConcat(names + LocksOf(LABEL_KV, Hashes(labels)), LocksOf(ANNOTATION_KV, Hashes(annotations)));
  }

  /** Concurrent saves of any groups never wait for one another in a circle: one can always go on. */
  lemma ConcurrentSavesFinish(digest: string -> string, groups: seq<AlertGroup>, labels: seq<seq<KvPair>>,
                              annotations: seq<seq<KvPair>>, schedule: seq<Move>)
    requires |labels| == |groups| && |annotations| == |groups|
    requires forall i :: 0 <= i < |groups| ==> IsLockList(digest, LabelMaps(groups[i]), labels[i])
    requires forall i :: 0 <= i < |groups| ==> IsLockList(digest, AnnotationMaps(groups[i]), annotations[i])
    requires Runs(Begun(groups, labels, annotations), schedule)
    ensures var saves := After(Begun(groups, labels, annotations), schedule);
      && Exclusive(saves)
      && |schedule| + AllStepsLeft(saves) <= AllStepsLeft(Begun(groups, labels, annotations))
      && ((exists i :: 0 <= i < |saves| && !saves[i].done) ==> exists i :: 0 <= i < |saves| && CanStep(saves, i))
  {
    hide IsLockList, LockPlan, Ascends;
    var ts := Begun(groups, labels, annotations);
    forall i | 0 <= i < |ts| ensures Ascends(ts[i].plan) {
      LockPlanAscends(digest, groups[i], labels[i], annotations[i]);
    }
    assert Wellformed(ts) && Exclusive(ts);
    SavesNeverDeadlock(ts, schedule);
  }

  /** One transaction for each group, nothing locked yet. */
  function Begun(groups: seq<AlertGroup>, labels: seq<seq<KvPair>>, annotations: seq<seq<KvPair>>): (ts: seq<Save>)
    requires |labels| == |groups| && |annotations| == |groups|
    ensures |ts| == |groups|
    ensures forall i :: 0 <= i < |ts| ==>
      ts[i] == Save(LockPlan(groups[i], Hashes(labels[i]), Hashes(annotations[i])), 0, false)
  {
    seq(|groups|, i requires 0 <= i < |groups| =>
      Save(LockPlan(groups[i], Hashes(labels[i]), Hashes(annotations[i])), 0, false))
  }
}
