/** The body of a MySQL save, as it runs inside one transaction. */
module SqlTransaction {
  import opened Basics
  import opened Alerts
  import opened KvPairs
  import opened Locks
  import opened KvStore
  import opened SqlSave

  /** A table of names: ids are positive and different. */
  ghost predicate ValidNames(names: map<string, int>) {
    && (forall n :: n in names ==> 0 < names[n] <= |names|)
    && (forall m, n :: m in names && n in names && names[m] == names[n] ==> m == n)
  }

  ghost predicate OwnersUpTo(links: seq<Link>, n: int) {
    forall l :: l in links ==> 0 < l.owner <= n
  }

  lemma NextOwnerIsUnlinked(links: seq<Link>, n: int)
    requires OwnersUpTo(links, n)
    ensures Unlinked(links, n + 1)
  {
  }

  lemma OwnersNext(before: seq<Link>, after: seq<Link>, n: nat)
    requires OwnersUpTo(before, n) && OnlyAdds(before, after, n + 1)
    ensures OwnersUpTo(after, n + 1)
  {
  }

  /** Owners base + 1, base + 2, ... have the links of the maps, in order. */
  ghost predicate AllLinked(digest: string -> string, cache: map<string, int>, links: seq<Link>, base: nat,
                            maps: seq<Labels>) {
    forall j :: 0 <= j < |maps| ==> Linked(digest, cache, links, base + 1 + j, maps[j])
  }

  lemma AllLinkedNext(digest: string -> string, cache: map<string, int>, before: seq<Link>, after: seq<Link>,
                      base: nat, maps: seq<Labels>, m: Labels)
    requires AllLinked(digest, cache, before, base, maps) && OnlyAdds(before, after, base + 1 + |maps|)
    requires Linked(digest, cache, after, base + 1 + |maps|, m)
    ensures AllLinked(digest, cache, after, base, maps + [m])
  {
  }

  ghost predicate AllIdsDiffer(digest: string -> string, cache: map<string, int>, maps: seq<Labels>) {
    forall j :: 0 <= j < |maps| ==> IdsDiffer(digest, cache, maps[j])
  }

  function PairCount(maps: seq<Labels>): nat {
    if maps == [] then 0 else PairCount(maps[..|maps| - 1]) + |maps[|maps| - 1]|
  }

  /** An end before the start is not stored. */
  function AlertRowOf(group: int, a: Alert): AlertRow {
    AlertRow(group, a.status, a.startsAt, if a.endsAt < a.startsAt then None else Some(a.endsAt), a.generatorURL,
             a.fingerprint)
  }

  function AlertRowsOf(group: int, alerts: seq<Alert>): (rows: seq<AlertRow>)
    ensures |rows| == |alerts| && forall i :: 0 <= i < |rows| ==> rows[i] == AlertRowOf(group, alerts[i])
  {
    seq(|alerts|, i requires 0 <= i < |alerts| => AlertRowOf(group, alerts[i]))
  }

  /** The alert tables: row i has id i + 1. */
  class AlertTables {
    const digest: string -> string
    var alerts: seq<AlertRow>
    var alertLabels: seq<Link>
    var alertAnnotations: seq<Link>

    ghost predicate Valid()
      reads this
    {
      OwnersUpTo(alertLabels, |alerts|) && OwnersUpTo(alertAnnotations, |alerts|)
    }

    constructor (digest: string -> string)
      ensures Valid() && this.digest == digest && alerts == [] && alertLabels == [] && alertAnnotations == []
    {
      this.digest, alerts, alertLabels, alertAnnotations := digest, [], [], [];
    }

    /** One alert with its own links; nothing is changed when a statement fails. */
    method InsertOne(group: int, i: nat, a: Alert, labelCache: map<string, int>, annotationCache: map<string, int>,
                     fails: Statement -> bool)
      returns (ok: bool)
      requires Valid()
      modifies this
      ensures Valid()
      ensures !ok ==> alerts == old(alerts) && alertLabels == old(alertLabels)
      ensures !ok ==> alertAnnotations == old(alertAnnotations)
      ensures ok ==> alerts == old(alerts) + [AlertRowOf(group, a)]
      ensures ok ==> AddsLinks(digest, labelCache, old(alertLabels), alertLabels, |old(alerts)| + 1, a.labels)
      ensures ok ==>
        AddsLinks(digest, annotationCache, old(alertAnnotations), alertAnnotations, |old(alerts)| + 1, a.annotations)
      ensures (forall st :: !fails(st)) ==> (
          ok <==> IdsDiffer(digest, labelCache, a.labels) && IdsDiffer(digest, annotationCache, a.annotations))
    {
      hide OwnersUpTo, Linked, IdsDiffer, NoneFails, OnlyAdds;
      if fails(InsertAlert(i)) {
        return false;
      }
      var id := |alerts| + 1;
      NextOwnerIsUnlinked(alertLabels, |alerts|);
      NextOwnerIsUnlinked(alertAnnotations, |alerts|);
      var labels, notes: seq<Link>;
      labels, ok := InsertLinks(digest, alertLabels, ALERT_LABEL, id, a.labels, labelCache, fails);
      if !ok {
        return false;
      }
      notes, ok := InsertLinks(digest, alertAnnotations, ALERT_ANNOTATION, id, a.annotations, annotationCache, fails);
      if !ok {
        return false;
      }
      OwnersNext(alertLabels, labels, |alerts|);
      OwnersNext(alertAnnotations, notes, |alerts|);
      alertLabels, alertAnnotations := labels, notes;
      var endsAt := if a.endsAt < a.startsAt then None else Some(a.endsAt);
      alerts := alerts + [AlertRow(group, a.status, a.startsAt, endsAt, a.generatorURL, a.fingerprint)];
    }

    /** Inserts each alert with its own links; stops at the first failing statement. */
    method InsertAlerts(group: int, added: seq<Alert>, labelCache: map<string, int>,
                        annotationCache: map<string, int>, fails: Statement -> bool)
      returns (ok: bool)
      requires Valid()
      modifies this
      ensures Valid()
      ensures ok ==> alerts == old(alerts) + AlertRowsOf(group, added)
      ensures ok ==>
        AddsAllLinks(digest, labelCache, old(alertLabels), alertLabels, |old(alerts)|, LabelsOf(added))
      ensures ok ==>
        AddsAllLinks(digest, annotationCache, old(alertAnnotations), alertAnnotations, |old(alerts)|,
                     AnnotationsOf(added))
      ensures (forall st :: !fails(st)) ==> (
          ok <==> AllIdsDiffer(digest, labelCache, LabelsOf(added))
                  && AllIdsDiffer(digest, annotationCache, AnnotationsOf(added)))
    {
      hide AddsAllLinks, AddsLinks, AllIdsDiffer, IdsDiffer, AlertTables.Valid;
      ghost var base, maps, notes := |alerts|, LabelsOf(added), AnnotationsOf(added);
      AddsNothing(digest, labelCache, alertLabels, base, maps);
      AddsNothing(digest, annotationCache, alertAnnotations, base, notes);
      for i := 0 to |added|
        invariant Valid() && alerts == old(alerts) + AlertRowsOf(group, added[..i])
        invariant AddsAllLinks(digest, labelCache, old(alertLabels), alertLabels, base, maps[..i])
        invariant AddsAllLinks(digest, annotationCache, old(alertAnnotations), alertAnnotations, base, notes[..i])
      {
        ghost var labels0, notes0 := alertLabels, alertAnnotations;
        ok := InsertOne(group, i, added[i], labelCache, annotationCache, fails);
        if !ok {
          OneClashes(digest, labelCache, maps, i);
          OneClashes(digest, annotationCache, notes, i);
          return false;
        }
        AddsNext(digest, labelCache, old(alertLabels), labels0, alertLabels, base, maps, i);
        AddsNext(digest, annotationCache, old(alertAnnotations), notes0, alertAnnotations, base, notes, i);
        assert AlertRowsOf(group, added[..i + 1])
            == AlertRowsOf(group, added[..i]) + [AlertRowOf(group, added[i])];
      }
      assert added[..|added|] == added && maps[..|added|] == maps && notes[..|added|] == notes;
      AddsMeansDiffer(digest, labelCache, old(alertLabels), alertLabels, base, maps);
      AddsMeansDiffer(digest, annotationCache, old(alertAnnotations), alertAnnotations, base, notes);
      ok := true;
    }
  }

  /** The links of one map went to one owner, and nothing else was added. */
  ghost predicate AddsLinks(digest: string -> string, cache: map<string, int>, before: seq<Link>, after: seq<Link>,
                            owner: int, kv: Labels) {
    && OnlyAdds(before, after, owner) && |after| == |before| + |kv|
    && Linked(digest, cache, after, owner, kv) && IdsDiffer(digest, cache, kv)
  }

  /** The links of each map went to its own owner: base + 1, base + 2, ... */
  ghost predicate AddsAllLinks(digest: string -> string, cache: map<string, int>, before: seq<Link>,
                               after: seq<Link>, base: nat, maps: seq<Labels>) {
    && before <= after && |after| == |before| + PairCount(maps)
    && (forall l :: l in after && l !in before ==> l.owner > base)
    && AllLinked(digest, cache, after, base, maps) && AllIdsDiffer(digest, cache, maps)
  }

  lemma AddsNothing(digest: string -> string, cache: map<string, int>, links: seq<Link>, base: nat,
                    maps: seq<Labels>)
    ensures AddsAllLinks(digest, cache, links, links, base, maps[..0])
  {
  }

  lemma AddsNext(digest: string -> string, cache: map<string, int>, before: seq<Link>, mid: seq<Link>,
                 after: seq<Link>, base: nat, maps: seq<Labels>, i: nat)
    requires i < |maps| && AddsAllLinks(digest, cache, before, mid, base, maps[..i])
    requires AddsLinks(digest, cache, mid, after, base + 1 + i, maps[i])
    ensures AddsAllLinks(digest, cache, before, after, base, maps[..i + 1])
  {
    hide AllLinked, Linked, IdsDiffer;
    assert maps[..i + 1] == maps[..i] + [maps[i]] && maps[..i + 1][..i] == maps[..i];
    AllLinkedNext(digest, cache, mid, after, base, maps[..i], maps[i]);
  }

  lemma OneClashes(digest: string -> string, cache: map<string, int>, maps: seq<Labels>, i: nat)
    requires i < |maps|
    ensures AllIdsDiffer(digest, cache, maps) ==> IdsDiffer(digest, cache, maps[i])
  {
  }

  lemma AddsMeansDiffer(digest: string -> string, cache: map<string, int>, before: seq<Link>, after: seq<Link>,
                        base: nat, maps: seq<Labels>)
    requires AddsAllLinks(digest, cache, before, after, base, maps)
    ensures AllIdsDiffer(digest, cache, maps) && AllLinked(digest, cache, after, base, maps)
    ensures AddsAbove(before, after, base)
  {
  }

  lemma AddsForNext(before: seq<Link>, after: seq<Link>, n: nat)
    requires OnlyAdds(before, after, n + 1)
    ensures AddsAbove(before, after, n)
  {
  }

  /** Links were added only for owners past `base`. */
  ghost predicate AddsAbove(before: seq<Link>, after: seq<Link>, base: int) {
    before <= after && forall l :: l in after && l !in before ==> l.owner > base
  }

  // ---- The save ----

  lemma NamesNext(names: map<string, int>, name: string)
    requires ValidNames(names) && name !in names
    ensures ValidNames(names[name := |names| + 1])
  {
  }

  /** Names keep their ids, and a new name gets one that was not given out before. */
  ghost predicate NamesGrew(before: map<string, int>, after: map<string, int>) {
    && |before| <= |after|
    && (forall n :: n in before ==> n in after && after[n] == before[n])
    && (forall n :: n in after && n !in before ==> after[n] > |before|)
  }

  /** The names that a query joining an id with a name table returns. */
  function NamesOf(names: map<string, int>, id: int): set<string> {
    set n | n in names && names[n] == id
  }

  /** The statement on a name table: finds or inserts the name, and locks its row. */
  method UpsertName(names: map<string, int>, rank: nat, name: string, log: LockLog, fails: Statement -> bool)
    returns (out: map<string, int>, ok: bool)
    requires ValidNames(names)
    modifies log
    ensures ValidNames(out) && NamesGrew(names, out)
    ensures ok <==> !fails(LockRow(Lock(rank, name)))
    ensures log.taken == old(log.taken) + if ok then [Lock(rank, name)] else []
    ensures ok ==> name in out
  {
    if fails(LockRow(Lock(rank, name))) {
      return names, false;
    }
    log.taken := log.taken + [Lock(rank, name)];
    if name in names {
      return names, true;
    }
    NamesNext(names, name);
    assert |names[name := |names| + 1]| == |names| + 1;
    return names[name := |names| + 1], true;
  }

  /** The label side of a saved group, as it reads back. */
  ghost predicate LabelsReadBack(g: AlertGroup, id: int, groupLabels: seq<Link>, commonLabels: seq<Link>,
                                 alertLabels: seq<Link>, base: nat, rows: KvTable) {
    && ReadBack(groupLabels, id, rows) == g.groupLabels.Items
    && ReadBack(commonLabels, id, rows) == g.commonLabels.Items
    && (var maps := LabelsOf(g.alerts);
        forall i :: 0 <= i < |maps| ==> ReadBack(alertLabels, base + 1 + i, rows) == maps[i].Items)
  }

  /** The annotation side. */
  ghost predicate AnnotationsReadBack(g: AlertGroup, id: int, commonAnnotations: seq<Link>,
                                      alertAnnotations: seq<Link>, base: nat, rows: KvTable) {
    && ReadBack(commonAnnotations, id, rows) == g.commonAnnotations.Items
    && (var maps := AnnotationsOf(g.alerts);
        forall i :: 0 <= i < |maps| ==> ReadBack(alertAnnotations, base + 1 + i, rows) == maps[i].Items)
  }

  lemma HashIsListed(digest: string -> string, maps: seq<Labels>, pairs: seq<KvPair>, i: nat)
    requires IsLockList(digest, maps, pairs) && i < |maps|
    ensures forall k :: k in maps[i] ==> KvPairHash(digest, k, maps[i][k]) in Hashes(pairs)
  {
  }

  ghost predicate AllStored(digest: string -> string, rows: KvTable, kv: Labels) {
    forall k :: k in kv ==> Stores(digest, rows, k, kv[k])
  }

  lemma AllMapsStored(digest: string -> string, rows: KvTable, maps: seq<Labels>)
    ensures (forall i :: 0 <= i < |maps| ==> AllStored(digest, rows, maps[i]))
      <==> forall k, v :: InMaps(maps, k, v) ==> Stores(digest, rows, k, v)
  {
  }

  lemma MapReadsBack(digest: string -> string, maps: seq<Labels>, pairs: seq<KvPair>, cache: map<string, int>,
                     rows: KvTable, links: seq<Link>, owner: int, i: nat)
    requires ValidTable(digest, rows) && IsLockList(digest, maps, pairs) && Caches(cache, rows, Hashes(pairs))
    requires i < |maps| && Linked(digest, cache, links, owner, maps[i])
    ensures ReadBack(links, owner, rows) == maps[i].Items <==> AllStored(digest, rows, maps[i])
  {
    hide IsLockList, Caches, Linked, KvPairHash, ValidTable, ReadBack, Stores;
    HashIsListed(digest, maps, pairs, i);
    ReadsBackWhatWasSaved(digest, cache, Hashes(pairs), rows, links, owner, maps[i]);
  }

  lemma SplitStored(digest: string -> string, rows: KvTable, a: seq<Labels>, b: seq<Labels>)
    ensures (forall i :: 0 <= i < |a + b| ==> AllStored(digest, rows, (a + b)[i]))
      <==> (forall i :: 0 <= i < |a| ==> AllStored(digest, rows, a[i]))
           && (forall i :: 0 <= i < |b| ==> AllStored(digest, rows, b[i]))
  {
    hide AllStored;
    if forall i :: 0 <= i < |a + b| ==> AllStored(digest, rows, (a + b)[i]) {
      forall i | 0 <= i < |a| ensures AllStored(digest, rows, a[i]) {
        assert (a + b)[i] == a[i];
      }
      forall i | 0 <= i < |b| ensures AllStored(digest, rows, b[i]) {
        assert (a + b)[|a| + i] == b[i];
      }
    }
  }

  /** The maps of the alerts read back exactly when each of them is stored. */
  lemma AlertMapsReadBack(digest: string -> string, first: seq<Labels>, maps: seq<Labels>, pairs: seq<KvPair>,
                          cache: map<string, int>, rows: KvTable, links: seq<Link>, base: nat)
    requires ValidTable(digest, rows) && IsLockList(digest, first + maps, pairs) && Caches(cache, rows, Hashes(pairs))
    requires AllLinked(digest, cache, links, base, maps)
    ensures (forall i :: 0 <= i < |maps| ==> ReadBack(links, base + 1 + i, rows) == maps[i].Items)
      <==> forall i :: 0 <= i < |maps| ==> AllStored(digest, rows, maps[i])
  {
    hide IsLockList, Caches, Linked, ValidTable, ReadBack, AllStored;
    forall i | 0 <= i < |maps|
      ensures ReadBack(links, base + 1 + i, rows) == maps[i].Items <==> AllStored(digest, rows, maps[i])
    {
      assert (first + maps)[|first| + i] == maps[i];
      MapReadsBack(digest, first + maps, pairs, cache, rows, links, base + 1 + i, |first| + i);
    }
  }

  /** All maps of one kind are stored exactly when no two pairs share a hash. */
  lemma StoredUnlessHashesCollide(digest: string -> string, first: seq<Labels>, maps: seq<Labels>, pairs: seq<KvPair>,
                                  cache: map<string, int>, before: KvTable, rows: KvTable)
    requires ValidTable(digest, rows) && IsLockList(digest, first + maps, pairs) && Grew(before, rows, pairs)
    requires Caches(cache, rows, Hashes(pairs))
    ensures (forall i :: 0 <= i < |first| ==> AllStored(digest, rows, first[i]))
            && (forall i :: 0 <= i < |maps| ==> AllStored(digest, rows, maps[i]))
      <==> NoCollisions(digest, first + maps) && NoneTaken(digest, before, first + maps)
  {
    CachedAreRows(cache, rows, Hashes(pairs));
    hide IsLockList, Caches, ValidTable, Grew, Stores, NoCollisions, NoneTaken, AllStored;
    LookupsAreRightUnlessHashesCollide(digest, first + maps, pairs, before, rows);
    AllMapsStored(digest, rows, first + maps);
    SplitStored(digest, rows, first, maps);
  }

  lemma CachedAreRows(cache: map<string, int>, rows: KvTable, hashes: seq<string>)
    requires Caches(cache, rows, hashes)
    ensures forall h :: h in hashes ==> h in rows
  {
  }

  lemma LabelsReadBackUnlessHashesCollide(
      digest: string -> string, g: AlertGroup, id: int, pairs: seq<KvPair>, cache: map<string, int>,
      before: KvTable, rows: KvTable, groupLabels: seq<Link>, commonLabels: seq<Link>, alertLabels: seq<Link>,
      base: nat)
    requires ValidTable(digest, rows) && IsLockList(digest, LabelMaps(g), pairs) && Grew(before, rows, pairs)
    requires Caches(cache, rows, Hashes(pairs))
    requires Linked(digest, cache, groupLabels, id, g.groupLabels)
    requires Linked(digest, cache, commonLabels, id, g.commonLabels)
    requires AllLinked(digest, cache, alertLabels, base, LabelsOf(g.alerts))
    ensures LabelsReadBack(g, id, groupLabels, commonLabels, alertLabels, base, rows)
      <==> NoCollisions(digest, LabelMaps(g)) && NoneTaken(digest, before, LabelMaps(g))
  {
    hide IsLockList, Caches, Linked, AllLinked, ValidTable, Grew, ReadBack, NoCollisions, NoneTaken, AllStored, Hashes;
    var first := [g.groupLabels, g.commonLabels];
    StoredUnlessHashesCollide(digest, first, LabelsOf(g.alerts), pairs, cache, before, rows);
    MapReadsBack(digest, LabelMaps(g), pairs, cache, rows, groupLabels, id, 0);
    MapReadsBack(digest, LabelMaps(g), pairs, cache, rows, commonLabels, id, 1);
    AlertMapsReadBack(digest, first, LabelsOf(g.alerts), pairs, cache, rows, alertLabels, base);
  }

  lemma AnnotationsReadBackUnlessHashesCollide(
      digest: string -> string, g: AlertGroup, id: int, pairs: seq<KvPair>, cache: map<string, int>,
      before: KvTable, rows: KvTable, commonAnnotations: seq<Link>, alertAnnotations: seq<Link>, base: nat)
    requires ValidTable(digest, rows) && IsLockList(digest, AnnotationMaps(g), pairs) && Grew(before, rows, pairs)
    requires Caches(cache, rows, Hashes(pairs))
    requires Linked(digest, cache, commonAnnotations, id, g.commonAnnotations)
    requires AllLinked(digest, cache, alertAnnotations, base, AnnotationsOf(g.alerts))
    ensures AnnotationsReadBack(g, id, commonAnnotations, alertAnnotations, base, rows)
      <==> NoCollisions(digest, AnnotationMaps(g)) && NoneTaken(digest, before, AnnotationMaps(g))
  {
    hide IsLockList, Caches, Linked, AllLinked, ValidTable, Grew, ReadBack, NoCollisions, NoneTaken, AllStored, Hashes;
    var first := [g.commonAnnotations];
    StoredUnlessHashesCollide(digest, first, AnnotationsOf(g.alerts), pairs, cache, before, rows);
    MapReadsBack(digest, AnnotationMaps(g), pairs, cache, rows, commonAnnotations, id, 0);
    AlertMapsReadBack(digest, first, AnnotationsOf(g.alerts), pairs, cache, rows, alertAnnotations, base);
  }

  /** Two pairs of a map share an id exactly when they share a hash. */
  lemma IdsAreHashes(digest: string -> string, maps: seq<Labels>, pairs: seq<KvPair>, cache: map<string, int>,
                     rows: KvTable, i: nat)
    requires ValidTable(digest, rows) && IsLockList(digest, maps, pairs) && Caches(cache, rows, Hashes(pairs))
    requires i < |maps|
    ensures IdsDiffer(digest, cache, maps[i]) <==> HashesDiffer(digest, maps[i])
  {
    HashIsListed(digest, maps, pairs, i);
    hide IsLockList, KvPairHash;
    var m := maps[i];
    forall k1, k2 | k1 in m && k2 in m
      ensures (KvIDFromCache(digest, cache, k1, m[k1]) == KvIDFromCache(digest, cache, k2, m[k2])
        <==> KvPairHash(digest, k1, m[k1]) == KvPairHash(digest, k2, m[k2]))
    {
    }
  }

  /** So no insert of labels or annotations clashes exactly when no map holds two pairs with one hash. */
  lemma AllIdsAreHashes(digest: string -> string, first: seq<Labels>, maps: seq<Labels>, pairs: seq<KvPair>,
                        cache: map<string, int>, rows: KvTable)
    requires ValidTable(digest, rows) && Caches(cache, rows, Hashes(pairs))
    requires IsLockList(digest, first + maps, pairs)
    ensures AllHashesDiffer(digest, first + maps)
      <==> AllIdsDiffer(digest, cache, first) && AllIdsDiffer(digest, cache, maps)
  {
    hide IsLockList, KvPairHash, Caches, ValidTable, IdsDiffer, HashesDiffer;
    var all := first + maps;
    forall i | 0 <= i < |all| ensures IdsDiffer(digest, cache, all[i]) <==> HashesDiffer(digest, all[i]) {
      IdsAreHashes(digest, all, pairs, cache, rows, i);
    }
    assert forall i :: 0 <= i < |first| ==> all[i] == first[i];
    assert forall i :: 0 <= i < |maps| ==> all[|first| + i] == maps[i];
    if AllIdsDiffer(digest, cache, first) && AllIdsDiffer(digest, cache, maps) {
      forall i | 0 <= i < |all| ensures HashesDiffer(digest, all[i]) {
        assert i >= |first| ==> all[i] == maps[i - |first|];
      }
    }
  }

  /** The name tables. */
  class NameTables {
    const log: LockLog
    var receivers: map<string, int>
    var externalURLs: map<string, int>
    var groupKeys: map<string, int>

    ghost predicate Valid()
      reads this
    {
      ValidNames(receivers) && ValidNames(externalURLs) && ValidNames(groupKeys)
    }

    constructor (log: LockLog)
      ensures Valid() && this.log == log
    {
      this.log, receivers, externalURLs, groupKeys := log, map[], map[], map[];
    }

    /** The first three statements. */
    method ResolveNames(g: AlertGroup, fails: Statement -> bool) returns (ok: bool)
      requires Valid()
      modifies this, log
      ensures Valid()
      ensures ok ==> Named(g) && log.taken == old(log.taken) + NameLocks(g)
      ensures ok ==> (
          && NamesGrew(old(receivers), receivers) && NamesGrew(old(externalURLs), externalURLs)
          && NamesGrew(old(groupKeys), groupKeys))
      ensures (forall st :: !fails(st)) ==> ok
    {
      hide ValidNames, NamesGrew;
      receivers, ok := UpsertName(receivers, RECEIVER, g.receiver, log, fails);
      if ok {
        externalURLs, ok := UpsertName(externalURLs, EXTERNAL_URL, g.externalURL, log, fails);
      }
      if ok {
        groupKeys, ok := UpsertName(groupKeys, GROUP_KEY, g.groupKey, log, fails);
      }
    }

    predicate Named(g: AlertGroup)
      reads this
    {
      g.receiver in receivers && g.externalURL in externalURLs && g.groupKey in groupKeys
    }

    function RowOf(g: AlertGroup): GroupRow
      requires Named(g)
      reads this
    {
      GroupRow(g.status, receivers[g.receiver], externalURLs[g.externalURL], groupKeys[g.groupKey])
    }
  }

  /** None of the group's own maps holds two pairs with one cached id. */
  ghost predicate NoIdTwice(digest: string -> string, g: AlertGroup, labelCache: map<string, int>,
                            annotationCache: map<string, int>) {
    && IdsDiffer(digest, labelCache, g.groupLabels) && IdsDiffer(digest, labelCache, g.commonLabels)
    && IdsDiffer(digest, annotationCache, g.commonAnnotations)
  }

  lemma SaveClashes(digest: string -> string, g: AlertGroup, labelPairs: seq<KvPair>, annotationPairs: seq<KvPair>,
                    labelCache: map<string, int>, annotationCache: map<string, int>, labels: KvTable,
                    annotations: KvTable)
    requires ValidTable(digest, labels) && ValidTable(digest, annotations)
    requires Caches(labelCache, labels, Hashes(labelPairs))
    requires Caches(annotationCache, annotations, Hashes(annotationPairs))
    requires IsLockList(digest, LabelMaps(g), labelPairs) && IsLockList(digest, AnnotationMaps(g), annotationPairs)
    ensures AllHashesDiffer(digest, LabelMaps(g)) && AllHashesDiffer(digest, AnnotationMaps(g))
      <==> NoIdTwice(digest, g, labelCache, annotationCache)
           && AllIdsDiffer(digest, labelCache, LabelsOf(g.alerts))
           && AllIdsDiffer(digest, annotationCache, AnnotationsOf(g.alerts))
  {
    hide IsLockList, Caches, ValidTable, IdsDiffer, AllHashesDiffer, Hashes;
    var ls, ns := [g.groupLabels, g.commonLabels], [g.commonAnnotations];
    AllIdsAreHashes(digest, ls, LabelsOf(g.alerts), labelPairs, labelCache, labels);
    AllIdsAreHashes(digest, ns, AnnotationsOf(g.alerts), annotationPairs, annotationCache, annotations);
    assert AllIdsDiffer(digest, labelCache, ls) <==>
           IdsDiffer(digest, labelCache, ls[0]) && IdsDiffer(digest, labelCache, ls[1]);
    assert AllIdsDiffer(digest, annotationCache, ns) <==> IdsDiffer(digest, annotationCache, ns[0]);
  }

  /** The group table and its links: group row i has id i + 1. */
  class GroupTables {
    const digest: string -> string
    var groups: seq<GroupRow>
    var groupLabels: seq<Link>
    var commonLabels: seq<Link>
    var commonAnnotations: seq<Link>

    ghost predicate Valid()
      reads this
    {
      && OwnersUpTo(groupLabels, |groups|) && OwnersUpTo(commonLabels, |groups|)
      && OwnersUpTo(commonAnnotations, |groups|)
    }

    constructor (digest: string -> string)
      ensures Valid() && this.digest == digest && groups == []
    {
      this.digest, groups, groupLabels, commonLabels, commonAnnotations := digest, [], [], [], [];
    }

    method InsertGroup(row: GroupRow, g: AlertGroup, labelCache: map<string, int>,
                       annotationCache: map<string, int>, fails: Statement -> bool)
      returns (ok: bool)
      requires Valid()
      modifies this
      ensures ok ==> Valid() && groups == old(groups) + [row]
      ensures ok ==> Linked(digest, labelCache, groupLabels, |groups|, g.groupLabels)
      ensures ok ==> Linked(digest, labelCache, commonLabels, |groups|, g.commonLabels)
      ensures ok ==> Linked(digest, annotationCache, commonAnnotations, |groups|, g.commonAnnotations)
      ensures ok ==> (
          && |groupLabels| == |old(groupLabels)| + |g.groupLabels|
          && |commonLabels| == |old(commonLabels)| + |g.commonLabels|
          && |commonAnnotations| == |old(commonAnnotations)| + |g.commonAnnotations|)
      ensures ok ==> NoIdTwice(digest, g, labelCache, annotationCache)
      ensures ok ==> (
          && OnlyAdds(old(groupLabels), groupLabels, |groups|)
          && OnlyAdds(old(commonLabels), commonLabels, |groups|)
          && OnlyAdds(old(commonAnnotations), commonAnnotations, |groups|))
      ensures (forall st :: !fails(st)) ==> (ok <==> NoIdTwice(digest, g, labelCache, annotationCache))
    {
      hide OwnersUpTo, Linked, IdsDiffer, NoneFails, OnlyAdds;
      ok := false;
      if fails(Statement.InsertGroup) {
        return;
      }
      ghost var n := |groups|;
      NextOwnerIsUnlinked(groupLabels, n);
      NextOwnerIsUnlinked(commonLabels, n);
      NextOwnerIsUnlinked(commonAnnotations, n);
      ghost var gl, cl, ca := groupLabels, commonLabels, commonAnnotations;
      groups := groups + [row];
      var id := |groups|;
      groupLabels, ok := InsertLinks(digest, groupLabels, GROUP_LABEL, id, g.groupLabels, labelCache, fails);
      if !ok {
        return;
      }
      commonLabels, ok := InsertLinks(digest, commonLabels, COMMON_LABEL, id, g.commonLabels, labelCache, fails);
      if !ok {
        return;
      }
      commonAnnotations, ok := InsertLinks(digest, commonAnnotations, COMMON_ANNOTATION, id, g.commonAnnotations,
                                           annotationCache, fails);
      OwnersNext(gl, groupLabels, n);
      OwnersNext(cl, commonLabels, n);
      OwnersNext(ca, commonAnnotations, n);
    }
  }

  // ---- Whole saves, read back ----

  /** The contents of all tables at one moment. */
  datatype Tables = Tables(
    receivers: map<string, int>, externalURLs: map<string, int>, groupKeys: map<string, int>,
    labels: KvTable, labelNext: int, annotations: KvTable, annotationNext: int,
    groups: seq<GroupRow>, groupLabels: seq<Link>, commonLabels: seq<Link>, commonAnnotations: seq<Link>,
    alerts: seq<AlertRow>, alertLabels: seq<Link>, alertAnnotations: seq<Link>)

  /** A saved group as queries that join its row and links with the shared tables return it. */
  datatype SavedGroup = SavedGroup(
    status: string, receiver: set<string>, externalURL: set<string>, groupKey: set<string>,
    groupLabels: set<(string, string)>, commonLabels: set<(string, string)>, commonAnnotations: set<(string, string)>)

  datatype SavedAlert = SavedAlert(row: AlertRow, labels: set<(string, string)>, annotations: set<(string, string)>)

  /** The group with id i + 1. */
  function ReadGroup(t: Tables, i: nat): SavedGroup
    requires i < |t.groups|
  {
    var row := t.groups[i];
    SavedGroup(
      row.status, NamesOf(t.receivers, row.receiver), NamesOf(t.externalURLs, row.externalURL),
      NamesOf(t.groupKeys, row.key), ReadBack(t.groupLabels, i + 1, t.labels),
      ReadBack(t.commonLabels, i + 1, t.labels), ReadBack(t.commonAnnotations, i + 1, t.annotations))
  }

  /** The alert with id j + 1. */
  function ReadAlert(t: Tables, j: nat): SavedAlert
    requires j < |t.alerts|
  {
    SavedAlert(t.alerts[j], ReadBack(t.alertLabels, j + 1, t.labels),
               ReadBack(t.alertAnnotations, j + 1, t.annotations))
  }

  ghost predicate KvBelow(links: seq<Link>, next: int) {
    forall l :: l in links ==> l.kv < next
  }

  /** Rows refer to names that are there, and links to pairs that are there. */
  ghost predicate Known(t: Tables) {
    && (forall i :: 0 <= i < |t.groups| ==>
          && t.groups[i].receiver <= |t.receivers| && t.groups[i].externalURL <= |t.externalURLs|
          && t.groups[i].key <= |t.groupKeys|)
    && KvBelow(t.groupLabels, t.labelNext) && KvBelow(t.commonLabels, t.labelNext)
    && KvBelow(t.alertLabels, t.labelNext)
    && KvBelow(t.commonAnnotations, t.annotationNext) && KvBelow(t.alertAnnotations, t.annotationNext)
  }

  /** The tables only grew, as they do in a save. */
  ghost predicate Grown(t: Tables, u: Tables, labelPairs: seq<KvPair>, annotationPairs: seq<KvPair>) {
    && NamesGrew(t.receivers, u.receivers) && NamesGrew(t.externalURLs, u.externalURLs)
    && NamesGrew(t.groupKeys, u.groupKeys)
    && Grew(t.labels, u.labels, labelPairs) && NewIdsFrom(t.labels, u.labels, t.labelNext)
    && Grew(t.annotations, u.annotations, annotationPairs)
    && NewIdsFrom(t.annotations, u.annotations, t.annotationNext)
    && t.labelNext <= u.labelNext && t.annotationNext <= u.annotationNext
    && t.groups <= u.groups && t.alerts <= u.alerts
    && AddsAbove(t.groupLabels, u.groupLabels, |t.groups|) && AddsAbove(t.commonLabels, u.commonLabels, |t.groups|)
    && AddsAbove(t.commonAnnotations, u.commonAnnotations, |t.groups|)
    && AddsAbove(t.alertLabels, u.alertLabels, |t.alerts|)
    && AddsAbove(t.alertAnnotations, u.alertAnnotations, |t.alerts|)
  }

  /** A save disturbs no earlier one: every group and alert that was there reads back as before. */
  lemma EarlierSavesAreKept(t: Tables, u: Tables, labelPairs: seq<KvPair>, annotationPairs: seq<KvPair>)
    requires Known(t) && Grown(t, u, labelPairs, annotationPairs)
    ensures forall i :: 0 <= i < |t.groups| ==> ReadGroup(u, i) == ReadGroup(t, i)
    ensures forall j :: 0 <= j < |t.alerts| ==> ReadAlert(u, j) == ReadAlert(t, j)
  {
    hide NamesGrew, Grew, NewIdsFrom, AddsAbove, KvBelow, NamesOf, ReadBack;
    forall i | 0 <= i < |t.groups| ensures ReadGroup(u, i) == ReadGroup(t, i) {
      NamesKept(t.receivers, u.receivers, t.groups[i].receiver);
      NamesKept(t.externalURLs, u.externalURLs, t.groups[i].externalURL);
      NamesKept(t.groupKeys, u.groupKeys, t.groups[i].key);
      ReadBackKept(t.groupLabels, u.groupLabels, |t.groups|, i + 1, t.labels, u.labels, labelPairs, t.labelNext);
      ReadBackKept(t.commonLabels, u.commonLabels, |t.groups|, i + 1, t.labels, u.labels, labelPairs, t.labelNext);
      ReadBackKept(t.commonAnnotations, u.commonAnnotations, |t.groups|, i + 1, t.annotations, u.annotations,
                   annotationPairs, t.annotationNext);
    }
    forall j | 0 <= j < |t.alerts| ensures ReadAlert(u, j) == ReadAlert(t, j) {
      ReadBackKept(t.alertLabels, u.alertLabels, |t.alerts|, j + 1, t.labels, u.labels, labelPairs, t.labelNext);
      ReadBackKept(t.alertAnnotations, u.alertAnnotations, |t.alerts|, j + 1, t.annotations, u.annotations,
                   annotationPairs, t.annotationNext);
    }
  }

  /** What a row of the alert table must carry: every field, and the end unless it is before the start. */
  predicate Carries(row: AlertRow, group: int, a: Alert) {
    && row.group == group && row.status == a.status && row.startsAt == a.startsAt
    && row.generatorURL == a.generatorURL && row.fingerprint == a.fingerprint
    && (row.endsAt == if a.startsAt <= a.endsAt then Some(a.endsAt) else None)
  }

  lemma NamesKept(before: map<string, int>, after: map<string, int>, id: int)
    requires NamesGrew(before, after) && id <= |before|
    ensures NamesOf(after, id) == NamesOf(before, id)
  {
  }

  lemma OwnNameOnly(names: map<string, int>, name: string)
    requires ValidNames(names) && name in names
    ensures NamesOf(names, names[name]) == {name}
  {
  }

  /** Links of later owners and rows of later pairs do not change what an earlier owner reads back. */
  lemma ReadBackKept(before: seq<Link>, after: seq<Link>, base: int, owner: int, rows0: KvTable, rows1: KvTable,
                     pairs: seq<KvPair>, next: int)
    requires AddsAbove(before, after, base) && owner <= base
    requires Grew(rows0, rows1, pairs) && NewIdsFrom(rows0, rows1, next) && KvBelow(before, next)
    ensures ReadBack(after, owner, rows1) == ReadBack(before, owner, rows0)
  {
    forall id ensures Link(owner, id) in after <==> Link(owner, id) in before {
      assert forall l :: l in before ==> l in after;
    }
    forall p ensures p in ReadBack(after, owner, rows1) <==> p in ReadBack(before, owner, rows0) {
      if p in ReadBack(after, owner, rows1) {
        var h :| h in rows1 && Link(owner, rows1[h].id) in after && p == (rows1[h].key, rows1[h].value);
        assert h in rows0;
      }
      if p in ReadBack(before, owner, rows0) {
        var h :| h in rows0 && Link(owner, rows0[h].id) in before && p == (rows0[h].key, rows0[h].value);
        assert h in rows1;
      }
    }
  }

  /** The ids cached for a map's pairs are in the table. */
  lemma CachedIdsAreBelow(digest: string -> string, maps: seq<Labels>, i: nat, pairs: seq<KvPair>,
                          cache: map<string, int>, rows: KvTable, next: int, id: int)
    requires IsLockList(digest, maps, pairs) && Caches(cache, rows, Hashes(pairs)) && i < |maps|
    requires forall h :: h in rows ==> rows[h].id < next
    requires exists k :: k in maps[i] && id == KvIDFromCache(digest, cache, k, maps[i][k])
    ensures id < next
  {
    HashIsListed(digest, maps, pairs, i);
  }

  /** So are those of the links that were added for it. */
  lemma LinksStayBelow(digest: string -> string, maps: seq<Labels>, i: nat, pairs: seq<KvPair>,
                       cache: map<string, int>, rows: KvTable, next0: int, next: int,
                       before: seq<Link>, after: seq<Link>, owner: int)
    requires IsLockList(digest, maps, pairs) && Caches(cache, rows, Hashes(pairs)) && i < |maps|
    requires forall h :: h in rows ==> rows[h].id < next
    requires KvBelow(before, next0) && next0 <= next
    requires OnlyAdds(before, after, owner) && Linked(digest, cache, after, owner, maps[i])
    ensures KvBelow(after, next)
  {
    hide IsLockList, Caches, Hashes, KvIDFromCache;
    forall l | l in after ensures l.kv < next {
      if l !in before {
        assert Link(owner, l.kv) in after;
        CachedIdsAreBelow(digest, maps, i, pairs, cache, rows, next, l.kv);
      }
    }
  }

  lemma AlertLinksStayBelow(digest: string -> string, first: seq<Labels>, maps: seq<Labels>, pairs: seq<KvPair>,
                            cache: map<string, int>, rows: KvTable, next0: int, next: int,
                            before: seq<Link>, after: seq<Link>, base: nat)
    requires IsLockList(digest, first + maps, pairs) && Caches(cache, rows, Hashes(pairs))
    requires forall h :: h in rows ==> rows[h].id < next
    requires KvBelow(before, next0) && next0 <= next
    requires AddsAbove(before, after, base) && OwnersUpTo(after, base + |maps|)
    requires AllLinked(digest, cache, after, base, maps)
    ensures KvBelow(after, next)
  {
    hide IsLockList, Caches, Hashes, KvIDFromCache;
    forall l | l in after ensures l.kv < next {
      if l !in before {
        var j := l.owner - base - 1;
        assert 0 <= j < |maps| && Linked(digest, cache, after, base + 1 + j, maps[j]);
        assert (first + maps)[|first| + j] == maps[j];
        assert Link(base + 1 + j, l.kv) in after;
        CachedIdsAreBelow(digest, first + maps, |first| + j, pairs, cache, rows, next, l.kv);
      }
    }
  }

  /** The row of a group was made from the name tables. */
  ghost predicate MadeFrom(row: GroupRow, g: AlertGroup, t: Tables) {
    && g.receiver in t.receivers && g.externalURL in t.externalURLs && g.groupKey in t.groupKeys
    && row == GroupRow(g.status, t.receivers[g.receiver], t.externalURLs[g.externalURL], t.groupKeys[g.groupKey])
  }

  ghost predicate IdsBelow(rows: KvTable, next: int) {
    forall h :: h in rows ==> rows[h].id < next
  }

  /** The shared rows of a save are there, and nothing else has changed. */
  ghost predicate Resolved(digest: string -> string, g: AlertGroup, t: Tables, u: Tables, labelPairs: seq<KvPair>,
                           annotationPairs: seq<KvPair>, labelCache: map<string, int>,
                           annotationCache: map<string, int>) {
    && IsLockList(digest, LabelMaps(g), labelPairs) && IsLockList(digest, AnnotationMaps(g), annotationPairs)
    && NamesGrew(t.receivers, u.receivers) && NamesGrew(t.externalURLs, u.externalURLs)
    && NamesGrew(t.groupKeys, u.groupKeys)
    && ValidNames(u.receivers) && ValidNames(u.externalURLs) && ValidNames(u.groupKeys)
    && Grew(t.labels, u.labels, labelPairs) && NewIdsFrom(t.labels, u.labels, t.labelNext)
    && t.labelNext <= u.labelNext && IdsBelow(u.labels, u.labelNext) && ValidTable(digest, u.labels)
    && Caches(labelCache, u.labels, Hashes(labelPairs))
    && Grew(t.annotations, u.annotations, annotationPairs)
    && NewIdsFrom(t.annotations, u.annotations, t.annotationNext)
    && t.annotationNext <= u.annotationNext && IdsBelow(u.annotations, u.annotationNext)
    && ValidTable(digest, u.annotations) && Caches(annotationCache, u.annotations, Hashes(annotationPairs))
    && u == t.(receivers := u.receivers, externalURLs := u.externalURLs, groupKeys := u.groupKeys, labels := u.labels,
               labelNext := u.labelNext, annotations := u.annotations, annotationNext := u.annotationNext)
  }

  /** The own rows of a save are there, and the shared ones have not changed. */
  ghost predicate Inserted(digest: string -> string, g: AlertGroup, t: Tables, u: Tables,
                           labelCache: map<string, int>, annotationCache: map<string, int>) {
    var id := |u.groups|;
    && id == |t.groups| + 1 && t.groups <= u.groups && MadeFrom(u.groups[id - 1], g, u)
    && OnlyAdds(t.groupLabels, u.groupLabels, id) && Linked(digest, labelCache, u.groupLabels, id, g.groupLabels)
    && OnlyAdds(t.commonLabels, u.commonLabels, id) && Linked(digest, labelCache, u.commonLabels, id, g.commonLabels)
    && OnlyAdds(t.commonAnnotations, u.commonAnnotations, id)
    && Linked(digest, annotationCache, u.commonAnnotations, id, g.commonAnnotations)
    && NoIdTwice(digest, g, labelCache, annotationCache)
    && u.alerts == t.alerts + AlertRowsOf(id, g.alerts)
    && AddsAllLinks(digest, labelCache, t.alertLabels, u.alertLabels, |t.alerts|, LabelsOf(g.alerts))
    && AddsAllLinks(digest, annotationCache, t.alertAnnotations, u.alertAnnotations, |t.alerts|,
                    AnnotationsOf(g.alerts))
    && OwnersUpTo(u.alertLabels, |u.alerts|) && OwnersUpTo(u.alertAnnotations, |u.alerts|)
    && u == t.(groups := u.groups, groupLabels := u.groupLabels, commonLabels := u.commonLabels,
               commonAnnotations := u.commonAnnotations, alerts := u.alerts, alertLabels := u.alertLabels,
               alertAnnotations := u.alertAnnotations)
  }

  lemma SaveGrows(digest: string -> string, g: AlertGroup, t: Tables, m: Tables, u: Tables, labelPairs: seq<KvPair>,
                  annotationPairs: seq<KvPair>, labelCache: map<string, int>, annotationCache: map<string, int>)
    requires Resolved(digest, g, t, m, labelPairs, annotationPairs, labelCache, annotationCache)
    requires Inserted(digest, g, m, u, labelCache, annotationCache)
    ensures Grown(t, u, labelPairs, annotationPairs)
  {
    hide IsLockList, Caches, Linked, OnlyAdds, OwnersUpTo, NamesGrew, Grew, NewIdsFrom, AddsAllLinks, Hashes,
      ValidNames, ValidTable, IdsBelow, NoIdTwice, LabelMaps, AnnotationMaps, AlertRowsOf, MadeFrom, AddsAbove;
    AddsForNext(t.groupLabels, u.groupLabels, |t.groups|);
    AddsForNext(t.commonLabels, u.commonLabels, |t.groups|);
    AddsForNext(t.commonAnnotations, u.commonAnnotations, |t.groups|);
    AddsMeansDiffer(digest, labelCache, t.alertLabels, u.alertLabels, |t.alerts|, LabelsOf(g.alerts));
    AddsMeansDiffer(digest, annotationCache, t.alertAnnotations, u.alertAnnotations, |t.alerts|,
                    AnnotationsOf(g.alerts));
  }

  lemma RowsStayKnown(t: Tables, u: Tables, g: AlertGroup, labelPairs: seq<KvPair>, annotationPairs: seq<KvPair>)
    requires Known(t) && Grown(t, u, labelPairs, annotationPairs)
    requires |u.groups| == |t.groups| + 1 && MadeFrom(u.groups[|t.groups|], g, u)
    requires ValidNames(u.receivers) && ValidNames(u.externalURLs) && ValidNames(u.groupKeys)
    ensures forall i :: 0 <= i < |u.groups| ==>
      && u.groups[i].receiver <= |u.receivers| && u.groups[i].externalURL <= |u.externalURLs|
      && u.groups[i].key <= |u.groupKeys|
  {
    hide Grew, NewIdsFrom, AddsAbove, KvBelow;
    forall i | 0 <= i < |u.groups|
      ensures u.groups[i].receiver <= |u.receivers| && u.groups[i].externalURL <= |u.externalURLs|
      ensures u.groups[i].key <= |u.groupKeys|
    {
      if i < |t.groups| {
        assert u.groups[i] == t.groups[i];
      }
    }
  }

  /** After a save, too, rows and links refer only to what is there. */
  lemma KnownAfter(digest: string -> string, g: AlertGroup, t: Tables, m: Tables, u: Tables, labelPairs: seq<KvPair>,
                   annotationPairs: seq<KvPair>, labelCache: map<string, int>, annotationCache: map<string, int>)
    requires Known(t) && Resolved(digest, g, t, m, labelPairs, annotationPairs, labelCache, annotationCache)
    requires Inserted(digest, g, m, u, labelCache, annotationCache)
    ensures Known(u)
  {
    SaveGrows(digest, g, t, m, u, labelPairs, annotationPairs, labelCache, annotationCache);
    RowsStayKnown(t, u, g, labelPairs, annotationPairs);
    hide IsLockList, Caches, Linked, OnlyAdds, OwnersUpTo, NamesGrew, Grew, NewIdsFrom, AddsAllLinks, KvBelow,
      Hashes, ValidNames, ValidTable, MadeFrom, NoIdTwice, AlertRowsOf, AddsAbove, AllLinked, Grown;
    LinksStayBelow(digest, LabelMaps(g), 0, labelPairs, labelCache, u.labels, t.labelNext, u.labelNext, t.groupLabels,
                   u.groupLabels, |u.groups|);
    LinksStayBelow(digest, LabelMaps(g), 1, labelPairs, labelCache, u.labels, t.labelNext, u.labelNext, t.commonLabels,
                   u.commonLabels, |u.groups|);
    LinksStayBelow(digest, AnnotationMaps(g), 0, annotationPairs, annotationCache, u.annotations, t.annotationNext,
                   u.annotationNext, t.commonAnnotations, u.commonAnnotations, |u.groups|);
    AddsMeansDiffer(digest, labelCache, t.alertLabels, u.alertLabels, |t.alerts|, LabelsOf(g.alerts));
    AddsMeansDiffer(digest, annotationCache, t.alertAnnotations, u.alertAnnotations, |t.alerts|,
                    AnnotationsOf(g.alerts));
    AlertLinksStayBelow(digest, [g.groupLabels, g.commonLabels], LabelsOf(g.alerts), labelPairs, labelCache, u.labels,
                        t.labelNext, u.labelNext, t.alertLabels, u.alertLabels, |t.alerts|);
    AlertLinksStayBelow(digest, [g.commonAnnotations], AnnotationsOf(g.alerts), annotationPairs, annotationCache,
                        u.annotations, t.annotationNext, u.annotationNext, t.alertAnnotations, u.alertAnnotations,
                        |t.alerts|);
  }

  lemma PairsReadBackUnlessShared(digest: string -> string, g: AlertGroup, t: Tables, m: Tables, u: Tables,
                                  labelPairs: seq<KvPair>, annotationPairs: seq<KvPair>,
                                  labelCache: map<string, int>, annotationCache: map<string, int>)
    requires Resolved(digest, g, t, m, labelPairs, annotationPairs, labelCache, annotationCache)
    requires Inserted(digest, g, m, u, labelCache, annotationCache)
    ensures AllHashesDiffer(digest, LabelMaps(g)) && AllHashesDiffer(digest, AnnotationMaps(g))
    ensures LabelsReadBack(g, |u.groups|, u.groupLabels, u.commonLabels, u.alertLabels, |t.alerts|, u.labels)
      <==> NoneShared(digest, LabelMaps(g)) && NoneTaken(digest, t.labels, LabelMaps(g))
    ensures AnnotationsReadBack(g, |u.groups|, u.commonAnnotations, u.alertAnnotations, |t.alerts|, u.annotations)
      <==> NoneShared(digest, AnnotationMaps(g)) && NoneTaken(digest, t.annotations, AnnotationMaps(g))
  {
    hide IsLockList, Caches, Linked, OnlyAdds, OwnersUpTo, NamesGrew, Grew, NewIdsFrom, AddsAllLinks, Hashes,
      ValidNames, ValidTable, MadeFrom, NoIdTwice, AlertRowsOf, AddsAbove, AllLinked, LabelsReadBack,
      AnnotationsReadBack, NoneShared, NoneTaken, NoCollisions, AllHashesDiffer, LabelMaps, AnnotationMaps, IdsBelow,
      AllIdsDiffer;
    AddsMeansDiffer(digest, labelCache, t.alertLabels, u.alertLabels, |t.alerts|, LabelsOf(g.alerts));
    AddsMeansDiffer(digest, annotationCache, t.alertAnnotations, u.alertAnnotations, |t.alerts|,
                    AnnotationsOf(g.alerts));
    SaveClashes(digest, g, labelPairs, annotationPairs, labelCache, annotationCache, u.labels, u.annotations);
    LabelsReadBackUnlessHashesCollide(
      digest, g, |u.groups|, labelPairs, labelCache, t.labels, u.labels, u.groupLabels, u.commonLabels, u.alertLabels,
      |t.alerts|);
    AnnotationsReadBackUnlessHashesCollide(
      digest, g, |u.groups|, annotationPairs, annotationCache, t.annotations, u.annotations, u.commonAnnotations,
      u.alertAnnotations, |t.alerts|);
    CollisionsAreWithinOrAcross(digest, LabelMaps(g));
    CollisionsAreWithinOrAcross(digest, AnnotationMaps(g));
  }

  /** The names of a row that was just made from the tables are the group's own. */
  predicate NamedAs(saved: SavedGroup, g: AlertGroup) {
    && saved.status == g.status && saved.receiver == {g.receiver}
    && saved.externalURL == {g.externalURL} && saved.groupKey == {g.groupKey}
  }

  lemma ResolvedIsListed(digest: string -> string, g: AlertGroup, t: Tables, u: Tables, labelPairs: seq<KvPair>,
                         annotationPairs: seq<KvPair>, labelCache: map<string, int>, annotationCache: map<string, int>)
    requires Resolved(digest, g, t, u, labelPairs, annotationPairs, labelCache, annotationCache)
    ensures IsLockList(digest, LabelMaps(g), labelPairs) && IsLockList(digest, AnnotationMaps(g), annotationPairs)
  {
  }

  lemma ResolvedClashes(digest: string -> string, g: AlertGroup, t: Tables, u: Tables, labelPairs: seq<KvPair>,
                        annotationPairs: seq<KvPair>, labelCache: map<string, int>, annotationCache: map<string, int>)
    requires Resolved(digest, g, t, u, labelPairs, annotationPairs, labelCache, annotationCache)
    ensures AllHashesDiffer(digest, LabelMaps(g)) && AllHashesDiffer(digest, AnnotationMaps(g))
      <==> NoIdTwice(digest, g, labelCache, annotationCache)
           && AllIdsDiffer(digest, labelCache, LabelsOf(g.alerts))
           && AllIdsDiffer(digest, annotationCache, AnnotationsOf(g.alerts))
  {
    SaveClashes(digest, g, labelPairs, annotationPairs, labelCache, annotationCache, u.labels, u.annotations);
  }

  lemma NewGroupIsNamed(digest: string -> string, g: AlertGroup, t: Tables, m: Tables, u: Tables,
                        labelPairs: seq<KvPair>, annotationPairs: seq<KvPair>, labelCache: map<string, int>,
                        annotationCache: map<string, int>)
    requires Resolved(digest, g, t, m, labelPairs, annotationPairs, labelCache, annotationCache)
    requires Inserted(digest, g, m, u, labelCache, annotationCache)
    ensures |u.groups| == |t.groups| + 1 && NamedAs(ReadGroup(u, |t.groups|), g)
    ensures |u.alerts| == |t.alerts| + |g.alerts|
    ensures forall j :: 0 <= j < |g.alerts| ==> Carries(u.alerts[|t.alerts| + j], |u.groups|, g.alerts[j])
  {
    hide IsLockList, Caches, Linked, OnlyAdds, OwnersUpTo, NamesGrew, Grew, NewIdsFrom, AddsAllLinks, Hashes,
      ValidTable, NoIdTwice, AddsAbove, LabelMaps, AnnotationMaps, IdsBelow, ReadBack, ValidNames, NamesOf;
    OwnNameOnly(u.receivers, g.receiver);
    OwnNameOnly(u.externalURLs, g.externalURL);
    OwnNameOnly(u.groupKeys, g.groupKey);
    forall j | 0 <= j < |g.alerts| ensures Carries(u.alerts[|t.alerts| + j], |u.groups|, g.alerts[j]) {
      assert u.alerts[|t.alerts| + j] == AlertRowOf(|u.groups|, g.alerts[j]);
    }
  }

  /** Everything one transaction touches. */
  class Tx {
    const digest: string -> string
    const log: LockLog
    const names: NameTables
    const labels: Store
    const annotations: Store
    const groups: GroupTables
    const alerts: AlertTables

    ghost predicate Valid()
      reads this, names, labels, annotations, groups, alerts
    {
      && names.Valid() && labels.Valid() && annotations.Valid() && groups.Valid() && alerts.Valid()
      && labels != annotations && labels.rank == LABEL_KV && annotations.rank == ANNOTATION_KV
      && labels.digest == annotations.digest == groups.digest == alerts.digest == digest
      && names.log == labels.log == annotations.log == log
    }

    /** What the tables hold now. */
    function Now(): Tables
      reads this, names, labels, annotations, groups, alerts
    {
      Tables(
        names.receivers, names.externalURLs, names.groupKeys, labels.rows, labels.next, annotations.rows,
        annotations.next, groups.groups, groups.groupLabels, groups.commonLabels, groups.commonAnnotations,
        alerts.alerts, alerts.alertLabels, alerts.alertAnnotations)
    }

    constructor (digest: string -> string)
      ensures Valid() && Known(Now()) && this.digest == digest && log.taken == []
    {
      var l := new LockLog();
      this.digest, this.log := digest, l;
      names := new NameTables(l);
      labels := new Store(LABEL_KV, digest, l);
      annotations := new Store(ANNOTATION_KV, digest, l);
      groups := new GroupTables(digest);
      alerts := new AlertTables(digest);
    }

    /** The label and annotation rows, in lock order. */
    method ResolvePairs(g: AlertGroup, fails: Statement -> bool)
      returns (labelCache: Option<map<string, int>>, annotationCache: Option<map<string, int>>,
               ghost labelPairs: seq<KvPair>, ghost annotationPairs: seq<KvPair>)
      requires Valid()
      modifies labels`rows, labels`next, annotations`rows, annotations`next, log
      ensures Valid() && (labelCache.None? ==> annotationCache.None?)
      ensures annotationCache.Some? ==> (
          && IsLockList(digest, LabelMaps(g), labelPairs) && IsLockList(digest, AnnotationMaps(g), annotationPairs)
          && log.taken == old(log.taken) + LocksOf(LABEL_KV, Hashes(labelPairs))
            + LocksOf(ANNOTATION_KV, Hashes(annotationPairs))
          && Grew(old(labels.rows), labels.rows, labelPairs)
          && NewIdsFrom(old(labels.rows), labels.rows, old(labels.next)) && old(labels.next) <= labels.next
          && Caches(labelCache.value, labels.rows, Hashes(labelPairs))
          && Grew(old(annotations.rows), annotations.rows, annotationPairs)
          && NewIdsFrom(old(annotations.rows), annotations.rows, old(annotations.next))
          && old(annotations.next) <= annotations.next
          && Caches(annotationCache.value, annotations.rows, Hashes(annotationPairs)))
      ensures (forall st :: !fails(st)) ==> annotationCache.Some?
    {
      hide IsLockList, Caches, Grew, LabelMaps, AnnotationMaps, Store.Valid, LocksOf, Hashes, AlertTables.Valid,
        NameTables.Valid, GroupTables.Valid, NewIdsFrom;
      annotationCache, annotationPairs := None, [];
      labelCache, labelPairs := ResolveCache(labels, LabelMaps(g), fails);
      if labelCache.Some? {
        annotationCache, annotationPairs := ResolveCache(annotations, AnnotationMaps(g), fails);
      }
    }

    /** All rows that other saves may share, in lock order. */
    method ResolveAll(g: AlertGroup, fails: Statement -> bool)
      returns (labelCache: Option<map<string, int>>, annotationCache: Option<map<string, int>>,
               ghost labelPairs: seq<KvPair>, ghost annotationPairs: seq<KvPair>)
      requires Valid()
      modifies names, labels`rows, labels`next, annotations`rows, annotations`next, log
      ensures Valid() && (labelCache.None? ==> annotationCache.None?)
      ensures annotationCache.Some? ==> names.Named(g)
      ensures annotationCache.Some? ==>
        Resolved(digest, g, old(Now()), Now(), labelPairs, annotationPairs, labelCache.value, annotationCache.value)
      ensures annotationCache.Some? ==>
        log.taken == old(log.taken) + LockPlan(g, Hashes(labelPairs), Hashes(annotationPairs))
      ensures (forall st :: !fails(st)) ==> annotationCache.Some?
    {
      hide IsLockList, Caches, Grew, LabelMaps, AnnotationMaps, NameLocks, LocksOf, Hashes, AlertTables.Valid,
        GroupTables.Valid, NameTables.Named, NewIdsFrom, NamesGrew, ValidNames, ValidTable;
      labelCache, annotationCache, labelPairs, annotationPairs := None, None, [], [];
      var ok := names.ResolveNames(g, fails);
      if ok {
        labelCache, annotationCache, labelPairs, annotationPairs := ResolvePairs(g, fails);
      }
    }

    /** The group's own rows. */
    method InsertAll(g: AlertGroup, labelCache: map<string, int>, annotationCache: map<string, int>,
                     fails: Statement -> bool)
      returns (ok: bool)
      requires Valid() && names.Named(g)
      modifies groups, alerts
      ensures ok ==> Valid() && Inserted(digest, g, old(Now()), Now(), labelCache, annotationCache)
      ensures (forall st :: !fails(st)) ==> (
          ok <==> NoIdTwice(digest, g, labelCache, annotationCache)
                  && AllIdsDiffer(digest, labelCache, LabelsOf(g.alerts))
                  && AllIdsDiffer(digest, annotationCache, AnnotationsOf(g.alerts)))
    {
      hide OwnersUpTo, AddsAllLinks, AllIdsDiffer, NoIdTwice, Linked, OnlyAdds, NameTables.Valid, Store.Valid,
        AlertRowsOf;
      ok := groups.InsertGroup(names.RowOf(g), g, labelCache, annotationCache, fails);
      if ok {
        ghost var links0, notes0 := alerts.alertLabels, alerts.alertAnnotations;
        ok := alerts.InsertAlerts(|groups.groups|, g.alerts, labelCache, annotationCache, fails);
        if ok {
          AddsMeansDiffer(digest, labelCache, links0, alerts.alertLabels, |old(alerts.alerts)|, LabelsOf(g.alerts));
          AddsMeansDiffer(digest, annotationCache, notes0, alerts.alertAnnotations, |old(alerts.alerts)|,
                          AnnotationsOf(g.alerts));
        }
      }
    }

    /**
      One save. It takes its locks by the plan and stores the group and its alerts. Without another
      failing statement it succeeds exactly when no single map holds two pairs with one hash; then its
      labels and annotations read back as given exactly when no pairs of two maps, and no pair of an
      earlier save, share a hash either. After a failed statement the transaction is only good for a
      rollback.
     */
    method Save(g: AlertGroup, fails: Statement -> bool)
      returns (ok: bool, ghost labelPairs: seq<KvPair>, ghost annotationPairs: seq<KvPair>)
      requires Valid() && Known(Now())
      modifies names, labels, annotations, groups, alerts, log
      ensures ok ==> Valid() && Known(Now())
      ensures ok ==>
        IsLockList(digest, LabelMaps(g), labelPairs) && IsLockList(digest, AnnotationMaps(g), annotationPairs)
      ensures ok ==> log.taken == old(log.taken) + LockPlan(g, Hashes(labelPairs), Hashes(annotationPairs))
      ensures ok ==> AllHashesDiffer(digest, LabelMaps(g)) && AllHashesDiffer(digest, AnnotationMaps(g))
      ensures (forall st :: !fails(st)) ==> (
          ok <==> AllHashesDiffer(digest, LabelMaps(g)) && AllHashesDiffer(digest, AnnotationMaps(g)))
      ensures ok ==> |Now().groups| == |old(Now()).groups| + 1 && |Now().alerts| == |old(Now()).alerts| + |g.alerts|
      ensures ok ==> NamedAs(ReadGroup(Now(), |old(Now()).groups|), g)
      ensures ok ==> forall j :: 0 <= j < |g.alerts| ==>
        Carries(Now().alerts[|old(Now()).alerts| + j], |Now().groups|, g.alerts[j])
      ensures ok ==> (
          LabelsReadBack(g, |groups.groups|, groups.groupLabels, groups.commonLabels, alerts.alertLabels,
                         |old(alerts.alerts)|, labels.rows)
          <==> NoneShared(digest, LabelMaps(g)) && NoneTaken(digest, old(labels.rows), LabelMaps(g)))
      ensures ok ==> (
          AnnotationsReadBack(g, |groups.groups|, groups.commonAnnotations, alerts.alertAnnotations,
                              |old(alerts.alerts)|, annotations.rows)
          <==> NoneShared(digest, AnnotationMaps(g)) && NoneTaken(digest, old(annotations.rows), AnnotationMaps(g)))
      ensures ok ==> forall i :: 0 <= i < |old(Now()).groups| ==> ReadGroup(Now(), i) == ReadGroup(old(Now()), i)
      ensures ok ==> forall j :: 0 <= j < |old(Now()).alerts| ==> ReadAlert(Now(), j) == ReadAlert(old(Now()), j)
    {
      hide IsLockList, LabelsReadBack, AnnotationsReadBack, NoneTaken, LabelMaps, AnnotationMaps, LockPlan, Hashes,
        AllHashesDiffer, NoneShared, Known, Resolved, Inserted, ReadGroup, ReadAlert, Carries, NamedAs, NoIdTwice,
        AllIdsDiffer, Caches, ValidTable, Tx.Valid, NameTables.Named;
      var labelCache, annotationCache: Option<map<string, int>>;
      ghost var t := Now();
      labelCache, annotationCache, labelPairs, annotationPairs := ResolveAll(g, fails);
      if annotationCache.None? {
        return false, labelPairs, annotationPairs;
      }
      ghost var m := Now();
      ResolvedClashes(digest, g, t, m, labelPairs, annotationPairs, labelCache.value, annotationCache.value);
      ok := InsertAll(g, labelCache.value, annotationCache.value, fails);
      if ok {
        SaveGrows(digest, g, t, m, Now(), labelPairs, annotationPairs, labelCache.value, annotationCache.value);
        KnownAfter(digest, g, t, m, Now(), labelPairs, annotationPairs, labelCache.value, annotationCache.value);
        PairsReadBackUnlessShared(digest, g, t, m, Now(), labelPairs, annotationPairs, labelCache.value,
                                  annotationCache.value);
        NewGroupIsNamed(digest, g, t, m, Now(), labelPairs, annotationPairs, labelCache.value, annotationCache.value);
        EarlierSavesAreKept(t, Now(), labelPairs, annotationPairs);
        ResolvedIsListed(digest, g, t, m, labelPairs, annotationPairs, labelCache.value, annotationCache.value);
      }
    }
  }
}
