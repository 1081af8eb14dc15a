/**
  The tables of label and annotation pairs, the cache of their ids that one transaction resolves up
  front, and when a cached id is the id of the very pair that is looked up.
 */
module KvStore {
  import opened Basics
  import opened Alerts
  import opened KvPairs
  import opened Locks

  datatype KvRow = KvRow(id: int, key: string, value: string)

  /** A pair table, by its unique index on the hash. */
  type KvTable = map<string, KvRow>

  /** Rows sit under their own hash, and ids are positive and different. */
  ghost predicate ValidTable(digest: string -> string, rows: KvTable) {
    && (forall h :: h in rows ==> rows[h].id > 0 && KvPairHash(digest, rows[h].key, rows[h].value) == h)
    && (forall h1, h2 :: h1 in rows && h2 in rows && rows[h1].id == rows[h2].id ==> h1 == h2)
  }

  /** The statements of a save that can fail. */
  datatype Statement =
    | LockRow(lock: Lock)
    | InsertGroup
    | InsertAlert(i: nat)
    | InsertLink(table: nat, owner: int, id: int)

  /** The row locks taken by a transaction, in order. */
  class LockLog {
    ghost var taken: seq<Lock>

    constructor ()
      ensures taken == []
    {
      taken := [];
    }
  }

  /** The row under `h` was found, or inserted for the pair with an id that was not given out before. */
  ghost predicate Upserted(before: KvTable, after: KvTable, next0: int, next1: int, h: string, k: string, v: string) {
    && h in after && after == before[h := after[h]] && next0 <= next1
    && if h in before then after[h] == before[h]
       else after[h].key == k && after[h].value == v && after[h].id >= next0
  }

  /** One pair table as a transaction sees it. `rank` is its place in the lock order. */
  class Store {
    const rank: nat
    const digest: string -> string
    const log: LockLog
    var rows: KvTable
    var next: int

    ghost predicate Valid()
      reads this
    {
      ValidTable(digest, rows) && next > 0 && forall h :: h in rows ==> rows[h].id < next
    }

    constructor (rank: nat, digest: string -> string, log: LockLog)
      ensures Valid() && this.rank == rank && this.digest == digest && this.log == log && rows == map[]
    {
      this.rank, this.digest, this.log, rows, next := rank, digest, log, map[], 1;
    }

    /** Inserts the pair, or finds the row that already has its hash; either way the row is locked. */
    method Upsert(k: string, v: string, fails: Statement -> bool) returns (id: Option<int>)
      requires Valid()
      modifies this`rows, this`next, log
      ensures Valid()
      ensures var lock := Lock(rank, KvPairHash(digest, k, v));
        id.Some? <==> !fails(LockRow(lock))
      ensures id.None? ==> rows == old(rows) && next == old(next) && log.taken == old(log.taken)
      ensures id.Some? ==> (
          var h := KvPairHash(digest, k, v);
          && log.taken == old(log.taken) + [Lock(rank, h)]
          && Upserted(old(rows), rows, old(next), next, h, k, v) && id.value == rows[h].id)
    {
      var h := KvPairHash(digest, k, v);
      if fails(LockRow(Lock(rank, h))) {
        return None;
      }
      log.taken := log.taken + [Lock(rank, h)];
      if h !in rows {
        rows := rows[h := KvRow(next, k, v)];
        next := next + 1;
      }
      assert old(rows)[h := rows[h]] == rows;
      return Some(rows[h].id);
    }
  }

  function LocksOf(rank: nat, hashes: seq<string>): (ls: seq<Lock>)
    ensures |ls| == |hashes| && forall i :: 0 <= i < |ls| ==> ls[i] == Lock(rank, hashes[i])
  {
    seq(|hashes|, i requires 0 <= i < |hashes| => Lock(rank, hashes[i]))
  }

  /** Every row that was there is still there; every new one stores a pair of the list. */
  ghost predicate Grew(before: KvTable, after: KvTable, pairs: seq<KvPair>) {
    && (forall h :: h in before ==> h in after && after[h] == before[h])
    && (forall h :: h in after && h !in before ==> KvPair(after[h].key, after[h].value, h) in pairs)
  }

  /** New rows have ids that were not given out before. */
  ghost predicate NewIdsFrom(before: KvTable, after: KvTable, next: int) {
    forall h :: h in after && h !in before ==> after[h].id >= next
  }

  /** The cache knows the id of the row of each hash in the list. */
  ghost predicate Caches(cache: map<string, int>, rows: KvTable, hashes: seq<string>) {
    && (forall h :: h in cache <==> h in hashes)
    && (forall h :: h in cache ==> h in rows && cache[h] == rows[h].id)
  }

  /** Resolves all pairs of the maps, locking their rows in hash order. */
  method ResolveCache(store: Store, maps: seq<Labels>, fails: Statement -> bool)
    returns (cache: Option<map<string, int>>, ghost pairs: seq<KvPair>)
    requires store.Valid()
    modifies store`rows, store`next, store.log
    ensures store.Valid() && IsLockList(store.digest, maps, pairs)
    ensures Grew(old(store.rows), store.rows, pairs)
    ensures NewIdsFrom(old(store.rows), store.rows, old(store.next)) && old(store.next) <= store.next
    ensures cache.Some? <==> forall p :: p in pairs ==> !fails(LockRow(Lock(store.rank, p.hash)))
    ensures cache.Some? ==> store.log.taken == old(store.log.taken) + LocksOf(store.rank, Hashes(pairs))
    ensures store.log.taken <= old(store.log.taken) + LocksOf(store.rank, Hashes(pairs))
    ensures cache.Some? ==> Caches(cache.value, store.rows, Hashes(pairs))
  {
    hide KvPairHash, IsLockList, Grew, Caches, ValidTable, Hashes, LocksOf, NewIdsFrom, Upserted;
    var list := UniqueSortedKVPairs(store.digest, maps);
    pairs := list;
    ghost var locks := LocksOf(store.rank, Hashes(list));
    var ids: map<string, int> := map[];
    assert locks[..0] == [] && old(store.log.taken) + [] == old(store.log.taken);
    NothingResolved(store.rows, list);
    for i := 0 to |list|
      invariant store.Valid() && Grew(old(store.rows), store.rows, list)
      invariant NewIdsFrom(old(store.rows), store.rows, old(store.next)) && old(store.next) <= store.next
      invariant forall j :: 0 <= j < i ==> !fails(LockRow(Lock(store.rank, list[j].hash)))
      invariant store.log.taken == old(store.log.taken) + locks[..i]
      invariant Caches(ids, store.rows, Hashes(list)[..i])
    {
      HashOfListed(store.digest, maps, list, i);
      ghost var rows0, next0 := store.rows, store.next;
      var id := store.Upsert(list[i].key, list[i].value, fails);
      if id.None? {
        assert list[i] in list;
        return None, list;
      }
      ResolvedNext(old(store.rows), rows0, store.rows, old(store.next), next0, store.next, list, i, ids);
      ids := ids[list[i].hash := id.value];
      assert locks[..i + 1] == locks[..i] + [locks[i]];
    }
    assert locks[..|list|] == locks && Hashes(list)[..|list|] == Hashes(list);
    return Some(ids), list;
  }

  lemma HashOfListed(digest: string -> string, maps: seq<Labels>, list: seq<KvPair>, i: nat)
    requires IsLockList(digest, maps, list) && i < |list|
    ensures list[i].hash == KvPairHash(digest, list[i].key, list[i].value)
  {
  }

  lemma NothingResolved(rows: KvTable, list: seq<KvPair>)
    ensures Grew(rows, rows, list) && Caches(map[], rows, Hashes(list)[..0])
    ensures forall next :: NewIdsFrom(rows, rows, next)
  {
  }

  lemma ResolvedNext(before: KvTable, rows0: KvTable, rows1: KvTable, next: int, next0: int, next1: int,
                     list: seq<KvPair>, i: nat, cache: map<string, int>)
    requires i < |list| && Grew(before, rows0, list) && Caches(cache, rows0, Hashes(list)[..i])
    requires NewIdsFrom(before, rows0, next) && next <= next0
    requires Upserted(rows0, rows1, next0, next1, list[i].hash, list[i].key, list[i].value)
    ensures Grew(before, rows1, list) && NewIdsFrom(before, rows1, next) && next <= next1
    ensures list[i].hash in rows1
    ensures Caches(cache[list[i].hash := rows1[list[i].hash].id], rows1, Hashes(list)[..i + 1])
  {
    assert Hashes(list)[..i + 1] == Hashes(list)[..i] + [list[i].hash];
    assert list[i] in list;
  }

  /** Go's zero value stands for a missing entry. */
  function KvIDFromCache(digest: string -> string, cache: map<string, int>, k: string, v: string): int {
    var h := KvPairHash(digest, k, v);
    if h in cache then cache[h] else 0
  }

  /** Every lookup of a pair that was resolved hits: never the zero default. */
  lemma LookupsHit(digest: string -> string, maps: seq<Labels>, pairs: seq<KvPair>, cache: map<string, int>,
                   rows: KvTable, k: string, v: string)
    requires IsLockList(digest, maps, pairs) && Caches(cache, rows, Hashes(pairs)) && ValidTable(digest, rows)
    requires InMaps(maps, k, v)
    ensures var h := KvPairHash(digest, k, v);
      h in rows && KvIDFromCache(digest, cache, k, v) == rows[h].id && rows[h].id > 0
  {
  }

  /** The row under the pair's hash stores the pair itself. */
  ghost predicate Stores(digest: string -> string, rows: KvTable, k: string, v: string) {
    var h := KvPairHash(digest, k, v);
    h in rows && rows[h].key == k && rows[h].value == v
  }

  /** No pair of the maps has the hash of a different pair already in the table. */
  ghost predicate NoneTaken(digest: string -> string, before: KvTable, maps: seq<Labels>) {
    forall k, v :: InMaps(maps, k, v) && KvPairHash(digest, k, v) in before ==> Stores(digest, before, k, v)
  }

  /**
    After resolution every looked-up id is the id of that same pair, if and only if no two pairs of the
    save collide and none collides with a pair saved before.
   */
  lemma LookupsAreRightUnlessHashesCollide(digest: string -> string, maps: seq<Labels>, pairs: seq<KvPair>,
                                           before: KvTable, rows: KvTable)
    requires IsLockList(digest, maps, pairs) && Grew(before, rows, pairs) && ValidTable(digest, rows)
    requires forall h :: h in Hashes(pairs) ==> h in rows
    ensures (forall k, v :: InMaps(maps, k, v) ==> Stores(digest, rows, k, v))
      <==> NoCollisions(digest, maps) && NoneTaken(digest, before, maps)
  {
  }

  /**
    With the separator inside a key, two different pairs share a row: no table can store both, and the
    links of a map that holds both clash.
   */
  lemma PairsCanShareARow(digest: string -> string, rows: KvTable)
    ensures KvPairHash(digest, "a", ['b', SOH, 'c']) == KvPairHash(digest, ['a', SOH, 'b'], "c")
    ensures !(Stores(digest, rows, "a", ['b', SOH, 'c']) && Stores(digest, rows, ['a', SOH, 'b'], "c"))
    ensures !HashesDiffer(digest, map["a" := ['b', SOH, 'c'], ['a', SOH, 'b'] := "c"])
  {
    assert "a" + [SOH] + ['b', SOH, 'c'] == ['a', SOH, 'b'] + [SOH] + "c";
    var k1, k2 := "a", ['a', SOH, 'b'];
    var m := map[k1 := ['b', SOH, 'c'], k2 := "c"];
    assert |k1| != |k2|;
    assert KvPairHash(digest, k1, m[k1]) == KvPairHash(digest, k2, m[k2]);
  }
}
