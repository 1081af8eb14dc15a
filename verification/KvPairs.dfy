/**
  The digest that identifies a label or annotation pair in the SQL schema, and the deduplicated, sorted
  list of pairs in which a transaction takes its row locks.
 */
module KvPairs {
  import opened Alerts
  import opened Sorting

  /** ASCII start-of-heading, between key and value in the digest's input. */
  const SOH: char := '\U{1}'

  function Preimage(k: string, v: string): string {
    k + [SOH] + v
  }

  /** `digest` stands for MD5 in hexadecimal. */
  function KvPairHash(digest: string -> string, k: string, v: string): string {
    digest(Preimage(k, v))
  }

  // ---- When two pairs share a digest input ----

  /** The second key runs past the first key's separator into its value. */
  ghost predicate RunsInto(k1: string, v1: string, k2: string, v2: string) {
    exists w: string :: k2 == k1 + [SOH] + w && v1 == w + [SOH] + v2
  }

  lemma LongerKeyRunsInto(k1: string, v1: string, k2: string, v2: string)
    requires Preimage(k1, v1) == Preimage(k2, v2) && |k1| < |k2|
    ensures RunsInto(k1, v1, k2, v2)
  {
    var p := Preimage(k1, v1);
    var w := k2[|k1| + 1..];
    assert k1 == p[..|k1|] == k2[..|k1|];
    assert k2[|k1|] == p[|k1|] == SOH;
    assert k2 == k1 + [SOH] + w;
    assert v1 == p[|k1| + 1..] == w + [SOH] + v2;
  }

  lemma RunningIntoClashes(k1: string, v1: string, k2: string, v2: string)
    requires RunsInto(k1, v1, k2, v2)
    ensures Preimage(k1, v1) == Preimage(k2, v2) && k1 != k2
  {
  }

  /** Different pairs have the same digest input exactly when one key runs into the other's value. */
  lemma PreimagesClash(k1: string, v1: string, k2: string, v2: string)
    ensures Preimage(k1, v1) == Preimage(k2, v2) && (k1, v1) != (k2, v2)
      <==> RunsInto(k1, v1, k2, v2) || RunsInto(k2, v2, k1, v1)
  {
    hide RunsInto;
    if Preimage(k1, v1) == Preimage(k2, v2) {
      if |k1| < |k2| {
        LongerKeyRunsInto(k1, v1, k2, v2);
      } else if |k2| < |k1| {
        LongerKeyRunsInto(k2, v2, k1, v1);
      } else {
        assert k1 == Preimage(k1, v1)[..|k1|] && k2 == Preimage(k2, v2)[..|k1|];
        assert v1 == Preimage(k1, v1)[|k1| + 1..] && v2 == Preimage(k2, v2)[|k1| + 1..];
      }
    }
    if RunsInto(k1, v1, k2, v2) {
      RunningIntoClashes(k1, v1, k2, v2);
    }
    if RunsInto(k2, v2, k1, v1) {
      RunningIntoClashes(k2, v2, k1, v1);
    }
  }

  /** Keys free of the separator, as label names are, never clash. */
  lemma PlainKeysNeverClash(k1: string, v1: string, k2: string, v2: string)
    requires SOH !in k1 && SOH !in k2
    ensures Preimage(k1, v1) == Preimage(k2, v2) <==> (k1, v1) == (k2, v2)
  {
    PreimagesClash(k1, v1, k2, v2);
  }

  // ---- The lock list ----

  datatype KvPair = KvPair(key: string, value: string, hash: string)

  const HASH_OF := (p: KvPair) => p.hash

  ghost predicate InMaps(maps: seq<Labels>, k: string, v: string) {
    exists i :: 0 <= i < |maps| && k in maps[i] && maps[i][k] == v
  }

  /** `pairs` stands for the pairs of `maps`: one pair for each hash, in strictly ascending order. */
  ghost predicate IsLockList(digest: string -> string, maps: seq<Labels>, pairs: seq<KvPair>) {
    && Ascending(pairs, HASH_OF)
    && (forall p :: p in pairs ==> p.hash == KvPairHash(digest, p.key, p.value) && InMaps(maps, p.key, p.value))
    && (forall k, v :: InMaps(maps, k, v) ==> HasHash(pairs, KvPairHash(digest, k, v)))
  }

  ghost predicate HasHash(pairs: seq<KvPair>, hash: string) {
    exists p :: p in pairs && p.hash == hash
  }

  /** No two different pairs of the maps have the same hash. */
  ghost predicate NoCollisions(digest: string -> string, maps: seq<Labels>) {
    forall k1, v1, k2, v2 ::
      InMaps(maps, k1, v1) && InMaps(maps, k2, v2) && KvPairHash(digest, k1, v1) == KvPairHash(digest, k2, v2)
      ==> k1 == k2 && v1 == v2
  }

  /** No two different pairs of one map have the same hash. */
  ghost predicate HashesDiffer(digest: string -> string, m: Labels) {
    forall k1, k2 :: k1 in m && k2 in m && KvPairHash(digest, k1, m[k1]) == KvPairHash(digest, k2, m[k2]) ==> k1 == k2
  }

  ghost predicate AllHashesDiffer(digest: string -> string, maps: seq<Labels>) {
    forall i :: 0 <= i < |maps| ==> HashesDiffer(digest, maps[i])
  }

  /** No pair of one map has the hash of a different pair of another. */
  ghost predicate NoneShared(digest: string -> string, maps: seq<Labels>) {
    forall i, j, k1, k2 :: 0 <= i < j < |maps| && k1 in maps[i] && k2 in maps[j]
      && KvPairHash(digest, k1, maps[i][k1]) == KvPairHash(digest, k2, maps[j][k2])
      ==> k1 == k2 && maps[i][k1] == maps[j][k2]
  }

  /** A collision is between two pairs of one map, or between pairs of two. */
  lemma CollisionsAreWithinOrAcross(digest: string -> string, maps: seq<Labels>)
    ensures NoCollisions(digest, maps) <==> AllHashesDiffer(digest, maps) && NoneShared(digest, maps)
  {
  }

  /** Deduplicates by hash in whatever order the maps yield, then sorts by hash. */
  method UniqueSortedKVPairs(digest: string -> string, maps: seq<Labels>) returns (pairs: seq<KvPair>)
    ensures IsLockList(digest, maps, pairs)
  {
    hide KvPairHash;
    var seen: set<string> := {};
    pairs := [];
    for i := 0 to |maps|
      invariant Collected(digest, pairs, seen)
      invariant forall p :: p in pairs ==> InMaps(maps, p.key, p.value)
      invariant forall j, k :: 0 <= j < i && k in maps[j] ==> KvPairHash(digest, k, maps[j][k]) in seen
    {
      var sofar := seen;
      pairs, seen := CollectMap(digest, maps[i], pairs, seen);
      assert sofar <= seen;
    }
    var sorted := SortBy(pairs, HASH_OF);
    SortedCollection(digest, maps, pairs, seen);
    pairs := sorted;
  }

  /** What the loops keep: one pair for each hash seen. */
  ghost predicate Collected(digest: string -> string, pairs: seq<KvPair>, seen: set<string>) {
    && DistinctKeys(pairs, HASH_OF)
    && (forall p :: p in pairs ==> p.hash == KvPairHash(digest, p.key, p.value) && p.hash in seen)
    && (forall h :: h in seen ==> HasHash(pairs, h))
  }

  lemma CollectNext(digest: string -> string, pairs: seq<KvPair>, seen: set<string>, k: string, v: string)
    requires Collected(digest, pairs, seen) && KvPairHash(digest, k, v) !in seen
    ensures var h := KvPairHash(digest, k, v); Collected(digest, pairs + [KvPair(k, v, h)], seen + {h})
  {
  }

  /** The inner loop, over one map. */
  method CollectMap(digest: string -> string, m: Labels, pairs0: seq<KvPair>, seen0: set<string>)
    returns (pairs: seq<KvPair>, seen: set<string>)
    requires Collected(digest, pairs0, seen0)
    ensures Collected(digest, pairs, seen) && seen0 <= seen
    ensures forall p :: p in pairs ==> p in pairs0 || (p.key in m && m[p.key] == p.value)
    ensures forall k :: k in m ==> KvPairHash(digest, k, m[k]) in seen
  {
    hide KvPairHash, Collected;
    pairs, seen := pairs0, seen0;
    var remaining := m.Keys;
    while remaining != {}
      invariant remaining <= m.Keys
      invariant Collected(digest, pairs, seen) && seen0 <= seen
      invariant forall p :: p in pairs ==> p in pairs0 || (p.key in m && m[p.key] == p.value)
      invariant forall k :: k in m && k !in remaining ==> KvPairHash(digest, k, m[k]) in seen
      decreases remaining
    {
      var k :| k in remaining;
      remaining := remaining - {k};
      var h := KvPairHash(digest, k, m[k]);
      if h in seen {
        continue;
      }
      CollectNext(digest, pairs, seen, k, m[k]);
      seen := seen + {h};
      pairs := pairs + [KvPair(k, m[k], h)];
    }
  }

  lemma SortedCollection(digest: string -> string, maps: seq<Labels>, pairs: seq<KvPair>, seen: set<string>)
    requires Collected(digest, pairs, seen)
    requires forall p :: p in pairs ==> InMaps(maps, p.key, p.value)
    requires forall j, k :: 0 <= j < |maps| && k in maps[j] ==> KvPairHash(digest, k, maps[j][k]) in seen
    ensures IsLockList(digest, maps, SortBy(pairs, HASH_OF))
  {
    hide KvPairHash;
    var sorted := SortBy(pairs, HASH_OF);
    SortAscends(pairs, HASH_OF);
    forall p ensures p in sorted <==> p in pairs {
      SortHasSameMembers(pairs, HASH_OF, p);
    }
    hide SortBy;
    forall k, v | InMaps(maps, k, v) ensures HasHash(sorted, KvPairHash(digest, k, v)) {
      assert HasHash(pairs, KvPairHash(digest, k, v));
      var p :| p in pairs && p.hash == KvPairHash(digest, k, v);
      assert p in sorted;
    }
  }

  // ---- Independence of iteration order ----

  function Hashes(pairs: seq<KvPair>): (hs: seq<string>)
    ensures |hs| == |pairs| && forall i :: 0 <= i < |pairs| ==> hs[i] == pairs[i].hash
  {
    seq(|pairs|, i requires 0 <= i < |pairs| => pairs[i].hash)
  }

  /** The hashes, and so the locks and their order, depend on nothing but the maps, collisions or not. */
  lemma LockOrderIsDetermined(digest: string -> string, maps: seq<Labels>, p1: seq<KvPair>, p2: seq<KvPair>)
    requires IsLockList(digest, maps, p1) && IsLockList(digest, maps, p2)
    ensures Hashes(p1) == Hashes(p2)
  {
    hide KvPairHash;
    HashesAreListed(digest, maps, p1);
    HashesAreListed(digest, maps, p2);
    AscendingIsUnique(Hashes(p1), Hashes(p2), ITSELF);
  }

  ghost predicate IsHashIn(digest: string -> string, maps: seq<Labels>, h: string) {
    exists k, v :: InMaps(maps, k, v) && KvPairHash(digest, k, v) == h
  }

  lemma HashesAreListed(digest: string -> string, maps: seq<Labels>, pairs: seq<KvPair>)
    requires IsLockList(digest, maps, pairs)
    ensures Ascending(Hashes(pairs), ITSELF)
    ensures forall h :: h in Hashes(pairs) <==> IsHashIn(digest, maps, h)
  {
  }

  /** Without collisions the whole list is determined, and it holds exactly the pairs of the maps. */
  lemma LockListIsDetermined(digest: string -> string, maps: seq<Labels>, p1: seq<KvPair>, p2: seq<KvPair>)
    requires IsLockList(digest, maps, p1) && IsLockList(digest, maps, p2) && NoCollisions(digest, maps)
    ensures p1 == p2
    ensures forall k, v :: InMaps(maps, k, v) <==> KvPair(k, v, KvPairHash(digest, k, v)) in p1
  {
    hide KvPairHash;
    LockOrderIsDetermined(digest, maps, p1, p2);
    forall i | 0 <= i < |p1| ensures p1[i] == p2[i] {
      assert Hashes(p1)[i] == Hashes(p2)[i];
      assert p1[i] in p1 && p2[i] in p2;
    }
    forall k, v ensures InMaps(maps, k, v) <==> KvPair(k, v, KvPairHash(digest, k, v)) in p1 {
      if InMaps(maps, k, v) {
        var p :| p in p1 && p.hash == KvPairHash(digest, k, v);
        assert p == KvPair(k, v, KvPairHash(digest, k, v));
      }
    }
  }
}
