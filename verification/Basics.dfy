/** Shared vocabulary: optional values, results, bytes and machine words. */
module Basics {

  datatype Option<+T> = None | Some(value: T)

  datatype Result<+T, +E> = Ok(value: T) | Err(error: E)

  type byte = x: int | 0 <= x < 256

  const TWO_TO_64: int := 0x1_0000_0000_0000_0000

  /** Go's uint64, the type of every write-ahead-log sequence number. */
  type u64 = x: int | 0 <= x < TWO_TO_64

  /** `x++` on a uint64. */
  function Inc(x: u64): u64 {
    if x + 1 == TWO_TO_64 then 0 else x + 1
  }

  /** `x--` on a uint64. */
  function Dec(x: u64): u64 {
    if x == 0 then TWO_TO_64 - 1 else x - 1
  }

  function Max(a: int, b: int): int {
    if a < b then b else a
  }

  lemma FirstIsMember<T>(s: seq<T>)
    ensures s == [] || s[0] in s
  {
  }

  /** `order` lists every member of `names` once: the order in which a map was iterated. */
  ghost predicate IteratesOver<T(!new)>(order: seq<T>, names: set<T>) {
    && (forall i, j :: 0 <= i < j < |order| ==> order[i] != order[j])
    && (forall x :: x in order <==> x in names)
  }

  lemma IterateNext<T(!new)>(order: seq<T>, x: T, names: set<T>)
    requires IteratesOver(order, names) && x !in names
    ensures IteratesOver(order + [x], names + {x})
  {
  }

  /** `part` has exactly the wanted members of `s`, in their order: member j of it is number `at[j]` of `s`. */
  ghost predicate IsPartAt<T(!new)>(s: seq<T>, wanted: T -> bool, part: seq<T>, at: seq<int>) {
    && |at| == |part|
    && (forall i, j :: 0 <= i < j < |at| ==> at[i] < at[j])
    && (forall j :: 0 <= j < |at| ==> 0 <= at[j] < |s| && part[j] == s[at[j]])
    && (forall i :: 0 <= i < |s| && wanted(s[i]) ==> i in at)
    && (forall x :: x in part ==> wanted(x))
  }

  ghost predicate IsPart<T(!new)>(s: seq<T>, wanted: T -> bool, part: seq<T>) {
    exists at :: IsPartAt(s, wanted, part, at)
  }

  lemma NoPart<T(!new)>(wanted: T -> bool)
    ensures IsPart([], wanted, [])
  {
    assert IsPartAt([], wanted, [], []);
  }

  lemma PartNext<T(!new)>(s: seq<T>, wanted: T -> bool, part: seq<T>, x: T)
    requires IsPart(s, wanted, part)
    ensures IsPart(s + [x], wanted, part + if wanted(x) then [x] else [])
  {
    var at :| IsPartAt(s, wanted, part, at);
    if wanted(x) {
      PartGains(s, wanted, part, at, x);
    } else {
      assert IsPartAt(s + [x], wanted, part + [], at);
    }
  }

  lemma PartGains<T(!new)>(s: seq<T>, wanted: T -> bool, part: seq<T>, at: seq<int>, x: T)
    requires IsPartAt(s, wanted, part, at) && wanted(x)
    ensures IsPartAt(s + [x], wanted, part + [x], at + [|s|])
  {
    var next := at + [|s|];
    forall i | 0 <= i < |s + [x]| && wanted((s + [x])[i]) ensures i in next {
      assert next[|at|] == |s|;
      assert i < |s| ==> i in at;
    }
  }

  lemma PartMembers<T(!new)>(s: seq<T>, wanted: T -> bool, part: seq<T>)
    requires IsPart(s, wanted, part)
    ensures forall x :: x in part <==> x in s && wanted(x)
  {
    var at :| IsPartAt(s, wanted, part, at);
    forall x | x in s && wanted(x) ensures x in part {
      var i :| 0 <= i < |s| && s[i] == x;
      var j :| 0 <= j < |at| && at[j] == i;
      assert part[j] == x;
    }
  }

  function Concat<T>(parts: seq<seq<T>>): seq<T> {
    if parts == [] then [] else Concat(parts[..|parts| - 1]) + parts[|parts| - 1]
  }

  lemma ConcatSnoc<T>(groups: seq<seq<T>>, g: seq<T>)
    ensures Concat(groups + [g]) == Concat(groups) + g
  {
  }

  lemma ConcatNext<T>(parts: seq<seq<T>>, i: nat)
    requires i < |parts|
    ensures Concat(parts[..i + 1]) == Concat(parts[..i]) + parts[i]
    ensures forall j :: 0 <= j < |parts[i]| ==> parts[i][j] in Concat(parts)
    decreases |parts|
  {
    assert parts[..i + 1][..i] == parts[..i];
    if i < |parts| - 1 {
      var front := parts[..|parts| - 1];
      ConcatNext(front, i);
      assert front[..i + 1] == parts[..i + 1] && front[..i] == parts[..i];
    }
  }
}
