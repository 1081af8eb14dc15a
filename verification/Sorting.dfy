/** Go's string order and sorting by a string key. */
module Sorting {
  import opened Basics

  /** Byte-wise order of UTF-8 strings, which is the lexicographic order of their characters. */
  predicate Less(a: string, b: string) {
    b != [] && (a == [] || a[0] < b[0] || (a[0] == b[0] && Less(a[1..], b[1..])))
  }

  lemma {:induction false} LessIsTotal(a: string, b: string)
    ensures (a == b && !Less(a, b) && !Less(b, a)) || (a != b && Less(a, b) != Less(b, a))
  {
    if a != [] && b != [] && a[0] == b[0] {
      LessIsTotal(a[1..], b[1..]);
      assert a == [a[0]] + a[1..] && b == [b[0]] + b[1..];
    }
  }

  lemma {:induction false} LessIsTransitive(a: string, b: string, c: string)
    requires Less(a, b) && Less(b, c)
    ensures Less(a, c)
  {
    if a != [] && a[0] == b[0] == c[0] {
      LessIsTransitive(a[1..], b[1..], c[1..]);
    }
  }

  /** The key that sorts strings by themselves. */
  const ITSELF := (s: string) => s

  /** Strictly ascending by key. */
  ghost predicate Ascending<T(!new)>(s: seq<T>, key: T -> string) {
    forall i, j :: 0 <= i < j < |s| ==> Less(key(s[i]), key(s[j]))
  }

  ghost predicate DistinctKeys<T(!new)>(s: seq<T>, key: T -> string) {
    forall i, j :: 0 <= i < j < |s| ==> key(s[i]) != key(s[j])
  }

  function InsertBy<T>(s: seq<T>, x: T, key: T -> string): seq<T> {
    if s == [] || !Less(key(x), key(s[|s| - 1])) then s + [x]
    else InsertBy(s[..|s| - 1], x, key) + [s[|s| - 1]]
  }

  /** `slices.SortFunc` by key. */
  function SortBy<T>(s: seq<T>, key: T -> string): seq<T> {
    if s == [] then [] else InsertBy(SortBy(s[..|s| - 1], key), s[|s| - 1], key)
  }

  lemma {:induction false} InsertPermutes<T>(s: seq<T>, x: T, key: T -> string)
    ensures multiset(InsertBy(s, x, key)) == multiset(s) + multiset{x}
  {
    if s != [] && Less(key(x), key(s[|s| - 1])) {
      InsertPermutes(s[..|s| - 1], x, key);
      assert s == s[..|s| - 1] + [s[|s| - 1]];
    }
  }

  lemma {:induction false} SortPermutes<T>(s: seq<T>, key: T -> string)
    ensures multiset(SortBy(s, key)) == multiset(s)
  {
    if s != [] {
      SortPermutes(s[..|s| - 1], key);
      InsertPermutes(SortBy(s[..|s| - 1], key), s[|s| - 1], key);
      assert s == s[..|s| - 1] + [s[|s| - 1]];
    }
  }

  lemma SortHasSameMembers<T>(s: seq<T>, key: T -> string, x: T)
    ensures x in SortBy(s, key) <==> x in s
  {
    SortPermutes(s, key);
    assert x in multiset(SortBy(s, key)) <==> x in multiset(s);
  }

  lemma InsertHasMembers<T>(s: seq<T>, x: T, key: T -> string, y: T)
    ensures y in InsertBy(s, x, key) <==> y in s || y == x
  {
  }

  lemma AscendingSnoc<T(!new)>(s: seq<T>, x: T, key: T -> string)
    requires Ascending(s, key) && forall y :: y in s ==> Less(key(y), key(x))
    ensures Ascending(s + [x], key)
  {
  }

  lemma AscendingFront<T(!new)>(s: seq<T>, key: T -> string)
    requires Ascending(s, key) && s != []
    ensures Ascending(s[..|s| - 1], key)
    ensures forall y :: y in s[..|s| - 1] ==> Less(key(y), key(s[|s| - 1]))
  {
  }

  lemma {:induction false} InsertAscends<T(!new)>(s: seq<T>, x: T, key: T -> string)
    requires Ascending(s, key) && forall y :: y in s ==> key(y) != key(x)
    ensures Ascending(InsertBy(s, x, key), key)
  {
    if s == [] {
    } else {
      var front, last := s[..|s| - 1], s[|s| - 1];
      AscendingFront(s, key);
      LessIsTotal(key(x), key(last));
      if Less(key(x), key(last)) {
        InsertAscends(front, x, key);
        forall y | y in InsertBy(front, x, key) ensures Less(key(y), key(last)) {
          InsertHasMembers(front, x, key, y);
        }
        AscendingSnoc(InsertBy(front, x, key), last, key);
      } else {
        forall y | y in s ensures Less(key(y), key(x)) {
          if y in front {
            LessIsTransitive(key(y), key(last), key(x));
          }
        }
        AscendingSnoc(s, x, key);
      }
    }
  }

  lemma {:induction false} SortAscends<T(!new)>(s: seq<T>, key: T -> string)
    requires DistinctKeys(s, key)
    ensures Ascending(SortBy(s, key), key)
  {
    if s != [] {
      var front, last := s[..|s| - 1], s[|s| - 1];
      SortAscends(front, key);
      forall y | y in SortBy(front, key) ensures key(y) != key(last) {
        SortHasSameMembers(front, key, y);
      }
      InsertAscends(SortBy(front, key), last, key);
    }
  }

  /** An ascending sequence is determined by its members. */
  lemma {:induction false} AscendingIsUnique<T(!new)>(s: seq<T>, t: seq<T>, key: T -> string)
    requires Ascending(s, key) && Ascending(t, key)
    requires forall x :: x in s <==> x in t
    ensures s == t
    decreases |s|
  {
    if s == [] || t == [] {
      FirstIsMember(s);
      FirstIsMember(t);
    } else {
      var a, b := s[|s| - 1], t[|t| - 1];
      hide Ascending;
      AscendingFront(s, key);
      AscendingFront(t, key);
      LastIsGreatest(s, t, key);
      FrontIsTheRest(s, key);
      FrontIsTheRest(t, key);
      var f, g := s[..|s| - 1], t[..|t| - 1];
      forall x ensures x in f <==> x in g {
        assert x in f <==> x in s && x != a;
        assert x in g <==> x in t && x != b;
      }
      AscendingIsUnique(f, g, key);
      assert s == f + [a] && t == g + [b];
    }
  }

  lemma FrontIsTheRest<T(!new)>(s: seq<T>, key: T -> string)
    requires Ascending(s, key) && s != []
    ensures forall x :: x in s[..|s| - 1] <==> x in s && x != s[|s| - 1]
  {
    AscendingFront(s, key);
    var front, last := s[..|s| - 1], s[|s| - 1];
    hide Ascending;
    LessIsTotal(key(last), key(last));
    assert s == front + [last];
  }

  lemma LastIsGreatest<T(!new)>(s: seq<T>, t: seq<T>, key: T -> string)
    requires s != [] && t != [] && Ascending(s, key) && Ascending(t, key)
    requires forall x :: x in s <==> x in t
    ensures s[|s| - 1] == t[|t| - 1]
  {
    var a, b := s[|s| - 1], t[|t| - 1];
    AscendingFront(s, key);
    AscendingFront(t, key);
    assert a in t && b in s;
    if a != b {
      assert a in t[..|t| - 1] && b in s[..|s| - 1];
      LessIsTotal(key(a), key(b));
    }
  }
}
