/**
  The string identity of a label set, used to merge entries of one stream. Equal keys mean equal label
  sets and the reverse, for every value and every map iteration order.
 */
module StreamKeys {
  import opened Basics
  import opened Alerts
  import opened Sorting
  import opened Quoting

  // ---- Label names ----

  predicate NameStart(c: char) {
    'a' <= c <= 'z' || 'A' <= c <= 'Z' || c == '_'
  }

  predicate NameChar(c: char) {
    NameStart(c) || '0' <= c <= '9'
  }

  /** The label-name grammar of Prometheus and Loki. */
  predicate ValidName(name: string) {
    name != [] && NameStart(name[0]) && forall i :: 0 <= i < |name| ==> NameChar(name[i])
  }

  predicate ValidNames(labels: Labels) {
    forall k :: k in labels ==> ValidName(k)
  }

  // ---- The sorted listing of a map ----

  /** `keys` lists the names of the map in strictly ascending order. */
  ghost predicate Lists(keys: seq<string>, names: set<string>) {
    Ascending(keys, ITSELF) && forall k :: k in keys <==> k in names
  }

  lemma ListingIsUnique(keys1: seq<string>, keys2: seq<string>, names: set<string>)
    requires Lists(keys1, names) && Lists(keys2, names)
    ensures keys1 == keys2
  {
    AscendingIsUnique(keys1, keys2, ITSELF);
  }

  lemma SortedIsListing(keys: seq<string>, names: set<string>)
    requires forall k :: k in keys <==> k in names
    requires forall i, j :: 0 <= i < j < |keys| ==> keys[i] != keys[j]
    ensures Lists(SortBy(keys, ITSELF), names)
  {
    SortAscends(keys, ITSELF);
    forall k ensures k in SortBy(keys, ITSELF) <==> k in names {
      SortHasSameMembers(keys, ITSELF, k);
    }
  }

  lemma {:induction false} ListingExists(names: set<string>) returns (keys: seq<string>)
    ensures forall k :: k in keys <==> k in names
    ensures forall i, j :: 0 <= i < j < |keys| ==> keys[i] != keys[j]
  {
    if names == {} {
      keys := [];
    } else {
      var k :| k in names;
      keys := ListingExists(names - {k});
      keys := keys + [k];
    }
  }

  lemma SortedListingExists(names: set<string>)
    ensures exists keys :: Lists(keys, names)
  {
    var keys := ListingExists(names);
    SortedIsListing(keys, names);
  }

  ghost function SortedNames(names: set<string>): (keys: seq<string>)
    ensures Lists(keys, names)
  {
    SortedListingExists(names);
    var keys :| Lists(keys, names);
    keys
  }

  // ---- The key ----

  function Entry(printable: char -> bool, name: string, value: string): string {
    name + ":" + Quote(printable, value)
  }

  function Entries(printable: char -> bool, keys: seq<string>, labels: Labels): string
    requires forall k :: k in keys ==> k in labels
  {
    if keys == [] then []
    else if |keys| == 1 then Entry(printable, keys[0], labels[keys[0]])
    else Entry(printable, keys[0], labels[keys[0]]) + "," + Entries(printable, keys[1..], labels)
  }

  /** `streamKey`, as a function of the map alone. */
  ghost function StreamKeyOf(printable: char -> bool, labels: Labels): string {
    "{" + Entries(printable, SortedNames(labels.Keys), labels) + "}"
  }

  /** Collects the names in whatever order the map yields them, sorts, and writes the entries. */
  method StreamKey(printable: char -> bool, labels: Labels) returns (key: string)
    ensures key == StreamKeyOf(printable, labels)
  {
    if |labels| == 0 {
      NoNames(labels);
      return "{}";
    }
    var keys := CollectNames(labels);
    keys := SortBy(keys, ITSELF);
    ListingIsUnique(keys, SortedNames(labels.Keys), labels.Keys);
    var body := WriteEntries(printable, keys, labels);
    key := "{" + body + "}";
  }

  /** The loop over the sorted names. */
  method WriteEntries(printable: char -> bool, keys: seq<string>, labels: Labels) returns (buf: string)
    requires forall k :: k in keys ==> k in labels
    ensures buf == Entries(printable, keys, labels)
  {
    buf := "";
    hide Joined, Entries, Quote;
    JoinedNothing(printable, labels);
    assert keys[..0] == [];
    for i := 0 to |keys|
      invariant buf == Joined(printable, keys[..i], labels)
    {
      JoinedNext(printable, keys, i, labels);
      if i > 0 {
        buf := buf + ",";
      }
      buf := buf + keys[i] + ":" + Quote(printable, labels[keys[i]]);
    }
    assert keys[..|keys|] == keys;
    JoinedIsEntries(printable, keys, labels);
  }

  lemma JoinedNothing(printable: char -> bool, labels: Labels)
    ensures Joined(printable, [], labels) == ""
  {
  }

  lemma NoNames(labels: Labels)
    requires |labels| == 0
    ensures SortedNames(labels.Keys) == []
  {
    assert labels.Keys == {};
    FirstIsMember(SortedNames(labels.Keys));
  }

  method CollectNames(labels: Labels) returns (keys: seq<string>)
    ensures forall k :: k in keys <==> k in labels
    ensures forall i, j :: 0 <= i < j < |keys| ==> keys[i] != keys[j]
    ensures Lists(SortBy(keys, ITSELF), labels.Keys)
  {
    keys := [];
    var remaining := labels.Keys;
    while remaining != {}
      invariant remaining <= labels.Keys
      invariant forall k :: k in keys <==> k in labels.Keys - remaining
      invariant forall i, j :: 0 <= i < j < |keys| ==> keys[i] != keys[j]
      decreases remaining
    {
      var k :| k in remaining;
      assert forall i :: 0 <= i < |keys| ==> keys[i] in keys && keys[i] != k;
      keys := keys + [k];
      remaining := remaining - {k};
    }
    SortedIsListing(keys, labels.Keys);
  }

  /** The same text built from the left, as the loop does. */
  function Joined(printable: char -> bool, keys: seq<string>, labels: Labels): string
    requires forall k :: k in keys ==> k in labels
  {
    if keys == [] then []
    else
      var front, last := keys[..|keys| - 1], keys[|keys| - 1];
      Joined(printable, front, labels) + (if front == [] then "" else ",") + Entry(printable, last, labels[last])
  }

  lemma JoinedNext(printable: char -> bool, keys: seq<string>, i: nat, labels: Labels)
    requires i < |keys| && forall k :: k in keys ==> k in labels
    ensures var before := Joined(printable, keys[..i], labels);
      Joined(printable, keys[..i + 1], labels) ==
      (if i > 0 then before + "," else before) + keys[i] + ":" + Quote(printable, labels[keys[i]])
  {
    hide Quote;
    assert keys[..i + 1][..i] == keys[..i];
  }

  lemma {:induction false} JoinedIsEntries(printable: char -> bool, keys: seq<string>, labels: Labels)
    requires forall k :: k in keys ==> k in labels
    ensures Joined(printable, keys, labels) == Entries(printable, keys, labels)
    decreases |keys|
  {
    hide Entry;
    if |keys| > 1 {
      var front, last := keys[..|keys| - 1], keys[|keys| - 1];
      JoinedIsEntries(printable, front, labels);
      EntriesSnoc(printable, front, last, labels);
      assert keys == front + [last];
    }
  }

  lemma {:induction false} EntriesSnoc(printable: char -> bool, keys: seq<string>, last: string, labels: Labels)
    requires keys != [] && (forall k :: k in keys ==> k in labels) && last in labels
    ensures Entries(printable, keys + [last], labels)
      == Entries(printable, keys, labels) + "," + Entry(printable, last, labels[last])
  {
    hide Entry;
    assert (keys + [last])[1..] == keys[1..] + [last];
    if |keys| > 1 {
      EntriesSnoc(printable, keys[1..], last, labels);
    } else {
      assert keys[1..] + [last] == [last];
    }
  }

  // ---- Reading a key back ----

  function NameLength(s: string): (n: nat)
    ensures n <= |s|
  {
    if s == [] || s[0] == ':' then 0 else 1 + NameLength(s[1..])
  }

  datatype Parsed = Malformed | Parsed(labels: seq<(string, string)>)

  /** Reads entries up to the closing brace that ends the text. */
  function ParseEntries(s: string): Parsed
    decreases |s|
  {
    var n := NameLength(s);
    if n == |s| then Malformed
    else match ReadQuoted(s[n + 1..])
      case NoText => Malformed
      case Text(value, rest) =>
        if rest == "}" then Parsed([(s[..n], value)])
        else if rest == [] || rest[0] != ',' then Malformed
        else match ParseEntries(rest[1..])
          case Malformed => Malformed
          case Parsed(more) => Parsed([(s[..n], value)] + more)
  }

  function Pairs(keys: seq<string>, labels: Labels): (p: seq<(string, string)>)
    requires forall k :: k in keys ==> k in labels
    ensures |p| == |keys|
    ensures forall i :: 0 <= i < |keys| ==> p[i] == (keys[i], labels[keys[i]])
  {
    seq(|keys|, i requires 0 <= i < |keys| => (keys[i], labels[keys[i]]))
  }

  lemma {:induction false} NameEndsAtColon(name: string, rest: string)
    requires forall i :: 0 <= i < |name| ==> name[i] != ':'
    ensures NameLength(name + ":" + rest) == |name|
  {
    var s := name + ":" + rest;
    if name != [] {
      assert s[1..] == name[1..] + ":" + rest;
      NameEndsAtColon(name[1..], rest);
    }
  }

  lemma ParseOneEntry(printable: char -> bool, name: string, value: string, rest: string)
    requires ValidName(name)
    ensures var s := Entry(printable, name, value) + rest;
      && NameLength(s) == |name| < |s| && s[..|name|] == name
      && ReadQuoted(s[|name| + 1..]) == Text(value, rest)
  {
    hide Quote, ReadQuoted;
    var s := Entry(printable, name, value) + rest;
    assert s == name + ":" + (Quote(printable, value) + rest);
    NameEndsAtColon(name, Quote(printable, value) + rest);
    QuoteIsSelfDelimiting(printable, value, rest);
    assert s[|name| + 1..] == Quote(printable, value) + rest;
  }

  lemma {:induction false} ParseEntriesRoundTrip(printable: char -> bool, keys: seq<string>, labels: Labels)
    requires keys != [] && forall k :: k in keys ==> k in labels && ValidName(k)
    ensures ParseEntries(Entries(printable, keys, labels) + "}") == Parsed(Pairs(keys, labels))
  {
    hide Quote, ReadQuoted, NameLength, Entry, ValidName;
    var name, value := keys[0], labels[keys[0]];
    if |keys| == 1 {
      ParseOneEntry(printable, name, value, "}");
      assert Pairs(keys, labels) == [(name, value)];
    } else {
      var more := Entries(printable, keys[1..], labels) + "}";
      ParseOneEntry(printable, name, value, "," + more);
      assert Entries(printable, keys, labels) + "}" == Entry(printable, name, value) + ("," + more);
      assert ("," + more)[1..] == more;
      ParseEntriesRoundTrip(printable, keys[1..], labels);
      assert Pairs(keys, labels) == [(name, value)] + Pairs(keys[1..], labels);
    }
  }

  lemma EntriesAreNotEmpty(printable: char -> bool, keys: seq<string>, labels: Labels)
    requires keys != [] && forall k :: k in keys ==> k in labels
    ensures Entries(printable, keys, labels) != []
  {
  }

  lemma SameListingTextSamePairs(printable: char -> bool, keys1: seq<string>, labels1: Labels,
                                 keys2: seq<string>, labels2: Labels)
    requires forall k :: k in keys1 ==> k in labels1 && ValidName(k)
    requires forall k :: k in keys2 ==> k in labels2 && ValidName(k)
    requires Entries(printable, keys1, labels1) == Entries(printable, keys2, labels2)
    ensures Pairs(keys1, labels1) == Pairs(keys2, labels2)
  {
    hide Entries, ParseEntries;
    if keys1 != [] {
      EntriesAreNotEmpty(printable, keys1, labels1);
      ParseEntriesRoundTrip(printable, keys1, labels1);
    }
    if keys2 != [] {
      EntriesAreNotEmpty(printable, keys2, labels2);
      ParseEntriesRoundTrip(printable, keys2, labels2);
    }
    NoEntries(printable, labels1);
    NoEntries(printable, labels2);
  }

  lemma NoEntries(printable: char -> bool, labels: Labels)
    ensures Entries(printable, [], labels) == []
  {
  }

  lemma PairsDetermineMap(keys1: seq<string>, labels1: Labels, keys2: seq<string>, labels2: Labels)
    requires Lists(keys1, labels1.Keys) && Lists(keys2, labels2.Keys)
    requires Pairs(keys1, labels1) == Pairs(keys2, labels2)
    ensures labels1 == labels2
  {
  }

  /** The key is canonical and injective: two label sets have the same key exactly when they are equal. */
  lemma KeyIdentifiesLabels(printable: char -> bool, labels1: Labels, labels2: Labels)
    requires ValidNames(labels1) && ValidNames(labels2)
    ensures StreamKeyOf(printable, labels1) == StreamKeyOf(printable, labels2) <==> labels1 == labels2
  {
    var k1, k2 := SortedNames(labels1.Keys), SortedNames(labels2.Keys);
    if StreamKeyOf(printable, labels1) == StreamKeyOf(printable, labels2) {
      var e1, e2 := Entries(printable, k1, labels1), Entries(printable, k2, labels2);
      BracesStrip(e1, e2);
      SameListingTextSamePairs(printable, k1, labels1, k2, labels2);
      PairsDetermineMap(k1, labels1, k2, labels2);
    }
  }

  lemma BracesStrip(a: string, b: string)
    requires "{" + a + "}" == "{" + b + "}"
    ensures a == b
  {
    assert a == ("{" + a + "}")[1..|a| + 1];
    assert b == ("{" + b + "}")[1..|b| + 1];
  }
}
