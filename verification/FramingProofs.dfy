/**
  What the frame reader guarantees: exact recovery under truncation, prefix behaviour on arbitrary
  bytes, and how far a torn frame reaches.
 */
module FramingProofs {
  import opened Basics
  import opened Alerts
  import opened Framing

  function Join(a: Scan, b: Scan): Scan {
    Scan(a.records + b.records, a.consumed + b.consumed)
  }

  // ---- One frame ----

  lemma ReadFrameOfWhole(c: Codec, r: Record, rest: seq<byte>)
    requires RoundTrips(c) && Encodable(c, r)
    ensures ReadFrame(c, FrameOf(c, r) + rest) == Took(r, |FrameOf(c, r)|)
  {
  }

  lemma ReadFrameOfCut(c: Codec, r: Record, k: nat)
    requires RoundTrips(c) && Encodable(c, r) && k < |FrameOf(c, r)|
    ensures ReadFrame(c, FrameOf(c, r)[..k]) == Stop
  {
  }

  /** A frame that was read whole is read the same whatever follows it. */
  lemma ReadFrameStable(c: Codec, a: seq<byte>, b: seq<byte>)
    requires ReadFrame(c, a).Took?
    ensures ReadFrame(c, a + b) == ReadFrame(c, a)
  {
    assert (a + b)[..4] == a[..4];
    var n := Uint32(a[..4]);
    assert (a + b)[4..4 + n] == a[4..4 + n];
  }

  // ---- Whole logs ----

  lemma ParseTook(c: Codec, a: seq<byte>)
    requires ReadFrame(c, a).Took?
    ensures var f := ReadFrame(c, a);
      Parse(c, a) == Join(Scan([f.record], f.size), Parse(c, a[f.size..]))
  {
  }

  lemma JoinAssoc(x: Scan, y: Scan, z: Scan)
    ensures Join(Join(x, y), z) == Join(x, Join(y, z))
  {
  }

  /** What `bytes` still holds once its readable frames are taken off: nothing, or an unreadable tail. */
  function Leftover(c: Codec, bytes: seq<byte>): seq<byte> {
    bytes[Parse(c, bytes).consumed..]
  }

  lemma LeftoverTook(c: Codec, a: seq<byte>)
    requires ReadFrame(c, a).Took?
    ensures Leftover(c, a) == Leftover(c, a[ReadFrame(c, a).size..])
  {
  }

  lemma ParseTookThenMore(c: Codec, a: seq<byte>, b: seq<byte>)
    requires ReadFrame(c, a).Took?
    ensures var f := ReadFrame(c, a);
      Parse(c, a + b) == Join(Scan([f.record], f.size), Parse(c, a[f.size..] + b))
  {
    ReadFrameStable(c, a, b);
    assert (a + b)[ReadFrame(c, a).size..] == a[ReadFrame(c, a).size..] + b;
    ParseTook(c, a + b);
  }

  lemma ParseStopped(c: Codec, a: seq<byte>, b: seq<byte>)
    requires ReadFrame(c, a).Stop?
    ensures Parse(c, a + b) == Join(Parse(c, a), Parse(c, Leftover(c, a) + b))
  {
    hide ReadFrame;
    assert Leftover(c, a) == a;
    JoinEmpty(Parse(c, a + b));
  }

  lemma JoinEmpty(s: Scan)
    ensures Join(Scan([], 0), s) == s
  {
  }

  /** Bytes added at the end are read in the context of the leftover before them. */
  lemma {:induction false} ParseSplit(c: Codec, a: seq<byte>, b: seq<byte>)
    ensures Parse(c, a + b) == Join(Parse(c, a), Parse(c, Leftover(c, a) + b))
    decreases |a|
  {
    hide Parse, ReadFrame, Leftover, Join;
    match ReadFrame(c, a)
    case Stop =>
      ParseStopped(c, a, b);
    case Took(r, n) =>
      ParseTookThenMore(c, a, b);
      ParseTook(c, a);
      LeftoverTook(c, a);
      ParseSplit(c, a[n..], b);
      JoinAssoc(Scan([r], n), Parse(c, a[n..]), Parse(c, Leftover(c, a) + b));
  }

  lemma ParseAfterClean(c: Codec, a: seq<byte>, b: seq<byte>)
    requires Parse(c, a).consumed == |a|
    ensures Parse(c, a + b) == Join(Parse(c, a), Parse(c, b))
  {
    ParseSplit(c, a, b);
    assert Leftover(c, a) + b == b;
  }

  lemma {:induction false} ParseOfLog(c: Codec, rs: seq<Record>)
    requires RoundTrips(c) && AllEncodable(c, rs)
    ensures Parse(c, Log(c, rs)) == Scan(rs, |Log(c, rs)|)
  {
    if rs != [] {
      var rest := Log(c, rs[1..]);
      ReadFrameOfWhole(c, rs[0], rest);
      assert Log(c, rs)[|FrameOf(c, rs[0])|..] == rest;
      ParseOfLog(c, rs[1..]);
    }
  }

  lemma LogOfOne(c: Codec, r: Record)
    requires Encodable(c, r)
    ensures AllEncodable(c, [r]) && Log(c, [r]) == FrameOf(c, r)
  {
    hide FrameOf;
    assert Log(c, [r]) == FrameOf(c, r) + Log(c, []);
  }

  lemma {:induction false} LogOfNext(c: Codec, rs: seq<Record>, r: Record)
    requires AllEncodable(c, rs) && Encodable(c, r)
    ensures AllEncodable(c, rs + [r]) && Log(c, rs + [r]) == Log(c, rs) + FrameOf(c, r)
  {
    if rs == [] {
      assert Log(c, [r]) == FrameOf(c, r) + Log(c, []);
      assert rs + [r] == [r];
    } else {
      LogOfNext(c, rs[1..], r);
      assert (rs + [r])[1..] == rs[1..] + [r];
    }
  }

  /** The number of leading records whose frames lie wholly before byte `cut`. */
  function WholeFrames(c: Codec, rs: seq<Record>, cut: nat): (m: nat)
    requires AllEncodable(c, rs)
    ensures m <= |rs|
  {
    if rs == [] || |FrameOf(c, rs[0])| > cut then 0
    else 1 + WholeFrames(c, rs[1..], cut - |FrameOf(c, rs[0])|)
  }

  /** `WholeFrames` counts what it says: frames up to it fit before the cut, the next does not. */
  lemma {:induction false} WholeFramesIsMaximal(c: Codec, rs: seq<Record>, cut: nat)
    requires AllEncodable(c, rs)
    ensures var m := WholeFrames(c, rs, cut);
      |Log(c, rs[..m])| <= cut && (m < |rs| ==> cut < |Log(c, rs[..m + 1])|)
  {
    var m := WholeFrames(c, rs, cut);
    if rs == [] {
    } else if |FrameOf(c, rs[0])| > cut {
      assert rs[..1][0] == rs[0] && rs[..1][1..] == [];
    } else {
      var left := cut - |FrameOf(c, rs[0])|;
      WholeFramesIsMaximal(c, rs[1..], left);
      assert rs[..m][1..] == rs[1..][..m - 1];
      if m < |rs| {
        assert rs[..m + 1][1..] == rs[1..][..m];
      }
    }
  }

  lemma CutInFirstFrame(c: Codec, rs: seq<Record>, cut: nat)
    requires RoundTrips(c) && AllEncodable(c, rs) && rs != [] && cut < |FrameOf(c, rs[0])|
    ensures Parse(c, Log(c, rs)[..cut]) == Scan([], 0)
  {
  }

  lemma CutAfterFirstFrame(c: Codec, rs: seq<Record>, left: nat)
    requires RoundTrips(c) && AllEncodable(c, rs) && rs != [] && left <= |Log(c, rs[1..])|
    ensures var n := |FrameOf(c, rs[0])|;
      Parse(c, Log(c, rs)[..n + left]) == Join(Scan([rs[0]], n), Parse(c, Log(c, rs[1..])[..left]))
  {
    var first, rest := FrameOf(c, rs[0]), Log(c, rs[1..])[..left];
    assert Log(c, rs)[..|first| + left] == first + rest;
    hide FrameOf, Log, AllEncodable;
    ReadFrameOfWhole(c, rs[0], rest);
    assert (first + rest)[|first|..] == rest;
  }

  /** Cutting a log anywhere loses exactly the records whose frames are not wholly before the cut. */
  lemma {:induction false} TruncationKeepsWholeFrames(c: Codec, rs: seq<Record>, cut: nat)
    requires RoundTrips(c) && AllEncodable(c, rs) && cut <= |Log(c, rs)|
    ensures var m := WholeFrames(c, rs, cut);
      Parse(c, Log(c, rs)[..cut]) == Scan(rs[..m], |Log(c, rs[..m])|)
  {
    hide Parse;
    if rs == [] || cut < |FrameOf(c, rs[0])| {
      if rs == [] {
        ParseOfLog(c, []);
        assert Log(c, rs)[..cut] == Log(c, []);
      } else {
        CutInFirstFrame(c, rs, cut);
      }
    } else {
      var left := cut - |FrameOf(c, rs[0])|;
      var m := WholeFrames(c, rs, cut);
      CutAfterFirstFrame(c, rs, left);
      TruncationKeepsWholeFrames(c, rs[1..], left);
      assert rs[..m] == [rs[0]] + rs[1..][..m - 1];
      assert rs[..m][1..] == rs[1..][..m - 1];
    }
  }

  // ---- Arbitrary bytes ----

  /** Reading a prefix of any bytes yields a prefix of the records, and never reads further. */
  lemma PrefixReadsPrefix(c: Codec, bytes: seq<byte>, cut: nat)
    requires cut <= |bytes|
    ensures Parse(c, bytes[..cut]).records <= Parse(c, bytes).records
    ensures Parse(c, bytes[..cut]).consumed <= Parse(c, bytes).consumed
  {
    assert bytes == bytes[..cut] + bytes[cut..];
    ParseSplit(c, bytes[..cut], bytes[cut..]);
  }

  /** The bytes a scan consumed hold the same scan on their own. */
  lemma {:induction false} RereadingConsumedBytes(c: Codec, bytes: seq<byte>)
    ensures Parse(c, bytes[..Parse(c, bytes).consumed]) == Parse(c, bytes)
    decreases |bytes|
  {
    match ReadFrame(c, bytes)
    case Stop =>
      assert bytes[..0] == [];
    case Took(r, n) =>
      RereadingConsumedBytes(c, bytes[n..]);
      var k := Parse(c, bytes).consumed;
      assert bytes[..k] == bytes[..n] + bytes[n..k];
      ReadFrameOfPrefix(c, bytes, n);
      ReadFrameStable(c, bytes[..n], bytes[n..k]);
      assert bytes[..k][n..] == bytes[n..][..k - n];
  }

  lemma ReadFrameOfPrefix(c: Codec, bytes: seq<byte>, n: nat)
    requires ReadFrame(c, bytes).Took? && ReadFrame(c, bytes).size == n
    ensures ReadFrame(c, bytes[..n]) == ReadFrame(c, bytes)
  {
    assert bytes[..n][..4] == bytes[..4];
    assert bytes[..n][4..n] == bytes[4..n];
  }
}
