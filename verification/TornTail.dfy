/**
  A crash in the middle of a write leaves part of a frame at the end of the log, and the log is
  reopened for appending without cutting it off. Whatever is written after the tear is read in its
  shadow. Under four facts about JSON text, no sequence number written there is ever seen again.
 */
module TornTail {
  import opened Basics
  import opened Alerts
  import opened Framing
  import opened FramingProofs

  predicate Blank(b: byte) {
    b == 9 || b == 10 || b == 13 || b == 32
  }

  /** JSON text never contains a NUL byte. */
  ghost predicate RejectsNul(c: Codec) {
    forall b: seq<byte> :: c.decode(b).Some? ==> 0 !in b
  }

  /** Text too short to name a field leaves every field of the record at its zero value. */
  ghost predicate ShortTextIsZero(c: Codec) {
    forall b: seq<byte> :: c.decode(b).Some? && |b| <= 3 ==> |b| >= 2 && c.decode(b).value.seqNo == 0
  }

  /** Text that ends in the first `k` bytes of an encoded record is that whole record after blanks. */
  ghost predicate EndsClosed(c: Codec, before: seq<byte>, r: Record, k: nat) {
    c.encode(r).Some? && 0 < k <= |c.encode(r).value| && c.decode(before + c.encode(r).value[..k]).Some? ==>
      k == |c.encode(r).value| && forall i :: 0 <= i < |before| ==> Blank(before[i])
  }

  ghost predicate JsonLike(c: Codec) {
    && RoundTrips(c)
    && RejectsNul(c)
    && ShortTextIsZero(c)
    && (forall before: seq<byte>, r: Record, k: nat :: EndsClosed(c, before, r, k))
  }

  // ---- Shape of frames ----

  /** The size limit keeps the top byte of every length prefix zero; no encoded record starts with one. */
  lemma FrameStartsWithNul(c: Codec, r: Record)
    requires Encodable(c, r)
    ensures FrameOf(c, r)[0] == 0
    ensures JsonLike(c) ==> c.encode(r).value != [] && c.encode(r).value[0] != 0
  {
  }

  lemma LogStartsWithNul(c: Codec, rs: seq<Record>)
    requires AllEncodable(c, rs) && Log(c, rs) != []
    ensures Log(c, rs)[0] == 0
  {
  }

  lemma NulBodyStops(c: Codec, bytes: seq<byte>, i: nat)
    requires RejectsNul(c)
    requires |bytes| >= 4 && 4 <= i < 4 + Uint32(bytes[..4])
    requires i < |bytes| ==> bytes[i] == 0
    ensures ReadFrame(c, bytes) == Stop
  {
  }

  // ---- The tear ----

  /** Torn inside the body: the announced body reaches into the next frame, whose first byte is zero. */
  lemma TornBodyStops(c: Codec, torn: Record, j: nat, next: seq<byte>)
    requires RejectsNul(c) && Encodable(c, torn) && 4 <= j < |FrameOf(c, torn)|
    requires next == [] || next[0] == 0
    ensures ReadFrame(c, FrameOf(c, torn)[..j] + next) == Stop
  {
    var bytes := FrameOf(c, torn)[..j] + next;
    assert bytes[..4] == PutUint32(|c.encode(torn).value|);
    PrefixRoundTrip(|c.encode(torn).value|);
    NulBodyStops(c, bytes, j);
  }

  function LowBytes(b1: int, b2: int, b3: int): int {
    b1 * 65536 + b2 * 256 + b3
  }

  lemma PrefixBytes(length: nat)
    requires length <= MAX_RECORD_LEN
    ensures var p := PutUint32(length); p[0] == 0 && length == LowBytes(p[1], p[2], p[3]) && p[1] <= 128
  {
  }

  /** The announced length when `j` bytes of a length prefix are torn off and a frame follows. */
  lemma TornPrefixLength(length0: nat, length: nat, j: nat)
    requires length0 <= MAX_RECORD_LEN && length <= MAX_RECORD_LEN && 1 <= j <= 3
    ensures var p := PutUint32(length);
      var n := Uint32(PutUint32(length0)[..j] + p[..4 - j]);
      && length == LowBytes(p[1], p[2], p[3])
      && (j == 1 ==> length == 256 * n + p[3])
      && (j == 2 ==> n == LowBytes(PutUint32(length0)[1], 0, p[1]))
      && (j == 3 ==> n == LowBytes(PutUint32(length0)[1], PutUint32(length0)[2], 0))
  {
    hide PutUint32;
    PrefixBytes(length0);
    PrefixBytes(length);
    var a, p := PutUint32(length0), PutUint32(length);
    var word := a[..j] + p[..4 - j];
    if j == 1 {
      assert word == [a[0], p[0], p[1], p[2]];
    } else if j == 2 {
      assert word == [a[0], a[1], p[0], p[1]];
    } else {
      assert word == [a[0], a[1], a[2], p[0]];
    }
  }

  /** Had the shifted body ended exactly with the next record, its leftover prefix bytes could not be blank. */
  lemma ShiftedLengthNeverFits(length0: nat, length: nat, j: nat)
    requires length0 <= MAX_RECORD_LEN && length <= MAX_RECORD_LEN && 1 <= j <= 3
    requires forall i :: 4 - j <= i < 4 ==> Blank(PutUint32(length)[i])
    ensures Uint32(PutUint32(length0)[..j] + PutUint32(length)[..4 - j]) != j + length
  {
    hide PutUint32, Uint32;
    TornPrefixLength(length0, length, j);
    PrefixBytes(length);
    var p1: int, p2: int, p3: int := PutUint32(length)[1], PutUint32(length)[2], PutUint32(length)[3];
    assert Blank(PutUint32(length)[3]);
    if j == 2 {
      assert Blank(PutUint32(length)[2]);
      assert 0 < p2 * 256 + p3 + 2 - p1 < 65536;
    } else if j == 3 {
      assert 0 < p3 + 3 < 256;
    }
  }

  /** How a reader that is `|t|` bytes early sees a frame: the prefix slides, its last bytes join the text. */
  lemma ShiftedLayout(t: seq<byte>, p: seq<byte>, text: seq<byte>, rest: seq<byte>)
    requires 1 <= |t| <= 3 && |p| == 4
    ensures var bytes := t + (p + text + rest);
      && bytes[..4] == t + p[..4 - |t|]
      && bytes[4..] == p[4 - |t|..] + text + rest
  {
  }

  lemma ReadFrameFromBody(c: Codec, bytes: seq<byte>, n: nat, body: seq<byte>)
    requires |bytes| >= 4 && n == Uint32(bytes[..4]) && |body| == n && body <= bytes[4..]
    requires c.decode(body).None?
    ensures ReadFrame(c, bytes) == Stop
  {
    assert bytes[4..4 + n] == body;
  }

  /** The text behind a slid length prefix, when it takes in at least one byte of the record. */
  lemma ShiftedTextRejected(c: Codec, length0: nat, j: nat, r: Record, k: nat)
    requires JsonLike(c) && Encodable(c, r) && length0 <= MAX_RECORD_LEN && 1 <= j <= 3
    requires var text := c.encode(r).value;
      0 < k <= |text| && Uint32(PutUint32(length0)[..j] + PutUint32(|text|)[..4 - j]) == j + k
    ensures var text := c.encode(r).value;
      c.decode(PutUint32(|text|)[4 - j..] + text[..k]).None?
  {
    var text := c.encode(r).value;
    var p := PutUint32(|text|);
    var before := p[4 - j..];
    assert EndsClosed(c, before, r, k);
    if c.decode(before + text[..k]).Some? {
      forall i | 4 - j <= i < 4 ensures Blank(p[i]) {
        assert p[i] == before[i - (4 - j)];
      }
      ShiftedLengthNeverFits(length0, |text|, j);
      assert false;
    }
  }

  /** A frame read `|t|` bytes early is refused: its text runs into the next frame, or is not JSON. */
  lemma ShiftedFrameStops(c: Codec, t: seq<byte>, p: seq<byte>, text: seq<byte>, rest: seq<byte>)
    requires RejectsNul(c) && 1 <= |t| <= 3 && |p| == 4 && (rest == [] || rest[0] == 0)
    requires var k := Uint32(t + p[..4 - |t|]) - |t|;
      k > 0 && (k <= |text| ==> c.decode(p[4 - |t|..] + text[..k]).None?)
    ensures ReadFrame(c, t + (p + text + rest)) == Stop
  {
    ShiftedLayout(t, p, text, rest);
    var bytes := t + (p + text + rest);
    var n := Uint32(bytes[..4]);
    var k := n - |t|;
    if k > |text| {
      var i := 4 + |t| + |text|;
      if i < |bytes| {
        assert bytes[i] == bytes[4..][i - 4] == rest[0];
      }
      NulBodyStops(c, bytes, i);
    } else {
      var body := p[4 - |t|..] + text[..k];
      assert bytes[4..][..n] == body;
      ReadFrameFromBody(c, bytes, n, body);
    }
  }

  /** A length prefix of at most two, with no further frame behind the two bytes, leads nowhere. */
  lemma TwoStrayBytes(c: Codec, bytes: seq<byte>)
    requires ShortTextIsZero(c) && |bytes| >= 4
    requires var n := Uint32(bytes[..4]); n <= 2 && (n == 2 && |bytes| > 6 ==> bytes[6] != 0)
    ensures NoneNumbered(Parse(c, bytes).records)
  {
  }

  /** Torn inside the length prefix: at most one record is read, from two stray bytes, numbered zero. */
  lemma TornPrefixReadsNothingNumbered(c: Codec, length0: nat, j: nat, r: Record, rest: seq<byte>)
    requires JsonLike(c) && Encodable(c, r) && length0 <= MAX_RECORD_LEN && 1 <= j <= 3
    requires rest == [] || rest[0] == 0
    ensures var text := c.encode(r).value;
      NoneNumbered(Parse(c, PutUint32(length0)[..j] + (PutUint32(|text|) + text + rest)).records)
  {
    var text := c.encode(r).value;
    if Uint32(PutUint32(length0)[..j] + PutUint32(|text|)[..4 - j]) > j {
      LongShiftedFrameStops(c, length0, j, r, rest);
    } else {
      ShortShiftedFrame(c, length0, j, r, rest);
    }
  }

  lemma LongShiftedFrameStops(c: Codec, length0: nat, j: nat, r: Record, rest: seq<byte>)
    requires JsonLike(c) && Encodable(c, r) && length0 <= MAX_RECORD_LEN && 1 <= j <= 3
    requires rest == [] || rest[0] == 0
    requires Uint32(PutUint32(length0)[..j] + PutUint32(|c.encode(r).value|)[..4 - j]) > j
    ensures var text := c.encode(r).value;
      ReadFrame(c, PutUint32(length0)[..j] + (PutUint32(|text|) + text + rest)) == Stop
  {
    hide PutUint32, Uint32, RoundTrips, ShortTextIsZero, RejectsNul, ReadFrame;
    var t, text := PutUint32(length0)[..j], c.encode(r).value;
    var p := PutUint32(|text|);
    var k := Uint32(t + p[..4 - j]) - j;
    if k <= |text| {
      ShiftedTextRejected(c, length0, j, r, k);
    }
    ShiftedFrameStops(c, t, p, text, rest);
  }

  lemma ShortShiftedFrame(c: Codec, length0: nat, j: nat, r: Record, rest: seq<byte>)
    requires JsonLike(c) && Encodable(c, r) && length0 <= MAX_RECORD_LEN && 1 <= j <= 3
    requires Uint32(PutUint32(length0)[..j] + PutUint32(|c.encode(r).value|)[..4 - j]) <= j
    ensures var text := c.encode(r).value;
      NoneNumbered(Parse(c, PutUint32(length0)[..j] + (PutUint32(|text|) + text + rest)).records)
  {
    var t, text := PutUint32(length0)[..j], c.encode(r).value;
    TornPrefixIsShort(length0, |text|, j);
    FrameStartsWithNul(c, r);
    ShiftedLayout(t, PutUint32(|text|), text, rest);
    TwoStrayBytes(c, t + (PutUint32(|text|) + text + rest));
  }

  /** A slid prefix that announces no more than the bytes it displaced announces at most two, from two. */
  lemma TornPrefixIsShort(length0: nat, length: nat, j: nat)
    requires length0 <= MAX_RECORD_LEN && length <= MAX_RECORD_LEN && 1 <= j <= 3
    ensures var n := Uint32(PutUint32(length0)[..j] + PutUint32(length)[..4 - j]);
      n <= j ==> n <= 2 && (n == 2 ==> j == 2)
  {
  }

  ghost predicate NoneNumbered(rs: seq<Record>) {
    forall i :: 0 <= i < |rs| ==> rs[i].seqNo == 0
  }

  /** Everything written after a tear is lost: no record with a sequence number is read from there on. */
  lemma TornTailHidesLaterRecords(c: Codec, torn: Record, j: nat, later: seq<Record>)
    requires JsonLike(c) && Encodable(c, torn) && AllEncodable(c, later)
    requires 0 < j < |FrameOf(c, torn)|
    ensures NoneNumbered(Parse(c, FrameOf(c, torn)[..j] + Log(c, later)).records)
  {
    var next := Log(c, later);
    if later == [] {
      assert FrameOf(c, torn)[..j] + next == FrameOf(c, torn)[..j];
      ReadFrameOfCut(c, torn, j);
    } else {
      LogStartsWithNul(c, later);
      if j >= 4 {
        TornBodyStops(c, torn, j, next);
      } else {
        var rest := Log(c, later[1..]);
        if rest != [] {
          LogStartsWithNul(c, later[1..]);
        }
        assert FrameOf(c, torn)[..j] == PutUint32(|c.encode(torn).value|)[..j];
        assert next == PutUint32(|c.encode(later[0]).value|) + c.encode(later[0]).value + rest;
        TornPrefixReadsNothingNumbered(c, |c.encode(torn).value|, j, later[0], rest);
      }
    }
  }
}
