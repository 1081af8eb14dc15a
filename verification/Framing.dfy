/**
  The byte format of the write-ahead log: length-prefixed frames, and the reader that stops at the
  first frame it cannot take whole.
 */
module Framing {
  import opened Basics
  import opened Alerts

  const MAX_RECORD_LEN: nat := 8388608

  /** The JSON text of a record, left abstract. `encode` fails where `json.Marshal` does. */
  datatype Codec = Codec(encode: Record -> Option<seq<byte>>, decode: seq<byte> -> Option<Record>)

  /** What is written can be read back, and is never empty. */
  ghost predicate RoundTrips(c: Codec) {
    forall r: Record :: c.encode(r).Some? ==>
      |c.encode(r).value| > 0 && c.decode(c.encode(r).value) == Some(r)
  }

  // ---- Big-endian length prefix ----

  function PutUint32(n: nat): (b: seq<byte>)
    requires n < 0x1_0000_0000
    ensures |b| == 4
  {
    var high := n / 256;
    var higher := high / 256;
    [higher / 256, higher % 256, high % 256, n % 256]
  }

  function Uint32(b: seq<byte>): (n: nat)
    requires |b| == 4
    ensures n < 0x1_0000_0000
  {
    var b0: int, b1: int, b2: int, b3: int := b[0], b[1], b[2], b[3];
    ((b0 * 256 + b1) * 256 + b2) * 256 + b3
  }

  lemma PrefixRoundTrip(n: nat)
    requires n < 0x1_0000_0000
    ensures Uint32(PutUint32(n)) == n
  {
  }

  /** The most significant byte comes first: prefixes are in the order of the numbers they stand for. */
  lemma PrefixKeepsOrder(m: nat, n: nat) returns (i: nat)
    requires m < n < 0x1_0000_0000
    ensures i < 4 && PutUint32(m)[..i] == PutUint32(n)[..i] && PutUint32(m)[i] < PutUint32(n)[i]
  {
    var a, b := PutUint32(m), PutUint32(n);
    i := if a[0] != b[0] then 0 else if a[1] != b[1] then 1 else if a[2] != b[2] then 2 else 3;
    assert forall k :: 0 <= k < i ==> a[k] == b[k];
  }

  // ---- Frames ----

  /** Whether `append` and `writeRecord` accept the record: it marshals, and within the size limit. */
  predicate Encodable(c: Codec, r: Record) {
    c.encode(r).Some? && |c.encode(r).value| <= MAX_RECORD_LEN
  }

  function Frame(body: seq<byte>): (f: seq<byte>)
    requires |body| <= MAX_RECORD_LEN
    ensures |f| == 4 + |body|
  {
    PutUint32(|body|) + body
  }

  function FrameOf(c: Codec, r: Record): (f: seq<byte>)
    requires Encodable(c, r)
    ensures |f| == 4 + |c.encode(r).value|
  {
    Frame(c.encode(r).value)
  }

  predicate AllEncodable(c: Codec, rs: seq<Record>) {
    forall i :: 0 <= i < |rs| ==> Encodable(c, rs[i])
  }

  /** The log that holds exactly the records `rs`. */
  function Log(c: Codec, rs: seq<Record>): seq<byte>
    requires AllEncodable(c, rs)
  {
    if rs == [] then [] else FrameOf(c, rs[0]) + Log(c, rs[1..])
  }

  // ---- Reading ----

  datatype Scan = Scan(records: seq<Record>, consumed: nat)

  datatype FrameRead = Stop | Took(record: Record, size: nat)

  /** What the reader does at the head of `bytes`: one whole, well-formed frame, or nothing. */
  function ReadFrame(c: Codec, bytes: seq<byte>): (f: FrameRead)
    ensures f.Took? ==> 4 < f.size <= |bytes|
  {
    if |bytes| < 4 then Stop
    else
      var n := Uint32(bytes[..4]);
      if n == 0 || n > MAX_RECORD_LEN || |bytes| < 4 + n then Stop
      else match c.decode(bytes[4..4 + n])
        case None => Stop
        case Some(r) => Took(r, 4 + n)
  }

  function Parse(c: Codec, bytes: seq<byte>): (s: Scan)
    ensures s.consumed <= |bytes|
    decreases |bytes|
  {
    match ReadFrame(c, bytes)
    case Stop => Scan([], 0)
    case Took(r, k) =>
      var rest := Parse(c, bytes[k..]);
      Scan([r] + rest.records, k + rest.consumed)
  }

  /** `readRecords`: the loop over the file; `consumed` is also the reader's offset. */
  method ReadRecords(c: Codec, bytes: seq<byte>) returns (records: seq<Record>, consumed: nat)
    ensures Scan(records, consumed) == Parse(c, bytes)
  {
    records, consumed := [], 0;
    assert bytes[0..] == bytes;
    assert Resumes(c, bytes, [], 0);
    hide Resumes;
    while true
      invariant consumed <= |bytes|
      invariant Resumes(c, bytes, records, consumed)
      decreases |bytes| - consumed
    {
      match ReadFrame(c, bytes[consumed..]) {
        case Stop =>
          ResumedToEnd(c, bytes, records, consumed);
          break;
        case Took(rec, size) =>
          ResumesAfterFrame(c, bytes, records, consumed);
          records := records + [rec];
          consumed := consumed + size;
      }
    }
  }

  /** Reading `bytes` from the start amounts to having `records` at offset `at` and reading on. */
  ghost predicate Resumes(c: Codec, bytes: seq<byte>, records: seq<Record>, at: nat)
    requires at <= |bytes|
  {
    var rest := Parse(c, bytes[at..]);
    Parse(c, bytes) == Scan(records + rest.records, at + rest.consumed)
  }

  lemma ResumedToEnd(c: Codec, bytes: seq<byte>, records: seq<Record>, at: nat)
    requires at <= |bytes| && Resumes(c, bytes, records, at)
    requires ReadFrame(c, bytes[at..]).Stop?
    ensures Parse(c, bytes) == Scan(records, at)
  {
  }

  lemma ResumesAfterFrame(c: Codec, bytes: seq<byte>, records: seq<Record>, at: nat)
    requires at <= |bytes| && Resumes(c, bytes, records, at)
    requires ReadFrame(c, bytes[at..]).Took?
    ensures var f := ReadFrame(c, bytes[at..]);
      Resumes(c, bytes, records + [f.record], at + f.size)
  {
  }
}
