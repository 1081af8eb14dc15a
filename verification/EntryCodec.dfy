/** The wire form of a log entry: a tuple of a decimal timestamp, a line and, if any, metadata. */
module EntryCodec {
  import opened Basics
  import opened Alerts
  import opened Checkpoint
  import opened Timestamps

  /** A JSON value, past its text. */
  datatype Json = Null | Text(text: string) | Object(members: map<string, Json>) | Array(items: seq<Json>) | Scalar

  const MIN_INT64: int := -0x8000_0000_0000_0000
  const MAX_INT64: int := 0x7FFF_FFFF_FFFF_FFFF

  /** `strconv.FormatInt(n, 10)` */
  function FormatInt(n: int): string {
    if n < 0 then "-" + Decimal(-n) else Decimal(n)
  }

  /** `strconv.ParseInt(s, 10, 64)` */
  function ParseInt(s: string): Option<int> {
    var signed := s != [] && (s[0] == '-' || s[0] == '+');
    var digits := if signed then s[1..] else s;
    if digits == [] || DigitRun(digits) < |digits| then None
    else
      var magnitude: int := Value(digits[..DigitRun(digits)]);
      var value := if signed && s[0] == '-' then -magnitude else magnitude;
      if MIN_INT64 <= value <= MAX_INT64 then Some(value) else None
  }

  function ObjectOf(meta: Labels): Json {
    Object(map k | k in meta :: Text(meta[k]))
  }

  function Marshal(r: Row): Json {
    if |r.meta| == 0 then Array([Text(FormatInt(r.at)), Text(r.line)])
    else Array([Text(FormatInt(r.at)), Text(r.line), ObjectOf(r.meta)])
  }

  /** Decoding into a Go string: null leaves it empty. */
  function TextIn(j: Json): Option<string> {
    match j
    case Null => Some("")
    case Text(s) => Some(s)
    case _ => None
  }

  /** Decoding into a Go map of strings: null leaves it nil. */
  function MapIn(j: Json): Option<Labels> {
    match j
    case Null => Some(map[])
    case Object(m) =>
      if forall k :: k in m ==> TextIn(m[k]).Some? then Some(map k | k in m :: TextIn(m[k]).value) else None
    case _ => None
  }

  function Unmarshal(j: Json): Option<Row> {
    if !j.Array? || |j.items| < 2 || |j.items| > 3 then None
    else
      var ts, line := TextIn(j.items[0]), TextIn(j.items[1]);
      if ts.None? || line.None? || ParseInt(ts.value).None? then None
      else if |j.items| == 2 then Some(Row(ParseInt(ts.value).value, line.value, map[]))
      else if MapIn(j.items[2]).None? then None
      else Some(Row(ParseInt(ts.value).value, line.value, MapIn(j.items[2]).value))
  }

  /** Formatting a 64-bit number and parsing it back, sign included. */
  lemma IntRoundTrip(n: int)
    requires MIN_INT64 <= n <= MAX_INT64
    ensures ParseInt(FormatInt(n)) == Some(n)
  {
    hide Decimal, Value, DigitRun;
    var magnitude: nat := if n < 0 then -n else n;
    var digits := Decimal(magnitude);
    DigitsAreRead(magnitude);
    if n < 0 {
      assert FormatInt(n)[0] == '-' && FormatInt(n)[1..] == digits;
    }
  }

  lemma DigitsAreRead(n: nat)
    ensures DigitRun(Decimal(n)) == |Decimal(n)| && Value(Decimal(n)[..DigitRun(Decimal(n))]) == n
    ensures IsDigit(Decimal(n)[0])
  {
    hide Decimal, Value, DigitRun;
    DecimalIsDigits(n);
    DigitRunOfDigits(Decimal(n));
    assert Decimal(n)[..|Decimal(n)|] == Decimal(n);
  }

  /** An entry with a timestamp that fits in 64 bits of nanoseconds is read back as it was written. */
  lemma RowRoundTrip(r: Row)
    requires MIN_INT64 <= r.at <= MAX_INT64
    ensures Unmarshal(Marshal(r)) == Some(r)
    ensures var tuple := Marshal(r);
      && tuple.Array? && |tuple.items| == (if r.meta == map[] then 2 else 3)
      && tuple.items[0].Text? && ParseInt(tuple.items[0].text) == Some(r.at) && tuple.items[1] == Text(r.line)
  {
    hide FormatInt, ParseInt;
    IntRoundTrip(r.at);
    if |r.meta| == 0 {
      assert r.meta == map[];
    } else {
      var m := ObjectOf(r.meta).members;
      assert forall k :: k in m ==> TextIn(m[k]) == Some(r.meta[k]);
      assert (map k | k in m :: TextIn(m[k]).value) == r.meta;
    }
  }
}
