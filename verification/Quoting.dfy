/** `strconv.Quote`, and a reader that shows it is self-delimiting: whatever follows, the value comes back. */
module Quoting {
  import opened Basics

  predicate ValidCode(n: nat) {
    n < 0xD800 || 0xE000 <= n < 0x11_0000
  }

  function HexDigit(d: nat): (c: char)
    requires d < 16
  {
    if d < 10 then '0' + d as char else 'a' + (d - 10) as char
  }

  function HexValue(c: char): (d: Option<nat>)
    ensures d.Some? ==> d.value < 16
  {
    if '0' <= c <= '9' then Some((c - '0') as nat)
    else if 'a' <= c <= 'f' then Some(10 + (c - 'a') as nat)
    else None
  }

  /** The low `width` hexadecimal digits of `n`. */
  function Hex(n: nat, width: nat): (s: string)
    ensures |s| == width
  {
    if width == 0 then [] else Hex(n / 16, width - 1) + [HexDigit(n % 16)]
  }

  function Unhex(s: string): Option<nat> {
    if s == [] then Some(0)
    else
      var high, low := Unhex(s[..|s| - 1]), HexValue(s[|s| - 1]);
      if high.Some? && low.Some? then Some(high.value * 16 + low.value) else None
  }

  /** One character inside the quotes; `printable` is `strconv.IsPrint`. */
  function Escape(printable: char -> bool, c: char): (s: string)
    ensures s != []
  {
    var n := c as int;
    if c == '"' || c == '\\' then ['\\', c]
    else if printable(c) then [c]
    else if n == 7 then "\\a"
    else if n == 8 then "\\b"
    else if n == 12 then "\\f"
    else if n == 10 then "\\n"
    else if n == 13 then "\\r"
    else if n == 9 then "\\t"
    else if n == 11 then "\\v"
    else if n < 0x20 || n == 0x7f then "\\x" + Hex(n, 2)
    else if n < 0x1_0000 then "\\u" + Hex(n, 4)
    else "\\U" + Hex(n, 8)
  }

  function EscapeAll(printable: char -> bool, s: string): string {
    if s == [] then [] else Escape(printable, s[0]) + EscapeAll(printable, s[1..])
  }

  function Quote(printable: char -> bool, s: string): string {
    "\"" + EscapeAll(printable, s) + "\""
  }

  // ---- Reading back ----

  datatype CharRead = NoChar | Char(c: char, size: nat)

  function ReadHex(s: string, start: nat, width: nat): (r: CharRead)
    ensures r.Char? ==> 0 < r.size <= |s|
  {
    if width == 0 || |s| < start + width then NoChar
    else match Unhex(s[start..start + width])
      case None => NoChar
      case Some(n) => if ValidCode(n) then Char(n as char, start + width) else NoChar
  }

  /** Reads one possibly escaped character. */
  function ReadChar(s: string): (r: CharRead)
    ensures r.Char? ==> 0 < r.size <= |s|
  {
    if s == [] then NoChar
    else if s[0] != '\\' then Char(s[0], 1)
    else if |s| < 2 then NoChar
    else match s[1]
      case '"' => Char('"', 2)
      case '\\' => Char('\\', 2)
      case 'a' => Char(7 as char, 2)
      case 'b' => Char(8 as char, 2)
      case 'f' => Char(12 as char, 2)
      case 'n' => Char(10 as char, 2)
      case 'r' => Char(13 as char, 2)
      case 't' => Char(9 as char, 2)
      case 'v' => Char(11 as char, 2)
      case 'x' => ReadHex(s, 2, 2)
      case 'u' => ReadHex(s, 2, 4)
      case 'U' => ReadHex(s, 2, 8)
      case _ => NoChar
  }

  datatype TextRead = NoText | Text(text: string, rest: string)

  /** Reads up to and including the closing quote. */
  function ReadBody(s: string): (r: TextRead)
    ensures r.Text? ==> |r.rest| < |s|
    decreases |s|
  {
    if s == [] then NoText
    else if s[0] == '"' then Text([], s[1..])
    else match ReadChar(s)
      case NoChar => NoText
      case Char(c, n) =>
        match ReadBody(s[n..])
        case NoText => NoText
        case Text(t, rest) => Text([c] + t, rest)
  }

  function ReadQuoted(s: string): (r: TextRead)
    ensures r.Text? ==> |r.rest| < |s|
  {
    if s == [] || s[0] != '"' then NoText else ReadBody(s[1..])
  }

  function Power16(width: nat): nat {
    if width == 0 then 1 else 16 * Power16(width - 1)
  }

  lemma {:induction false} HexRoundTrip(n: nat, width: nat)
    requires n < Power16(width)
    ensures Unhex(Hex(n, width)) == Some(n)
  {
    if width > 0 {
      HexRoundTrip(n / 16, width - 1);
      var s := Hex(n, width);
      assert s[..|s| - 1] == Hex(n / 16, width - 1);
    }
  }

  lemma ReadHexRoundTrip(c: char, prefix: string, width: nat, rest: string)
    requires |prefix| == 2 && width > 0 && c as int < Power16(width)
    ensures ReadHex(prefix + Hex(c as int, width) + rest, 2, width) == Char(c, 2 + width)
  {
    HexRoundTrip(c as int, width);
    var s := prefix + Hex(c as int, width) + rest;
    assert s[2..2 + width] == Hex(c as int, width);
  }

  lemma Widths(c: char)
    ensures Power16(2) == 0x100 && Power16(4) == 0x1_0000 && Power16(8) == 0x1_0000_0000
  {
  }

  lemma ReadHexEscape(printable: char -> bool, c: char, rest: string)
    requires var e := Escape(printable, c); |e| > 2
    ensures ReadChar(Escape(printable, c) + rest) == Char(c, |Escape(printable, c)|)
  {
    Widths(c);
    var n := c as int;
    if n < 0x20 || n == 0x7f {
      ReadHexRoundTrip(c, "\\x", 2, rest);
    } else if n < 0x1_0000 {
      ReadHexRoundTrip(c, "\\u", 4, rest);
    } else {
      ReadHexRoundTrip(c, "\\U", 8, rest);
    }
  }

  lemma ReadShortEscape(printable: char -> bool, c: char, rest: string)
    requires var e := Escape(printable, c); |e| <= 2
    ensures ReadChar(Escape(printable, c) + rest) == Char(c, |Escape(printable, c)|)
  {
  }

  lemma ReadEscape(printable: char -> bool, c: char, rest: string)
    ensures ReadChar(Escape(printable, c) + rest) == Char(c, |Escape(printable, c)|)
    ensures Escape(printable, c)[0] != '"'
  {
    hide ReadChar;
    if |Escape(printable, c)| > 2 {
      ReadHexEscape(printable, c, rest);
    } else {
      ReadShortEscape(printable, c, rest);
    }
  }

  lemma {:induction false} ReadBodyRoundTrip(printable: char -> bool, s: string, rest: string)
    ensures ReadBody(EscapeAll(printable, s) + "\"" + rest) == Text(s, rest)
  {
    hide Escape, ReadChar;
    if s == [] {
      assert (EscapeAll(printable, s) + "\"" + rest)[1..] == rest;
    } else {
      var e := Escape(printable, s[0]);
      var tail := EscapeAll(printable, s[1..]) + "\"" + rest;
      var whole := EscapeAll(printable, s) + "\"" + rest;
      assert whole == e + tail;
      ReadEscape(printable, s[0], tail);
      assert whole[0] == e[0] && whole[|e|..] == tail;
      ReadBodyRoundTrip(printable, s[1..], rest);
      assert s == [s[0]] + s[1..];
    }
  }

  /** A quoted value can be read off the front of any text. */
  lemma QuoteIsSelfDelimiting(printable: char -> bool, s: string, rest: string)
    ensures ReadQuoted(Quote(printable, s) + rest) == Text(s, rest)
  {
    hide EscapeAll, ReadBody;
    ReadBodyRoundTrip(printable, s, rest);
    assert (Quote(printable, s) + rest)[1..] == EscapeAll(printable, s) + "\"" + rest;
  }

  /** Plain printable text is only put between quotes. */
  lemma PlainQuote(printable: char -> bool, s: string)
    requires forall i :: 0 <= i < |s| ==> printable(s[i]) && s[i] != '"' && s[i] != '\\'
    ensures Quote(printable, s) == "\"" + s + "\""
  {
    PlainEscape(printable, s);
  }

  lemma {:induction false} PlainEscape(printable: char -> bool, s: string)
    requires forall i :: 0 <= i < |s| ==> printable(s[i]) && s[i] != '"' && s[i] != '\\'
    ensures EscapeAll(printable, s) == s
  {
    if s != [] {
      PlainEscape(printable, s[1..]);
      assert Escape(printable, s[0]) == [s[0]];
    }
  }
}
