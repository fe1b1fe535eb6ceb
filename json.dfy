/**
 * JSON string literals as `JSON.stringify` writes them (the QuoteJSONString
 * operation of ECMA-262), and a reader for them. The cache key of the
 * assignment list embeds the JSON text of the order clause, so whether two
 * different clauses can share a key comes down to whether this quoting loses
 * information; the round-trip lemma below says it does not.
 */
module Json {
  import opened Wrappers

  /** A lower-case hexadecimal digit, as `JSON.stringify` writes them. */
  function HexDigit(d: int): char
    requires 0 <= d < 16
  {
    if d < 10 then ('0' as int + d) as char else ('a' as int + d - 10) as char
  }

  /** The value of a hexadecimal digit of either case. */
  function HexValue(c: char): Option<int> {
    if '0' <= c <= '9' then Some(c as int - '0' as int)
    else if 'a' <= c <= 'f' then Some(c as int - 'a' as int + 10)
    else if 'A' <= c <= 'F' then Some(c as int - 'A' as int + 10)
    else None
  }

  /** The JSON text of one character inside a string literal. */
  function EscapeChar(c: char): string {
    if c == '"' then "\\\""
    else if c == '\\' then "\\\\"
    else if c as int == 0x08 then "\\b"
    else if c as int == 0x0C then "\\f"
    else if c == '\n' then "\\n"
    else if c == '\r' then "\\r"
    else if c == '\t' then "\\t"
    else if c as int < 0x20 then "\\u00" + [HexDigit(c as int / 16), HexDigit(c as int % 16)]
    else [c]
  }

  /** The JSON text of the characters of a string literal, without the quotes. */
  function Escape(s: string): string
    decreases |s|
  {
    if s == [] then [] else EscapeChar(s[0]) + Escape(s[1..])
  }

  /** `JSON.stringify` of a string. */
  function Quote(s: string): string {
    "\"" + Escape(s) + "\""
  }

  /** The character an escape sequence stands for, given the text after the backslash, and how many characters it uses. */
  function Unescape(t: string): (r: Option<(char, nat)>)
    ensures r.Some? ==> 1 <= r.value.1 <= |t|
  {
    if |t| == 0 then None
    else if t[0] == '"' then Some(('"', 1))
    else if t[0] == '\\' then Some(('\\', 1))
    else if t[0] == '/' then Some(('/', 1))
    else if t[0] == 'b' then Some((0x08 as char, 1))
    else if t[0] == 'f' then Some((0x0C as char, 1))
    else if t[0] == 'n' then Some(('\n', 1))
    else if t[0] == 'r' then Some(('\r', 1))
    else if t[0] == 't' then Some(('\t', 1))
    else if t[0] == 'u' && |t| >= 5 then
      match (HexValue(t[1]), HexValue(t[2]), HexValue(t[3]), HexValue(t[4]))
      case (Some(a), Some(b), Some(c), Some(d)) =>
        var v := ((a * 16 + b) * 16 + c) * 16 + d;
        if 0 <= v < 0xD800 || 0xE000 <= v < 0x1_0000 then Some((v as char, 5)) else None
      case _ => None
    else None
  }

  /** Puts a decoded character in front of a decoded text. */
  function Prepend(c: char, r: Option<(string, string)>): Option<(string, string)> {
    match r
    case None => None
    case Some((t, rest)) => Some(([c] + t, rest))
  }

  /**
   * Reads the inside of a string literal up to its closing quote: the decoded
   * text and what follows the quote.
   */
  function ReadBody(s: string): (r: Option<(string, string)>)
    ensures r.Some? ==> |r.value.1| < |s|
    decreases |s|
  {
    if |s| == 0 then None
    else if s[0] == '"' then Some(("", s[1..]))
    else if s[0] == '\\' then
      match Unescape(s[1..])
      case None => None
      case Some((c, n)) => Prepend(c, ReadBody(s[1 + n..]))
    else Prepend(s[0], ReadBody(s[1..]))
  }

  /** Reads a string literal at the front of `s`: its value and the text after it. */
  function ReadString(s: string): (r: Option<(string, string)>)
    ensures r.Some? ==> |r.value.1| < |s|
  {
    if |s| > 0 && s[0] == '"' then ReadBody(s[1..]) else None
  }

  /** The reader undoes the escape of one character, whatever follows it. */
  lemma ReadEscapedChar(c: char, t: string)
    ensures ReadBody(EscapeChar(c) + t) == Prepend(c, ReadBody(t))
  {
    var s := EscapeChar(c) + t;
    var e := EscapeChar(c);
    if c as int < 0x20 && c != '\n' && c != '\r' && c != '\t' && c as int != 0x08 && c as int != 0x0C {
      var hi, lo := c as int / 16, c as int % 16;
      assert e == ['\\', 'u', '0', '0', HexDigit(hi), HexDigit(lo)];
      assert HexValue(HexDigit(hi)) == Some(hi);
      assert HexValue(HexDigit(lo)) == Some(lo);
      assert s[1..][..5] == ['u', '0', '0', HexDigit(hi), HexDigit(lo)];
      assert Unescape(s[1..]) == Some((c, 5));
      assert s[6..] == t;
    } else if |e| == 2 {
      assert s[0] == '\\';
      assert s[2..] == t;
    } else {
      assert e == [c];
      assert s[1..] == t;
    }
  }

  /** Reading back the escaped text of `x` followed by a closing quote yields `x` and what follows. */
  lemma {:induction false} ReadEscaped(x: string, rest: string)
    ensures ReadBody(Escape(x) + "\"" + rest) == Some((x, rest))
    decreases |x|
  {
    if x == [] {
      assert Escape(x) + "\"" + rest == "\"" + rest;
    } else {
      var t := Escape(x[1..]) + "\"" + rest;
      assert Escape(x) + "\"" + rest == EscapeChar(x[0]) + t;
      ReadEscapedChar(x[0], t);
      ReadEscaped(x[1..], rest);
      assert [x[0]] + x[1..] == x;
    }
  }

  /** `ReadString` inverts `Quote`: the JSON text of a string gives the string back. */
  lemma QuoteRoundTrip(x: string, rest: string)
    ensures ReadString(Quote(x) + rest) == Some((x, rest))
  {
    var s := Quote(x) + rest;
    assert s[1..] == Escape(x) + "\"" + rest;
    ReadEscaped(x, rest);
  }
}
