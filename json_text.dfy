/**
 * How Go's encoding/json writes a string value (the HTML-safe encoder that
 * json.Marshal uses), and a decoder for JSON string literals that undoes it.
 * The error bodies of apierror/api.go and the `{"value": ...}` body that the
 * create handler returns are both built from this encoding.
 */
module JsonText {
  import opened Wrappers

  const HexDigits: string := "0123456789abcdef"

  /** The `\u00XY` form Go uses for control characters and for <, > and &. */
  function UnicodeEscape(c: char): string
    requires c as int < 0x100
  {
    ['\\', 'u', '0', '0', HexDigits[c as int / 16], HexDigits[c as int % 16]]
  }

  /** True for the characters Go's HTML-safe encoder never writes raw. */
  predicate NeedsUnicodeEscape(c: char)
  {
    (c < ' ' && c != '\n' && c != '\r' && c != '\t') || c == '<' || c == '>' || c == '&'
  }

  /** The text Go writes for one character of a string value. */
  function EscapeChar(c: char): string
  {
    if c == '"' then ['\\', '"']
    else if c == '\\' then ['\\', '\\']
    else if c == '\n' then ['\\', 'n']
    else if c == '\r' then ['\\', 'r']
    else if c == '\t' then ['\\', 't']
    else if NeedsUnicodeEscape(c) then UnicodeEscape(c)
    else if c == '\U{2028}' then ['\\', 'u', '2', '0', '2', '8']
    else if c == '\U{2029}' then ['\\', 'u', '2', '0', '2', '9']
    else [c]
  }

  /** The body of a JSON string literal, without the surrounding quotes. */
  function Escape(s: string): string
  {
    if s == [] then [] else EscapeChar(s[0]) + Escape(s[1..])
  }

  /** A complete JSON string literal. */
  function Quote(s: string): string
  {
    ['"'] + Escape(s) + ['"']
  }

  function HexValue(c: char): Option<nat>
  {
    if '0' <= c <= '9' then Some(c as nat - '0' as nat)
    else if 'a' <= c <= 'f' then Some(c as nat - 'a' as nat + 10)
    else if 'A' <= c <= 'F' then Some(c as nat - 'A' as nat + 10)
    else None
  }

  /** The code unit written by the four hex digits of a `\uXXXX` escape. */
  function CodeUnit(s: string): Option<nat>
    requires |s| == 4
  {
    match (HexValue(s[0]), HexValue(s[1]), HexValue(s[2]), HexValue(s[3]))
    case (Some(a), Some(b), Some(c), Some(d)) => Some(((a * 16 + b) * 16 + c) * 16 + d)
    case _ => None
  }

  function Prepend(c: char, r: Option<(string, string)>): Option<(string, string)>
  {
    match r
    case None => None
    case Some((v, rest)) => Some(([c] + v, rest))
  }

  /**
   * Reads the body of a JSON string literal whose opening quote has already
   * been consumed. Returns the decoded value and the text after the closing
   * quote, or None when the literal is malformed. Escapes that name a
   * surrogate half are refused (Go never writes them for a valid string).
   */
  function DecodeString(s: string): Option<(string, string)>
    decreases |s|
  {
    if s == [] then None
    else if s[0] == '"' then Some(([], s[1..]))
    else if s[0] == '\\' then
      if |s| < 2 then None
      else if s[1] == '"' then Prepend('"', DecodeString(s[2..]))
      else if s[1] == '\\' then Prepend('\\', DecodeString(s[2..]))
      else if s[1] == '/' then Prepend('/', DecodeString(s[2..]))
      else if s[1] == 'n' then Prepend('\n', DecodeString(s[2..]))
      else if s[1] == 'r' then Prepend('\r', DecodeString(s[2..]))
      else if s[1] == 't' then Prepend('\t', DecodeString(s[2..]))
      else if s[1] == 'u' && |s| >= 6 then
        match CodeUnit(s[2..6])
        case Some(n) =>
          if 0xD800 <= n < 0xE000 then None
          else Prepend(n as char, DecodeString(s[6..]))
        case None => None
      else None
    else if s[0] < ' ' then None
    else Prepend(s[0], DecodeString(s[1..]))
  }

  lemma HexDigitRoundTrip(d: nat)
    requires d < 16
    ensures HexValue(HexDigits[d]) == Some(d)
  {
  }

  /** Decoding one escaped character yields that character and leaves the rest. */
  lemma DecodeEscapeChar(c: char, tail: string)
    ensures DecodeString(EscapeChar(c) + tail) == Prepend(c, DecodeString(tail))
  {
    var s := EscapeChar(c) + tail;
    if c == '"' || c == '\\' || c == '\n' || c == '\r' || c == '\t' {
      assert s[2..] == tail;
    } else if NeedsUnicodeEscape(c) {
      var hi, lo := c as int / 16, c as int % 16;
      HexDigitRoundTrip(hi);
      HexDigitRoundTrip(lo);
      assert s[2..6] == ['0', '0', HexDigits[hi], HexDigits[lo]];
      assert CodeUnit(s[2..6]) == Some(c as nat);
      assert s[6..] == tail;
    } else if c == '\U{2028}' || c == '\U{2029}' {
      assert s[6..] == tail;
    } else {
      assert s[1..] == tail;
    }
  }

  /** Whatever Escape writes, DecodeString reads back, stopping at the closing quote. */
  lemma {:induction false} EscapeRoundTrip(s: string, rest: string)
    ensures DecodeString(Escape(s) + ['"'] + rest) == Some((s, rest))
  {
    if s == [] {
      assert Escape(s) + ['"'] + rest == ['"'] + rest;
    } else {
      EscapeRoundTrip(s[1..], rest);
      var tail := Escape(s[1..]) + ['"'] + rest;
      assert Escape(s) + ['"'] + rest == EscapeChar(s[0]) + tail;
      DecodeEscapeChar(s[0], tail);
      assert [s[0]] + s[1..] == s;
    }
  }

  /** A quoted string literal is read back whole, and the text after it is left untouched. */
  lemma QuoteRoundTrip(s: string, rest: string)
    ensures |Quote(s) + rest| > 0 && (Quote(s) + rest)[0] == '"'
    ensures DecodeString((Quote(s) + rest)[1..]) == Some((s, rest))
  {
    assert (Quote(s) + rest)[1..] == Escape(s) + ['"'] + rest;
    EscapeRoundTrip(s, rest);
  }
}
