/** Rendering of one context record as a line of ASCII JSON, and the token estimate of a text. */
module ContextRendering {
  import opened Utf8

  datatype Source = Changed | DirectDependency

  predicate Ascii(s: string) {
    forall i :: 0 <= i < |s| ==> s[i] as int < 0x80
  }

  function Hex(n: nat): (c: char)
    requires n < 16
    ensures c as int < 0x80
  {
    if n < 10 then ('0' as int + n) as char else ('a' as int + n - 10) as char
  }

  /** A backslash, `u` and four hexadecimal digits. */
  function UnicodeEscape(n: nat): (s: string)
    requires n < 0x10000
    ensures |s| == 6 && Ascii(s)
  {
    ['\\', 'u', Hex(n / 4096), Hex(n / 256 % 16), Hex(n / 16 % 16), Hex(n % 16)]
  }

  /** JSON string escapes; a character beyond the basic plane becomes a surrogate pair. */
  function EscapeChar(c: char): (s: string)
    ensures s != [] && Ascii(s)
  {
    var n := c as int;
    if c == '"' then "\\\""
    else if c == '\\' then "\\\\"
    else if c == '\n' then "\\n"
    else if c == '\r' then "\\r"
    else if c == '\t' then "\\t"
    else if n == 8 then "\\b"
    else if n == 12 then "\\f"
    else if 0x20 <= n <= 0x7E then [c]
    else if n < 0x10000 then UnicodeEscape(n)
    else
      var v := n - 0x10000;
      UnicodeEscape(0xD800 + v / 1024) + UnicodeEscape(0xDC00 + v % 1024)
  }

  function Escape(s: string): (e: string)
    ensures Ascii(e)
  {
    if s == "" then "" else Escape(s[..|s| - 1]) + EscapeChar(s[|s| - 1])
  }

  function SourceText(source: Source): (s: string)
    ensures Ascii(s)
  {
    match source
    case Changed => "changed"
    case DirectDependency => "direct_dependency"
  }

  function PathField(): (s: string)
    ensures Ascii(s)
  {
    "{\"path\":\""
  }

  function SourceField(): (s: string)
    ensures Ascii(s)
  {
    "\",\"source\":\""
  }

  function FlagField(): (s: string)
    ensures Ascii(s)
  {
    "\",\"truncated\":"
  }

  function Opening(path: string, source: Source): (s: string)
    ensures Ascii(s)
  {
    hide PathField, SourceField, FlagField, Escape, SourceText;
    PathField() + Escape(path) + SourceField() + SourceText(source) + FlagField()
  }

  function Flag(truncated: bool): (s: string)
    ensures Ascii(s) && |s| == if truncated then 16 else 17
  {
    if truncated then "true,\"content\":\"" else "false,\"content\":\""
  }

  function Closing(): (s: string)
    ensures Ascii(s) && |s| == 3
  {
    "\"}\n"
  }

  function Render(path: string, source: Source, content: string, truncated: bool): (s: string)
    ensures Ascii(s)
    ensures |s| == |Opening(path, source)| + (if truncated then 16 else 17) + |Escape(content)| + 3
  {
    hide Opening, Flag, Closing, Escape;
    Opening(path, source) + Flag(truncated) + Escape(content) + Closing()
  }

  function EstimateTokens(s: string): nat {
    if s == "" then 0 else (Utf8Length(s) + 2) / 3
  }

  lemma {:induction false} AsciiLength(s: string)
    requires Ascii(s)
    ensures Utf8Length(s) == |s|
    ensures EstimateTokens(s) == (|s| + 2) / 3
  {
    if s == "" {
    } else {
      AsciiLength(s[..|s| - 1]);
    }
  }

  /** Each further character lengthens the escaped text. */
  lemma {:induction false} EscapeGrows(s: string, m: nat, n: nat)
    requires m <= n <= |s|
    ensures |Escape(s[..m])| + (n - m) <= |Escape(s[..n])|
  {
    if m == n {
    } else {
      assert s[..n][..n - 1] == s[..n - 1];
      EscapeGrows(s, m, n - 1);
    }
  }

  // ---------------------------------------------------------------- reading a record back

  function HexValue(c: char): (n: nat)
    ensures n < 16
  {
    if '0' <= c <= '9' then c as int - '0' as int else if 'a' <= c <= 'f' then c as int - 'a' as int + 10 else 0
  }

  function FourHex(e: string): (n: nat)
    requires |e| == 4
    ensures n < 0x10000
  {
    4096 * HexValue(e[0]) + 256 * HexValue(e[1]) + 16 * HexValue(e[2]) + HexValue(e[3])
  }

  function ShortEscape(c: char): char {
    match c
    case 'n' => '\n'
    case 'r' => '\r'
    case 't' => '\t'
    case 'b' => 8 as char
    case 'f' => 12 as char
    case _ => c
  }

  /** The character beyond the basic plane of a surrogate pair. */
  function FromPair(high: nat, low: nat): char {
    if 0xD800 <= high < 0xDC00 <= low < 0xE000 then (0x10000 + (high - 0xD800) * 1024 + (low - 0xDC00)) as char else '?'
  }

  /** Reads the characters of an escaped JSON string. */
  function Unescape(e: string): string {
    if e == "" then ""
    else if e[0] != '\\' || |e| == 1 then [e[0]] + Unescape(e[1..])
    else if e[1] != 'u' || |e| < 6 then [ShortEscape(e[1])] + Unescape(e[2..])
    else
      var n := FourHex(e[2..6]);
      if n < 0xD800 || 0xE000 <= n then [n as char] + Unescape(e[6..])
      else if |e| < 12 then "?"
      else [FromPair(n, FourHex(e[8..12]))] + Unescape(e[12..])
  }

  lemma HexRoundTrip(n: nat)
    requires n < 16
    ensures HexValue(Hex(n)) == n
  {
  }

  lemma FourHexRoundTrip(n: nat)
    requires n < 0x10000
    ensures FourHex(UnicodeEscape(n)[2..6]) == n
  {
    hide Hex, HexValue;
    HexRoundTrip(n / 4096);
    HexRoundTrip(n / 256 % 16);
    HexRoundTrip(n / 16 % 16);
    HexRoundTrip(n % 16);
    Digits(n);
    var digits := UnicodeEscape(n)[2..6];
    assert digits == [Hex(n / 4096), Hex(n / 256 % 16), Hex(n / 16 % 16), Hex(n % 16)];
  }

  lemma Digits(n: nat)
    ensures 4096 * (n / 4096) + 256 * (n / 256 % 16) + 16 * (n / 16 % 16) + n % 16 == n
  {
    assert n / 256 == n / 16 / 16 && n / 4096 == n / 16 / 16 / 16;
  }

  lemma UnescapeUnicode(c: char, rest: string)
    requires c as int < 0x10000
    ensures Unescape(UnicodeEscape(c as int) + rest) == [c] + Unescape(rest)
  {
    hide FourHex, Hex;
    FourHexRoundTrip(c as int);
    var e := UnicodeEscape(c as int) + rest;
    assert e[2..6] == UnicodeEscape(c as int)[2..6] && e[6..] == rest;
  }

  lemma UnescapePair(c: char, rest: string)
    requires c as int >= 0x10000
    ensures Unescape(EscapeChar(c) + rest) == [c] + Unescape(rest)
  {
    hide FourHex, Hex;
    var v := c as int - 0x10000;
    var high, low := 0xD800 + v / 1024, 0xDC00 + v % 1024;
    FourHexRoundTrip(high);
    FourHexRoundTrip(low);
    var e := EscapeChar(c) + rest;
    assert e == UnicodeEscape(high) + (UnicodeEscape(low) + rest);
    assert e[2..6] == UnicodeEscape(high)[2..6] && e[8..12] == UnicodeEscape(low)[2..6] && e[12..] == rest;
    assert FromPair(high, low) == c;
  }

  lemma UnescapeChar(c: char, rest: string)
    ensures Unescape(EscapeChar(c) + rest) == [c] + Unescape(rest)
  {
    hide UnicodeEscape, FourHex;
    var n, e := c as int, EscapeChar(c) + rest;
    if c in ['"', '\\', '\n', '\r', '\t'] || n == 8 || n == 12 {
      assert e[2..] == rest;
    } else if 0x20 <= n <= 0x7E {
      assert e[1..] == rest;
    } else if n < 0x10000 {
      UnescapeUnicode(c, rest);
    } else {
      UnescapePair(c, rest);
    }
  }

  lemma {:induction false} UnescapeEscape(s: string, rest: string)
    ensures Unescape(Escape(s) + rest) == s + Unescape(rest)
  {
    hide Unescape, EscapeChar;
    if s == "" {
      assert Escape(s) + rest == rest;
    } else {
      var front, c := s[..|s| - 1], s[|s| - 1];
      UnescapeEscape(front, EscapeChar(c) + rest);
      UnescapeChar(c, rest);
      assert Escape(s) + rest == Escape(front) + (EscapeChar(c) + rest);
    }
  }

  lemma NoQuoteInUnicode(n: nat)
    requires n < 0x10000
    ensures '"' !in UnicodeEscape(n)
  {
  }

  /** An unescaped quote would end the string early; in an escaped text one only follows a backslash. */
  lemma {:induction false} QuotesAreEscaped(s: string, i: nat)
    requires i < |Escape(s)| && Escape(s)[i] == '"'
    ensures i > 0 && Escape(s)[i - 1] == '\\'
  {
    var front, c := s[..|s| - 1], s[|s| - 1];
    if i < |Escape(front)| {
      QuotesAreEscaped(front, i);
    } else {
      QuoteOfChar(c, i - |Escape(front)|);
    }
  }

  lemma QuoteOfChar(c: char, i: nat)
    requires i < |EscapeChar(c)| && EscapeChar(c)[i] == '"'
    ensures i == 1 && EscapeChar(c)[0] == '\\'
  {
    hide UnicodeEscape;
    var n := c as int;
    if 0x7E < n < 0x10000 || n < 0x20 {
      NoQuoteInUnicode(n);
    } else if n >= 0x10000 {
      var v := n - 0x10000;
      NoQuoteInUnicode(0xD800 + v / 1024);
      NoQuoteInUnicode(0xDC00 + v % 1024);
    }
  }

  /** A record is one line of JSON with these four members in this order. */
  lemma RecordFormat(path: string, source: Source, content: string, truncated: bool)
    ensures Render(path, source, content, truncated) ==
            "{\"path\":\"" + Escape(path) + "\",\"source\":\""
            + (match source case Changed => "changed" case DirectDependency => "direct_dependency")
            + "\",\"truncated\":" + (if truncated then "true" else "false")
            + ",\"content\":\"" + Escape(content) + "\"}\n"
  {
    hide Escape, Opening, Flag;
    OpeningFormat(path, source);
    FlagFormat(truncated);
    Reassociate(Opening(path, source), if truncated then "true" else "false", ",\"content\":\"",
                Escape(content) + Closing());
  }

  lemma OpeningFormat(path: string, source: Source)
    ensures Opening(path, source) ==
            "{\"path\":\"" + Escape(path) + "\",\"source\":\""
            + (match source case Changed => "changed" case DirectDependency => "direct_dependency")
            + "\",\"truncated\":"
  {
    hide Escape;
  }

  lemma FlagFormat(truncated: bool)
    ensures Flag(truncated) == (if truncated then "true" else "false") + ",\"content\":\""
  {
  }

  lemma Reassociate(a: string, b: string, c: string, d: string)
    ensures a + (b + c) + d == a + b + c + d
  {
  }

  /** Reading the members back gives the path and the content, character by character. */
  lemma RecordRoundTrip(path: string, content: string)
    ensures Unescape(Escape(path)) == path && Unescape(Escape(content)) == content
  {
    hide Unescape, Escape;
    UnescapeEscape(path, "");
    UnescapeEscape(content, "");
    assert Escape(path) + "" == Escape(path) && Escape(content) + "" == Escape(content);
    assert Unescape("") == "" by {
      UnescapesNothing();
    }
  }

  lemma UnescapesNothing()
    ensures Unescape("") == ""
  {
  }
}
