/**
 Extraction of the first JSON object from tool output.

 Whether a text is accepted by the JSON parser is a parameter; the grammar below is that of RFC 8259.
 */
module JsonExtraction {
  import opened Options

  // ---------------------------------------------------------------- the scanner

  datatype Scanner = Scanner(depth: int, inString: bool, escape: bool)

  /** One character: the next state, and whether it closed the outermost object. */
  function Advance(s: Scanner, ch: char): (Scanner, bool) {
    if s.escape then (s.(escape := false), false)
    else if ch == '\\' && s.inString then (s.(escape := true), false)
    else if ch == '"' then (s.(inString := !s.inString), false)
    else if s.inString then (s, false)
    else if ch == '{' then (s.(depth := s.depth + 1), false)
    else if ch == '}' then (s.(depth := s.depth - 1), s.depth - 1 == 0)
    else (s, false)
  }

  datatype Outcome = Open(scanner: Scanner) | Closed(last: nat)

  /** Scans until the outermost object closes; `last` is the index of its brace. */
  function Run(s: Scanner, text: string): Outcome {
    if text == "" then Open(s)
    else
      match Run(s, text[..|text| - 1])
      case Closed(last) => Closed(last)
      case Open(t) =>
        var (u, closed) := Advance(t, text[|text| - 1]);
        if closed then Closed(|text| - 1) else Open(u)
  }

  const START := Scanner(0, false, false)

  predicate IsSpace(c: char) {
    var n := c as int;
    || 9 <= n <= 13 || 28 <= n <= 32 || n == 0x85 || n == 0xA0 || n == 0x1680 || 0x2000 <= n <= 0x200A
    || n == 0x2028 || n == 0x2029 || n == 0x202F || n == 0x205F || n == 0x3000
  }

  function StripLeft(s: string): string {
    if s != "" && IsSpace(s[0]) then StripLeft(s[1..]) else s
  }

  function StripRight(s: string): string {
    if s != "" && IsSpace(s[|s| - 1]) then StripRight(s[..|s| - 1]) else s
  }

  function Find(s: string, c: char): (i: int)
    ensures i == -1 <==> c !in s
    ensures i != -1 ==> 0 <= i < |s| && s[i] == c && c !in s[..i]
  {
    if s == "" then -1
    else if s[0] == c then 0
    else
      var i := Find(s[1..], c);
      if i == -1 then -1 else assert s[..i + 1] == [s[0]] + s[1..][..i]; i + 1
  }

  function Extract(output: string, parses: string -> bool): Option<string> {
    var start := Find(output, '{');
    if start == -1 then None
    else
      var candidate := StripRight(StripLeft(output[start..]));
      match Run(START, candidate)
      case Open(_) => None
      case Closed(last) =>
        if last < |candidate| && parses(candidate[..last + 1]) then Some(candidate[..last + 1]) else None
  }

  lemma {:induction false} RunBounds(s: Scanner, text: string)
    ensures Run(s, text).Closed? ==> Run(s, text).last < |text|
  {
    if text == "" {
    } else {
      RunBounds(s, text[..|text| - 1]);
    }
  }

  lemma {:induction false} RunStays(s: Scanner, text: string, n: nat)
    requires n <= |text| && Run(s, text[..n]).Closed?
    ensures Run(s, text) == Run(s, text[..n])
  {
    if n == |text| {
      assert text[..n] == text;
    } else {
      assert text[..|text| - 1][..n] == text[..n];
      RunStays(s, text[..|text| - 1], n);
    }
  }

  /** Scans with one pass over the characters. */
  method ExtractJson(output: string, parses: string -> bool) returns (r: Option<string>)
    ensures r == Extract(output, parses)
  {
    var start := Find(output, '{');
    if start == -1 {
      return None;
    }
    var candidate := StripRight(StripLeft(output[start..]));
    var depth, end, inString, escape := 0, -1, false, false;
    for i := 0 to |candidate|
      invariant end == -1 && Run(START, candidate[..i]) == Open(Scanner(depth, inString, escape))
    {
      var ch := candidate[i];
      assert candidate[..i + 1][..i] == candidate[..i];
      if escape {
        escape := false;
      } else if ch == '\\' && inString {
        escape := true;
      } else if ch == '"' {
        inString := !inString;
      } else if inString {
      } else if ch == '{' {
        depth := depth + 1;
      } else if ch == '}' {
        depth := depth - 1;
        if depth == 0 {
          end := i;
          RunStays(START, candidate, i + 1);
          break;
        }
      }
    }
    assert candidate[..|candidate|] == candidate;
    if end == -1 {
      return None;
    }
    var extracted := candidate[..end + 1];
    if !parses(extracted) {
      return None;
    }
    return Some(extracted);
  }

  // ---------------------------------------------------------------- JSON texts

  /** One character of a JSON string as it is written. */
  datatype Item = Raw(c: char) | Escaped(c: char) | Unicode(digits: string)

  predicate IsHex(c: char) {
    '0' <= c <= '9' || 'a' <= c <= 'f' || 'A' <= c <= 'F'
  }

  predicate ItemOk(item: Item) {
    match item
    case Raw(c) => c != '"' && c != '\\' && c >= ' '
    case Escaped(c) => c in "\"\\/bfnrt"
    case Unicode(digits) => |digits| == 4 && forall i :: 0 <= i < 4 ==> IsHex(digits[i])
  }

  function ItemText(item: Item): string {
    match item
    case Raw(c) => [c]
    case Escaped(c) => ['\\', c]
    case Unicode(digits) => "\\u" + digits
  }

  function ItemsText(items: seq<Item>): string {
    if items == [] then "" else ItemsText(items[..|items| - 1]) + ItemText(items[|items| - 1])
  }

  function StringText(items: seq<Item>): string {
    "\"" + ItemsText(items) + "\""
  }

  datatype Value =
    | Literal(text: string)
    | Text(items: seq<Item>)
    | Array(blank: string, elements: Elements)
    | Object(blank: string, members: Members)
    | Spaced(before: string, value: Value, after: string)

  datatype Elements = NoElements | Element(value: Value, rest: Elements)

  datatype Members = NoMembers | Member(before: string, key: seq<Item>, after: string, value: Value, rest: Members)

  predicate Blank(s: string) {
    forall i :: 0 <= i < |s| ==> s[i] == ' ' || s[i] == '\t' || s[i] == '\n' || s[i] == '\r'
  }

  predicate Digits(s: string) {
    s != "" && forall i :: 0 <= i < |s| ==> '0' <= s[i] <= '9'
  }

  predicate IsInteger(s: string) {
    Digits(s) && (|s| > 1 ==> s[0] != '0')
  }

  predicate IsFraction(s: string) {
    s == "" || (s[0] == '.' && Digits(s[1..]))
  }

  predicate IsExponent(s: string) {
    s == "" || (|s| >= 2 && s[0] in "eE" && (Digits(s[1..]) || (s[1] in "+-" && Digits(s[2..]))))
  }

  predicate IsNumber(s: string) {
    exists i, j :: 0 <= i <= j <= |s| && IsMantissa(s[..i]) && IsFraction(s[i..j]) && IsExponent(s[j..])
  }

  predicate IsMantissa(s: string) {
    IsInteger(s) || (s != "" && s[0] == '-' && IsInteger(s[1..]))
  }

  predicate ItemsOk(items: seq<Item>) {
    forall i :: 0 <= i < |items| ==> ItemOk(items[i])
  }

  predicate Valid(v: Value) {
    match v
    case Literal(text) => text in {"true", "false", "null"} || IsNumber(text)
    case Text(items) => ItemsOk(items)
    case Array(blank, elements) => Blank(blank) && ValidElements(elements)
    case Object(blank, members) => Blank(blank) && ValidMembers(members)
    case Spaced(before, value, after) => Blank(before) && Blank(after) && Valid(value)
  }

  predicate ValidElements(es: Elements) {
    es.Element? ==> Valid(es.value) && ValidElements(es.rest)
  }

  predicate ValidMembers(ms: Members) {
    ms.Member? ==> Blank(ms.before) && ItemsOk(ms.key) && Blank(ms.after) && Valid(ms.value) && ValidMembers(ms.rest)
  }

  function Render(v: Value): string {
    match v
    case Literal(text) => text
    case Text(items) => StringText(items)
    case Array(blank, elements) => "[" + blank + RenderElements(elements) + "]"
    case Object(blank, members) => "{" + blank + RenderMembers(members) + "}"
    case Spaced(before, value, after) => before + Render(value) + after
  }

  function RenderElements(es: Elements): string {
    match es
    case NoElements => ""
    case Element(v, NoElements) => Render(v)
    case Element(v, rest) => Render(v) + "," + RenderElements(rest)
  }

  function RenderMembers(ms: Members): string {
    match ms
    case NoMembers => ""
    case Member(before, key, after, v, rest) =>
      before + StringText(key) + after + ":" + Render(v) + if rest.NoMembers? then "" else "," + RenderMembers(rest)
  }

  // ---------------------------------------------------------------- scanning rendered texts

  lemma {:induction false} RunConcat(s: Scanner, a: string, b: string)
    requires Run(s, a).Open?
    ensures var r := Run(Run(s, a).scanner, b);
            Run(s, a + b) == match r case Open(t) => Open(t) case Closed(last) => Closed(|a| + last)
  {
    if b == "" {
      assert a + b == a;
    } else {
      assert (a + b)[..|a + b| - 1] == a + b[..|b| - 1];
      RunConcat(s, a, b[..|b| - 1]);
    }
  }

  /** The text leaves the scanner as it was. */
  predicate Neutral(s: Scanner, text: string) {
    Run(s, text) == Open(s)
  }

  lemma NeutralConcat(s: Scanner, a: string, b: string)
    requires Neutral(s, a) && Neutral(s, b)
    ensures Neutral(s, a + b)
  {
    RunConcat(s, a, b);
  }

  /** No quote and no brace. */
  predicate Quiet(text: string) {
    forall i :: 0 <= i < |text| ==> text[i] != '"' && text[i] != '{' && text[i] != '}'
  }

  lemma {:induction false} QuietIsNeutral(s: Scanner, text: string)
    requires !s.inString && !s.escape && Quiet(text)
    ensures Neutral(s, text)
  {
    if text == "" {
    } else {
      QuietIsNeutral(s, text[..|text| - 1]);
    }
  }

  lemma {:induction false} InsideString(s: Scanner, text: string)
    requires s.inString && !s.escape
    requires forall i :: 0 <= i < |text| ==> text[i] != '"' && text[i] != '\\'
    ensures Neutral(s, text)
  {
    if text == "" {
    } else {
      InsideString(s, text[..|text| - 1]);
    }
  }

  lemma EscapeIsNeutral(s: Scanner, c: char)
    requires s.inString && !s.escape
    ensures Neutral(s, ['\\', c])
  {
    assert ['\\', c][..1] == ['\\'] && ['\\'][..0] == [];
    assert Run(s, ['\\']) == Open(s.(escape := true));
  }

  lemma ItemIsNeutral(s: Scanner, item: Item)
    requires s.inString && !s.escape && ItemOk(item)
    ensures Neutral(s, ItemText(item))
  {
    match item
    case Raw(c) => InsideString(s, [c]);
    case Escaped(c) => EscapeIsNeutral(s, c);
    case Unicode(digits) =>
      EscapeIsNeutral(s, 'u');
      InsideString(s, digits);
      NeutralConcat(s, ['\\', 'u'], digits);
  }

  lemma {:induction false} ItemsAreNeutral(s: Scanner, items: seq<Item>)
    requires s.inString && !s.escape && ItemsOk(items)
    ensures Neutral(s, ItemsText(items))
  {
    if items == [] {
    } else {
      var front := items[..|items| - 1];
      ItemsAreNeutral(s, front);
      ItemIsNeutral(s, items[|items| - 1]);
      NeutralConcat(s, ItemsText(front), ItemText(items[|items| - 1]));
    }
  }

  lemma OneQuote(s: Scanner)
    requires !s.escape
    ensures Run(s, "\"") == Open(s.(inString := !s.inString))
  {
    assert "\""[..0] == "";
  }

  /** Braces, quotes and backslashes inside a string never reach the depth count. */
  lemma StringIsNeutral(s: Scanner, items: seq<Item>)
    requires !s.inString && !s.escape && ItemsOk(items)
    ensures Neutral(s, StringText(items))
  {
    var t := s.(inString := true);
    OneQuote(s);
    OneQuote(t);
    ItemsAreNeutral(t, items);
    RunConcat(t, ItemsText(items), "\"");
    RunConcat(s, "\"", ItemsText(items) + "\"");
    assert StringText(items) == "\"" + (ItemsText(items) + "\"");
  }

  lemma NumberIsQuiet(s: string)
    requires IsNumber(s)
    ensures Quiet(s)
  {
    var i, j :| 0 <= i <= j <= |s| && IsMantissa(s[..i]) && IsFraction(s[i..j]) && IsExponent(s[j..]);
    MantissaIsQuiet(s[..i]);
    FractionIsQuiet(s[i..j]);
    ExponentIsQuiet(s[j..]);
    forall k | 0 <= k < |s|
      ensures s[k] != '"' && s[k] != '{' && s[k] != '}'
    {
      assert s[k] == if k < i then s[..i][k] else if k < j then s[i..j][k - i] else s[j..][k - j];
    }
  }

  lemma MantissaIsQuiet(s: string)
    requires IsMantissa(s)
    ensures Quiet(s)
  {
    assert forall k :: 1 <= k < |s| ==> s[k] == s[1..][k - 1];
  }

  lemma FractionIsQuiet(s: string)
    requires IsFraction(s)
    ensures Quiet(s)
  {
    assert forall k :: 1 <= k < |s| ==> s[k] == s[1..][k - 1];
  }

  lemma ExponentIsQuiet(s: string)
    requires IsExponent(s)
    ensures Quiet(s)
  {
    assert forall k :: 1 <= k < |s| ==> s[k] == s[1..][k - 1];
    assert forall k :: 2 <= k < |s| ==> s[k] == s[2..][k - 2];
  }

  /** A value met inside an object leaves the scanner at the same depth, without closing it. */
  lemma {:induction false} ValueIsNeutral(s: Scanner, v: Value)
    requires s.depth >= 1 && !s.inString && !s.escape && Valid(v)
    ensures Neutral(s, Render(v))
    decreases v
  {
    match v
    case Literal(text) =>
      if text !in {"true", "false", "null"} {
        NumberIsQuiet(text);
      }
      QuietIsNeutral(s, text);
    case Text(items) => StringIsNeutral(s, items);
    case Array(blank, elements) =>
      ElementsAreNeutral(s, elements);
      QuietIsNeutral(s, "[" + blank);
      QuietIsNeutral(s, "]");
      NeutralConcat(s, "[" + blank, RenderElements(elements));
      NeutralConcat(s, "[" + blank + RenderElements(elements), "]");
    case Object(blank, members) =>
      MembersAreNeutral(s.(depth := s.depth + 1), members);
      Braces(s, blank, RenderMembers(members));
    case Spaced(before, value, after) =>
      ValueIsNeutral(s, value);
      QuietIsNeutral(s, before);
      QuietIsNeutral(s, after);
      NeutralConcat(s, before, Render(value));
      NeutralConcat(s, before + Render(value), after);
  }

  lemma OneBrace(s: Scanner)
    requires !s.inString && !s.escape
    ensures Run(s, "{") == Open(s.(depth := s.depth + 1))
    ensures Run(s, "}") == if s.depth == 1 then Closed(0) else Open(s.(depth := s.depth - 1))
  {
    assert "{"[..0] == "" && "}"[..0] == "";
  }

  lemma Enclosed(s: Scanner, body: string)
    requires s.depth >= 0 && !s.inString && !s.escape
    requires Neutral(s.(depth := s.depth + 1), body)
    ensures Run(s, "{" + body + "}") == if s.depth == 0 then Closed(|body| + 1) else Open(s)
  {
    hide Run;
    OneBrace(s);
    OneBrace(s.(depth := s.depth + 1));
    RunConcat(s, "{", body);
    RunConcat(s, "{" + body, "}");
  }

  /** Braces around neutral text: closed at depth one, neutral deeper. */
  lemma Braces(s: Scanner, blank: string, inner: string)
    requires s.depth >= 0 && !s.inString && !s.escape && Blank(blank)
    requires Neutral(s.(depth := s.depth + 1), inner)
    ensures var text := "{" + blank + inner + "}";
            Run(s, text) == if s.depth == 0 then Closed(|text| - 1) else Open(s)
  {
    hide Run, Neutral;
    var t := s.(depth := s.depth + 1);
    QuietIsNeutral(t, blank);
    NeutralConcat(t, blank, inner);
    Enclosed(s, blank + inner);
    assert "{" + (blank + inner) == "{" + blank + inner;
  }

  lemma {:induction false} ElementsAreNeutral(s: Scanner, es: Elements)
    requires s.depth >= 1 && !s.inString && !s.escape && ValidElements(es)
    ensures Neutral(s, RenderElements(es))
    decreases es
  {
    if es.NoElements? {
    } else {
      ValueIsNeutral(s, es.value);
      if es.rest.Element? {
        ElementsAreNeutral(s, es.rest);
        QuietIsNeutral(s, ",");
        NeutralConcat(s, Render(es.value), ",");
        NeutralConcat(s, Render(es.value) + ",", RenderElements(es.rest));
      }
    }
  }

  lemma {:induction false} MembersAreNeutral(s: Scanner, ms: Members)
    requires s.depth >= 1 && !s.inString && !s.escape && ValidMembers(ms)
    ensures Neutral(s, RenderMembers(ms))
    decreases ms
  {
    if ms.NoMembers? {
    } else {
      var name := ms.before + StringText(ms.key);
      QuietIsNeutral(s, ms.before);
      StringIsNeutral(s, ms.key);
      NeutralConcat(s, ms.before, StringText(ms.key));
      QuietIsNeutral(s, ms.after);
      NeutralConcat(s, name, ms.after);
      QuietIsNeutral(s, ":");
      NeutralConcat(s, name + ms.after, ":");
      ValueIsNeutral(s, ms.value);
      var member := name + ms.after + ":" + Render(ms.value);
      NeutralConcat(s, name + ms.after + ":", Render(ms.value));
      if ms.rest.Member? {
        MembersAreNeutral(s, ms.rest);
        QuietIsNeutral(s, ",");
        NeutralConcat(s, ",", RenderMembers(ms.rest));
        NeutralConcat(s, member, "," + RenderMembers(ms.rest));
      } else {
        assert member + "" == member;
      }
    }
  }

  // ---------------------------------------------------------------- main results

  lemma ObjectCloses(v: Value)
    requires v.Object? && Valid(v)
    ensures Run(START, Render(v)) == Closed(|Render(v)| - 1)
    ensures Render(v)[0] == '{' && Render(v)[|Render(v)| - 1] == '}'
  {
    MembersAreNeutral(START.(depth := 1), v.members);
    Braces(START, v.blank, RenderMembers(v.members));
  }

  lemma {:induction false} StripRightKeeps(s: string, t: string)
    requires s != "" && !IsSpace(s[|s| - 1])
    ensures s <= StripRight(s + t) <= s + t
  {
    if t == "" {
      assert s + t == s;
    } else if IsSpace(t[|t| - 1]) {
      assert (s + t)[..|s + t| - 1] == s + t[..|t| - 1];
      StripRightKeeps(s, t[..|t| - 1]);
    }
  }

  lemma {:induction false} FindAfter(prefix: string, rest: string)
    requires '{' !in prefix && rest != "" && rest[0] == '{'
    ensures Find(prefix + rest, '{') == |prefix| && (prefix + rest)[|prefix|..] == rest
  {
    if prefix == "" {
      assert prefix + rest == rest;
    } else {
      assert (prefix + rest)[1..] == prefix[1..] + rest;
      FindAfter(prefix[1..], rest);
    }
  }

  /** Whatever surrounds it, a rendered object is extracted exactly, provided no brace precedes it. */
  lemma ExtractsRenderedObject(prefix: string, v: Value, suffix: string, parses: string -> bool)
    requires '{' !in prefix && v.Object? && Valid(v) && parses(Render(v))
    ensures Extract(prefix + Render(v) + suffix, parses) == Some(Render(v))
  {
    hide Render, Find, Valid;
    var text := Render(v);
    ObjectCloses(v);
    FindAfter(prefix, text + suffix);
    assert prefix + (text + suffix) == prefix + text + suffix;
    StripRightKeeps(text, suffix);
    var candidate := StripRight(text + suffix);
    assert candidate[..|text|] == text;
    RunStays(START, candidate, |text|);
  }

  lemma RunPrefix(s: Scanner, text: string, n: nat)
    requires n < |text| && Run(s, text) == Closed(|text| - 1)
    ensures Run(s, text[..n]).Open?
  {
    if Run(s, text[..n]).Closed? {
      RunBounds(s, text[..n]);
      RunStays(s, text, n);
    }
  }

  lemma {:induction false} StripRightIsPrefix(s: string)
    ensures StripRight(s) <= s
  {
    if s != "" && IsSpace(s[|s| - 1]) {
      StripRightIsPrefix(s[..|s| - 1]);
    }
  }

  /** Output that breaks off inside the object yields nothing. */
  lemma BrokenOffObject(prefix: string, v: Value, n: nat, parses: string -> bool)
    requires '{' !in prefix && v.Object? && Valid(v) && n < |Render(v)|
    ensures Extract(prefix + Render(v)[..n], parses) == None
  {
    hide Render, Valid;
    ObjectCloses(v);
    var text := Render(v)[..n];
    if n > 0 {
      FindAfter(prefix, text);
      StripRightIsPrefix(text);
      var candidate := StripRight(text);
      assert candidate == Render(v)[..|candidate|];
      RunPrefix(START, Render(v), |candidate|);
    } else {
      assert prefix + text == prefix;
    }
  }

  /** Anything extracted begins at the first brace, closes there for the first time, and parses. */
  lemma ExtractedIsFirstClosed(output: string, parses: string -> bool)
    requires Extract(output, parses).Some?
    ensures var t, start := Extract(output, parses).value, Find(output, '{');
            && start != -1 && t <= output[start..] && parses(t)
            && Run(START, t) == Closed(|t| - 1)
            && forall n :: 0 <= n < |t| ==> Run(START, t[..n]).Open?
  {
    var start := Find(output, '{');
    assert StripLeft(output[start..]) == output[start..];
    StripRightIsPrefix(output[start..]);
    var candidate := StripRight(output[start..]);
    var last := Run(START, candidate).last;
    FirstClosed(candidate, last);
    var t := candidate[..last + 1];
    forall n | 0 <= n < |t|
      ensures Run(START, t[..n]).Open?
    {
      RunPrefix(START, t, n);
    }
  }

  lemma {:induction false} FirstClosed(text: string, last: nat)
    requires Run(START, text) == Closed(last)
    ensures last < |text| && Run(START, text[..last + 1]) == Closed(last)
  {
    if Run(START, text[..|text| - 1]).Closed? {
      FirstClosed(text[..|text| - 1], last);
      assert text[..|text| - 1][..last + 1] == text[..last + 1];
    } else {
      assert text[..last + 1] == text;
    }
  }
}
