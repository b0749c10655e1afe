/** Redaction of literal secrets from captured text, before it is bounded and stored. */
module Redaction {
  import opened Utf8

  const REPLACEMENT := "[redacted]"
  const MARKER := "\n[truncated]"
  const BROKEN: char := '\U{FFFD}'

  predicate HasSuffix(s: string, u: string) {
    |u| <= |s| && s[|s| - |u|..] == u
  }

  predicate OccursAt(q: string, s: string, i: nat) {
    i + |q| <= |s| && s[i..i + |q|] == q
  }

  ghost predicate Occurs(q: string, s: string) {
    exists i: nat :: OccursAt(q, s, i)
  }

  // ---------------------------------------------------------------- what redaction computes

  /** Replaces the leftmost occurrences that do not overlap. */
  function Replace(s: string, p: string): string
    requires p != ""
  {
    if s == "" then ""
    else if p <= s then REPLACEMENT + Replace(s[|p|..], p)
    else [s[0]] + Replace(s[1..], p)
  }

  predicate NonEmpty(patterns: seq<string>) {
    forall i :: 0 <= i < |patterns| ==> patterns[i] != ""
  }

  function ReplaceAll(s: string, patterns: seq<string>): string
    requires NonEmpty(patterns)
  {
    if patterns == [] then s else Replace(ReplaceAll(s, patterns[..|patterns| - 1]), patterns[|patterns| - 1])
  }

  function Insert(p: string, patterns: seq<string>): seq<string> {
    if patterns == [] || |patterns[0]| <= |p| then [p] + patterns else [patterns[0]] + Insert(p, patterns[1..])
  }

  /** Longest first; patterns of one length keep their order. */
  function LongestFirst(patterns: seq<string>): seq<string> {
    if patterns == [] then [] else Insert(patterns[0], LongestFirst(patterns[1..]))
  }

  function StripBroken(s: string): string {
    if s != "" && s[|s| - 1] == BROKEN then StripBroken(s[..|s| - 1]) else s
  }

  /** The text ends with the first `n` characters of some pattern. */
  predicate EndsInPrefix(s: string, patterns: seq<string>, n: nat) {
    exists i :: 0 <= i < |patterns| && n <= |patterns[i]| && HasSuffix(s, patterns[i][..n])
  }

  /** The longest suffix, up to `limit`, that is a prefix of any pattern. */
  function LongestCut(s: string, patterns: seq<string>, limit: nat): (n: nat)
    ensures n <= limit && (n > 0 ==> EndsInPrefix(s, patterns, n))
    ensures forall k :: n < k <= limit ==> !EndsInPrefix(s, patterns, k)
  {
    if limit == 0 || EndsInPrefix(s, patterns, limit) then limit else LongestCut(s, patterns, limit - 1)
  }

  /** Cuts what may be the beginning of a secret that capture broke off. */
  function Cut(s: string, patterns: seq<string>): string {
    var boundary := StripBroken(s);
    var n := LongestCut(boundary, patterns, |boundary|);
    if n == 0 then s else boundary[..|boundary| - n] + REPLACEMENT
  }

  function Body(s: string, patterns: seq<string>, truncated: bool): string
    requires NonEmpty(patterns)
  {
    LongestFirstNonEmpty(patterns);
    ReplaceAll(if truncated then Cut(s, patterns) else s, LongestFirst(patterns))
  }

  function Redacted(s: string, patterns: seq<string>, truncated: bool): string
    requires NonEmpty(patterns)
  {
    if HasSuffix(s, MARKER) then Body(s[..|s| - |MARKER|], patterns, true) + MARKER else Body(s, patterns, truncated)
  }

  // ---------------------------------------------------------------- the order of the patterns

  lemma {:induction false} InsertElements(p: string, patterns: seq<string>)
    ensures multiset(Insert(p, patterns)) == multiset(patterns) + multiset{p}
  {
    if patterns != [] && |patterns[0]| > |p| {
      InsertElements(p, patterns[1..]);
      assert patterns == [patterns[0]] + patterns[1..];
    }
  }

  /** Sorting loses and adds no pattern. */
  lemma {:induction false} LongestFirstElements(patterns: seq<string>)
    ensures multiset(LongestFirst(patterns)) == multiset(patterns)
  {
    if patterns == [] {
    } else {
      LongestFirstElements(patterns[1..]);
      InsertElements(patterns[0], LongestFirst(patterns[1..]));
      assert patterns == [patterns[0]] + patterns[1..];
    }
  }

  lemma LongestFirstMembers(patterns: seq<string>, p: string)
    ensures p in LongestFirst(patterns) <==> p in patterns
  {
    LongestFirstElements(patterns);
    assert p in LongestFirst(patterns) <==> p in multiset(LongestFirst(patterns));
    assert p in patterns <==> p in multiset(patterns);
  }

  lemma LongestFirstNonEmpty(patterns: seq<string>)
    requires NonEmpty(patterns)
    ensures NonEmpty(LongestFirst(patterns))
  {
    forall i | 0 <= i < |LongestFirst(patterns)|
      ensures LongestFirst(patterns)[i] != ""
    {
      LongestFirstMembers(patterns, LongestFirst(patterns)[i]);
    }
  }

  // ---------------------------------------------------------------- the loops

  method StripTrailingBroken(s: string) returns (boundary: string)
    ensures boundary == StripBroken(s)
  {
    boundary := s;
    while boundary != "" && boundary[|boundary| - 1] == BROKEN
      invariant StripBroken(boundary) == StripBroken(s)
      decreases |boundary|
    {
      boundary := boundary[..|boundary| - 1];
    }
  }

  lemma LongestCutIs(s: string, patterns: seq<string>, limit: nat, n: nat)
    requires n <= limit && (n > 0 ==> EndsInPrefix(s, patterns, n))
    requires forall k :: n < k <= limit ==> !EndsInPrefix(s, patterns, k)
    ensures LongestCut(s, patterns, limit) == n
  {
  }

  method LongestSecretPrefix(boundary: string, patterns: seq<string>) returns (longest: nat)
    ensures longest == LongestCut(boundary, patterns, |boundary|)
  {
    longest := 0;
    for i := 0 to |patterns|
      invariant longest <= |boundary| && (longest > 0 ==> EndsInPrefix(boundary, patterns, longest))
      invariant forall j, k :: 0 <= j < i && longest < k <= |patterns[j]| ==> !HasSuffix(boundary, patterns[j][..k])
    {
      var pattern := patterns[i];
      var size := if |boundary| < |pattern| then |boundary| else |pattern|;
      while size > longest
        invariant longest <= |boundary| && (longest > 0 ==> EndsInPrefix(boundary, patterns, longest))
        invariant forall k :: size < k <= |pattern| && longest < k ==> !HasSuffix(boundary, pattern[..k])
        invariant forall j, k :: 0 <= j < i && longest < k <= |patterns[j]| ==> !HasSuffix(boundary, patterns[j][..k])
        decreases size
      {
        if HasSuffix(boundary, pattern[..size]) {
          longest := size;
          break;
        }
        size := size - 1;
      }
    }
    LongestCutIs(boundary, patterns, |boundary|, longest);
  }

  method ReplaceEach(s: string, patterns: seq<string>) returns (text: string)
    requires NonEmpty(patterns)
    ensures text == ReplaceAll(s, patterns)
  {
    text := s;
    for i := 0 to |patterns|
      invariant text == ReplaceAll(s, patterns[..i])
    {
      assert patterns[..i + 1][..i] == patterns[..i];
      text := Replace(text, patterns[i]);
    }
    assert patterns[..|patterns|] == patterns;
  }

  method Redact(s: string, patterns: seq<string>, isTruncated: bool) returns (r: string)
    requires NonEmpty(patterns)
    ensures r == Redacted(s, patterns, isTruncated)
  {
    hide Replace, ReplaceAll, LongestCut, LongestFirst, StripBroken;
    var text, truncated, marker := s, isTruncated, "";
    if HasSuffix(s, MARKER) {
      marker := MARKER;
      text := s[..|s| - |MARKER|];
      truncated := true;
    }
    ghost var before := text;
    if truncated {
      var boundary := StripTrailingBroken(text);
      var longest := LongestSecretPrefix(boundary, patterns);
      if longest > 0 {
        text := boundary[..|boundary| - longest] + REPLACEMENT;
      }
    }
    assert text == if truncated then Cut(before, patterns) else before;
    LongestFirstNonEmpty(patterns);
    text := ReplaceEach(text, LongestFirst(patterns));
    r := text + marker;
    assert text + "" == text;
  }

  // ---------------------------------------------------------------- replacement and occurrences

  predicate Plain(q: string) {
    '[' !in q && ']' !in q
  }

  /** A pattern that redaction can promise to remove. */
  ghost predicate Removable(p: string) {
    p != "" && Plain(p) && BROKEN !in p && !Occurs(p, REPLACEMENT) && !Occurs(p, MARKER)
  }

  ghost predicate AllRemovable(patterns: seq<string>): (all: bool)
    ensures all ==> NonEmpty(patterns)
  {
    NonEmpty(patterns) && forall p :: p in patterns ==> Removable(p)
  }

  lemma CharacterAt(q: string, s: string, i: nat, j: nat)
    requires OccursAt(q, s, i) && i <= j < i + |q|
    ensures s[j] in q
  {
    assert q[j - i] == s[j];
  }

  lemma MarkFirst(s: string, p: string, q: string)
    requires p != "" && s != "" && p <= s && q <= Replace(s, p) && q != ""
    ensures '[' in q
  {
    assert q[0] == Replace(s, p)[0] == '[';
  }

  lemma {:induction false} PrefixComesFromText(q: string, s: string, p: string)
    requires p != "" && Plain(q) && q <= Replace(s, p)
    ensures q <= s
  {
    if q == "" {
    } else {
      if p <= s {
        MarkFirst(s, p, q);
      }
      assert q[1..] <= Replace(s[1..], p);
      PrefixComesFromText(q[1..], s[1..], p);
      assert q == [q[0]] + q[1..] && s == [s[0]] + s[1..];
    }
  }

  /** An occurrence across the end of a mark would contain a bracket. */
  lemma InsideTheMark(q: string, rest: string, i: nat)
    requires q != "" && Plain(q) && i < |REPLACEMENT| && OccursAt(q, REPLACEMENT + rest, i)
    ensures Occurs(q, REPLACEMENT)
  {
    if i + |q| > |REPLACEMENT| {
      CharacterAt(q, REPLACEMENT + rest, i, |REPLACEMENT| - 1);
    }
    assert OccursAt(q, REPLACEMENT, i);
  }

  lemma PastTheMark(q: string, rest: string, i: nat)
    requires q != "" && Plain(q) && !Occurs(q, REPLACEMENT) && OccursAt(q, REPLACEMENT + rest, i)
    ensures i >= |REPLACEMENT| && OccursAt(q, rest, i - |REPLACEMENT|)
  {
    if i < |REPLACEMENT| {
      InsideTheMark(q, rest, i);
    }
    assert rest[i - |REPLACEMENT|..i - |REPLACEMENT| + |q|] == (REPLACEMENT + rest)[i..i + |q|];
  }

  lemma OccursLater(q: string, s: string, n: nat)
    requires n <= |s| && Occurs(q, s[n..])
    ensures Occurs(q, s)
  {
    var i: nat :| OccursAt(q, s[n..], i);
    assert s[n..][i..i + |q|] == s[n + i..n + i + |q|];
    assert OccursAt(q, s, n + i);
  }

  /** Replacing a pattern removes it and makes no other removable pattern appear. */
  lemma {:induction false} ReplaceOccurrences(q: string, s: string, p: string, i: nat)
    requires p != "" && q != "" && Plain(q) && !Occurs(q, REPLACEMENT)
    requires OccursAt(q, Replace(s, p), i)
    ensures Occurs(q, s) && q != p
    decreases |s|
  {
    if p <= s {
      PastTheMark(q, Replace(s[|p|..], p), i);
      ReplaceOccurrences(q, s[|p|..], p, i - |REPLACEMENT|);
      OccursLater(q, s, |p|);
    } else if i == 0 {
      PrefixComesFromText(q, s, p);
      assert OccursAt(q, s, 0);
    } else {
      var r := Replace(s, p);
      assert r[1..] == Replace(s[1..], p);
      assert r[1..][i - 1..i - 1 + |q|] == r[i..i + |q|];
      ReplaceOccurrences(q, s[1..], p, i - 1);
      OccursLater(q, s, 1);
    }
  }

  lemma {:induction false} ReplaceAllOccurrences(q: string, s: string, patterns: seq<string>)
    requires NonEmpty(patterns) && q != "" && Plain(q) && !Occurs(q, REPLACEMENT)
    requires Occurs(q, ReplaceAll(s, patterns))
    ensures Occurs(q, s) && q !in patterns
  {
    if patterns == [] {
    } else {
      var front, p := patterns[..|patterns| - 1], patterns[|patterns| - 1];
      var i: nat :| OccursAt(q, Replace(ReplaceAll(s, front), p), i);
      ReplaceOccurrences(q, ReplaceAll(s, front), p, i);
      ReplaceAllOccurrences(q, s, front);
      assert patterns == front + [p];
    }
  }

  /** Text that neither contains a mark nor can begin inside one. */
  ghost predicate Aloof(u: string) {
    u != "" && !Occurs(REPLACEMENT, u) && forall j :: 0 <= j < |REPLACEMENT| ==> !(REPLACEMENT[j..] <= u)
  }

  lemma MarkEnd(u: string, j: nat)
    requires j < |REPLACEMENT| && REPLACEMENT[j..] <= u
    ensures ']' in u
  {
    assert u[|REPLACEMENT| - 1 - j] == ']';
  }

  lemma MarkInside(u: string, i: nat)
    requires OccursAt(REPLACEMENT, u, i)
    ensures '[' in u
  {
    assert u[i] == u[i..i + |REPLACEMENT|][0] == '[';
  }

  lemma PlainIsAloof(u: string)
    requires u != "" && Plain(u)
    ensures Aloof(u)
  {
    forall j | 0 <= j < |REPLACEMENT|
      ensures !(REPLACEMENT[j..] <= u)
    {
      if REPLACEMENT[j..] <= u {
        MarkEnd(u, j);
      }
    }
    if i: nat :| OccursAt(REPLACEMENT, u, i) {
      MarkInside(u, i);
    }
  }

  lemma MarkerIsAloof()
    ensures Aloof(MARKER)
  {
    forall j | 0 <= j < |REPLACEMENT|
      ensures !(REPLACEMENT[j..] <= MARKER)
    {
      assert REPLACEMENT[j..][0] == REPLACEMENT[j] != '\n';
    }
    forall i: nat
      ensures !OccursAt(REPLACEMENT, MARKER, i)
    {
      if i + |REPLACEMENT| <= |MARKER| {
        var k := if i == 1 then 1 else 0;
        assert MARKER[i..i + |REPLACEMENT|][k] == MARKER[i + k] != REPLACEMENT[k];
      }
    }
  }

  lemma {:induction false} UnmarkedIsUnchanged(s: string, p: string)
    requires p != "" && !Occurs(REPLACEMENT, Replace(s, p))
    ensures Replace(s, p) == s
  {
    if s == "" {
    } else if p <= s {
      assert OccursAt(REPLACEMENT, Replace(s, p), 0);
    } else {
      var rest := Replace(s[1..], p);
      assert Replace(s, p)[1..] == rest;
      if Occurs(REPLACEMENT, rest) {
        OccursLater(REPLACEMENT, Replace(s, p), 1);
      }
      UnmarkedIsUnchanged(s[1..], p);
      assert s == [s[0]] + s[1..];
    }
  }

  lemma SuffixOfRest(u: string, s: string, t: string)
    requires |u| <= |t|
    ensures HasSuffix(s + t, u) <==> HasSuffix(t, u)
  {
    assert (s + t)[|s + t| - |u|..] == t[|t| - |u|..];
  }

  lemma BeginsInsideMark(u: string, rest: string)
    requires |rest| < |u| && HasSuffix(REPLACEMENT + rest, u)
    ensures exists j :: 0 <= j < |REPLACEMENT| && REPLACEMENT[j..] <= u
  {
    var r := REPLACEMENT + rest;
    var j := |r| - |u|;
    assert u == r[j..] == REPLACEMENT[j..] + rest;
    assert REPLACEMENT[j..] <= u;
  }

  lemma AloofSuffixOfMark(u: string, rest: string)
    requires Aloof(u) && HasSuffix(REPLACEMENT + rest, u)
    ensures HasSuffix(rest, u)
  {
    if |rest| < |u| {
      BeginsInsideMark(u, rest);
    }
    SuffixOfRest(u, REPLACEMENT, rest);
  }

  lemma {:induction false} ReplaceSuffix(u: string, s: string, p: string)
    requires p != "" && Aloof(u) && HasSuffix(Replace(s, p), u)
    ensures HasSuffix(s, u)
    decreases |s|
  {
    if s == "" {
    } else if p <= s {
      hide HasSuffix, Aloof;
      AloofSuffixOfMark(u, Replace(s[|p|..], p));
      ReplaceSuffix(u, s[|p|..], p);
      assert s == s[..|p|] + s[|p|..];
      SuffixLength(s[|p|..], u);
      SuffixOfRest(u, s[..|p|], s[|p|..]);
    } else if |u| <= |Replace(s[1..], p)| {
      hide HasSuffix, Aloof;
      SuffixOfRest(u, [s[0]], Replace(s[1..], p));
      ReplaceSuffix(u, s[1..], p);
      assert s == [s[0]] + s[1..];
      SuffixLength(s[1..], u);
      SuffixOfRest(u, [s[0]], s[1..]);
    } else {
      assert Replace(s, p) == u;
      UnmarkedIsUnchanged(s, p);
    }
  }

  lemma SuffixLength(s: string, u: string)
    requires HasSuffix(s, u)
    ensures |u| <= |s|
  {
  }

  lemma {:induction false} ReplaceAllSuffix(u: string, s: string, patterns: seq<string>)
    requires NonEmpty(patterns) && Aloof(u) && HasSuffix(ReplaceAll(s, patterns), u)
    ensures HasSuffix(s, u)
  {
    if patterns == [] {
    } else {
      hide Aloof, HasSuffix;
      var front := patterns[..|patterns| - 1];
      ReplaceSuffix(u, ReplaceAll(s, front), patterns[|patterns| - 1]);
      ReplaceAllSuffix(u, s, front);
    }
  }

  lemma {:induction false} AbsentIsUnchanged(s: string, p: string)
    requires p != "" && !Occurs(p, s)
    ensures Replace(s, p) == s
  {
    if s == "" {
    } else {
      if p <= s {
        assert OccursAt(p, s, 0);
      }
      if Occurs(p, s[1..]) {
        OccursLater(p, s, 1);
      }
      AbsentIsUnchanged(s[1..], p);
      assert s == [s[0]] + s[1..];
    }
  }

  lemma {:induction false} AllAbsentIsUnchanged(s: string, patterns: seq<string>)
    requires NonEmpty(patterns) && forall p :: p in patterns ==> !Occurs(p, s)
    ensures ReplaceAll(s, patterns) == s
  {
    if patterns == [] {
    } else {
      AllAbsentIsUnchanged(s, patterns[..|patterns| - 1]);
      AbsentIsUnchanged(s, patterns[|patterns| - 1]);
    }
  }

  // ---------------------------------------------------------------- the end of truncated text

  /** Leaving out broken characters, the text does not end in any beginning of any pattern. */
  ghost predicate Sealed(s: string, patterns: seq<string>) {
    forall n :: 0 < n <= |StripBroken(s)| ==> !EndsInPrefix(StripBroken(s), patterns, n)
  }

  lemma {:induction false} StripBrokenShape(s: string)
    ensures StripBroken(s) <= s
    ensures forall j :: |StripBroken(s)| <= j < |s| ==> s[j] == BROKEN
    ensures StripBroken(s) != "" ==> StripBroken(s)[|StripBroken(s)| - 1] != BROKEN
  {
    if s != "" && s[|s| - 1] == BROKEN {
      StripBrokenShape(s[..|s| - 1]);
    }
  }

  lemma {:induction false} StripBrokenIs(s: string, b: string)
    requires b <= s && (b != "" ==> b[|b| - 1] != BROKEN)
    requires forall j :: |b| <= j < |s| ==> s[j] == BROKEN
    ensures StripBroken(s) == b
  {
    if b == s {
    } else {
      StripBrokenIs(s[..|s| - 1], b);
    }
  }

  lemma PrefixEnd(s: string, patterns: seq<string>, n: nat)
    requires 0 < n && EndsInPrefix(s, patterns, n)
    ensures s != "" && exists p :: p in patterns && s[|s| - 1] in p
  {
    var i :| 0 <= i < |patterns| && n <= |patterns[i]| && HasSuffix(s, patterns[i][..n]);
    assert patterns[i][..n][n - 1] == s[|s| - 1] && patterns[i] in patterns;
  }

  lemma ForeignEnd(s: string, patterns: seq<string>, n: nat)
    requires s != "" && 0 < n && forall p :: p in patterns ==> s[|s| - 1] !in p
    ensures !EndsInPrefix(s, patterns, n)
  {
    if EndsInPrefix(s, patterns, n) {
      PrefixEnd(s, patterns, n);
    }
  }

  lemma CutIsSealed(s: string, patterns: seq<string>)
    requires AllRemovable(patterns)
    ensures Sealed(Cut(s, patterns), patterns)
  {
    var boundary := StripBroken(s);
    var n := LongestCut(boundary, patterns, |boundary|);
    if n > 0 {
      var cut := Cut(s, patterns);
      assert cut[|cut| - 1] == REPLACEMENT[|REPLACEMENT| - 1] == ']';
      StripBrokenIs(cut, cut);
      forall k | 0 < k <= |cut|
        ensures !EndsInPrefix(cut, patterns, k)
      {
        ForeignEnd(cut, patterns, k);
      }
    }
  }

  /** Sealed text, broken characters included, does not end in a beginning of a pattern. */
  lemma SealedHasNoTail(s: string, patterns: seq<string>, n: nat)
    requires AllRemovable(patterns) && Sealed(s, patterns) && 0 < n <= |s|
    ensures !EndsInPrefix(s, patterns, n)
  {
    if s[|s| - 1] == BROKEN {
      ForeignEnd(s, patterns, n);
    } else {
      assert StripBroken(s) == s;
    }
  }

  lemma SuffixBefore(s: string, u: string, tail: string)
    ensures HasSuffix(s + tail, u + tail) <==> HasSuffix(s, u)
  {
    if |u| <= |s| {
      assert (s + tail)[|s| - |u|..] == s[|s| - |u|..] + tail;
      assert s[|s| - |u|..] + tail == u + tail ==> s[|s| - |u|..] == (u + tail)[..|u|] == u;
    }
  }

  lemma StripAppended(b: string, tail: string)
    requires b != "" && b[|b| - 1] != BROKEN && forall j :: 0 <= j < |tail| ==> tail[j] == BROKEN
    ensures StripBroken(b + tail) == b
  {
    assert forall j :: |b| <= j < |b + tail| ==> (b + tail)[j] == tail[j - |b|];
    StripBrokenIs(b + tail, b);
  }

  lemma StripSuffix(s: string, u: string, tail: string)
    requires u != "" && u[|u| - 1] != BROKEN && (forall j :: 0 <= j < |tail| ==> tail[j] == BROKEN)
    requires HasSuffix(s, u + tail)
    ensures HasSuffix(StripBroken(s), u)
  {
    hide StripBroken;
    var before := s[..|s| - |u + tail|];
    assert s == before + s[|before|..] == before + (u + tail) == before + u + tail;
    StripAppended(before + u, tail);
    assert (before + u)[|before|..] == u;
  }

  lemma ReplaceAllIsSealed(s: string, patterns: seq<string>, ordered: seq<string>)
    requires AllRemovable(patterns) && NonEmpty(ordered) && Sealed(s, patterns)
    ensures Sealed(ReplaceAll(s, ordered), patterns)
  {
    var r := ReplaceAll(s, ordered);
    var b := StripBroken(r);
    StripBrokenShape(r);
    forall n | 0 < n <= |b|
      ensures !EndsInPrefix(b, patterns, n)
    {
      if EndsInPrefix(b, patterns, n) {
        var i :| 0 <= i < |patterns| && n <= |patterns[i]| && HasSuffix(b, patterns[i][..n]);
        TailComesFromText(s, patterns, ordered, i, n);
      }
    }
  }

  lemma TailComesFromText(s: string, patterns: seq<string>, ordered: seq<string>, i: nat, n: nat)
    requires AllRemovable(patterns) && NonEmpty(ordered) && i < |patterns| && 0 < n <= |patterns[i]|
    requires HasSuffix(StripBroken(ReplaceAll(s, ordered)), patterns[i][..n])
    ensures EndsInPrefix(StripBroken(s), patterns, n) && n <= |StripBroken(s)|
  {
    var r := ReplaceAll(s, ordered);
    var b, u := StripBroken(r), patterns[i][..n];
    StripBrokenShape(r);
    var tail := r[|b|..];
    assert r == b + tail && patterns[i] in patterns;
    SuffixBefore(b, u, tail);
    PlainIsAloof(u + tail);
    ReplaceAllSuffix(u + tail, s, ordered);
    StripSuffix(s, u, tail);
  }

  lemma SealedIsUncut(s: string, patterns: seq<string>)
    requires Sealed(s, patterns)
    ensures Cut(s, patterns) == s
  {
  }

  // ---------------------------------------------------------------- main results

  ghost predicate Clean(s: string, patterns: seq<string>) {
    forall p :: p in patterns ==> !Occurs(p, s)
  }

  lemma BodyIsClean(s: string, patterns: seq<string>, truncated: bool)
    requires AllRemovable(patterns)
    ensures Clean(Body(s, patterns, truncated), patterns)
  {
    hide ReplaceAll, Cut, LongestFirst;
    LongestFirstNonEmpty(patterns);
    forall p | p in patterns
      ensures !Occurs(p, Body(s, patterns, truncated))
    {
      LongestFirstMembers(patterns, p);
      if Occurs(p, Body(s, patterns, truncated)) {
        ReplaceAllOccurrences(p, if truncated then Cut(s, patterns) else s, LongestFirst(patterns));
      }
    }
  }

  lemma BodyIsSealed(s: string, patterns: seq<string>)
    requires AllRemovable(patterns)
    ensures Sealed(Body(s, patterns, true), patterns)
  {
    hide ReplaceAll, Cut, LongestFirst, Sealed;
    LongestFirstNonEmpty(patterns);
    CutIsSealed(s, patterns);
    ReplaceAllIsSealed(Cut(s, patterns), patterns, LongestFirst(patterns));
  }

  /** A sealed end keeps a secret from being completed by the marker. */
  lemma MarkedIsClean(s: string, patterns: seq<string>)
    requires AllRemovable(patterns) && Clean(s, patterns) && Sealed(s, patterns)
    ensures Clean(s + MARKER, patterns)
  {
    forall p | p in patterns
      ensures !Occurs(p, s + MARKER)
    {
      if i: nat :| OccursAt(p, s + MARKER, i) {
        AcrossTheEnd(p, s, patterns, i);
        if 0 < |s| - i {
          SealedHasNoTail(s, patterns, |s| - i);
        }
      }
    }
  }

  lemma AcrossTheEnd(p: string, s: string, patterns: seq<string>, i: nat)
    requires p in patterns && Removable(p) && !Occurs(p, s) && OccursAt(p, s + MARKER, i)
    ensures i < |s| && EndsInPrefix(s, patterns, |s| - i)
  {
    var all := s + MARKER;
    if i + |p| <= |s| {
      assert OccursAt(p, s, i) by { assert s[i..i + |p|] == all[i..i + |p|]; }
    }
    if i >= |s| {
      assert OccursAt(p, MARKER, i - |s|) by { assert MARKER[i - |s|..i - |s| + |p|] == all[i..i + |p|]; }
    }
    var k :| 0 <= k < |patterns| && patterns[k] == p;
    var n := |s| - i;
    assert p[..n] == all[i..i + |p|][..n] == s[i..];
    assert HasSuffix(s, patterns[k][..n]);
  }

  /** No secret is left anywhere in redacted text, not even across the marker. */
  lemma RedactedIsClean(s: string, patterns: seq<string>, truncated: bool)
    requires AllRemovable(patterns)
    ensures Clean(Redacted(s, patterns, truncated), patterns)
  {
    hide Body, Clean, Sealed;
    if HasSuffix(s, MARKER) {
      var text := s[..|s| - |MARKER|];
      BodyIsClean(text, patterns, true);
      BodyIsSealed(text, patterns);
      MarkedIsClean(Body(text, patterns, true), patterns);
    } else {
      BodyIsClean(s, patterns, truncated);
    }
  }

  lemma FixedBody(s: string, patterns: seq<string>, truncated: bool)
    requires NonEmpty(patterns) && Clean(s, patterns) && (truncated ==> Sealed(s, patterns))
    ensures Body(s, patterns, truncated) == s
  {
    hide Sealed;
    if truncated {
      SealedIsUncut(s, patterns);
    }
    LongestFirstNonEmpty(patterns);
    forall p | p in LongestFirst(patterns)
      ensures !Occurs(p, s)
    {
      LongestFirstMembers(patterns, p);
    }
    AllAbsentIsUnchanged(s, LongestFirst(patterns));
  }

  lemma MarkIsNoMarker(s: string)
    ensures !HasSuffix(s + REPLACEMENT, MARKER)
  {
    var all := s + REPLACEMENT;
    assert |all| >= |MARKER| ==> all[|all| - |MARKER|..][2] == all[|s|] == '[' != MARKER[2];
  }

  lemma CutHasNoMarker(s: string, patterns: seq<string>)
    requires HasSuffix(Cut(s, patterns), MARKER)
    ensures HasSuffix(s, MARKER)
  {
    hide LongestCut, StripBroken, HasSuffix;
    if Cut(s, patterns) != s {
      var boundary := StripBroken(s);
      MarkIsNoMarker(boundary[..|boundary| - LongestCut(boundary, patterns, |boundary|)]);
    }
  }

  /** Redaction never makes a marker appear at the end. */
  lemma BodyHasNoMarker(s: string, patterns: seq<string>, truncated: bool)
    requires NonEmpty(patterns) && HasSuffix(Body(s, patterns, truncated), MARKER)
    ensures HasSuffix(s, MARKER)
  {
    hide Aloof, ReplaceAll, LongestFirst, HasSuffix, Cut;
    LongestFirstNonEmpty(patterns);
    MarkerIsAloof();
    ReplaceAllSuffix(MARKER, if truncated then Cut(s, patterns) else s, LongestFirst(patterns));
    if truncated {
      CutHasNoMarker(s, patterns);
    }
  }

  /** Redacting again, as display and download do, changes nothing. */
  lemma RedactedIsFixed(s: string, patterns: seq<string>, truncated: bool)
    requires AllRemovable(patterns)
    ensures Redacted(Redacted(s, patterns, truncated), patterns, false) == Redacted(s, patterns, truncated)
  {
    hide Body, Clean, Sealed, AllRemovable;
    if HasSuffix(s, MARKER) {
      var body := Body(s[..|s| - |MARKER|], patterns, true);
      BodyIsClean(s[..|s| - |MARKER|], patterns, true);
      BodyIsSealed(s[..|s| - |MARKER|], patterns);
      FixedBody(body, patterns, true);
      MarkedAgain(body, patterns);
    } else {
      var body := Body(s, patterns, truncated);
      BodyIsClean(s, patterns, truncated);
      FixedBody(body, patterns, false);
      if HasSuffix(body, MARKER) {
        BodyHasNoMarker(s, patterns, truncated);
      }
    }
  }

  lemma MarkedAgain(s: string, patterns: seq<string>)
    requires NonEmpty(patterns)
    ensures Redacted(s + MARKER, patterns, false) == Body(s, patterns, true) + MARKER
  {
    hide Body;
    assert (s + MARKER)[|s|..] == MARKER && (s + MARKER)[..|s|] == s;
  }

  lemma PlainHasNoMarker(p: string)
    requires Plain(p)
    ensures !HasSuffix(p, MARKER)
  {
    if HasSuffix(p, MARKER) {
      MarkerAtEnd(p);
    }
  }

  lemma MarkerAtEnd(p: string)
    requires HasSuffix(p, MARKER)
    ensures ']' in p
  {
    assert p[|p| - 1] == p[|p| - |MARKER|..][|MARKER| - 1] == ']';
  }

  lemma ReplaceSelf(q: string)
    requires q != ""
    ensures Replace(q, q) == REPLACEMENT
  {
    assert q <= q && q[|q|..] == "";
    assert REPLACEMENT + "" == REPLACEMENT;
  }

  // ---------------------------------------------------------------- longest first

  predicate Descends(patterns: seq<string>) {
    forall i, j :: 0 <= i < j < |patterns| ==> |patterns[i]| >= |patterns[j]|
  }

  lemma PrependDescends(p: string, patterns: seq<string>)
    requires Descends(patterns) && (patterns == [] || |patterns[0]| <= |p|)
    ensures Descends([p] + patterns)
  {
  }

  lemma {:induction false} InsertDescends(p: string, patterns: seq<string>)
    requires Descends(patterns)
    ensures Descends(Insert(p, patterns))
    ensures Insert(p, patterns) != []
    ensures Insert(p, patterns)[0] == p || (patterns != [] && Insert(p, patterns)[0] == patterns[0])
  {
    if patterns == [] || |patterns[0]| <= |p| {
      PrependDescends(p, patterns);
    } else {
      InsertDescends(p, patterns[1..]);
      PrependDescends(patterns[0], Insert(p, patterns[1..]));
    }
  }

  lemma {:induction false} LongestFirstDescends(patterns: seq<string>)
    ensures Descends(LongestFirst(patterns))
  {
    if patterns == [] {
    } else {
      LongestFirstDescends(patterns[1..]);
      InsertDescends(patterns[0], LongestFirst(patterns[1..]));
    }
  }

  lemma LongOccursOnlyAsWhole(p: string, q: string)
    requires |p| >= |q| && Occurs(p, q)
    ensures p == q
  {
    var i: nat :| OccursAt(p, q, i);
    assert i == 0 && q[0..|q|] == q;
  }

  lemma {:induction false} ReplaceWhole(q: string, ordered: seq<string>, k: nat)
    requires NonEmpty(ordered) && Descends(ordered) && AllRemovable(ordered) && q in ordered && k <= |ordered|
    ensures ReplaceAll(q, ordered[..k]) == if q in ordered[..k] then REPLACEMENT else q
  {
    if k == 0 {
    } else {
      ReplaceWhole(q, ordered, k - 1);
      var p := ordered[k - 1];
      assert ordered[..k][..k - 1] == ordered[..k - 1] && p in ordered;
      assert forall x :: x in ordered[..k] <==> x in ordered[..k - 1] || x == p;
      var m :| 0 <= m < |ordered| && ordered[m] == q;
      assert m < k - 1 ==> ordered[..k - 1][m] == q;
      if q in ordered[..k - 1] {
        AbsentIsUnchanged(REPLACEMENT, p);
      } else if p == q {
        ReplaceSelf(q);
      } else {
        if Occurs(p, q) {
          LongOccursOnlyAsWhole(p, q);
        }
        AbsentIsUnchanged(q, p);
      }
    }
  }

  /** Because longer patterns go first, a secret that contains another is replaced as a whole. */
  lemma WholeSecretIsOneMark(q: string, patterns: seq<string>)
    requires AllRemovable(patterns) && q in patterns
    ensures Redacted(q, patterns, false) == REPLACEMENT
  {
    hide ReplaceAll, LongestFirst;
    LongestFirstNonEmpty(patterns);
    LongestFirstDescends(patterns);
    var ordered := LongestFirst(patterns);
    forall p
      ensures p in ordered <==> p in patterns
    {
      LongestFirstMembers(patterns, p);
    }
    PlainHasNoMarker(q);
    ReplaceWhole(q, ordered, |ordered|);
    assert ordered[..|ordered|] == ordered;
  }

  // ---------------------------------------------------------------- exactly which patterns can be promised

  lemma OccursInside(q: string, s: string, t: string)
    requires Occurs(q, s) && Occurs(s, t)
    ensures Occurs(q, t)
  {
    var i: nat :| OccursAt(q, s, i);
    var j: nat :| OccursAt(s, t, j);
    assert forall k :: 0 <= k < |s| ==> t[j + k] == t[j..j + |s|][k] == s[k];
    assert t[j + i..j + i + |q|] == s[i..i + |q|];
    assert OccursAt(q, t, j + i);
  }

  /** Replacing p within itself leaves a mark, and a mark once present is never lost. */
  lemma {:induction false} MarkAppears(p: string, ordered: seq<string>, k: nat)
    requires NonEmpty(ordered) && Descends(ordered) && p in ordered && k <= |ordered|
    ensures if p in ordered[..k] then Occurs(REPLACEMENT, ReplaceAll(p, ordered[..k])) else ReplaceAll(p, ordered[..k]) == p
  {
    if k == 0 {
      assert ordered[..0] == [];
    } else {
      MarkAppears(p, ordered, k - 1);
      var q := ordered[k - 1];
      var before := ReplaceAll(p, ordered[..k - 1]);
      var m :| 0 <= m < |ordered| && ordered[m] == p;
      assert ordered[..k][..k - 1] == ordered[..k - 1];
      assert m < k - 1 ==> ordered[..k - 1][m] == p;
      assert forall x :: x in ordered[..k] <==> x in ordered[..k - 1] || x == q;
      if p in ordered[..k - 1] {
        if !Occurs(REPLACEMENT, Replace(before, q)) {
          UnmarkedIsUnchanged(before, q);
        }
      } else if q == p {
        ReplaceSelf(p);
        assert OccursAt(REPLACEMENT, REPLACEMENT, 0);
      } else {
        if Occurs(q, p) {
          LongOccursOnlyAsWhole(q, p);
        }
        AbsentIsUnchanged(p, q);
      }
    }
  }

  lemma PutBackByTheMark(patterns: seq<string>, p: string)
    requires NonEmpty(patterns) && p in patterns && Plain(p) && Occurs(p, REPLACEMENT)
    ensures Occurs(p, Redacted(p, patterns, false))
  {
    hide ReplaceAll, LongestFirst;
    LongestFirstNonEmpty(patterns);
    LongestFirstDescends(patterns);
    LongestFirstMembers(patterns, p);
    PlainHasNoMarker(p);
    var ordered := LongestFirst(patterns);
    MarkAppears(p, ordered, |ordered|);
    assert ordered[..|ordered|] == ordered;
    OccursInside(p, REPLACEMENT, ReplaceAll(p, ordered));
  }

  lemma PutBackByTheMarker(patterns: seq<string>, p: string)
    requires NonEmpty(patterns) && Occurs(p, MARKER)
    ensures Occurs(p, Redacted(MARKER, patterns, false))
  {
    hide Body;
    assert MARKER[0..] == MARKER && HasSuffix(MARKER, MARKER);
    var body := Body(MARKER[..0], patterns, true);
    assert (body + MARKER)[|body|..] == MARKER;
    OccursLater(p, body + MARKER, |body|);
  }

  /**
   For any list of patterns without brackets and broken characters, no pattern is ever left in redacted
   text exactly when no pattern occurs in the replacement or in the marker.
   */
  lemma RedactionIsCleanIff(patterns: seq<string>)
    requires NonEmpty(patterns) && forall p :: p in patterns ==> Plain(p) && BROKEN !in p
    ensures (forall s, truncated :: Clean(Redacted(s, patterns, truncated), patterns)) <==> AllRemovable(patterns)
  {
    hide Redacted;
    if AllRemovable(patterns) {
      forall s, truncated
        ensures Clean(Redacted(s, patterns, truncated), patterns)
      {
        RedactedIsClean(s, patterns, truncated);
      }
    } else {
      var p :| p in patterns && !Removable(p);
      if Occurs(p, REPLACEMENT) {
        PutBackByTheMark(patterns, p);
        assert !Clean(Redacted(p, patterns, false), patterns);
      } else {
        PutBackByTheMarker(patterns, p);
        assert !Clean(Redacted(MARKER, patterns, false), patterns);
      }
    }
  }

  // ---------------------------------------------------------------- what is stored and displayed

  /** One captured stream as it is stored; `limit` is the sixteenth of the payload given to it. */
  function Stored(s: string, patterns: seq<string>, exceeded: bool, timedOut: bool, limit: nat): string
    requires NonEmpty(patterns)
  {
    var first := Redacted(s, patterns, exceeded || timedOut);
    if Utf8Length(first) > limit || exceeded then Redacted(TakeBytes(first, limit), patterns, true) + MARKER else first
  }

  method BoundOutput(s: string, patterns: seq<string>, exceeded: bool, timedOut: bool, maxBytes: nat) returns (text: string)
    requires NonEmpty(patterns)
    ensures text == Stored(s, patterns, exceeded, timedOut, maxBytes / 16)
  {
    var limit := maxBytes / 16;
    text := Redact(s, patterns, exceeded || timedOut);
    if Utf8Length(text) > limit || exceeded {
      text := Redact(TakeBytes(text, limit), patterns, true);
      text := text + MARKER;
    }
  }

  lemma RedactedIsSealed(s: string, patterns: seq<string>)
    requires AllRemovable(patterns)
    ensures Sealed(Redacted(s, patterns, true), patterns)
  {
    hide Body, Sealed;
    if HasSuffix(s, MARKER) {
      var r := Redacted(s, patterns, true);
      EndIsSealed(r, patterns);
    } else {
      BodyIsSealed(s, patterns);
    }
  }

  lemma EndIsSealed(s: string, patterns: seq<string>)
    requires AllRemovable(patterns) && s != "" && s[|s| - 1] == ']'
    ensures Sealed(s, patterns)
  {
    StripBrokenIs(s, s);
    forall n | 0 < n <= |s|
      ensures !EndsInPrefix(s, patterns, n)
    {
      ForeignEnd(s, patterns, n);
    }
  }

  /** Stored text holds no secret, although it was cut again, and displaying it changes nothing. */
  lemma StoredIsClean(s: string, patterns: seq<string>, exceeded: bool, timedOut: bool, limit: nat)
    requires AllRemovable(patterns)
    ensures Clean(Stored(s, patterns, exceeded, timedOut, limit), patterns)
    ensures Redacted(Stored(s, patterns, exceeded, timedOut, limit), patterns, false)
            == Stored(s, patterns, exceeded, timedOut, limit)
  {
    hide Redacted, Clean, Sealed, AllRemovable, TakeBytes;
    var first := Redacted(s, patterns, exceeded || timedOut);
    if Utf8Length(first) > limit || exceeded {
      var taken := TakeBytes(first, limit);
      var again := Redacted(taken, patterns, true);
      RedactedIsClean(taken, patterns, true);
      RedactedIsSealed(taken, patterns);
      MarkedIsClean(again, patterns);
      MarkedAgain(again, patterns);
      FixedBody(again, patterns, true);
    } else {
      RedactedIsClean(s, patterns, exceeded || timedOut);
      RedactedIsFixed(s, patterns, exceeded || timedOut);
    }
  }

  lemma PrefixIsClean(t: string, s: string, patterns: seq<string>)
    requires t <= s && Clean(s, patterns)
    ensures Clean(t, patterns)
  {
    forall p | p in patterns
      ensures !Occurs(p, t)
    {
      if i: nat :| OccursAt(p, t, i) {
        assert OccursAt(p, s, i) by { assert t[i..i + |p|] == s[i..i + |p|]; }
      }
    }
  }

  lemma MarkedCutIsClean(s: string, patterns: seq<string>)
    requires AllRemovable(patterns) && Clean(s, patterns)
    ensures Clean(s + REPLACEMENT, patterns)
  {
    forall p | p in patterns
      ensures !Occurs(p, s + REPLACEMENT)
    {
      if i: nat :| OccursAt(p, s + REPLACEMENT, i) {
        BeforeTheMark(p, s, i);
      }
    }
  }

  lemma BeforeTheMark(q: string, s: string, i: nat)
    requires q != "" && Plain(q) && OccursAt(q, s + REPLACEMENT, i)
    ensures Occurs(q, s) || Occurs(q, REPLACEMENT)
  {
    var all := s + REPLACEMENT;
    if i <= |s| < i + |q| {
      CharacterAt(q, all, i, |s|);
    } else if i + |q| <= |s| {
      assert all[i..i + |q|] == s[i..i + |q|];
      assert OccursAt(q, s, i);
    } else {
      assert all[i..i + |q|] == REPLACEMENT[i - |s|..i - |s| + |q|];
      assert OccursAt(q, REPLACEMENT, i - |s|);
    }
  }

  lemma PrefixLength(t: string, s: string)
    requires t <= s
    ensures Utf8Length(t) <= Utf8Length(s)
  {
    assert s == t + s[|t|..];
    Utf8Concat(t, s[|t|..]);
  }

  lemma MarkLengths()
    ensures Utf8Length(REPLACEMENT) == 10 && Utf8Length(MARKER) == 12
  {
    AsciiWidth(REPLACEMENT);
    AsciiWidth(MARKER);
  }

  lemma {:induction false} AsciiWidth(s: string)
    requires forall i :: 0 <= i < |s| ==> s[i] as int < 0x80
    ensures Utf8Length(s) == |s|
  {
    if s == "" {
    } else {
      AsciiWidth(s[..|s| - 1]);
    }
  }

  /** Cutting clean text adds at most one mark to it. */
  lemma CleanBodyLength(s: string, patterns: seq<string>)
    requires AllRemovable(patterns) && Clean(s, patterns)
    ensures Utf8Length(Body(s, patterns, true)) <= Utf8Length(s) + 10
  {
    var boundary := StripBroken(s);
    var n := LongestCut(boundary, patterns, |boundary|);
    StripBrokenShape(s);
    var kept := boundary[..|boundary| - n];
    assert Cut(s, patterns) == s || Cut(s, patterns) == kept + REPLACEMENT;
    assert kept <= s;
    hide AllRemovable, Clean, LongestCut, StripBroken, Cut;
    PrefixIsClean(kept, s, patterns);
    MarkedCutIsClean(kept, patterns);
    BodyOfCleanCut(s, patterns);
    PrefixLength(kept, s);
    Utf8Concat(kept, REPLACEMENT);
    MarkLengths();
  }

  lemma BodyOfCleanCut(s: string, patterns: seq<string>)
    requires NonEmpty(patterns) && Clean(Cut(s, patterns), patterns)
    ensures Body(s, patterns, true) == Cut(s, patterns)
  {
    hide Cut;
    FixedBody(Cut(s, patterns), patterns, false);
  }

  /** What is stored exceeds its share by no more than one mark and one truncation marker. */
  lemma StoredIsBounded(s: string, patterns: seq<string>, exceeded: bool, timedOut: bool, limit: nat)
    requires AllRemovable(patterns)
    ensures Utf8Length(Stored(s, patterns, exceeded, timedOut, limit)) <= limit + 22
  {
    hide Body, Clean, AllRemovable, Utf8Length;
    var first := Redacted(s, patterns, exceeded || timedOut);
    if Utf8Length(first) > limit || exceeded {
      var taken := TakeBytes(first, limit);
      RedactedIsClean(s, patterns, exceeded || timedOut);
      PrefixIsClean(taken, first, patterns);
      MarkLengths();
      Utf8Concat(Redacted(taken, patterns, true), MARKER);
      if HasSuffix(taken, MARKER) {
        var text := taken[..|taken| - |MARKER|];
        PrefixIsClean(text, taken, patterns);
        CleanBodyLength(text, patterns);
        Utf8Concat(Body(text, patterns, true), MARKER);
        Utf8Concat(text, MARKER);
        assert text + MARKER == taken;
      } else {
        CleanBodyLength(taken, patterns);
      }
    }
  }

  // ---------------------------------------------------------------- nothing but secrets is taken out

  /** The second text is the first one with some pieces, each exactly a pattern, replaced by a mark. */
  ghost predicate OnlyCuts(s: string, r: string, patterns: seq<string>)
    decreases |s|
  {
    || (s == "" && r == "")
    || (s != "" && r != "" && s[0] == r[0] && OnlyCuts(s[1..], r[1..], patterns))
    || (exists p :: p in patterns && p != "" && CutsFirst(s, r, p) && OnlyCuts(s[|p|..], r[10..], patterns))
  }

  predicate CutsFirst(s: string, r: string, p: string) {
    p <= s && "[redacted]" <= r
  }

  lemma {:induction false} SameIsUncut(s: string, patterns: seq<string>)
    ensures OnlyCuts(s, s, patterns)
  {
    if s != "" {
      SameIsUncut(s[1..], patterns);
    }
  }

  /** A bracket-free beginning of the second text is a beginning of the first. */
  lemma {:induction false} PlainBeginning(s: string, r: string, patterns: seq<string>, q: string)
    requires OnlyCuts(s, r, patterns) && Plain(q) && q <= r
    ensures q <= s && OnlyCuts(s[|q|..], r[|q|..], patterns)
  {
    hide OnlyCuts, Plain;
    if q == "" {
      assert s[0..] == s && r[0..] == r;
    } else {
      StartsPlain(s, r, patterns, q);
      PlainBeginning(s[1..], r[1..], patterns, q[1..]);
      assert s == [s[0]] + s[1..] && q == [q[0]] + q[1..];
      assert s[1..][|q| - 1..] == s[|q|..] && r[1..][|q| - 1..] == r[|q|..];
    }
  }

  lemma StartsPlain(s: string, r: string, patterns: seq<string>, q: string)
    requires OnlyCuts(s, r, patterns) && q != "" && Plain(q) && q <= r
    ensures s != "" && s[0] == r[0] && OnlyCuts(s[1..], r[1..], patterns) && Plain(q[1..]) && q[1..] <= r[1..]
  {
    assert q[0] == r[0] != '[';
    forall p | p in patterns
      ensures !CutsFirst(s, r, p)
    {
      NoMark(s, r, p);
    }
  }

  lemma NoMark(s: string, r: string, p: string)
    requires r != "" && r[0] != '['
    ensures !CutsFirst(s, r, p)
  {
  }

  /** Text in which no occurrence begins is passed over. */
  lemma {:induction false} ReplaceSkips(text: string, rest: string, q: string)
    requires q != "" && forall j :: 0 <= j < |text| ==> !OccursAt(q, text + rest, j)
    ensures Replace(text + rest, q) == text + Replace(rest, q)
  {
    var all := text + rest;
    if text == "" {
      assert all == rest;
    } else {
      assert !OccursAt(q, all, 0);
      assert all[1..] == text[1..] + rest;
      forall j | 0 <= j < |text| - 1
        ensures !OccursAt(q, text[1..] + rest, j)
      {
        assert !OccursAt(q, all, j + 1);
        assert j + |q| <= |all| - 1 ==> all[1..][j..j + |q|] == all[j + 1..j + 1 + |q|];
      }
      ReplaceSkips(text[1..], rest, q);
      assert [text[0]] + text[1..] == text;
    }
  }

  lemma ReplaceSkipsMark(rest: string, q: string)
    requires q != "" && Plain(q) && !Occurs(q, REPLACEMENT)
    ensures Replace(REPLACEMENT + rest, q) == REPLACEMENT + Replace(rest, q)
  {
    hide Replace, Plain;
    forall j | 0 <= j < |REPLACEMENT|
      ensures !OccursAt(q, REPLACEMENT + rest, j)
    {
      if OccursAt(q, REPLACEMENT + rest, j) {
        InsideTheMark(q, rest, j);
      }
    }
    ReplaceSkips(REPLACEMENT, rest, q);
  }

  lemma MoreCuts(s: string, r: string, p: string, patterns: seq<string>)
    requires p in patterns && p != "" && CutsFirst(s, r, p) && OnlyCuts(s[|p|..], r[10..], patterns)
    ensures OnlyCuts(s, r, patterns)
  {
  }

  /** One more replacement of a removable pattern cuts one more pattern, never a mark. */
  lemma {:induction false} ReplaceOnlyCuts(s: string, t: string, patterns: seq<string>, q: string)
    requires OnlyCuts(s, t, patterns) && q in patterns && Removable(q)
    ensures OnlyCuts(s, Replace(t, q), patterns)
    decreases |t|
  {
    hide Removable, Plain, Occurs;
    assert q != "" && Plain(q) && !Occurs(q, REPLACEMENT) by { RemovableMeans(q); }
    if t == "" {
    } else if q <= t {
      PlainBeginning(s, t, patterns, q);
      ReplaceOnlyCuts(s[|q|..], t[|q|..], patterns, q);
      assert Replace(t, q)[10..] == Replace(t[|q|..], q);
      MoreCuts(s, Replace(t, q), q, patterns);
    } else if s != "" && s[0] == t[0] && OnlyCuts(s[1..], t[1..], patterns) {
      ReplaceOnlyCuts(s[1..], t[1..], patterns, q);
      assert Replace(t, q)[1..] == Replace(t[1..], q);
    } else {
      var p :| p in patterns && p != "" && CutsFirst(s, t, p) && OnlyCuts(s[|p|..], t[10..], patterns);
      ReplaceOnlyCuts(s[|p|..], t[10..], patterns, q);
      ReplaceSkipsMark(t[10..], q);
      assert REPLACEMENT == "[redacted]" && t == REPLACEMENT + t[10..];
      assert Replace(t, q)[10..] == Replace(t[10..], q);
      MoreCuts(s, Replace(t, q), p, patterns);
    }
  }

  lemma RemovableMeans(q: string)
    requires Removable(q)
    ensures q != "" && Plain(q) && !Occurs(q, REPLACEMENT)
  {
  }

  lemma {:induction false} ReplaceAllOnlyCuts(s: string, patterns: seq<string>, ordered: seq<string>)
    requires AllRemovable(patterns) && NonEmpty(ordered) && forall p :: p in ordered ==> p in patterns
    ensures OnlyCuts(s, ReplaceAll(s, ordered), patterns)
  {
    if ordered == [] {
      SameIsUncut(s, patterns);
    } else {
      var front := ordered[..|ordered| - 1];
      ReplaceAllOnlyCuts(s, patterns, front);
      ReplaceOnlyCuts(s, ReplaceAll(s, front), patterns, ordered[|ordered| - 1]);
    }
  }

  lemma BodyOnlyCuts(s: string, patterns: seq<string>, truncated: bool)
    requires AllRemovable(patterns)
    ensures OnlyCuts(if truncated then Cut(s, patterns) else s, Body(s, patterns, truncated), patterns)
  {
    hide ReplaceAll, Cut, LongestFirst, OnlyCuts;
    LongestFirstNonEmpty(patterns);
    forall p
      ensures p in LongestFirst(patterns) <==> p in patterns
    {
      LongestFirstMembers(patterns, p);
    }
    ReplaceAllOnlyCuts(if truncated then Cut(s, patterns) else s, patterns, LongestFirst(patterns));
  }

  /** Leaving broken characters at the end aside, the text ends in a beginning of the pattern. */
  predicate EndsInBeginning(s: string, kept: string, start: string, broken: string, p: string) {
    && s == kept + start + broken && start != "" && start[|start| - 1] != BROKEN && start <= p
    && forall j :: 0 <= j < |broken| ==> broken[j] == BROKEN
  }

  lemma NoCutMeans(s: string, patterns: seq<string>, kept: string, start: string, broken: string, p: string)
    requires LongestCut(StripBroken(s), patterns, |StripBroken(s)|) == 0 && p in patterns
    ensures !EndsInBeginning(s, kept, start, broken, p)
  {
    hide LongestCut, StripBroken;
    if EndsInBeginning(s, kept, start, broken, p) {
      StripAppended(kept + start, broken);
      BeginningFound(kept, start, patterns, p);
    }
  }

  /**
   Truncated text loses at most its end: a beginning of a pattern, with the broken characters after it.
   It loses that exactly when it ends in such a beginning.
   */
  lemma CutMeans(s: string, patterns: seq<string>)
    ensures || (Cut(s, patterns) == s &&
                forall kept, start, broken, p :: p in patterns ==> !EndsInBeginning(s, kept, start, broken, p))
            || (exists kept, start, broken, p ::
                  p in patterns && EndsInBeginning(s, kept, start, broken, p) && Cut(s, patterns) == kept + "[redacted]")
  {
    hide EndsInBeginning, LongestCut, StripBroken;
    var boundary := StripBroken(s);
    var n := LongestCut(boundary, patterns, |boundary|);
    if n == 0 {
      forall kept, start, broken, p | p in patterns
        ensures !EndsInBeginning(s, kept, start, broken, p)
      {
        NoCutMeans(s, patterns, kept, start, broken, p);
      }
    } else {
      var i :| 0 <= i < |patterns| && n <= |patterns[i]| && HasSuffix(boundary, patterns[i][..n]);
      CutAtBeginning(s, patterns[i], n);
      var kept := boundary[..|boundary| - n];
      assert patterns[i] in patterns && EndsInBeginning(s, kept, patterns[i][..n], s[|boundary|..], patterns[i]);
      assert Cut(s, patterns) == kept + "[redacted]";
    }
  }

  lemma CutAtBeginning(s: string, p: string, n: nat)
    requires 0 < n <= |p| && HasSuffix(StripBroken(s), p[..n])
    ensures n <= |StripBroken(s)| <= |s|
    ensures EndsInBeginning(s, StripBroken(s)[..|StripBroken(s)| - n], p[..n], s[|StripBroken(s)|..], p)
  {
    hide StripBroken;
    StripBrokenShape(s);
    var boundary := StripBroken(s);
    assert boundary == boundary[..|boundary| - n] + p[..n];
    assert s == boundary + s[|boundary|..];
  }

  lemma BeginningFound(kept: string, start: string, patterns: seq<string>, p: string)
    requires p in patterns && start <= p
    ensures EndsInPrefix(kept + start, patterns, |start|)
  {
    var i :| 0 <= i < |patterns| && patterns[i] == p;
    assert (kept + start)[|kept|..] == start == patterns[i][..|start|];
  }

  /** Redaction takes nothing but patterns out of text that is not truncated; without any it changes nothing. */
  lemma TextOutsideSecretsIsKept(s: string, patterns: seq<string>)
    requires AllRemovable(patterns) && !HasSuffix(s, "\n[truncated]")
    ensures OnlyCuts(s, Redacted(s, patterns, false), patterns)
    ensures OnlyCuts(Cut(s, patterns), Redacted(s, patterns, true), patterns)
    ensures Clean(s, patterns) ==> Redacted(s, patterns, false) == s
  {
    hide Body, OnlyCuts, Cut, Clean;
    BodyOnlyCuts(s, patterns, false);
    BodyOnlyCuts(s, patterns, true);
    if Clean(s, patterns) {
      FixedBody(s, patterns, false);
    }
  }

  /** Marked text is redacted as truncated text in front of its marker. */
  lemma MarkedTextIsTruncated(s: string, patterns: seq<string>)
    requires AllRemovable(patterns)
    ensures exists body ::
              && Redacted(s + "\n[truncated]", patterns, false) == body + "\n[truncated]"
              && OnlyCuts(Cut(s, patterns), body, patterns)
  {
    hide Body, OnlyCuts, Cut;
    MarkedAgain(s, patterns);
    BodyOnlyCuts(s, patterns, true);
  }

  /** Output that was captured whole, holds no secret and fits its share is stored as it is. */
  lemma ShortOutputIsStoredWhole(s: string, patterns: seq<string>, limit: nat)
    requires AllRemovable(patterns) && Clean(s, patterns) && !HasSuffix(s, "\n[truncated]") && Utf8Length(s) <= limit
    ensures Stored(s, patterns, false, false, limit) == s
  {
    hide Redacted, Clean;
    TextOutsideSecretsIsKept(s, patterns);
  }

  /** Stored text is only redacted if it was captured whole and fits; else it is a cut of that, marked as truncated. */
  lemma StoredByCase(s: string, patterns: seq<string>, exceeded: bool, timedOut: bool, limit: nat)
    requires AllRemovable(patterns)
    ensures var first, stored := Redacted(s, patterns, exceeded || timedOut), Stored(s, patterns, exceeded, timedOut, limit);
            if exceeded || Utf8Length(first) > limit
            then exists n: nat ::
                   FillsBytes(first, n, limit) && stored == Redacted(first[..n], patterns, true) + "\n[truncated]"
            else stored == first
  {
    hide Redacted, AllRemovable;
    var first := Redacted(s, patterns, exceeded || timedOut);
    var taken := TakeBytes(first, limit);
    assert taken == first[..|taken|] && FillsBytes(first, |taken|, limit);
  }

  /** The first `n` characters fit, and one more does not. */
  predicate FillsBytes(s: string, n: nat, limit: nat) {
    n <= |s| && Utf8Length(s[..n]) <= limit && (n < |s| ==> Utf8Length(s[..n + 1]) > limit)
  }
}
