/**
 Path filters of repository-defined checks, and the run-or-skip plan made with them.

 The shell-style match of one segment against one part is a parameter.
 */
module PathMatcher {
  import opened Options

  type SegmentMatch = (string, string) -> bool

  // ---------------------------------------------------------------- segments

  /** The segments between slashes. */
  function Split(s: string): (parts: seq<string>)
    ensures parts != []
  {
    if s == "" then [""]
    else
      var rest := Split(s[1..]);
      if s[0] == '/' then [""] + rest else [[s[0]] + rest[0]] + rest[1..]
  }

  function Join(parts: seq<string>): string
    requires parts != []
  {
    if |parts| == 1 then parts[0] else parts[0] + "/" + Join(parts[1..])
  }

  /** Splitting loses nothing and leaves no slash inside a segment. */
  lemma {:induction false} SplitJoins(s: string)
    ensures Join(Split(s)) == s
    ensures forall part :: part in Split(s) ==> '/' !in part
  {
    if s == "" {
    } else {
      SplitJoins(s[1..]);
      var rest := Split(s[1..]);
      if s[0] == '/' {
        assert ([""] + rest)[1..] == rest;
        assert s == "/" + s[1..];
      } else {
        var parts := [[s[0]] + rest[0]] + rest[1..];
        assert parts[1..] == rest[1..];
        assert s == [s[0]] + s[1..];
        if |rest| > 1 {
          assert Join(parts) == [s[0]] + (rest[0] + "/" + Join(rest[1..]));
        }
      }
    }
  }

  // ---------------------------------------------------------------- the meaning of a pattern

  /** `**` covers any number of whole segments, any other part exactly one that it matches. */
  predicate Covers(matches: SegmentMatch, part: string, segments: seq<string>) {
    part == "**" || (|segments| == 1 && matches(segments[0], part))
  }

  function Concat(pieces: seq<seq<string>>): seq<string> {
    if pieces == [] then [] else Concat(pieces[..|pieces| - 1]) + pieces[|pieces| - 1]
  }

  predicate Divides(matches: SegmentMatch, path: seq<string>, pattern: seq<string>, pieces: seq<seq<string>>) {
    && |pieces| == |pattern| && Concat(pieces) == path
    && forall i :: 0 <= i < |pieces| ==> Covers(matches, pattern[i], pieces[i])
  }

  /** The path falls into consecutive pieces, one covered by each part of the pattern. */
  ghost predicate Glob(matches: SegmentMatch, path: seq<string>, pattern: seq<string>) {
    exists pieces :: Divides(matches, path, pattern, pieces)
  }

  lemma DividesSnoc(
    matches: SegmentMatch, path: seq<string>, pattern: seq<string>, part: string,
    pieces: seq<seq<string>>, piece: seq<string>)
    ensures Divides(matches, path, pattern, pieces) && Covers(matches, part, piece) ==>
              Divides(matches, path + piece, pattern + [part], pieces + [piece])
    ensures Divides(matches, path, pattern + [part], pieces + [piece]) ==>
              Divides(matches, Concat(pieces), pattern, pieces) && Covers(matches, part, piece) && path == Concat(pieces) + piece
  {
    assert (pieces + [piece])[..|pieces|] == pieces;
    assert forall i :: 0 <= i < |pieces| ==> (pieces + [piece])[i] == pieces[i];
    if Divides(matches, path, pattern + [part], pieces + [piece]) {
      assert (pattern + [part])[|pieces|] == part && (pieces + [piece])[|pieces|] == piece;
      assert forall i :: 0 <= i < |pieces| ==> (pattern + [part])[i] == pattern[i];
    }
  }

  lemma Ending(matches: SegmentMatch, path: seq<string>, pattern: seq<string>, part: string)
      returns (pieces: seq<seq<string>>, piece: seq<string>)
    requires Glob(matches, path, pattern + [part])
    ensures Divides(matches, Concat(pieces), pattern, pieces) && Covers(matches, part, piece) && path == Concat(pieces) + piece
  {
    var all :| Divides(matches, path, pattern + [part], all);
    pieces, piece := all[..|all| - 1], all[|all| - 1];
    assert all == pieces + [piece];
    DividesSnoc(matches, path, pattern, part, pieces, piece);
  }

  lemma GlobEmpty(matches: SegmentMatch, path: seq<string>)
    ensures Glob(matches, path, []) <==> path == []
  {
    assert Divides(matches, [], [], []);
  }

  /** A part covering one segment takes the last one. */
  lemma GlobSegment(matches: SegmentMatch, path: seq<string>, pattern: seq<string>, part: string)
    requires part != "**"
    ensures Glob(matches, path, pattern + [part]) <==>
            path != [] && Glob(matches, path[..|path| - 1], pattern) && matches(path[|path| - 1], part)
  {
    hide Divides;
    if Glob(matches, path, pattern + [part]) {
      var pieces, piece := Ending(matches, path, pattern, part);
      assert path[..|path| - 1] == Concat(pieces);
    }
    if path != [] && Glob(matches, path[..|path| - 1], pattern) && matches(path[|path| - 1], part) {
      var pieces :| Divides(matches, path[..|path| - 1], pattern, pieces);
      DividesSnoc(matches, path[..|path| - 1], pattern, part, pieces, [path[|path| - 1]]);
      assert path == path[..|path| - 1] + [path[|path| - 1]];
    }
  }

  /** A final `**` covers nothing, or one more segment than it does without the last one. */
  lemma GlobStar(matches: SegmentMatch, path: seq<string>, pattern: seq<string>)
    ensures Glob(matches, path, pattern + ["**"]) <==>
            Glob(matches, path, pattern) || (path != [] && Glob(matches, path[..|path| - 1], pattern + ["**"]))
  {
    hide Divides;
    if Glob(matches, path, pattern + ["**"]) {
      var pieces, piece := Ending(matches, path, pattern, "**");
      if piece == [] {
        assert path == Concat(pieces);
      } else {
        var shorter := piece[..|piece| - 1];
        DividesSnoc(matches, Concat(pieces), pattern, "**", pieces, shorter);
        assert path[..|path| - 1] == Concat(pieces) + shorter;
      }
    }
    if Glob(matches, path, pattern) {
      var pieces :| Divides(matches, path, pattern, pieces);
      DividesSnoc(matches, path, pattern, "**", pieces, []);
      assert path + [] == path;
    }
    if path != [] && Glob(matches, path[..|path| - 1], pattern + ["**"]) {
      var pieces, piece := Ending(matches, path[..|path| - 1], pattern, "**");
      var longer := piece + [path[|path| - 1]];
      DividesSnoc(matches, Concat(pieces), pattern, "**", pieces, longer);
      assert Concat(pieces) + longer == path;
    }
  }

  lemma {:induction false} ConcatAppends(xs: seq<seq<string>>, ys: seq<seq<string>>)
    ensures Concat(xs + ys) == Concat(xs) + Concat(ys)
    decreases |ys|
  {
    if ys == [] {
      assert xs + ys == xs;
    } else {
      assert (xs + ys)[..|xs + ys| - 1] == xs + ys[..|ys| - 1];
      ConcatAppends(xs, ys[..|ys| - 1]);
    }
  }

  lemma DividesJoin(
    matches: SegmentMatch, xs: seq<string>, ys: seq<string>, ps: seq<seq<string>>, qs: seq<seq<string>>)
    requires Divides(matches, Concat(ps), xs, ps) && Divides(matches, Concat(qs), ys, qs)
    ensures Divides(matches, Concat(ps) + Concat(qs), xs + ys, ps + qs)
  {
    hide Covers, Concat;
    ConcatAppends(ps, qs);
    forall i | 0 <= i < |ps + qs|
      ensures Covers(matches, (xs + ys)[i], (ps + qs)[i])
    {
      if i < |ps| {
        assert Covers(matches, xs[i], ps[i]);
      } else {
        assert Covers(matches, ys[i - |ps|], qs[i - |ps|]);
      }
    }
  }

  lemma DividesSplit(
    matches: SegmentMatch, path: seq<string>, xs: seq<string>, ys: seq<string>, ps: seq<seq<string>>, qs: seq<seq<string>>)
    requires |ps| == |xs| && |qs| == |ys| && Divides(matches, path, xs + ys, ps + qs)
    ensures path == Concat(ps) + Concat(qs)
    ensures Divides(matches, Concat(ps), xs, ps) && Divides(matches, Concat(qs), ys, qs)
  {
    hide Covers, Concat;
    ConcatAppends(ps, qs);
    forall i | 0 <= i < |ps|
      ensures Covers(matches, xs[i], ps[i])
    {
      assert Covers(matches, (xs + ys)[i], (ps + qs)[i]);
    }
    forall i | 0 <= i < |qs|
      ensures Covers(matches, ys[i], qs[i])
    {
      assert Covers(matches, (xs + ys)[|xs| + i], (ps + qs)[|ps| + i]);
    }
  }

  /** A pattern in two halves matches exactly what can be cut in two that the halves match. */
  lemma GlobAppend(matches: SegmentMatch, path: seq<string>, xs: seq<string>, ys: seq<string>)
    ensures Glob(matches, path, xs + ys) <==>
            exists k :: 0 <= k <= |path| && Glob(matches, path[..k], xs) && Glob(matches, path[k..], ys)
  {
    hide Covers, Concat;
    if Glob(matches, path, xs + ys) {
      var all :| Divides(matches, path, xs + ys, all);
      var ps, qs := all[..|xs|], all[|xs|..];
      assert all == ps + qs;
      DividesSplit(matches, path, xs, ys, ps, qs);
      var k := |Concat(ps)|;
      assert path[..k] == Concat(ps) && path[k..] == Concat(qs);
    }
    if k :| 0 <= k <= |path| && Glob(matches, path[..k], xs) && Glob(matches, path[k..], ys) {
      var ps :| Divides(matches, path[..k], xs, ps);
      var qs :| Divides(matches, path[k..], ys, qs);
      DividesJoin(matches, xs, ys, ps, qs);
      assert path == path[..k] + path[k..];
    }
  }

  /** One part: `**` matches every path, and any other part a single segment that it matches. */
  lemma GlobOne(matches: SegmentMatch, path: seq<string>, part: string)
    ensures Glob(matches, path, [part]) <==> part == "**" || (|path| == 1 && matches(path[0], part))
  {
    assert Concat([path]) == path by {
      assert [path][..0] == [];
    }
    if part == "**" || (|path| == 1 && matches(path[0], part)) {
      assert Divides(matches, path, [part], [path]);
    }
    if Glob(matches, path, [part]) {
      var pieces :| Divides(matches, path, [part], pieces);
      assert pieces == [pieces[0]] && Concat(pieces) == pieces[0] by {
        assert pieces[..0] == [];
      }
      assert Covers(matches, part, pieces[0]);
    }
  }

  /** Around a `**` the path starts with what the first half and ends with what the second half matches. */
  lemma GlobAround(matches: SegmentMatch, path: seq<string>, xs: seq<string>, ys: seq<string>)
    ensures Glob(matches, path, xs + ["**"] + ys) <==>
            exists i, j :: 0 <= i <= j <= |path| && Glob(matches, path[..i], xs) && Glob(matches, path[j..], ys)
  {
    hide Glob;
    GlobAppend(matches, path, xs + ["**"], ys);
    forall k | 0 <= k <= |path|
      ensures Glob(matches, path[..k], xs + ["**"]) <==> exists i :: 0 <= i <= k && Glob(matches, path[..i], xs)
    {
      GlobAppend(matches, path[..k], xs, ["**"]);
      forall i | 0 <= i <= k
        ensures path[..k][..i] == path[..i] && Glob(matches, path[..k][i..], ["**"])
      {
        GlobOne(matches, path[..k][i..], "**");
      }
    }
  }

  /** Without `**` a pattern matches segment by segment. */
  lemma {:induction false} GlobWithoutStar(matches: SegmentMatch, path: seq<string>, pattern: seq<string>)
    requires "**" !in pattern
    ensures Glob(matches, path, pattern) <==> |path| == |pattern| && forall i :: 0 <= i < |path| ==> matches(path[i], pattern[i])
    decreases |pattern|
  {
    hide Glob;
    if pattern == [] {
      GlobEmpty(matches, path);
    } else {
      var n := |pattern| - 1;
      assert pattern == pattern[..n] + [pattern[n]];
      GlobSegment(matches, path, pattern[..n], pattern[n]);
      if path != [] {
        GlobWithoutStar(matches, path[..|path| - 1], pattern[..n]);
      }
    }
  }

  // ---------------------------------------------------------------- the table

  /** Row `j` of the table says which prefixes of the path the first `j` parts match. */
  ghost predicate IsRow(matches: SegmentMatch, path: seq<string>, pattern: seq<string>, row: seq<bool>) {
    |row| == |path| + 1 && forall i :: 0 <= i <= |path| ==> (row[i] <==> Glob(matches, path[..i], pattern))
  }

  method NextRow(matches: SegmentMatch, path: seq<string>, ghost pattern: seq<string>, part: string, previous: array<bool>)
      returns (current: array<bool>)
    requires IsRow(matches, path, pattern, previous[..])
    ensures fresh(current) && IsRow(matches, path, pattern + [part], current[..])
  {
    current := new bool[|path| + 1](_ => false);
    if part == "**" {
      current[0] := previous[0];
      GlobStar(matches, path[..0], pattern);
      for index := 1 to current.Length
        invariant current[0] == previous[0] && fresh(current)
        invariant forall i :: 0 <= i < index ==> (current[i] <==> Glob(matches, path[..i], pattern + [part]))
      {
        GlobStar(matches, path[..index], pattern);
        assert path[..index][..index - 1] == path[..index - 1];
        current[index] := previous[index] || current[index - 1];
      }
    } else {
      GlobSegment(matches, path[..0], pattern, part);
      for index := 1 to current.Length
        invariant fresh(current) && !current[0]
        invariant forall i :: 0 <= i < index ==> (current[i] <==> Glob(matches, path[..i], pattern + [part]))
      {
        GlobSegment(matches, path[..index], pattern, part);
        assert path[..index][..index - 1] == path[..index - 1];
        current[index] := previous[index - 1] && matches(path[index - 1], part);
      }
    }
  }

  /** The row-by-row table computes the meaning of the pattern. */
  method PathMatches(matches: SegmentMatch, path: string, pattern: string) returns (matched: bool)
    ensures matched <==> Glob(matches, Split(path), Split(pattern))
  {
    var pathParts, patternParts := Split(path), Split(pattern);
    var previous := new bool[|pathParts| + 1](_ => false);
    previous[0] := true;
    forall i | 0 <= i <= |pathParts|
      ensures previous[i] <==> Glob(matches, pathParts[..i], [])
    {
      GlobEmpty(matches, pathParts[..i]);
    }
    assert patternParts[..0] == [];
    for j := 0 to |patternParts|
      invariant IsRow(matches, pathParts, patternParts[..j], previous[..])
    {
      assert patternParts[..j + 1] == patternParts[..j] + [patternParts[j]];
      previous := NextRow(matches, pathParts, patternParts[..j], patternParts[j], previous);
    }
    assert patternParts[..|patternParts|] == patternParts && pathParts[..|pathParts|] == pathParts;
    return previous[previous.Length - 1];
  }

  // ---------------------------------------------------------------- the plan

  const CONFIG_FILE_NAME := ".pr-reliability.json"
  const MAX_CHECKS := 16
  const MAX_TOTAL_TIMEOUT := 900.0
  const DEFAULT_TIMEOUT := 300.0

  /** A check of the repository's configuration that the operator's allowlist admits. */
  datatype Check = Check(name: string, paths: seq<string>, timeout: real)

  datatype Reason = ConfigurationChanged | PathMatch | NoMatchingPaths

  datatype Planned = Planned(check: Check, reason: Reason) {
    predicate Selected() {
      !reason.NoMatchingPaths?
    }
  }

  datatype Plan = Plan(checks: seq<Planned>, proofTimeout: real)

  ghost predicate Touches(matches: SegmentMatch, changed: seq<string>, check: Check) {
    exists i, j :: 0 <= i < |changed| && 0 <= j < |check.paths| && Glob(matches, Split(changed[i]), Split(check.paths[j]))
  }

  /** A check runs when the configuration itself changed or one of its patterns matches a changed path. */
  ghost function Decision(matches: SegmentMatch, changed: seq<string>, check: Check): Reason {
    if CONFIG_FILE_NAME in changed then ConfigurationChanged
    else if Touches(matches, changed, check) then PathMatch
    else NoMatchingPaths
  }

  /** A check is skipped exactly when the configuration is unchanged and no changed path matches a pattern of it. */
  lemma SkippedIff(matches: SegmentMatch, changed: seq<string>, check: Check)
    ensures !Planned(check, Decision(matches, changed, check)).Selected() <==>
            && ".pr-reliability.json" !in changed
            && forall path, pattern :: path in changed && pattern in check.paths ==> !Glob(matches, Split(path), Split(pattern))
  {
    hide Glob;
    if Touches(matches, changed, check) {
      var i, j :| 0 <= i < |changed| && 0 <= j < |check.paths| && Glob(matches, Split(changed[i]), Split(check.paths[j]));
      assert changed[i] in changed && check.paths[j] in check.paths;
    } else {
      forall path, pattern | path in changed && pattern in check.paths
        ensures !Glob(matches, Split(path), Split(pattern))
      {
        var i :| 0 <= i < |changed| && changed[i] == path;
        var j :| 0 <= j < |check.paths| && check.paths[j] == pattern;
      }
    }
  }

  predicate WellFormed(raw: seq<Option<Check>>) {
    && 1 <= |raw| <= MAX_CHECKS
    && (forall i :: 0 <= i < |raw| ==> raw[i].Some?)
    && (forall i, j :: 0 <= i < j < |raw| ==> raw[i].value.name != raw[j].value.name)
  }

  ghost function PlanOf(matches: SegmentMatch, raw: seq<Option<Check>>, changed: seq<string>): seq<Planned>
    requires WellFormed(raw)
  {
    seq(|raw|, i requires 0 <= i < |raw| => Planned(raw[i].value, Decision(matches, changed, raw[i].value)))
  }

  function SelectedTime(planned: seq<Planned>): real {
    if planned == [] then 0.0
    else SelectedTime(planned[..|planned| - 1])
         + (if planned[|planned| - 1].Selected() then planned[|planned| - 1].check.timeout else 0.0)
  }

  /** Only the checks that will run take time. */
  lemma SelectedTimeAdds(planned: seq<Planned>, p: Planned)
    ensures SelectedTime([]) == 0.0
    ensures SelectedTime(planned + [p]) == SelectedTime(planned) + (if p.reason == NoMatchingPaths then 0.0 else p.check.timeout)
  {
    assert (planned + [p])[..|planned|] == planned;
  }

  predicate IsLongestSelected(planned: seq<Planned>, timeout: real) {
    && (forall p :: p in planned && p.Selected() ==> p.check.timeout <= timeout)
    && ((exists p :: p in planned && p.Selected() && p.check.timeout == timeout)
        || ((forall p :: p in planned ==> !p.Selected()) && timeout == DEFAULT_TIMEOUT))
  }

  method AnyMatches(matches: SegmentMatch, changed: seq<string>, paths: seq<string>) returns (any: bool)
    ensures any <==> exists i, j :: 0 <= i < |changed| && 0 <= j < |paths| && Glob(matches, Split(changed[i]), Split(paths[j]))
  {
    for i := 0 to |changed|
      invariant forall x, j :: 0 <= x < i && 0 <= j < |paths| ==> !Glob(matches, Split(changed[x]), Split(paths[j]))
    {
      for j := 0 to |paths|
        invariant forall y :: 0 <= y < j ==> !Glob(matches, Split(changed[i]), Split(paths[y]))
      {
        var matched := PathMatches(matches, changed[i], paths[j]);
        if matched {
          return true;
        }
      }
    }
    return false;
  }

  method SelectedTimeouts(planned: seq<Planned>) returns (total: real, longest: real)
    requires forall p :: p in planned ==> p.check.timeout > 0.0
    ensures total == SelectedTime(planned) && IsLongestSelected(planned, longest)
  {
    total, longest := 0.0, DEFAULT_TIMEOUT;
    var found := false;
    for i := 0 to |planned|
      invariant total == SelectedTime(planned[..i])
      invariant IsLongestSelected(planned[..i], longest)
      invariant found <==> exists p :: p in planned[..i] && p.Selected()
    {
      assert planned[..i + 1][..i] == planned[..i];
      ghost var before := planned[..i];
      assert planned[..i + 1] == before + [planned[i]];
      var p := planned[i];
      assert p in planned[..i + 1];
      if p.Selected() {
        total := total + p.check.timeout;
        if !found || longest < p.check.timeout {
          longest := p.check.timeout;
        }
        found := true;
      }
      assert forall q :: q in planned[..i + 1] <==> q in before || q == p;
    }
    assert planned[..|planned|] == planned;
  }

  /**
   Plans every check or rejects the configuration: a raw entry is None when it is malformed or not
   admitted by the operator. A check is skipped exactly when the configuration file is unchanged and no
   pattern of it matches a changed path.
   */
  method LoadVerificationPlan(matches: SegmentMatch, raw: seq<Option<Check>>, changed: seq<string>) returns (plan: Option<Plan>)
    requires forall i :: 0 <= i < |raw| && raw[i].Some? ==> 0.0 < raw[i].value.timeout <= MAX_TOTAL_TIMEOUT
    ensures plan.Some? <==> WellFormed(raw) && SelectedTime(PlanOf(matches, raw, changed)) <= MAX_TOTAL_TIMEOUT
    ensures plan.Some? ==> plan.value.checks == PlanOf(matches, raw, changed)
    ensures plan.Some? ==> IsLongestSelected(plan.value.checks, plan.value.proofTimeout)
  {
    if !(1 <= |raw| <= MAX_CHECKS) {
      return None;
    }
    var planned: seq<Planned> := [];
    var names: set<string> := {};
    for i := 0 to |raw|
      invariant forall j :: 0 <= j < i ==> raw[j].Some?
      invariant |planned| == i
      invariant forall j :: 0 <= j < i ==> planned[j] == Planned(raw[j].value, Decision(matches, changed, raw[j].value))
      invariant forall name :: name in names <==> exists j :: 0 <= j < i && raw[j].value.name == name
      invariant forall x, y :: 0 <= x < y < i ==> raw[x].value.name != raw[y].value.name
    {
      if raw[i].None? {
        return None;
      }
      var check := raw[i].value;
      if check.name in names {
        return None;
      }
      names := names + {check.name};
      var reason: Reason;
      if CONFIG_FILE_NAME in changed {
        reason := ConfigurationChanged;
      } else {
        var selected := AnyMatches(matches, changed, check.paths);
        reason := if selected then PathMatch else NoMatchingPaths;
      }
      planned := planned + [Planned(check, reason)];
    }
    assert planned == PlanOf(matches, raw, changed);
    var total, longest := SelectedTimeouts(planned);
    if total > MAX_TOTAL_TIMEOUT {
      return None;
    }
    return Some(Plan(planned, longest));
  }
}
