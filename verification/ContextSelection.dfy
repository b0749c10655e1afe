/**
 Selection of changed files and their direct dependencies under a token budget.

 Paths are already normalized; which paths are excluded by pattern and which paths a file imports are
 parameters.
 */
module ContextSelection {
  import opened Options
  import opened ContextRendering

  // ---------------------------------------------------------------- one candidate after another

  datatype Candidate = Candidate(path: string, source: Source, content: string)

  datatype Selected = Selected(
    path: string, content: string, source: Source, originalTokens: nat, includedTokens: nat, truncated: bool)

  datatype Reason = Missing | ExcludedPattern | AmbiguousDependency | BudgetExhausted

  datatype Excluded = Excluded(path: string, source: Source, reason: Reason)

  datatype Progress = Progress(files: seq<Selected>, excluded: seq<Excluded>, rendered: string)

  function Partial(c: Candidate, m: nat): string
    requires m <= |c.content|
  {
    Render(c.path, c.source, c.content[..m], true)
  }

  function Complete(c: Candidate): string {
    Render(c.path, c.source, c.content, false)
  }

  predicate Fits(before: string, c: Candidate, m: nat, budget: nat)
    requires m <= |c.content|
  {
    EstimateTokens(before + Partial(c, m)) <= budget
  }

  /** The length of the longest nonempty prefix, no longer than `limit`, whose record fits; or 0. */
  function LongestPrefix(before: string, c: Candidate, limit: nat, budget: nat): (m: nat)
    requires limit <= |c.content|
    ensures m <= limit
  {
    if limit == 0 || Fits(before, c, limit, budget) then limit else LongestPrefix(before, c, limit - 1, budget)
  }

  lemma {:induction false} LongestPrefixIsLongest(before: string, c: Candidate, limit: nat, budget: nat)
    requires limit <= |c.content|
    ensures var m := LongestPrefix(before, c, limit, budget);
            && (m > 0 ==> Fits(before, c, m, budget))
            && forall k :: m < k <= limit ==> !Fits(before, c, k, budget)
  {
    hide Fits;
    if limit > 0 && !Fits(before, c, limit, budget) {
      LongestPrefixIsLongest(before, c, limit - 1, budget);
    }
  }

  function Difference(a: nat, b: nat): nat {
    if a < b then 0 else a - b
  }

  function Added(before: string, record: string): nat {
    Difference(EstimateTokens(before + record), EstimateTokens(before))
  }

  function Consider(p: Progress, c: Candidate, budget: nat): Progress {
    var original := Added(p.rendered, Complete(c));
    if EstimateTokens(p.rendered + Complete(c)) <= budget then
      Progress(p.files + [Selected(c.path, c.content, c.source, original, original, false)], p.excluded,
               p.rendered + Complete(c))
    else
      var m := LongestPrefix(p.rendered, c, |c.content|, budget);
      if m == 0 then p.(excluded := p.excluded + [Excluded(c.path, c.source, BudgetExhausted)])
      else
        Progress(p.files + [Selected(c.path, c.content[..m], c.source, original, Added(p.rendered, Partial(c, m)), true)],
                 p.excluded, p.rendered + Partial(c, m))
  }

  function ConsiderAll(excluded: seq<Excluded>, cs: seq<Candidate>, budget: nat): Progress {
    if cs == [] then Progress([], excluded, "")
    else Consider(ConsiderAll(excluded, cs[..|cs| - 1], budget), cs[|cs| - 1], budget)
  }

  // ---------------------------------------------------------------- the binary search

  lemma FitsDownward(before: string, c: Candidate, m: nat, n: nat, budget: nat)
    requires Ascii(before) && m <= n <= |c.content| && Fits(before, c, n, budget)
    ensures Fits(before, c, m, budget)
  {
    EscapeGrows(c.content, m, n);
    AsciiLength(before + Partial(c, m));
    AsciiLength(before + Partial(c, n));
  }

  /** Halves the range; the lower end is never tried itself, so an empty prefix means none fits. */
  method LargestPrefix(before: string, c: Candidate, budget: nat) returns (prefix: string)
    requires Ascii(before)
    ensures prefix == c.content[..LongestPrefix(before, c, |c.content|, budget)]
  {
    var low, high := 0, |c.content|;
    while low < high
      invariant 0 <= low <= high <= |c.content|
      invariant low == 0 || Fits(before, c, low, budget)
      invariant forall k :: high < k <= |c.content| ==> !Fits(before, c, k, budget)
    {
      var middle := (low + high + 1) / 2;
      var candidate := Render(c.path, c.source, c.content[..middle], true);
      if EstimateTokens(before + candidate) <= budget {
        low := middle;
      } else {
        forall k | middle <= k <= |c.content|
          ensures !Fits(before, c, k, budget)
        {
          if Fits(before, c, k, budget) {
            FitsDownward(before, c, middle, k, budget);
          }
        }
        high := middle - 1;
      }
    }
    LongestPrefixIsLongest(before, c, |c.content|, budget);
    return c.content[..low];
  }

  // ---------------------------------------------------------------- what is eligible

  type Repository = map<string, string>

  datatype Resolution = Resolution(dependencies: set<string>, ambiguous: set<string>)

  predicate Below(a: string, b: string) {
    b != "" && (a == "" || a[0] < b[0] || (a[0] == b[0] && Below(a[1..], b[1..])))
  }

  lemma {:induction false} BelowIsTotal(a: string, b: string)
    ensures a == b || Below(a, b) || Below(b, a)
  {
    if a != "" && b != "" && a[0] == b[0] {
      BelowIsTotal(a[1..], b[1..]);
      assert a == [a[0]] + a[1..] && b == [b[0]] + b[1..];
    }
  }

  lemma {:induction false} BelowIsAnOrder(a: string, b: string, c: string)
    ensures !Below(a, a)
    ensures Below(a, b) && Below(b, c) ==> Below(a, c)
  {
    if a == "" {
    } else {
      BelowIsAnOrder(a[1..], if b == "" then b else b[1..], if c == "" then c else c[1..]);
    }
  }

  predicate IsLeast(s: set<string>, x: string) {
    x in s && forall y :: y in s && y != x ==> Below(x, y)
  }

  lemma LeastWith(s: set<string>, x: string, z: string)
    requires IsLeast(s, x) && z !in s
    ensures IsLeast(s + {z}, if Below(x, z) then x else z)
  {
    BelowIsTotal(x, z);
    forall y | y in s && y != x && !Below(x, z)
      ensures Below(z, y)
    {
      BelowIsAnOrder(z, x, y);
    }
  }

  lemma LeastExists(s: set<string>)
    requires s != {}
    ensures exists x :: IsLeast(s, x)
  {
    var z :| z in s;
    if s == {z} {
      assert IsLeast(s, z);
    } else {
      LeastExists(s - {z});
      var x :| IsLeast(s - {z}, x);
      LeastWith(s - {z}, x, z);
      assert s - {z} + {z} == s;
    }
  }

  lemma LeastIsUnique(s: set<string>, x: string, y: string)
    requires IsLeast(s, x) && IsLeast(s, y)
    ensures x == y
  {
    BelowIsAnOrder(x, y, x);
  }

  function Least(s: set<string>): (x: string)
    requires s != {}
    ensures IsLeast(s, x)
  {
    LeastExists(s);
    assert forall x, y :: IsLeast(s, x) && IsLeast(s, y) ==> x == y by {
      forall x, y | IsLeast(s, x) && IsLeast(s, y)
        ensures x == y
      {
        LeastIsUnique(s, x, y);
      }
    }
    var x :| x in s && IsLeast(s, x);
    x
  }

  /** The elements of the set in increasing order, each once. */
  function Sorted(s: set<string>): (r: seq<string>)
    ensures forall x :: x in r <==> x in s
    ensures forall i, j :: 0 <= i < j < |r| ==> Below(r[i], r[j]) && r[i] != r[j]
  {
    if s == {} then [] else [Least(s)] + Sorted(s - {Least(s)})
  }

  datatype Setup = Setup(repository: Repository, isExcluded: string -> bool, resolve: (string, string) -> Resolution)

  function IneligibleReason(u: Setup, path: string): Option<Reason> {
    if path !in u.repository then Some(Missing)
    else if u.isExcluded(path) then Some(ExcludedPattern)
    else None
  }

  function Eligible(u: Setup, paths: seq<string>): (r: seq<string>)
    ensures forall x :: x in r <==> x in paths && IneligibleReason(u, x).None?
    ensures forall x :: x in r ==> x in u.repository
  {
    if paths == [] then []
    else
      var front, path := Eligible(u, paths[..|paths| - 1]), paths[|paths| - 1];
      if IneligibleReason(u, path).None? then front + [path] else front
  }

  function Ineligible(u: Setup, source: Source, paths: seq<string>): seq<Excluded> {
    if paths == [] then []
    else
      var front, path := Ineligible(u, source, paths[..|paths| - 1]), paths[|paths| - 1];
      match IneligibleReason(u, path)
      case Some(reason) => front + [Excluded(path, source, reason)]
      case None => front
  }

  function Ambiguous(paths: seq<string>): seq<Excluded> {
    seq(|paths|, i requires 0 <= i < |paths| => Excluded(paths[i], DirectDependency, AmbiguousDependency))
  }

  function EligibleChanged(u: Setup, changed: seq<string>): (r: seq<string>)
    ensures forall x :: x in r ==> x in u.repository
  {
    Eligible(u, Sorted(set x | x in changed))
  }

  function DependenciesOf(u: Setup, paths: seq<string>): set<string>
    requires forall x :: x in paths ==> x in u.repository
  {
    set x, d | x in paths && d in u.resolve(x, u.repository[x]).dependencies :: d
  }

  function AmbiguousOf(u: Setup, paths: seq<string>): set<string>
    requires forall x :: x in paths ==> x in u.repository
  {
    set x, d | x in paths && d in u.resolve(x, u.repository[x]).ambiguous :: d
  }

  function Dependencies(u: Setup, changed: seq<string>): seq<string> {
    var eligible := EligibleChanged(u, changed);
    Sorted(DependenciesOf(u, eligible) - (set x | x in eligible))
  }

  function Candidates(u: Setup, source: Source, paths: seq<string>): seq<Candidate>
    requires forall x :: x in paths ==> x in u.repository
  {
    seq(|paths|, i requires 0 <= i < |paths| => Candidate(paths[i], source, u.repository[paths[i]]))
  }

  /** Changed files first, then dependencies that are not changed files. */
  function Ordered(u: Setup, changed: seq<string>): seq<Candidate> {
    Candidates(u, Changed, EligibleChanged(u, changed))
    + Candidates(u, DirectDependency, Eligible(u, Dependencies(u, changed)))
  }

  function ExcludedEarly(u: Setup, changed: seq<string>): seq<Excluded> {
    var eligible := EligibleChanged(u, changed);
    Ineligible(u, Changed, Sorted(set x | x in changed))
    + Ambiguous(Sorted(AmbiguousOf(u, eligible) - (set x | x in eligible)))
    + Ineligible(u, DirectDependency, Dependencies(u, changed))
  }

  method Partition(u: Setup, source: Source, paths: seq<string>) returns (eligible: seq<string>, exclusions: seq<Excluded>)
    ensures eligible == Eligible(u, paths) && exclusions == Ineligible(u, source, paths)
  {
    eligible, exclusions := [], [];
    for i := 0 to |paths|
      invariant eligible == Eligible(u, paths[..i]) && exclusions == Ineligible(u, source, paths[..i])
    {
      assert paths[..i + 1][..i] == paths[..i];
      var reason := IneligibleReason(u, paths[i]);
      if reason.None? {
        eligible := eligible + [paths[i]];
      } else {
        exclusions := exclusions + [Excluded(paths[i], source, reason.value)];
      }
    }
    assert paths[..|paths|] == paths;
  }

  method ResolveDependencies(u: Setup, paths: seq<string>) returns (dependencies: set<string>, ambiguous: set<string>)
    requires forall x :: x in paths ==> x in u.repository
    ensures dependencies == DependenciesOf(u, paths) - (set x | x in paths)
    ensures ambiguous == AmbiguousOf(u, paths) - (set x | x in paths)
  {
    dependencies, ambiguous := {}, {};
    for i := 0 to |paths|
      invariant dependencies == DependenciesOf(u, paths[..i])
      invariant ambiguous == AmbiguousOf(u, paths[..i])
    {
      var resolution := u.resolve(paths[i], u.repository[paths[i]]);
      assert paths[..i + 1] == paths[..i] + [paths[i]];
      dependencies := dependencies + resolution.dependencies;
      ambiguous := ambiguous + resolution.ambiguous;
    }
    assert paths[..|paths|] == paths;
    dependencies := dependencies - (set x | x in paths);
    ambiguous := ambiguous - (set x | x in paths);
  }

  /** One turn: the whole file if it fits, else its longest fitting prefix, else an exclusion. */
  method AddCandidate(p: Progress, c: Candidate, budget: nat) returns (q: Progress)
    requires Ascii(p.rendered)
    ensures q == Consider(p, c, budget) && Ascii(q.rendered)
  {
    hide LongestPrefix, Render, EstimateTokens;
    var complete := Render(c.path, c.source, c.content, false);
    var completeTotal := EstimateTokens(p.rendered + complete);
    var originalTokens := Difference(completeTotal, EstimateTokens(p.rendered));
    if completeTotal <= budget {
      var file := Selected(c.path, c.content, c.source, originalTokens, originalTokens, false);
      return Progress(p.files + [file], p.excluded, p.rendered + complete);
    }
    var prefix := LargestPrefix(p.rendered, c, budget);
    if prefix == "" {
      return p.(excluded := p.excluded + [Excluded(c.path, c.source, BudgetExhausted)]);
    }
    var partial := Render(c.path, c.source, prefix, true);
    var includedTokens := Difference(EstimateTokens(p.rendered + partial), EstimateTokens(p.rendered));
    var file := Selected(c.path, prefix, c.source, originalTokens, includedTokens, true);
    return Progress(p.files + [file], p.excluded, p.rendered + partial);
  }

  /** Adds candidates one by one while tracking the text rendered so far. */
  method FillBudget(early: seq<Excluded>, ordered: seq<Candidate>, budget: nat) returns (p: Progress)
    ensures p == ConsiderAll(early, ordered, budget)
  {
    hide Consider;
    p := Progress([], early, "");
    for i := 0 to |ordered|
      invariant Ascii(p.rendered)
      invariant p == ConsiderAll(early, ordered[..i], budget)
    {
      assert ordered[..i + 1][..i] == ordered[..i];
      p := AddCandidate(p, ordered[i], budget);
    }
    assert ordered[..|ordered|] == ordered;
  }

  method SelectContext(u: Setup, changed: seq<string>, budget: nat) returns (result: Option<Progress>)
    ensures result.None? <==> budget < 1
    ensures result.Some? ==> result.value == ConsiderAll(ExcludedEarly(u, changed), Ordered(u, changed), budget)
  {
    if budget < 1 {
      return None;
    }
    var eligibleChanged, exclusions := Partition(u, Changed, Sorted(set x | x in changed));
    var dependencies, ambiguous := ResolveDependencies(u, eligibleChanged);
    var eligibleDependencies, more := Partition(u, DirectDependency, Sorted(dependencies));
    exclusions := exclusions + Ambiguous(Sorted(ambiguous)) + more;
    var ordered := Candidates(u, Changed, eligibleChanged) + Candidates(u, DirectDependency, eligibleDependencies);
    var progress := FillBudget(exclusions, ordered, budget);
    return Some(progress);
  }

  // ---------------------------------------------------------------- main results

  function RenderFile(f: Selected): (s: string)
    ensures Ascii(s)
  {
    Render(f.path, f.source, f.content, f.truncated)
  }

  function RenderAll(files: seq<Selected>): (s: string)
    ensures Ascii(s)
  {
    if files == [] then "" else RenderAll(files[..|files| - 1]) + RenderFile(files[|files| - 1])
  }

  function IncludedSum(files: seq<Selected>): nat {
    if files == [] then 0 else IncludedSum(files[..|files| - 1]) + files[|files| - 1].includedTokens
  }

  ghost predicate WithinBudget(p: Progress, budget: nat) {
    && p.rendered == RenderAll(p.files)
    && EstimateTokens(p.rendered) <= budget
    && IncludedSum(p.files) == EstimateTokens(p.rendered)
    && (forall f :: f in p.files ==> f.includedTokens <= f.originalTokens)
  }

  lemma MoreTokens(before: string, record: string)
    requires Ascii(before) && Ascii(record)
    ensures EstimateTokens(before) <= EstimateTokens(before + record)
  {
    AsciiLength(before);
    AsciiLength(before + record);
  }

  lemma AppendRendered(files: seq<Selected>, f: Selected)
    ensures RenderAll(files + [f]) == RenderAll(files) + RenderFile(f)
    ensures IncludedSum(files + [f]) == IncludedSum(files) + f.includedTokens
  {
    hide RenderFile;
    assert (files + [f])[..|files|] == files;
  }

  lemma AddedIsExact(before: string, record: string)
    requires Ascii(before) && Ascii(record)
    ensures EstimateTokens(before) + Added(before, record) == EstimateTokens(before + record)
  {
    MoreTokens(before, record);
    hide EstimateTokens;
  }

  lemma AppendWithinBudget(p: Progress, f: Selected, budget: nat)
    requires WithinBudget(p, budget)
    requires EstimateTokens(p.rendered + RenderFile(f)) <= budget
    requires f.includedTokens == Added(p.rendered, RenderFile(f)) <= f.originalTokens
    ensures WithinBudget(Progress(p.files + [f], p.excluded, p.rendered + RenderFile(f)), budget)
  {
    hide EstimateTokens, Added, RenderAll, RenderFile, IncludedSum;
    AppendRendered(p.files, f);
    AddedIsExact(p.rendered, RenderFile(f));
  }

  lemma ConsiderWithinBudget(p: Progress, c: Candidate, budget: nat)
    requires WithinBudget(p, budget)
    ensures WithinBudget(Consider(p, c, budget), budget)
  {
    hide Render, EstimateTokens;
    var q := Consider(p, c, budget);
    LongestPrefixIsLongest(p.rendered, c, |c.content|, budget);
    if q.files != p.files {
      var f := q.files[|p.files|];
      AppendWithinBudget(p, f, budget);
    }
  }

  /**
   The text is the records of the selected files in order, never over budget; the included counts add
   up to its total exactly, and no file counts more than its whole would have.
   */
  lemma {:induction false} NeverOverBudget(early: seq<Excluded>, cs: seq<Candidate>, budget: nat)
    ensures WithinBudget(ConsiderAll(early, cs, budget), budget)
  {
    if cs == [] {
    } else {
      NeverOverBudget(early, cs[..|cs| - 1], budget);
      ConsiderWithinBudget(ConsiderAll(early, cs[..|cs| - 1], budget), cs[|cs| - 1], budget);
    }
  }

  /** The file is its candidate whole, or cut to the longest prefix whose record fits after `before`. */
  predicate CutBest(before: string, c: Candidate, f: Selected, budget: nat) {
    && f.path == c.path && f.source == c.source && f.content <= c.content
    && (f.truncated <==> EstimateTokens(before + Complete(c)) > budget)
    && (!f.truncated ==> f.content == c.content)
    && (f.truncated ==> f.content != "" && Fits(before, c, |f.content|, budget)
                        && forall k :: |f.content| < k <= |c.content| ==> !Fits(before, c, k, budget))
  }

  lemma RenderedInOrder(early: seq<Excluded>, cs: seq<Candidate>, budget: nat)
    ensures ConsiderAll(early, cs, budget).rendered == RenderAll(ConsiderAll(early, cs, budget).files)
  {
    NeverOverBudget(early, cs, budget);
  }

  lemma ConsiderCutsBest(p: Progress, c: Candidate, budget: nat)
    ensures var q := Consider(p, c, budget);
            || q.files == p.files
            || (|q.files| == |p.files| + 1 && q.files[..|p.files|] == p.files
                && CutBest(p.rendered, c, q.files[|p.files|], budget))
  {
    hide Render, EstimateTokens;
    var m := LongestPrefix(p.rendered, c, |c.content|, budget);
    LongestPrefixIsLongest(p.rendered, c, |c.content|, budget);
    assert |c.content[..m]| == m;
  }

  /** Every selected file is one of the candidates, kept as far as the budget allows at its turn. */
  lemma {:induction false} SelectedIsCutBest(early: seq<Excluded>, cs: seq<Candidate>, budget: nat, i: nat)
      returns (c: Candidate)
    requires i < |ConsiderAll(early, cs, budget).files|
    ensures c in cs
    ensures var files := ConsiderAll(early, cs, budget).files; CutBest(RenderAll(files[..i]), c, files[i], budget)
  {
    var p, last := ConsiderAll(early, cs[..|cs| - 1], budget), cs[|cs| - 1];
    var files := ConsiderAll(early, cs, budget).files;
    hide Consider, CutBest, RenderAll, Fits, EstimateTokens;
    assert ConsiderAll(early, cs, budget) == Consider(p, last, budget);
    ConsiderCutsBest(p, last, budget);
    if i < |p.files| {
      c := SelectedIsCutBest(early, cs[..|cs| - 1], budget, i);
      assert files[..i] == p.files[..i] && files[i] == p.files[i];
    } else {
      c := last;
      RenderedInOrder(early, cs[..|cs| - 1], budget);
      assert files[..i] == p.files;
    }
  }

  predicate IsSelected(p: Progress, path: string) {
    exists f :: f in p.files && f.path == path
  }

  predicate IsExhausted(p: Progress, path: string) {
    exists x :: x in p.excluded && x.path == path && x.reason == BudgetExhausted
  }

  predicate DistinctPaths(cs: seq<Candidate>) {
    forall i, j :: 0 <= i < j < |cs| ==> cs[i].path != cs[j].path
  }

  lemma {:induction false} OnlyCandidates(early: seq<Excluded>, cs: seq<Candidate>, budget: nat, path: string)
    requires forall x :: x in early ==> x.reason != BudgetExhausted
    requires forall c :: c in cs ==> c.path != path
    ensures !IsSelected(ConsiderAll(early, cs, budget), path) && !IsExhausted(ConsiderAll(early, cs, budget), path)
  {
    if cs == [] {
    } else {
      hide LongestPrefix, Render;
      OnlyCandidates(early, cs[..|cs| - 1], budget, path);
    }
  }

  /** Each candidate is either selected or excluded for the budget, never both. */
  lemma {:induction false} CandidateDecided(early: seq<Excluded>, cs: seq<Candidate>, budget: nat, i: nat)
    requires forall x :: x in early ==> x.reason != BudgetExhausted
    requires DistinctPaths(cs) && i < |cs|
    ensures var p := ConsiderAll(early, cs, budget); IsSelected(p, cs[i].path) <==> !IsExhausted(p, cs[i].path)
  {
    hide Consider, IsSelected, IsExhausted;
    var front := cs[..|cs| - 1];
    var p, q := ConsiderAll(early, front, budget), ConsiderAll(early, cs, budget);
    if i < |front| {
      CandidateDecided(early, front, budget, i);
      assert cs[i].path != cs[|front|].path;
      Unaffected(p, cs[|front|], budget, cs[i].path);
    } else {
      OnlyCandidates(early, front, budget, cs[i].path);
      Decides(p, cs[i], budget);
    }
  }

  lemma Unaffected(p: Progress, c: Candidate, budget: nat, path: string)
    requires c.path != path
    ensures IsSelected(Consider(p, c, budget), path) <==> IsSelected(p, path)
    ensures IsExhausted(Consider(p, c, budget), path) <==> IsExhausted(p, path)
  {
    hide LongestPrefix, Render;
    var q := Consider(p, c, budget);
    assert forall f :: f in p.files ==> f in q.files;
    assert forall x :: x in p.excluded ==> x in q.excluded;
  }

  lemma Decides(p: Progress, c: Candidate, budget: nat)
    requires !IsSelected(p, c.path) && !IsExhausted(p, c.path)
    ensures IsSelected(Consider(p, c, budget), c.path) <==> !IsExhausted(Consider(p, c, budget), c.path)
  {
    hide LongestPrefix, Render;
    var q := Consider(p, c, budget);
    if q.files != p.files {
      assert q.files[|p.files|] in q.files;
    } else {
      assert q.excluded[|p.excluded|] in q.excluded;
    }
  }

  lemma {:induction false} EligibleDistinct(u: Setup, paths: seq<string>)
    requires forall i, j :: 0 <= i < j < |paths| ==> paths[i] != paths[j]
    ensures forall i, j :: 0 <= i < j < |Eligible(u, paths)| ==> Eligible(u, paths)[i] != Eligible(u, paths)[j]
  {
    if paths == [] {
    } else {
      EligibleDistinct(u, paths[..|paths| - 1]);
    }
  }

  lemma OrderedDistinct(u: Setup, changed: seq<string>)
    ensures DistinctPaths(Ordered(u, changed))
  {
    hide Eligible, Sorted;
    EligibleDistinct(u, Sorted(set x | x in changed));
    EligibleDistinct(u, Dependencies(u, changed));
    var first, second := EligibleChanged(u, changed), Eligible(u, Dependencies(u, changed));
    assert forall x :: x in second ==> x in Dependencies(u, changed) && x !in first;
    assert forall i :: 0 <= i < |second| ==> second[i] in second;
    assert forall i :: 0 <= i < |first| ==> first[i] in first;
  }

  lemma {:induction false} IneligibleReasons(u: Setup, source: Source, paths: seq<string>)
    ensures forall x :: x in Ineligible(u, source, paths) ==> x.reason != BudgetExhausted
  {
    if paths == [] {
    } else {
      IneligibleReasons(u, source, paths[..|paths| - 1]);
    }
  }

  /**
   Every changed file and every dependency that is eligible ends up selected or excluded as exhausting
   the budget, and not both.
   */
  lemma EligibleIsSelectedOrExhausted(u: Setup, changed: seq<string>, budget: nat, path: string)
    requires path in u.repository && !u.isExcluded(path)
    requires path in changed || IsDependency(u, changed, path)
    ensures var p := ConsiderAll(ExcludedEarly(u, changed), Ordered(u, changed), budget);
            IsSelected(p, path) <==> !IsExhausted(p, path)
  {
    ChangedMeans(u, changed, path);
    DependenciesMean(u, changed, path);
    hide Eligible, EligibleChanged, Dependencies, ConsiderAll, IsSelected, IsExhausted, IsDependency;
    OrderedDistinct(u, changed);
    IneligibleReasons(u, Changed, Sorted(set x | x in changed));
    IneligibleReasons(u, DirectDependency, Dependencies(u, changed));
    var first, second := EligibleChanged(u, changed), Eligible(u, Dependencies(u, changed));
    var i: nat;
    if path in first {
      i :| i < |first| && first[i] == path;
    } else {
      var k: nat :| k < |second| && second[k] == path;
      i := |first| + k;
    }
    assert Ordered(u, changed)[i].path == path;
    CandidateDecided(ExcludedEarly(u, changed), Ordered(u, changed), budget, i);
  }

  // ---------------------------------------------------------------- what is selected and excluded, and why

  /** A changed file that can be read and is not excluded by pattern. */
  predicate IsChangedFile(u: Setup, changed: seq<string>, path: string) {
    path in changed && path in u.repository && !u.isExcluded(path)
  }

  /** A path some such file imports, and that is not one of them. */
  ghost predicate IsDependency(u: Setup, changed: seq<string>, path: string) {
    && !IsChangedFile(u, changed, path)
    && exists x :: IsChangedFile(u, changed, x) && path in u.resolve(x, u.repository[x]).dependencies
  }

  ghost predicate IsAmbiguous(u: Setup, changed: seq<string>, path: string) {
    && !IsChangedFile(u, changed, path)
    && exists x :: IsChangedFile(u, changed, x) && path in u.resolve(x, u.repository[x]).ambiguous
  }

  /** The path takes part on this side: as a changed path, or as a dependency of a changed file. */
  ghost predicate TakesPart(u: Setup, changed: seq<string>, source: Source, path: string) {
    if source == Changed then path in changed else IsDependency(u, changed, path)
  }

  lemma ChangedMeans(u: Setup, changed: seq<string>, path: string)
    ensures path in EligibleChanged(u, changed) <==> IsChangedFile(u, changed, path)
    ensures path in Sorted(set x | x in changed) <==> path in changed
  {
    hide Sorted;
    assert path in Sorted(set x | x in changed) <==> path in (set x | x in changed);
  }

  lemma DependenciesMean(u: Setup, changed: seq<string>, path: string)
    ensures path in Dependencies(u, changed) <==> IsDependency(u, changed, path)
    ensures path in Sorted(AmbiguousOf(u, EligibleChanged(u, changed)) - (set x | x in EligibleChanged(u, changed)))
       <==> IsAmbiguous(u, changed, path)
  {
    hide Sorted, EligibleChanged;
    forall x
      ensures x in EligibleChanged(u, changed) <==> IsChangedFile(u, changed, x)
    {
      ChangedMeans(u, changed, x);
    }
  }

  lemma {:induction false} IneligibleMeans(u: Setup, source: Source, paths: seq<string>, x: Excluded)
    ensures x in Ineligible(u, source, paths) <==>
            && x.source == source && x.path in paths
            && (|| (x.reason == Missing && x.path !in u.repository)
                || (x.reason == ExcludedPattern && x.path in u.repository && u.isExcluded(x.path)))
  {
    if paths == [] {
    } else {
      var front := paths[..|paths| - 1];
      IneligibleMeans(u, source, front, x);
      assert paths == front + [paths[|front|]];
    }
  }

  /** Which paths are left out before the budget is looked at, and for what reason. */
  lemma ExcludedEarlyMeans(u: Setup, changed: seq<string>, x: Excluded)
    ensures x in ExcludedEarly(u, changed) <==>
            match x.reason
            case Missing => TakesPart(u, changed, x.source, x.path) && x.path !in u.repository
            case ExcludedPattern => TakesPart(u, changed, x.source, x.path) && x.path in u.repository && u.isExcluded(x.path)
            case AmbiguousDependency => x.source == DirectDependency && IsAmbiguous(u, changed, x.path)
            case BudgetExhausted => false
  {
    hide Ineligible, Sorted, EligibleChanged, Dependencies, AmbiguousOf, IsDependency, IsAmbiguous, Ambiguous;
    ChangedMeans(u, changed, x.path);
    DependenciesMean(u, changed, x.path);
    IneligibleMeans(u, Changed, Sorted(set y | y in changed), x);
    IneligibleMeans(u, DirectDependency, Dependencies(u, changed), x);
    AmbiguousMeans(Sorted(AmbiguousOf(u, EligibleChanged(u, changed)) - (set y | y in EligibleChanged(u, changed))), x);
  }

  lemma AmbiguousMeans(paths: seq<string>, x: Excluded)
    ensures x in Ambiguous(paths) <==> x.path in paths && x.source == DirectDependency && x.reason == AmbiguousDependency
  {
    if x.path in paths {
      var i :| 0 <= i < |paths| && paths[i] == x.path;
      assert Ambiguous(paths)[i] == Excluded(x.path, DirectDependency, AmbiguousDependency);
    }
  }

  lemma {:induction false} EarlyStays(early: seq<Excluded>, cs: seq<Candidate>, budget: nat, x: Excluded)
    requires x.reason != BudgetExhausted
    ensures x in ConsiderAll(early, cs, budget).excluded <==> x in early
  {
    if cs == [] {
    } else {
      hide Render, LongestPrefix;
      EarlyStays(early, cs[..|cs| - 1], budget, x);
    }
  }

  lemma ExhaustsItself(p: Progress, c: Candidate, budget: nat, x: Excluded)
    requires x in Consider(p, c, budget).excluded && x !in p.excluded
    ensures x == Excluded(c.path, c.source, BudgetExhausted)
  {
    hide Render, LongestPrefix, EstimateTokens;
  }

  lemma {:induction false} ExhaustedIsCandidate(early: seq<Excluded>, cs: seq<Candidate>, budget: nat, x: Excluded)
    requires x.reason == BudgetExhausted && x !in early && x in ConsiderAll(early, cs, budget).excluded
    ensures exists c :: c in cs && c.path == x.path && c.source == x.source
  {
    if cs == [] {
      assert false;
    } else {
      hide Consider;
      var front, last := cs[..|cs| - 1], cs[|cs| - 1];
      if x in ConsiderAll(early, front, budget).excluded {
        ExhaustedIsCandidate(early, front, budget, x);
        var c :| c in front && c.path == x.path && c.source == x.source;
        assert c in cs;
      } else {
        ExhaustsItself(ConsiderAll(early, front, budget), last, budget, x);
        assert last in cs;
      }
    }
  }

  lemma CandidatesMean(u: Setup, source: Source, paths: seq<string>, c: Candidate)
    requires forall x :: x in paths ==> x in u.repository
    ensures c in Candidates(u, source, paths) <==>
            c.source == source && c.path in paths && c.content == u.repository[c.path]
  {
    if c.path in paths {
      var i :| 0 <= i < |paths| && paths[i] == c.path;
      assert Candidates(u, source, paths)[i] == Candidate(c.path, source, u.repository[c.path]);
    }
  }

  lemma OrderedMeans(u: Setup, changed: seq<string>, c: Candidate)
    ensures c in Ordered(u, changed) <==>
            && TakesPart(u, changed, c.source, c.path) && c.path in u.repository && !u.isExcluded(c.path)
            && c.content == u.repository[c.path]
  {
    hide Sorted, EligibleChanged, Dependencies, Candidates, IsDependency;
    ChangedMeans(u, changed, c.path);
    DependenciesMean(u, changed, c.path);
    CandidatesMean(u, Changed, EligibleChanged(u, changed), c);
    CandidatesMean(u, DirectDependency, Eligible(u, Dependencies(u, changed)), c);
  }

  /**
   A selected file is a readable, unexcluded changed file or dependency, and its text a prefix of the
   file's. What is left out is left out exactly for its stated reason, or for the budget.
   */
  lemma SelectionIsJustified(u: Setup, changed: seq<string>, budget: nat)
    ensures var p := ConsiderAll(ExcludedEarly(u, changed), Ordered(u, changed), budget);
            && (forall f :: f in p.files ==>
                  && TakesPart(u, changed, f.source, f.path) && f.path in u.repository && !u.isExcluded(f.path)
                  && f.content <= u.repository[f.path])
            && (forall x :: x in p.excluded && x.reason == BudgetExhausted ==>
                  TakesPart(u, changed, x.source, x.path) && x.path in u.repository && !u.isExcluded(x.path))
            && (forall source, path ::
                  Excluded(path, source, Missing) in p.excluded <==>
                  TakesPart(u, changed, source, path) && path !in u.repository)
            && (forall source, path ::
                  Excluded(path, source, ExcludedPattern) in p.excluded <==>
                  TakesPart(u, changed, source, path) && path in u.repository && u.isExcluded(path))
            && (forall source, path ::
                  Excluded(path, source, AmbiguousDependency) in p.excluded <==>
                  source == DirectDependency && IsAmbiguous(u, changed, path))
  {
    hide ConsiderAll, ExcludedEarly, Ordered, TakesPart, IsAmbiguous, EstimateTokens, Fits, Complete;
    var early, cs := ExcludedEarly(u, changed), Ordered(u, changed);
    var p := ConsiderAll(early, cs, budget);
    forall f | f in p.files
      ensures TakesPart(u, changed, f.source, f.path) && f.path in u.repository && !u.isExcluded(f.path)
      ensures f.content <= u.repository[f.path]
    {
      var i: nat :| i < |p.files| && p.files[i] == f;
      var c := SelectedIsCutBest(early, cs, budget, i);
      OrderedMeans(u, changed, c);
    }
    forall x: Excluded
      ensures x.reason != BudgetExhausted ==> (x in p.excluded <==> x in early)
      ensures x in p.excluded && x.reason == BudgetExhausted ==>
                TakesPart(u, changed, x.source, x.path) && x.path in u.repository && !u.isExcluded(x.path)
    {
      ExcludedEarlyMeans(u, changed, x);
      if x.reason != BudgetExhausted {
        EarlyStays(early, cs, budget, x);
      } else if x in p.excluded {
        ExhaustedIsCandidate(early, cs, budget, x);
        var c :| c in cs && c.path == x.path && c.source == x.source;
        OrderedMeans(u, changed, c);
      }
    }
    forall source, path, reason
      ensures Excluded(path, source, reason) in early <==>
              match reason
              case Missing => TakesPart(u, changed, source, path) && path !in u.repository
              case ExcludedPattern => TakesPart(u, changed, source, path) && path in u.repository && u.isExcluded(path)
              case AmbiguousDependency => source == DirectDependency && IsAmbiguous(u, changed, path)
              case BudgetExhausted => false
    {
      ExcludedEarlyMeans(u, changed, Excluded(path, source, reason));
    }
  }

  /** Not even the first character of the candidate fits after the text so far. */
  ghost predicate NothingFits(before: string, c: Candidate, budget: nat) {
    && EstimateTokens(before + Complete(c)) > budget
    && forall m :: 1 <= m <= |c.content| ==> !Fits(before, c, m, budget)
  }

  /** A candidate is taken whole exactly when it fits whole, and left out exactly when nothing of it fits. */
  lemma TakenAsFarAsItFits(p: Progress, c: Candidate, budget: nat)
    ensures var q := Consider(p, c, budget);
            var whole := EstimateTokens(p.rendered + Complete(c)) <= budget;
            && (whole ==> |q.files| == |p.files| + 1 && q.files[|p.files|].content == c.content && !q.files[|p.files|].truncated)
            && (q.files == p.files <==> NothingFits(p.rendered, c, budget))
            && (q.files == p.files ==> q == p.(excluded := p.excluded + [Excluded(c.path, c.source, BudgetExhausted)]))
            && (q.files != p.files ==>
                  && q.excluded == p.excluded
                  && (Ascii(p.rendered) ==>
                        EstimateTokens(p.rendered) + q.files[|p.files|].originalTokens
                        == EstimateTokens(p.rendered + Complete(c))))
  {
    hide Render, EstimateTokens, Fits;
    LongestPrefixIsLongest(p.rendered, c, |c.content|, budget);
    if Ascii(p.rendered) {
      AddedIsExact(p.rendered, Complete(c));
    }
  }

  /** Text `k` is what had been selected when the candidate's turn came, and nothing of it fit. */
  ghost predicate ExhaustedAt(files: seq<Selected>, cs: seq<Candidate>, x: Excluded, budget: nat, k: nat) {
    && k <= |files|
    && exists c :: c in cs && c.path == x.path && c.source == x.source && NothingFits(RenderAll(files[..k]), c, budget)
  }

  lemma ExhaustedNow(p: Progress, cs: seq<Candidate>, c: Candidate, budget: nat, x: Excluded)
    requires c in cs && x in Consider(p, c, budget).excluded && x !in p.excluded && p.rendered == RenderAll(p.files)
    ensures ExhaustedAt(Consider(p, c, budget).files, cs, x, budget, |p.files|)
  {
    hide Consider, NothingFits, RenderAll;
    TakenAsFarAsItFits(p, c, budget);
    var files := Consider(p, c, budget).files;
    ExhaustsItself(p, c, budget, x);
    assert files[..|p.files|] == p.files;
  }

  lemma ExhaustedLasts(
    files: seq<Selected>, more: seq<Selected>, cs: seq<Candidate>, c: Candidate, x: Excluded, budget: nat, k: nat)
    requires ExhaustedAt(files, cs, x, budget, k) && files <= more
    ensures ExhaustedAt(more, cs + [c], x, budget, k)
  {
    hide NothingFits, RenderAll;
    assert more[..k] == files[..k];
    var other :| other in cs && other.path == x.path && other.source == x.source
      && NothingFits(RenderAll(files[..k]), other, budget);
    assert other in cs + [c];
  }

  /** Whatever is excluded for the budget did not fit with a single character at its turn. */
  lemma {:induction false} ExhaustedFitsNothing(early: seq<Excluded>, cs: seq<Candidate>, budget: nat, x: Excluded)
      returns (k: nat)
    requires x !in early && x in ConsiderAll(early, cs, budget).excluded
    ensures ExhaustedAt(ConsiderAll(early, cs, budget).files, cs, x, budget, k)
  {
    assert cs != [];
    hide Consider, ExhaustedAt, RenderAll, CutBest;
    var front, last := cs[..|cs| - 1], cs[|cs| - 1];
    var p := ConsiderAll(early, front, budget);
    var q := Consider(p, last, budget);
    assert ConsiderAll(early, cs, budget) == q;
    hide ConsiderAll;
    LastCandidate(cs);
    if x in p.excluded {
      k := ExhaustedFitsNothing(early, front, budget, x);
      ExhaustedStays(p, front, last, x, budget, k);
    } else {
      k := |p.files|;
      RenderedInOrder(early, front, budget);
      ExhaustedNow(p, cs, last, budget, x);
    }
  }

  lemma LastCandidate(cs: seq<Candidate>)
    requires cs != []
    ensures cs == cs[..|cs| - 1] + [cs[|cs| - 1]] && cs[|cs| - 1] in cs
  {
  }

  lemma ExhaustedStays(p: Progress, cs: seq<Candidate>, c: Candidate, x: Excluded, budget: nat, k: nat)
    requires ExhaustedAt(p.files, cs, x, budget, k)
    ensures ExhaustedAt(Consider(p, c, budget).files, cs + [c], x, budget, k)
  {
    hide Consider, ExhaustedAt, CutBest;
    ConsiderCutsBest(p, c, budget);
    assert p.files <= Consider(p, c, budget).files;
    ExhaustedLasts(p.files, Consider(p, c, budget).files, cs, c, x, budget, k);
  }

  /** The candidates that were selected, by increasing position. */
  predicate SelectedAt(cs: seq<Candidate>, files: seq<Selected>, positions: seq<nat>) {
    && |positions| == |files|
    && (forall i :: 0 <= i < |files| ==>
          positions[i] < |cs| && cs[positions[i]].path == files[i].path && cs[positions[i]].source == files[i].source)
    && (forall i, j :: 0 <= i < j < |files| ==> positions[i] < positions[j])
  }

  ghost predicate SelectedInOrder(cs: seq<Candidate>, files: seq<Selected>) {
    exists positions: seq<nat> :: SelectedAt(cs, files, positions)
  }

  lemma OrderExtends(cs: seq<Candidate>, c: Candidate, p: Progress, budget: nat)
    requires SelectedInOrder(cs, p.files)
    ensures SelectedInOrder(cs + [c], Consider(p, c, budget).files)
  {
    hide Render, LongestPrefix, EstimateTokens;
    var positions: seq<nat> :| SelectedAt(cs, p.files, positions);
    var q := Consider(p, c, budget);
    if q.files == p.files {
      assert SelectedAt(cs + [c], q.files, positions);
    } else {
      assert SelectedAt(cs + [c], q.files, positions + [|cs|]);
    }
  }

  lemma {:induction false} FilesInOrder(early: seq<Excluded>, cs: seq<Candidate>, budget: nat)
    ensures SelectedInOrder(cs, ConsiderAll(early, cs, budget).files)
  {
    hide Consider, SelectedInOrder;
    if cs == [] {
      NoFilesInOrder();
    } else {
      var front, last := cs[..|cs| - 1], cs[|cs| - 1];
      var p := ConsiderAll(early, front, budget);
      assert ConsiderAll(early, cs, budget) == Consider(p, last, budget);
      hide ConsiderAll;
      FilesInOrder(early, front, budget);
      OrderExtends(front, last, p, budget);
      assert cs == front + [last];
    }
  }

  lemma NoFilesInOrder()
    ensures SelectedInOrder([], [])
  {
    assert SelectedAt([], [], []);
  }

  ghost predicate Increasing(paths: seq<string>) {
    forall i, j :: 0 <= i < j < |paths| ==> Below(paths[i], paths[j])
  }

  lemma IncreasingAppend(paths: seq<string>, last: string)
    requires Increasing(paths) && forall x :: x in paths ==> Below(x, last)
    ensures Increasing(paths + [last])
  {
    assert forall i :: 0 <= i < |paths| ==> paths[i] in paths;
  }

  lemma {:induction false} EligibleIncreases(u: Setup, paths: seq<string>)
    requires Increasing(paths)
    ensures Increasing(Eligible(u, paths))
  {
    if paths == [] {
    } else {
      var front, last := paths[..|paths| - 1], paths[|paths| - 1];
      EligibleIncreases(u, front);
      forall x | x in Eligible(u, front)
        ensures Below(x, last)
      {
        var i :| 0 <= i < |front| && front[i] == x;
        assert paths[i] == x;
      }
      IncreasingAppend(Eligible(u, front), last);
    }
  }

  lemma SortedIncreases(s: set<string>)
    ensures Increasing(Sorted(s))
  {
  }

  lemma OrderedByGroup(u: Setup, changed: seq<string>, i: nat, j: nat)
    requires i < j < |Ordered(u, changed)|
    ensures var cs := Ordered(u, changed);
            && (cs[j].source == Changed ==> cs[i].source == Changed)
            && (cs[i].source == cs[j].source ==> Below(cs[i].path, cs[j].path))
  {
    hide Eligible, Sorted, Below;
    SortedIncreases(set x | x in changed);
    SortedIncreases(DependenciesOf(u, EligibleChanged(u, changed)) - (set x | x in EligibleChanged(u, changed)));
    EligibleIncreases(u, Sorted(set x | x in changed));
    EligibleIncreases(u, Dependencies(u, changed));
  }

  /** Selected changed files come first, then selected dependencies, each group in increasing order of path. */
  lemma ChangedFilesComeFirst(u: Setup, changed: seq<string>, budget: nat, i: nat, j: nat)
    requires i < j < |ConsiderAll(ExcludedEarly(u, changed), Ordered(u, changed), budget).files|
    ensures var files := ConsiderAll(ExcludedEarly(u, changed), Ordered(u, changed), budget).files;
            && (files[j].source == Changed ==> files[i].source == Changed)
            && (files[i].source == files[j].source ==> Below(files[i].path, files[j].path))
  {
    hide ConsiderAll, ExcludedEarly, Ordered, Below;
    FilesInOrder(ExcludedEarly(u, changed), Ordered(u, changed), budget);
    var files := ConsiderAll(ExcludedEarly(u, changed), Ordered(u, changed), budget).files;
    var positions: seq<nat> :| SelectedAt(Ordered(u, changed), files, positions);
    OrderedByGroup(u, changed, positions[i], positions[j]);
  }

  /** A whole file is marked as cut exactly when the longer word `false` alone breaks the budget. */
  lemma WholeFileMarkedCut(p: Progress, c: Candidate, budget: nat)
    requires Ascii(p.rendered) && c.content != ""
    ensures (exists f :: Consider(p, c, budget).files == p.files + [f] && f.truncated && f.content == c.content)
            <==> |p.rendered| + |Partial(c, |c.content|)| == 3 * budget
  {
    hide Render, EstimateTokens;
    var whole := Partial(c, |c.content|);
    assert c.content[..|c.content|] == c.content;
    AsciiLength(p.rendered + whole);
    AsciiLength(p.rendered + Complete(c));
    var q := Consider(p, c, budget);
    if |p.rendered| + |whole| == 3 * budget {
      assert q.files == p.files + [q.files[|p.files|]];
    } else {
      forall f | q.files == p.files + [f] && f.content == c.content
        ensures !f.truncated
      {
        assert q.files[|p.files|] == f;
      }
    }
  }

  lemma TokensFromNothing(record: string)
    requires Ascii(record)
    ensures Added("", record) == EstimateTokens("" + record) == (|record| + 2) / 3
  {
    assert "" + record == record;
    AsciiLength(record);
  }

  lemma ExactlyFull(c: Candidate, budget: nat)
    requires |Partial(c, |c.content|)| == 3 * budget
    ensures Fits("", c, |c.content|, budget) && Added("", Partial(c, |c.content|)) == budget
    ensures EstimateTokens("" + Complete(c)) == Added("", Complete(c)) == budget + 1
  {
    assert c.content[..|c.content|] == c.content;
    assert |Complete(c)| == |Partial(c, |c.content|)| + 1;
    hide Render, EstimateTokens, Added;
    TokensFromNothing(Partial(c, |c.content|));
    TokensFromNothing(Complete(c));
  }

  /** From nothing selected: the record of the whole file with `true` fills the budget exactly. */
  lemma FirstFileMarkedCut(c: Candidate, budget: nat)
    requires c.content != "" && |Partial(c, |c.content|)| == 3 * budget
    ensures Consider(Progress([], [], ""), c, budget).files
         == [Selected(c.path, c.content, c.source, budget + 1, budget, true)]
  {
    ExactlyFull(c, budget);
    hide Partial, Complete, Fits, Added, EstimateTokens;
    assert c.content[..|c.content|] == c.content;
    assert LongestPrefix("", c, |c.content|, budget) == |c.content|;
  }

  /** A concrete file: one character under a budget of 21 tokens is included whole and marked as cut. */
  lemma WholeFileIsMarkedCut()
    ensures ConsiderAll([], [Candidate("p", Changed, "a")], 21).files == [Selected("p", "a", Changed, 22, 21, true)]
  {
    var c := Candidate("p", Changed, "a");
    OneCharacterRecord();
    hide Partial, Consider;
    FirstFileMarkedCut(c, 21);
    assert [c][..0] == [] && ConsiderAll([], [], 21) == Progress([], [], "");
  }

  lemma OneCharacterRecord()
    ensures |Partial(Candidate("p", Changed, "a"), 1)| == 63
  {
    assert "a"[..0] == "" && "p"[..0] == "" && "a"[..1] == "a";
    assert |Escape("a")| == 1 && |Escape("p")| == 1;
    hide Escape, Render;
    assert |Opening("p", Changed)| == 43;
  }
}
