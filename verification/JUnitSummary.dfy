/**
 Bounded summaries of JUnit reports.

 The XML parser delivers one start and one end event per element of a well-formed document. A `time`
 attribute is its number of seconds, zero when absent, and None when it is not a finite number.
 */
module JUnitSummary {
  import opened Options

  const MAX_REPORT_BYTES: nat := 1024 * 1024
  const MAX_XML_ELEMENTS: nat := 20_000
  const MAX_DEPTH: nat := 32

  datatype Status = Passed | Failed | Skipped

  datatype Summary = Summary(passed: nat, failed: nat, skipped: nat, durationMs: int)

  datatype Case = Case(status: Status, durationMs: int)

  datatype Tag = Tag(name: string, attributes: seq<string>, seconds: Option<real>)

  datatype Event = Start(tag: Tag) | End(name: string)

  datatype State = State(depth: int, elements: nat, active: Option<Case>, root: Option<string>, summary: Summary)

  // ---------------------------------------------------------------- the event machine

  /** Rounds to the nearest integer, halves to the even one. */
  function Round(x: real): int {
    var down := x.Floor;
    var rest := x - down as real;
    if rest < 0.5 || (rest == 0.5 && down % 2 == 0) then down else down + 1
  }

  predicate Namespaced(tag: Tag) {
    '}' in tag.name || exists i :: 0 <= i < |tag.attributes| && '}' in tag.attributes[i]
  }

  predicate TimeOk(tag: Tag) {
    tag.seconds.Some? && 0.0 <= tag.seconds.value <= 86400.0
  }

  function Milliseconds(tag: Tag): int {
    if tag.seconds.Some? then Round(tag.seconds.value * 1000.0) else 0
  }

  predicate IsSuite(name: string) {
    name == "testsuite" || name == "testsuites"
  }

  predicate IsCase(name: string) {
    name == "testcase"
  }

  predicate IsFailure(name: string) {
    name == "failure" || name == "error"
  }

  predicate IsSkip(name: string) {
    name == "skipped"
  }

  /** What an element inside a test case makes of its status. */
  function Marked(c: Case, name: string): Case {
    if IsFailure(name) then c.(status := Failed)
    else if IsSkip(name) && c.status != Failed then c.(status := Skipped)
    else c
  }

  function Counted(s: Summary, c: Case): Summary {
    var t := s.(durationMs := s.durationMs + c.durationMs);
    match c.status
    case Passed => t.(passed := s.passed + 1)
    case Failed => t.(failed := s.failed + 1)
    case Skipped => t.(skipped := s.skipped + 1)
  }

  predicate Rejects(s: State, tag: Tag) {
    || s.depth + 1 > MAX_DEPTH || s.elements + 1 > MAX_XML_ELEMENTS
    || Namespaced(tag)
    || (s.root.None? && !IsSuite(tag.name))
    || (IsCase(tag.name) && (s.active.Some? || !TimeOk(tag)))
  }

  function Started(s: State, tag: Tag): State {
    State(s.depth + 1, s.elements + 1,
          if IsCase(tag.name) then Some(Case(Passed, Milliseconds(tag)))
          else if s.active.Some? then Some(Marked(s.active.value, tag.name))
          else None,
          if s.root.None? then Some(tag.name) else s.root,
          s.summary)
  }

  /** None once the report is rejected. */
  function Step(s: Option<State>, e: Event): Option<State> {
    if s.None? then None
    else
      match e
      case Start(tag) => if Rejects(s.value, tag) then None else Some(Started(s.value, tag))
      case End(name) =>
        if IsCase(name) && s.value.active.None? then None
        else if IsCase(name) then
          Some(s.value.(depth := s.value.depth - 1, active := None, summary := Counted(s.value.summary, s.value.active.value)))
        else Some(s.value.(depth := s.value.depth - 1))
  }

  function Run(s: Option<State>, events: seq<Event>): Option<State> {
    if events == [] then s else Step(Run(s, events[..|events| - 1]), events[|events| - 1])
  }

  const INITIAL := State(0, 0, None, None, Summary(0, 0, 0, 0))

  /** The handlers' shared variables, changed in place. */
  class Handlers {
    var depth: int
    var elements: nat
    var active: Option<Case>
    var root: Option<string>
    var summary: Summary

    constructor ()
      ensures S() == INITIAL
    {
      depth, elements, active, root, summary := 0, 0, None, None, Summary(0, 0, 0, 0);
    }

    ghost function S(): State
      reads this
    {
      State(depth, elements, active, root, summary)
    }

    method HandleStart(tag: Tag) returns (accepted: bool)
      modifies this
      ensures accepted <==> Step(Some(old(S())), Start(tag)).Some?
      ensures accepted ==> Some(S()) == Step(Some(old(S())), Start(tag))
    {
      depth := depth + 1;
      elements := elements + 1;
      if depth > MAX_DEPTH || elements > MAX_XML_ELEMENTS {
        return false;
      }
      if Namespaced(tag) {
        return false;
      }
      if root.None? {
        root := Some(tag.name);
        if !IsSuite(tag.name) {
          return false;
        }
      }
      if IsCase(tag.name) {
        if active.Some? {
          return false;
        }
        if !TimeOk(tag) {
          return false;
        }
        active := Some(Case(Passed, Milliseconds(tag)));
      } else if active.Some? {
        if IsFailure(tag.name) {
          active := Some(active.value.(status := Failed));
        } else if IsSkip(tag.name) && active.value.status != Failed {
          active := Some(active.value.(status := Skipped));
        }
      }
      return true;
    }

    method HandleEnd(name: string) returns (accepted: bool)
      modifies this
      ensures accepted <==> Step(Some(old(S())), End(name)).Some?
      ensures accepted ==> Some(S()) == Step(Some(old(S())), End(name))
    {
      if IsCase(name) {
        if active.None? {
          return false;
        }
        summary := Counted(summary, active.value);
        active := None;
      }
      depth := depth - 1;
      return true;
    }
  }

  // ---------------------------------------------------------------- documents

  datatype Element = Element(tag: Tag, children: Forest)

  datatype Forest = Nothing | Trees(first: Element, rest: Forest)

  function Events(e: Element): seq<Event> {
    [Start(e.tag)] + ForestEvents(e.children) + [End(e.tag.name)]
  }

  function ForestEvents(f: Forest): seq<Event> {
    match f
    case Nothing => []
    case Trees(first, rest) => Events(first) + ForestEvents(rest)
  }

  function Height(e: Element): nat {
    1 + ForestHeight(e.children)
  }

  function ForestHeight(f: Forest): nat {
    match f
    case Nothing => 0
    case Trees(first, rest) => if Height(first) > ForestHeight(rest) then Height(first) else ForestHeight(rest)
  }

  function Size(e: Element): nat {
    1 + ForestSize(e.children)
  }

  function ForestSize(f: Forest): nat {
    match f
    case Nothing => 0
    case Trees(first, rest) => Size(first) + ForestSize(rest)
  }

  /** No namespaces; test cases are not nested and carry a usable time. */
  predicate Legal(e: Element, inCase: bool) {
    && !Namespaced(e.tag)
    && (IsCase(e.tag.name) ==> !inCase && TimeOk(e.tag))
    && ForestLegal(e.children, inCase || IsCase(e.tag.name))
  }

  predicate ForestLegal(f: Forest, inCase: bool) {
    f.Trees? ==> Legal(f.first, inCase) && ForestLegal(f.rest, inCase)
  }

  /** Some element of the forest, at any depth, satisfies the predicate on its name. */
  predicate Contains(f: Forest, p: string -> bool) {
    f.Trees? && (p(f.first.tag.name) || Contains(f.first.children, p) || Contains(f.rest, p))
  }

  /** The test case elements in document order. */
  function Cases(e: Element): seq<Element> {
    if IsCase(e.tag.name) then [e] else ForestCases(e.children)
  }

  function ForestCases(f: Forest): seq<Element> {
    match f
    case Nothing => []
    case Trees(first, rest) => Cases(first) + ForestCases(rest)
  }

  /** Failed when a failure or error lies anywhere inside, else skipped when a skip does, else passed. */
  function Verdict(c: Element): Status {
    if Contains(c.children, IsFailure) then Failed
    else if Contains(c.children, IsSkip) then Skipped
    else Passed
  }

  function Count(cases: seq<Element>, status: Status): nat {
    if cases == [] then 0
    else Count(cases[..|cases| - 1], status) + if Verdict(cases[|cases| - 1]) == status then 1 else 0
  }

  function TotalMs(cases: seq<Element>): int {
    if cases == [] then 0 else TotalMs(cases[..|cases| - 1]) + Milliseconds(cases[|cases| - 1].tag)
  }

  predicate Accepts(document: Element) {
    && IsSuite(document.tag.name) && Legal(document, false)
    && Height(document) <= MAX_DEPTH && Size(document) <= MAX_XML_ELEMENTS
  }

  /** What the counters of a summary become over more test cases. */
  function Over(s: Summary, cases: seq<Element>): Summary {
    Summary(s.passed + Count(cases, Passed), s.failed + Count(cases, Failed), s.skipped + Count(cases, Skipped),
            s.durationMs + TotalMs(cases))
  }

  // ---------------------------------------------------------------- the machine over a document

  lemma {:induction false} RunConcat(s: Option<State>, a: seq<Event>, b: seq<Event>)
    ensures Run(s, a + b) == Run(Run(s, a), b)
  {
    if b == [] {
      assert a + b == a;
    } else {
      assert (a + b)[..|a + b| - 1] == a + b[..|b| - 1];
      RunConcat(s, a, b[..|b| - 1]);
    }
  }

  lemma RunOne(s: Option<State>, e: Event)
    ensures Run(s, [e]) == Step(s, e)
  {
    assert [e][..0] == [] && Run(s, []) == s;
  }

  lemma {:induction false} RunNone(events: seq<Event>)
    ensures Run(None, events) == None
  {
    if events == [] {
    } else {
      RunNone(events[..|events| - 1]);
    }
  }

  lemma {:induction false} CountsConcat(a: seq<Element>, b: seq<Element>, status: Status)
    ensures Count(a + b, status) == Count(a, status) + Count(b, status)
    ensures TotalMs(a + b) == TotalMs(a) + TotalMs(b)
  {
    if b == [] {
      assert a + b == a;
    } else {
      assert (a + b)[..|a + b| - 1] == a + b[..|b| - 1];
      CountsConcat(a, b[..|b| - 1], status);
    }
  }

  lemma OverConcat(s: Summary, a: seq<Element>, b: seq<Element>)
    ensures Over(s, a + b) == Over(Over(s, a), b)
  {
    CountsConcat(a, b, Passed);
    CountsConcat(a, b, Failed);
    CountsConcat(a, b, Skipped);
  }

  /** The status a case ends with: failures win over skips, in whatever order they come. */
  function MarkedBy(c: Case, f: Forest): Case {
    if Contains(f, IsFailure) then c.(status := Failed)
    else if Contains(f, IsSkip) && c.status != Failed then c.(status := Skipped)
    else c
  }

  /** The state after a forest that is accepted. */
  function AfterForest(s: State, f: Forest): State {
    if s.active.Some?
    then s.(elements := s.elements + ForestSize(f), active := Some(MarkedBy(s.active.value, f)))
    else s.(elements := s.elements + ForestSize(f), summary := Over(s.summary, ForestCases(f)))
  }

  function AfterElement(s: State, e: Element): State {
    AfterForest(s, Trees(e, Nothing))
  }

  predicate FitsForest(s: State, f: Forest) {
    && (f.Trees? ==> s.depth + ForestHeight(f) <= MAX_DEPTH)
    && s.elements + ForestSize(f) <= MAX_XML_ELEMENTS
    && ForestLegal(f, s.active.Some?)
  }

  function Expected(s: State, f: Forest): Option<State> {
    if FitsForest(s, f) then Some(AfterForest(s, f)) else None
  }

  predicate Counts(s: State) {
    s.root.Some? && s.depth <= MAX_DEPTH && s.elements <= MAX_XML_ELEMENTS
  }

  /** What holds of the forest of a single tree, one level down. */
  lemma SingleTree(e: Element)
    ensures ForestHeight(Trees(e, Nothing)) == 1 + ForestHeight(e.children)
    ensures ForestSize(Trees(e, Nothing)) == 1 + ForestSize(e.children)
    ensures forall inCase :: ForestLegal(Trees(e, Nothing), inCase) <==> Legal(e, inCase)
    ensures ForestCases(Trees(e, Nothing)) == Cases(e)
    ensures Contains(Trees(e, Nothing), IsFailure) <==> IsFailure(e.tag.name) || Contains(e.children, IsFailure)
    ensures Contains(Trees(e, Nothing), IsSkip) <==> IsSkip(e.tag.name) || Contains(e.children, IsSkip)
  {
    assert ForestHeight(Nothing) == 0 && ForestSize(Nothing) == 0 && ForestCases(Nothing) == [];
    assert !Contains(Nothing, IsFailure) && !Contains(Nothing, IsSkip);
    assert Cases(e) + [] == Cases(e);
    assert forall inCase :: ForestLegal(Nothing, inCase);
  }

  lemma StartElement(s: State, e: Element)
    requires Counts(s)
    ensures FitsForest(s, Trees(e, Nothing)) <==>
            !Rejects(s, e.tag) && FitsForest(Started(s, e.tag), e.children)
    ensures !Rejects(s, e.tag) ==> Counts(Started(s, e.tag))
  {
    SingleTree(e);
  }

  lemma OverOne(s: Summary, e: Element)
    requires IsCase(e.tag.name)
    ensures Over(s, [e]) == Counted(s, MarkedBy(Case(Passed, Milliseconds(e.tag)), e.children))
  {
    assert [e][..0] == [];
    assert Count([], Passed) == Count([], Failed) == Count([], Skipped) == 0 && TotalMs([]) == 0;
  }

  /** The end event of an accepted element completes what the forest of that element alone does. */
  lemma EndElement(s: State, e: Element)
    requires Counts(s) && !Rejects(s, e.tag) && FitsForest(Started(s, e.tag), e.children)
    ensures Step(Some(AfterForest(Started(s, e.tag), e.children)), End(e.tag.name)) == Some(AfterElement(s, e))
  {
    SingleTree(e);
    if IsCase(e.tag.name) {
      OverOne(s.summary, e);
    }
  }

  lemma {:induction false} ElementRuns(s: State, e: Element)
    requires Counts(s)
    ensures Run(Some(s), Events(e)) == Expected(s, Trees(e, Nothing))
    decreases e
  {
    hide Rejects, Started, FitsForest, AfterForest, Step, Counts, Run;
    var begun := Step(Some(s), Start(e.tag));
    StartElement(s, e);
    StartStep(s, e.tag);
    RunOne(Some(s), Start(e.tag));
    RunConcat(Some(s), [Start(e.tag)], ForestEvents(e.children));
    RunConcat(Some(s), [Start(e.tag)] + ForestEvents(e.children), [End(e.tag.name)]);
    if Rejects(s, e.tag) {
      RunNone(ForestEvents(e.children));
      RunNone([End(e.tag.name)]);
    } else {
      var t := Started(s, e.tag);
      ForestRuns(t, e.children);
      RunOne(Run(Some(t), ForestEvents(e.children)), End(e.tag.name));
      if FitsForest(t, e.children) {
        EndElement(s, e);
      } else {
        RunNone([End(e.tag.name)]);
      }
    }
  }

  lemma StartStep(s: State, tag: Tag)
    ensures Step(Some(s), Start(tag)) == if Rejects(s, tag) then None else Some(Started(s, tag))
  {
  }

  lemma {:induction false} ForestRuns(s: State, f: Forest)
    requires Counts(s)
    ensures Run(Some(s), ForestEvents(f)) == Expected(s, f)
    decreases f
  {
    match f
    case Nothing =>
      assert Over(s.summary, []) == s.summary;
    case Trees(first, rest) =>
      hide Run, AfterForest, FitsForest;
      ElementRuns(s, first);
      RunConcat(Some(s), Events(first), ForestEvents(rest));
      ForestSplit(s, first, rest);
      if FitsForest(s, Trees(first, Nothing)) {
        ForestRuns(AfterElement(s, first), rest);
      } else {
        RunNone(ForestEvents(rest));
      }
  }

  lemma ForestSplit(s: State, first: Element, rest: Forest)
    requires Counts(s)
    ensures FitsForest(s, Trees(first, rest)) <==>
            FitsForest(s, Trees(first, Nothing)) && FitsForest(AfterElement(s, first), rest)
    ensures FitsForest(s, Trees(first, Nothing)) ==> Counts(AfterElement(s, first))
    ensures AfterForest(s, Trees(first, rest)) == AfterForest(AfterElement(s, first), rest)
  {
    SingleTree(first);
    OverConcat(s.summary, Cases(first), ForestCases(rest));
  }

  // ---------------------------------------------------------------- main results

  /**
   A report is accepted exactly when its root is a suite, names carry no namespace, test cases are not
   nested and have usable times, and depth and size stay within bounds; the summary is then that of
   its test cases, each judged by what lies inside it.
   */
  lemma MachineIsFold(document: Element)
    ensures var r := Run(Some(INITIAL), Events(document));
            && (r.Some? <==> Accepts(document))
            && (r.Some? ==> r.value.summary == Over(Summary(0, 0, 0, 0), Cases(document)))
  {
    var s := INITIAL;
    var tag := document.tag;
    RunOne(Some(s), Start(tag));
    RunConcat(Some(s), [Start(tag)], ForestEvents(document.children));
    RunConcat(Some(s), [Start(tag)] + ForestEvents(document.children), [End(tag.name)]);
    StartStep(s, tag);
    hide Run;
    if Rejects(s, tag) {
      RunNone(ForestEvents(document.children));
      RunNone([End(tag.name)]);
    } else {
      var t := Started(s, tag);
      SingleTree(document);
      ForestRuns(t, document.children);
      RunOne(Run(Some(t), ForestEvents(document.children)), End(tag.name));
      if !FitsForest(t, document.children) {
        RunNone([End(tag.name)]);
      }
    }
  }

  /** The three counters add up to the number of test cases. */
  lemma {:induction false} CountersAddUp(cases: seq<Element>)
    ensures Count(cases, Passed) + Count(cases, Failed) + Count(cases, Skipped) == |cases|
  {
    if cases == [] {
    } else {
      CountersAddUp(cases[..|cases| - 1]);
    }
  }

  // ---------------------------------------------------------------- the fold in the words of the report

  /** The tags of an element and of everything inside it, in document order. */
  function Tags(e: Element): seq<Tag> {
    [e.tag] + ForestTags(e.children)
  }

  function ForestTags(f: Forest): seq<Tag> {
    match f
    case Nothing => []
    case Trees(first, rest) => Tags(first) + ForestTags(rest)
  }

  predicate Holds(f: Forest, name: string) {
    exists t :: t in ForestTags(f) && t.name == name
  }

  lemma {:induction false} ContainsMeans(f: Forest)
    ensures Contains(f, IsFailure) <==> Holds(f, "failure") || Holds(f, "error")
    ensures Contains(f, IsSkip) <==> Holds(f, "skipped")
  {
    match f
    case Nothing =>
    case Trees(first, rest) =>
      ContainsMeans(first.children);
      ContainsMeans(rest);
      HoldsSplit(first, rest, "failure");
      HoldsSplit(first, rest, "error");
      HoldsSplit(first, rest, "skipped");
  }

  lemma HoldsSplit(first: Element, rest: Forest, name: string)
    ensures Holds(Trees(first, rest), name) <==> first.tag.name == name || Holds(first.children, name) || Holds(rest, name)
  {
    assert forall t :: t in ForestTags(Trees(first, rest)) <==>
      t == first.tag || t in ForestTags(first.children) || t in ForestTags(rest);
  }

  /** A test case failed when a failure or an error lies inside it, else it was skipped when a skip does. */
  lemma VerdictMeans(c: Element)
    ensures Verdict(c) ==
            if Holds(c.children, "failure") || Holds(c.children, "error") then Failed
            else if Holds(c.children, "skipped") then Skipped
            else Passed
  {
    ContainsMeans(c.children);
  }

  predicate TagOk(t: Tag) {
    && '}' !in t.name && (forall i :: 0 <= i < |t.attributes| ==> '}' !in t.attributes[i])
    && (t.name == "testcase" ==> t.seconds.Some? && 0.0 <= t.seconds.value <= 86400.0)
  }

  predicate TagsOk(tags: seq<Tag>) {
    forall t :: t in tags ==> TagOk(t)
  }

  predicate NotNested(cases: seq<Element>) {
    forall c :: c in cases ==> !Holds(c.children, "testcase")
  }

  lemma TagsOkSplit(a: seq<Tag>, b: seq<Tag>)
    ensures TagsOk(a + b) <==> TagsOk(a) && TagsOk(b)
  {
    if TagsOk(a + b) {
      assert forall t :: t in a ==> t in a + b;
      assert forall t :: t in b ==> t in a + b;
    }
  }

  lemma NotNestedSplit(a: seq<Element>, b: seq<Element>)
    ensures NotNested(a + b) <==> NotNested(a) && NotNested(b)
  {
    if NotNested(a + b) {
      assert forall c :: c in a ==> c in a + b;
      assert forall c :: c in b ==> c in a + b;
    }
  }

  lemma TagMeans(t: Tag)
    ensures TagOk(t) <==> !Namespaced(t) && (IsCase(t.name) ==> TimeOk(t))
  {
  }

  lemma {:induction false} LegalMeans(e: Element, inCase: bool)
    ensures Legal(e, inCase) <==>
            TagsOk(Tags(e)) && if inCase then !Holds(Trees(e, Nothing), "testcase") else NotNested(Cases(e))
    decreases e
  {
    hide Namespaced, TimeOk, TagOk, TagsOk, NotNested, Holds;
    TagMeans(e.tag);
    TagsOkSplit([e.tag], ForestTags(e.children));
    OneTag(e.tag);
    HoldsSplit(e, Nothing, "testcase");
    NothingInside("testcase");
    OneCase(e);
    ForestLegalMeans(e.children, inCase || IsCase(e.tag.name));
  }

  lemma OneTag(t: Tag)
    ensures TagsOk([t]) <==> TagOk(t)
  {
    assert t in [t];
  }

  lemma OneCase(e: Element)
    ensures NotNested([e]) <==> !Holds(e.children, "testcase")
  {
    assert e in [e];
  }

  lemma NothingInside(name: string)
    ensures !Holds(Nothing, name) && TagsOk(ForestTags(Nothing)) && NotNested([])
  {
  }

  lemma {:induction false} ForestLegalMeans(f: Forest, inCase: bool)
    ensures ForestLegal(f, inCase) <==>
            TagsOk(ForestTags(f)) && if inCase then !Holds(f, "testcase") else NotNested(ForestCases(f))
    decreases f
  {
    match f
    case Nothing => NothingInside("testcase");
    case Trees(first, rest) =>
      hide TagsOk, NotNested, Holds;
      LegalMeans(first, inCase);
      ForestLegalMeans(rest, inCase);
      TagsOkSplit(Tags(first), ForestTags(rest));
      NotNestedSplit(Cases(first), ForestCases(rest));
      HoldsSplit(first, rest, "testcase");
      HoldsSplit(first, Nothing, "testcase");
      NothingInside("testcase");
  }

  lemma {:induction false} SizeCountsTags(e: Element)
    ensures Size(e) == |Tags(e)|
    decreases e
  {
    ForestSizeCountsTags(e.children);
  }

  lemma {:induction false} ForestSizeCountsTags(f: Forest)
    ensures ForestSize(f) == |ForestTags(f)|
    decreases f
  {
    match f
    case Nothing =>
    case Trees(first, rest) =>
      SizeCountsTags(first);
      ForestSizeCountsTags(rest);
  }

  /** A report is accepted exactly for these roots, names, times and sizes, with no test case inside another. */
  lemma AcceptsMeans(document: Element)
    ensures Accepts(document) <==>
            && (document.tag.name == "testsuite" || document.tag.name == "testsuites")
            && TagsOk(Tags(document)) && NotNested(Cases(document))
            && Height(document) <= 32 && |Tags(document)| <= 20_000
  {
    LegalMeans(document, false);
    SizeCountsTags(document);
  }

  /** How many elements of a name there are. */
  function Named(tags: seq<Tag>, name: string): nat {
    multiset(seq(|tags|, i requires 0 <= i < |tags| => tags[i].name))[name]
  }

  lemma NamedSplit(a: seq<Tag>, b: seq<Tag>, name: string)
    ensures Named(a + b, name) == Named(a, name) + Named(b, name)
  {
    var xs := seq(|a|, i requires 0 <= i < |a| => a[i].name);
    var ys := seq(|b|, i requires 0 <= i < |b| => b[i].name);
    assert seq(|a + b|, i requires 0 <= i < |a + b| => (a + b)[i].name) == xs + ys;
  }

  lemma NamedNone(f: Forest, name: string)
    requires !Holds(f, name)
    ensures Named(ForestTags(f), name) == 0
  {
    var tags := ForestTags(f);
    var names := seq(|tags|, i requires 0 <= i < |tags| => tags[i].name);
    assert forall i :: 0 <= i < |tags| ==> tags[i] in tags;
    assert name !in names;
  }

  lemma {:induction false} EveryCaseCounts(e: Element)
    requires NotNested(Cases(e))
    ensures |Cases(e)| == Named(Tags(e), "testcase")
    ensures forall c :: c in Cases(e) ==> c.tag.name == "testcase"
    decreases e
  {
    hide Holds, Named;
    NamedSplit([e.tag], ForestTags(e.children), "testcase");
    NamedOne(e.tag, "testcase");
    if IsCase(e.tag.name) {
      assert e in [e];
      NamedNone(e.children, "testcase");
    } else {
      EveryForestCaseCounts(e.children);
    }
  }

  lemma NamedOne(t: Tag, name: string)
    ensures Named([t], name) == if t.name == name then 1 else 0
    ensures Named([], name) == 0
  {
    assert seq(1, i requires 0 <= i < 1 => [t][i].name) == [t.name];
  }

  lemma {:induction false} EveryForestCaseCounts(f: Forest)
    requires NotNested(ForestCases(f))
    ensures |ForestCases(f)| == Named(ForestTags(f), "testcase")
    ensures forall c :: c in ForestCases(f) ==> c.tag.name == "testcase"
    decreases f
  {
    match f
    case Nothing => NamedOne(Tag("", [], None), "testcase");
    case Trees(first, rest) =>
      hide Named, Holds, NotNested;
      NotNestedSplit(Cases(first), ForestCases(rest));
      EveryCaseCounts(first);
      EveryForestCaseCounts(rest);
      NamedSplit(Tags(first), ForestTags(rest), "testcase");
  }

  function Verdicts(cases: seq<Element>): seq<Status> {
    seq(|cases|, i requires 0 <= i < |cases| => Verdict(cases[i]))
  }

  lemma {:induction false} CountMeans(cases: seq<Element>, status: Status)
    ensures Count(cases, status) == multiset(Verdicts(cases))[status]
  {
    if cases == [] {
    } else {
      var front := cases[..|cases| - 1];
      CountMeans(front, status);
      assert Verdicts(cases) == Verdicts(front) + [Verdict(cases[|front|])];
    }
  }

  /** A time is stored as the nearest whole number of milliseconds, the even one when two are as near. */
  lemma MillisecondsAreNearest(tag: Tag)
    requires tag.seconds.Some?
    ensures var exact := tag.seconds.value * 1000.0;
            && exact - 0.5 <= Milliseconds(tag) as real <= exact + 0.5
            && (Milliseconds(tag) as real == exact + 0.5 || Milliseconds(tag) as real == exact - 0.5 ==>
                  Milliseconds(tag) % 2 == 0)
  {
    var exact := tag.seconds.value * 1000.0;
    assert exact.Floor as real <= exact < exact.Floor as real + 1.0;
    assert (exact.Floor + 1) as real == exact.Floor as real + 1.0;
  }

  /** The duration is the sum over the test cases. */
  lemma TotalAdds(cases: seq<Element>, c: Element)
    ensures TotalMs([]) == 0 && TotalMs(cases + [c]) == TotalMs(cases) + Milliseconds(c.tag)
  {
    assert (cases + [c])[..|cases|] == cases;
  }

  /** Every test case of an accepted report is counted once. */
  lemma AllCasesAreCounted(document: Element)
    requires Run(Some(INITIAL), Events(document)).Some?
    ensures var summary := Run(Some(INITIAL), Events(document)).value.summary;
            && summary.passed + summary.failed + summary.skipped == Named(Tags(document), "testcase")
            && summary.passed == multiset(Verdicts(Cases(document)))[Passed]
            && summary.failed == multiset(Verdicts(Cases(document)))[Failed]
            && summary.skipped == multiset(Verdicts(Cases(document)))[Skipped]
            && summary.durationMs == TotalMs(Cases(document))
  {
    hide Run, Legal, Named;
    MachineIsFold(document);
    AcceptsMeans(document);
    EveryCaseCounts(document);
    CountersAddUp(Cases(document));
    CountMeans(Cases(document), Passed);
    CountMeans(Cases(document), Failed);
    CountMeans(Cases(document), Skipped);
  }

  /** Runs the handlers over the parser's events. */
  method SummarizeJunit(size: nat, document: Element) returns (summary: Option<Summary>)
    ensures summary.Some? <==> 0 < size <= MAX_REPORT_BYTES && Accepts(document)
    ensures summary.Some? ==> summary.value == Over(Summary(0, 0, 0, 0), Cases(document))
  {
    if size == 0 || size > MAX_REPORT_BYTES {
      return None;
    }
    MachineIsFold(document);
    var events := Events(document);
    var handlers := new Handlers();
    var accepted := true;
    for i := 0 to |events|
      invariant accepted && Run(Some(INITIAL), events[..i]) == Some(handlers.S())
      invariant fresh(handlers)
    {
      assert events[..i + 1][..i] == events[..i];
      match events[i] {
        case Start(tag) => accepted := handlers.HandleStart(tag);
        case End(name) =>
          accepted := handlers.HandleEnd(name);
      }
      if !accepted {
        RunStops(Some(INITIAL), events, i + 1);
        return None;
      }
    }
    assert events[..|events|] == events;
    return Some(handlers.summary);
  }

  lemma RunStops(s: Option<State>, events: seq<Event>, n: nat)
    requires n <= |events| && Run(s, events[..n]).None?
    ensures Run(s, events).None?
  {
    RunConcat(s, events[..n], events[n..]);
    assert events[..n] + events[n..] == events;
    RunNone(events[n..]);
  }
}
