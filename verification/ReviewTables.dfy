/** Findings and human decisions of one run, and the review text rendered from them. */
module ReviewTables {
  type Id = string
  type Sha = string

  const MAX_REVIEW_BODY_CHARACTERS := 60_000

  datatype Severity = Low | Medium | High | Critical {
    function Title(): string {
      match this
      case Low => "Low"
      case Medium => "Medium"
      case High => "High"
      case Critical => "Critical"
    }
  }

  datatype Finding = Finding(publicId: Id, severity: Severity, claim: string)

  datatype Decision = Approve | Reject

  datatype Approval = Approval(publicId: Id, decision: Decision, headSha: Sha)

  /** What the digest naming an approved set is computed from; equal digests mean equal sets. */
  datatype ApprovalSetDigest = ApprovalSetDigest(runId: Id, headSha: Sha, pairs: seq<(Id, Id)>)

  /** A finding joined with its approval. */
  datatype Row = Row(finding: Finding, approval: Approval)

  /** Findings are in insertion order; a finding has at most one approval, stored under its id. */
  datatype Tables = Tables(findings: seq<Finding>, approvals: map<Id, Approval>) {
    ghost predicate Valid() {
      && (forall i, j :: 0 <= i < j < |findings| ==> findings[i].publicId != findings[j].publicId)
      && (forall f, g :: f in approvals && g in approvals && f != g ==> approvals[f].publicId != approvals[g].publicId)
    }

    predicate Decided() {
      forall f :: f in findings ==> f.publicId in approvals
    }

    /** Later decisions only add approvals; a stored one is never changed. */
    ghost predicate ExtendedBy(later: Tables) {
      && later.findings == findings
      && forall f :: f in approvals ==> f in later.approvals && later.approvals[f] == approvals[f]
    }
  }

  /** Rows named by a publish request, in finding order. */
  function SelectRows(
    findings: seq<Finding>, approvals: map<Id, Approval>, findingIds: seq<Id>, approvalIds: seq<Id>): seq<Row>
  {
    if findings == [] then []
    else
      var f := findings[0];
      var rest := SelectRows(findings[1..], approvals, findingIds, approvalIds);
      if f.publicId in findingIds && f.publicId in approvals && approvals[f.publicId].publicId in approvalIds
      then [Row(f, approvals[f.publicId])] + rest
      else rest
  }

  /** Rows of the findings a human approved, in finding order. */
  function ApprovedRows(findings: seq<Finding>, approvals: map<Id, Approval>): seq<Row> {
    if findings == [] then []
    else
      var f := findings[0];
      var rest := ApprovedRows(findings[1..], approvals);
      if f.publicId in approvals && approvals[f.publicId].decision.Approve?
      then [Row(f, approvals[f.publicId])] + rest
      else rest
  }

  /** The rows belong to findings at increasing positions. */
  predicate AtPositions(findings: seq<Finding>, rows: seq<Row>, positions: seq<nat>) {
    && |positions| == |rows|
    && (forall i :: 0 <= i < |rows| ==> positions[i] < |findings| && findings[positions[i]] == rows[i].finding)
    && (forall i, j :: 0 <= i < j < |rows| ==> positions[i] < positions[j])
  }

  ghost predicate InFindingOrder(findings: seq<Finding>, rows: seq<Row>) {
    exists positions: seq<nat> :: AtPositions(findings, rows, positions)
  }

  lemma MovedPositions(findings: seq<Finding>, rows: seq<Row>, positions: seq<nat>) returns (moved: seq<nat>)
    requires findings != [] && AtPositions(findings[1..], rows, positions)
    ensures AtPositions(findings, rows, moved) && forall i :: 0 <= i < |moved| ==> moved[i] > 0
  {
    moved := seq(|positions|, i requires 0 <= i < |positions| => positions[i] + 1);
  }

  lemma FirstPosition(findings: seq<Finding>, rows: seq<Row>, positions: seq<nat>, first: Row)
    requires AtPositions(findings, rows, positions) && forall i :: 0 <= i < |positions| ==> positions[i] > 0
    requires findings != [] && first.finding == findings[0]
    ensures AtPositions(findings, [first] + rows, [0] + positions)
  {
  }

  lemma OrderExtends(findings: seq<Finding>, rows: seq<Row>, first: Row)
    requires findings != [] && InFindingOrder(findings[1..], rows)
    ensures InFindingOrder(findings, rows)
    ensures first.finding == findings[0] ==> InFindingOrder(findings, [first] + rows)
  {
    hide AtPositions;
    var positions: seq<nat> :| AtPositions(findings[1..], rows, positions);
    var moved := MovedPositions(findings, rows, positions);
    if first.finding == findings[0] {
      FirstPosition(findings, rows, moved, first);
    }
  }

  lemma {:induction false} ApprovedInOrder(findings: seq<Finding>, approvals: map<Id, Approval>)
    ensures InFindingOrder(findings, ApprovedRows(findings, approvals))
  {
    if findings == [] {
      assert AtPositions(findings, [], []);
    } else {
      ApprovedInOrder(findings[1..], approvals);
      OrderExtends(findings, ApprovedRows(findings[1..], approvals), Row(findings[0], Approval("", Approve, "")));
      if findings[0].publicId in approvals {
        OrderExtends(findings, ApprovedRows(findings[1..], approvals), Row(findings[0], approvals[findings[0].publicId]));
      }
    }
  }

  function FindingIds(rows: seq<Row>): seq<Id> {
    seq(|rows|, i requires 0 <= i < |rows| => rows[i].finding.publicId)
  }

  function ApprovalIds(rows: seq<Row>): seq<Id> {
    seq(|rows|, i requires 0 <= i < |rows| => rows[i].approval.publicId)
  }

  const HEADING := "## PR Reliability review"
  const BLANK_LINE := "\n\n"

  function Section(row: Row): string {
    "### " + row.finding.severity.Title() + " finding" + BLANK_LINE + row.finding.claim
  }

  function Sections(rows: seq<Row>): string {
    if rows == [] then "" else BLANK_LINE + Section(rows[0]) + Sections(rows[1..])
  }

  /** The published text: a heading, one section per finding in order, and the retry marker last. */
  function ReviewBody(rows: seq<Row>, marker: string): string {
    HEADING + Sections(rows) + BLANK_LINE + marker
  }

  predicate EndsWith(text: string, suffix: string) {
    |suffix| <= |text| && text[|text| - |suffix|..] == suffix
  }

  lemma EndsWithMeans(text: string, suffix: string)
    ensures EndsWith(text, suffix) <==> exists before: string :: text == before + suffix
  {
    if EndsWith(text, suffix) {
      assert text == text[..|text| - |suffix|] + suffix;
    }
  }

  lemma BodyEndsWithMarker(rows: seq<Row>, marker: string)
    ensures EndsWith(ReviewBody(rows, marker), BLANK_LINE + marker)
  {
    var text := HEADING + Sections(rows);
    assert ReviewBody(rows, marker) == text + (BLANK_LINE + marker);
  }

  /**
   The published text spelled out: the heading, then one paragraph pair for each row in order, with the
   word for its severity and its claim, then the marker. `at` holds where the pairs start and where the
   last one ends.
   */
  predicate RendersAt(rows: seq<Row>, marker: string, body: string, at: seq<nat>) {
    && |at| == |rows| + 1
    && (forall i :: 0 <= i <= |rows| ==> at[i] <= |body|)
    && body[..at[0]] == "## PR Reliability review"
    && (forall i :: 0 <= i < |rows| ==>
          && at[i] <= at[i + 1]
          && body[at[i]..at[i + 1]]
             == "\n\n### "
                + (match rows[i].finding.severity
                   case Low => "Low" case Medium => "Medium" case High => "High" case Critical => "Critical")
                + " finding\n\n" + rows[i].finding.claim)
    && body[at[|rows|]..] == "\n\n" + marker
  }

  ghost predicate Renders(rows: seq<Row>, marker: string, body: string) {
    exists at: seq<nat> :: RendersAt(rows, marker, body, at)
  }

  lemma SectionsFrom(rows: seq<Row>, i: nat)
    requires i < |rows|
    ensures Sections(rows[i..]) == BLANK_LINE + Section(rows[i]) + Sections(rows[i + 1..])
  {
    assert rows[i..][1..] == rows[i + 1..];
  }

  /** What follows the first `i` sections of the body. */
  function Remaining(rows: seq<Row>, marker: string, i: nat): string
    requires i <= |rows|
  {
    Sections(rows[i..]) + BLANK_LINE + marker
  }

  lemma SuffixOfSuffix(text: string, first: string, rest: string, at: nat)
    requires at <= |text| && text[at..] == first + rest
    ensures at + |first| <= |text| && text[at..at + |first|] == first && text[at + |first|..] == rest
  {
    assert text[at..at + |first|] == text[at..][..|first|];
    assert text[at + |first|..] == text[at..][|first|..];
  }

  lemma NextSection(rows: seq<Row>, marker: string, body: string, i: nat, at: nat, next: nat)
    requires i < |rows| && at <= |body| && body[at..] == Remaining(rows, marker, i)
    requires next == |body| - |Remaining(rows, marker, i + 1)|
    ensures at <= next && body[at..next] == BLANK_LINE + Section(rows[i]) && body[next..] == Remaining(rows, marker, i + 1)
  {
    hide Section;
    SectionsFrom(rows, i);
    assert body[at..] == (BLANK_LINE + Section(rows[i])) + Remaining(rows, marker, i + 1);
    SuffixOfSuffix(body, BLANK_LINE + Section(rows[i]), Remaining(rows, marker, i + 1), at);
  }

  lemma RemainingShrinks(rows: seq<Row>, marker: string, i: nat)
    requires i < |rows|
    ensures |Remaining(rows, marker, i + 1)| <= |Remaining(rows, marker, i)|
  {
    hide Section;
    SectionsFrom(rows, i);
  }

  lemma BodyStarts(rows: seq<Row>, marker: string)
    ensures ReviewBody(rows, marker) == HEADING + Remaining(rows, marker, 0)
  {
    assert rows[0..] == rows;
  }

  lemma RemainingFits(rows: seq<Row>, marker: string, i: nat)
    requires i <= |rows|
    ensures |Remaining(rows, marker, i)| <= |ReviewBody(rows, marker)|
    ensures var body := ReviewBody(rows, marker); body[|body| - |Remaining(rows, marker, i)|..] == Remaining(rows, marker, i)
  {
    hide Remaining, ReviewBody, Section;
    var body := ReviewBody(rows, marker);
    if i == 0 {
      BodyStarts(rows, marker);
    } else {
      RemainingFits(rows, marker, i - 1);
      RemainingShrinks(rows, marker, i - 1);
      NextSection(rows, marker, body, i - 1,
                  |body| - |Remaining(rows, marker, i - 1)|, |body| - |Remaining(rows, marker, i)|);
    }
  }

  lemma SectionText(row: Row)
    ensures BLANK_LINE + Section(row)
            == "\n\n### "
               + (match row.finding.severity
                  case Low => "Low" case Medium => "Medium" case High => "High" case Critical => "Critical")
               + " finding\n\n" + row.finding.claim
  {
    assert BLANK_LINE + "### " == "\n\n### ";
    assert " finding" + BLANK_LINE == " finding\n\n";
  }

  /** Every body is the heading, each row's severity and claim in order, and the marker; nothing else. */
  lemma BodyRenders(rows: seq<Row>, marker: string)
    ensures Renders(rows, marker, ReviewBody(rows, marker))
  {
    hide Section, ReviewBody, Remaining;
    var body := ReviewBody(rows, marker);
    forall i | 0 <= i <= |rows|
      ensures |Remaining(rows, marker, i)| <= |body|
    {
      RemainingFits(rows, marker, i);
    }
    var at := seq(|rows| + 1, i requires 0 <= i <= |rows| => |body| - |Remaining(rows, marker, i)|);
    forall i | 0 <= i < |rows|
      ensures at[i] <= at[i + 1] && body[at[i]..at[i + 1]] == BLANK_LINE + Section(rows[i])
    {
      RemainingFits(rows, marker, i);
      NextSection(rows, marker, body, i, at[i], at[i + 1]);
    }
    forall i | 0 <= i < |rows|
      ensures BLANK_LINE + Section(rows[i])
              == "\n\n### "
                 + (match rows[i].finding.severity
                    case Low => "Low" case Medium => "Medium" case High => "High" case Critical => "Critical")
                 + " finding\n\n" + rows[i].finding.claim
    {
      SectionText(rows[i]);
    }
    BodyEnds(rows, marker);
    RemainingFits(rows, marker, |rows|);
    assert RendersAt(rows, marker, body, at);
  }

  lemma BodyEnds(rows: seq<Row>, marker: string)
    ensures Remaining(rows, marker, |rows|) == "\n\n" + marker
    ensures |Remaining(rows, marker, 0)| <= |ReviewBody(rows, marker)|
    ensures var body := ReviewBody(rows, marker); body[..|body| - |Remaining(rows, marker, 0)|] == "## PR Reliability review"
  {
    hide ReviewBody;
    BodyStarts(rows, marker);
  }

  /** Only one text renders the rows. */
  lemma RenderedIsUnique(rows: seq<Row>, marker: string, body: string, body': string)
    requires Renders(rows, marker, body) && Renders(rows, marker, body')
    ensures body == body'
  {
    var at: seq<nat> :| RendersAt(rows, marker, body, at);
    var at': seq<nat> :| RendersAt(rows, marker, body', at');
    SamePrefix(rows, marker, body, at, body', at', |rows|);
    assert body == body[..at[|rows|]] + body[at[|rows|]..];
    assert body' == body'[..at'[|rows|]] + body'[at'[|rows|]..];
  }

  lemma {:induction false} SamePrefix(
    rows: seq<Row>, marker: string, body: string, at: seq<nat>, body': string, at': seq<nat>, i: nat)
    requires RendersAt(rows, marker, body, at) && RendersAt(rows, marker, body', at') && i <= |rows|
    ensures body[..at[i]] == body'[..at'[i]]
  {
    if i > 0 {
      SamePrefix(rows, marker, body, at, body', at', i - 1);
      assert body[..at[i]] == body[..at[i - 1]] + body[at[i - 1]..at[i]];
      assert body'[..at'[i]] == body'[..at'[i - 1]] + body'[at'[i - 1]..at'[i]];
    }
  }

  /** Paragraphs joined by blank lines. */
  function JoinParagraphs(parts: seq<string>): string {
    if parts == [] then ""
    else if |parts| == 1 then parts[0]
    else JoinParagraphs(parts[..|parts| - 1]) + BLANK_LINE + parts[|parts| - 1]
  }

  lemma JoinAppend(parts: seq<string>, last: string)
    requires parts != []
    ensures JoinParagraphs(parts + [last]) == JoinParagraphs(parts) + BLANK_LINE + last
  {
    assert (parts + [last])[..|parts|] == parts;
  }

  lemma Reassociate(a: string, b: string, c: string, d: string)
    ensures a + b + c + d == a + (b + c + d)
  {
  }

  /** Builds the list of sections row by row and joins it, as the publisher does. */
  method RenderReviewBody(rows: seq<Row>, marker: string) returns (body: string, withinLimit: bool)
    ensures body == ReviewBody(rows, marker) && Renders(rows, marker, body)
    ensures withinLimit <==> |body| <= MAX_REVIEW_BODY_CHARACTERS
  {
    var sections := [HEADING];
    for i := 0 to |rows|
      invariant sections != []
      invariant JoinParagraphs(sections) + Sections(rows[i..]) == HEADING + Sections(rows)
    {
      var section := Section(rows[i]);
      JoinAppend(sections, section);
      SectionsFrom(rows, i);
      Reassociate(JoinParagraphs(sections), BLANK_LINE, section, Sections(rows[i + 1..]));
      sections := sections + [section];
    }
    assert JoinParagraphs(sections) == HEADING + Sections(rows);
    JoinAppend(sections, marker);
    body := JoinParagraphs(sections + [marker]);
    BodyRenders(rows, marker);
    withinLimit := |body| <= MAX_REVIEW_BODY_CHARACTERS;
  }

  lemma {:induction false} SelectRowsAreRows(
    findings: seq<Finding>, approvals: map<Id, Approval>, findingIds: seq<Id>, approvalIds: seq<Id>, k: nat)
    requires k < |SelectRows(findings, approvals, findingIds, approvalIds)|
    ensures var r := SelectRows(findings, approvals, findingIds, approvalIds)[k];
            r.finding in findings && r.finding.publicId in approvals && r.approval == approvals[r.finding.publicId]
  {
    var rest := SelectRows(findings[1..], approvals, findingIds, approvalIds);
    var rows := SelectRows(findings, approvals, findingIds, approvalIds);
    if rows == rest {
      SelectRowsAreRows(findings[1..], approvals, findingIds, approvalIds, k);
    } else if k > 0 {
      SelectRowsAreRows(findings[1..], approvals, findingIds, approvalIds, k - 1);
    }
  }
}
