/**
 From human decisions to the submitted review: the fan-in of one run and the publish protocol of its
 key share the run's rows, and publish attempts start only from a signal the dispatcher sent.
 */
module HumanApproval {
  import opened Options
  import opened RunContracts
  import opened ReviewTables
  import opened ReviewPublishing
  import Fan = ApprovalFanIn
  import Pub = PublishProtocol

  datatype State = State(fan: Fan.State, pub: Pub.State)

  datatype Event =
    | Decide(findingId: Id, request: Fan.DecisionRequest, newId: Id)
    | DispatchApproval(commits: bool)
    | RunStateChanges(state: RunState)
    | StoredHeadMoves(sha: Sha)
    // the workflow hands an approved signal to a publish attempt
    | StartPublish(a: nat, signal: Fan.ApprovalSignal)
    // any other step of the publish protocol that is not a change of the shared rows
    | PublishStep(e: Pub.Event)

  /** The publish request the workflow builds from its input and the approval signal. */
  function RequestFor(run: RunTarget, signal: Fan.ApprovalSignal): PublishRequest {
    PublishRequest(
      signal.runId, run.repositoryId, run.pullRequestNumber, signal.headSha,
      signal.findingIds, signal.approvalIds,
      if signal.commentBodyRef.Some? then signal.commentBodyRef.value else ApprovalSetDigest(signal.runId, signal.headSha, []),
      PublishKey(signal.runId, signal.headSha))
  }

  predicate OwnStep(e: Pub.Event) {
    !e.Begin? && !e.Decide? && !e.ChangeRunState? && !e.MoveStoredHead?
  }

  /** The step of the publish protocol that accompanies an event. */
  function PubEvent(s: State, e: Event): Option<Pub.Event> {
    match e
    case Decide(findingId, request, newId) =>
      var after := Fan.Step(s.fan, Fan.Record(findingId, request, newId));
      if after.tables == s.fan.tables || findingId !in after.tables.approvals then None
      else Some(Pub.Decide(findingId, after.tables.approvals[findingId]))
    case DispatchApproval(_) => None
    case RunStateChanges(state) => Some(Pub.ChangeRunState(state))
    case StoredHeadMoves(sha) => Some(Pub.MoveStoredHead(sha))
    case StartPublish(a, signal) =>
      if signal in s.fan.signals && signal.approved then Some(Pub.Begin(a, RequestFor(s.pub.run, signal))) else None
    case PublishStep(e) => if OwnStep(e) then Some(e) else None
  }

  function FanEvent(e: Event): Option<Fan.Event> {
    match e
    case Decide(findingId, request, newId) => Some(Fan.Record(findingId, request, newId))
    case DispatchApproval(commits) => Some(if commits then Fan.Dispatch else Fan.DispatchCrash)
    case RunStateChanges(state) => Some(Fan.ChangeRun(state == AwaitingApproval))
    case StoredHeadMoves(sha) => Some(Fan.MoveHead(sha))
    case StartPublish(_, _) => None
    case PublishStep(_) => None
  }

  function Step(c: Pub.Config, s: State, e: Event): State {
    State(
      match FanEvent(e) case None => s.fan case Some(f) => Fan.Step(s.fan, f),
      match PubEvent(s, e) case None => s.pub case Some(p) => Pub.Step(c, s.pub, p))
  }

  function Exec(c: Pub.Config, s: State, events: seq<Event>): State {
    if events == [] then s else Step(c, Exec(c, s, events[..|events| - 1]), events[|events| - 1])
  }

  ghost predicate Init(c: Pub.Config, s: State) {
    && Fan.Init(s.fan) && Pub.Init(c, s.pub)
    && c.runId == s.fan.runId && c.headSha == s.fan.runHead
    && s.pub.tables == s.fan.tables
  }

  function ApprovedOf(tables: Tables): seq<Row> {
    ApprovedRows(tables.findings, tables.approvals)
  }

  /** The stored payload is the rendering of the whole approved set, taken when all was decided. */
  ghost predicate StoredApprovedSet(c: Pub.Config, s: State) {
    s.pub.action.Some? ==>
      && s.fan.tables.Decided()
      && ApprovedOf(s.fan.tables) != []
      && s.pub.action.value.fingerprint.body == ReviewBody(ApprovedOf(s.fan.tables), c.marker)
      && s.pub.action.value.fingerprint.pairs == Pairs(ApprovedOf(s.fan.tables))
      && s.pub.action.value.fingerprint.commentBodyRef == Fan.SetDigest(c.runId, c.headSha, s.fan.tables)
  }

  ghost predicate FromSignal(s: State, request: PublishRequest) {
    exists g :: g in s.fan.signals && g.approved && request == RequestFor(s.pub.run, g)
  }

  ghost predicate SameRun(c: Pub.Config, s: State) {
    c.runId == s.fan.runId && c.headSha == s.fan.runHead && s.pub.tables == s.fan.tables
  }

  ghost predicate Inv(c: Pub.Config, s: State) {
    && SameRun(c, s)
    && Fan.Inv(s.fan) && Pub.Inv(c, s.pub)
    && (forall a :: a in s.pub.attempts ==> FromSignal(s, s.pub.attempts[a].request))
    && StoredApprovedSet(c, s)
  }

  // ---------------------------------------------------------------- what the request selects

  lemma {:induction false} ApprovedRowsAreRows(findings: seq<Finding>, approvals: map<Id, Approval>, r: Row)
    ensures r in ApprovedRows(findings, approvals) <==>
            r.finding in findings && r.finding.publicId in approvals
            && r.approval == approvals[r.finding.publicId] && r.approval.decision == Approve
  {
    if findings == [] {
    } else {
      ApprovedRowsAreRows(findings[1..], approvals, r);
      assert findings == [findings[0]] + findings[1..];
    }
  }

  lemma {:induction false} SelectApproved(
    findings: seq<Finding>, approvals: map<Id, Approval>, findingIds: seq<Id>, approvalIds: seq<Id>)
    requires forall f :: f in findings && f.publicId in approvals ==>
               (approvals[f.publicId].decision == Approve <==> f.publicId in findingIds)
    requires forall f :: f in findings && f.publicId in approvals && approvals[f.publicId].decision == Approve ==>
               approvals[f.publicId].publicId in approvalIds
    ensures SelectRows(findings, approvals, findingIds, approvalIds) == ApprovedRows(findings, approvals)
  {
    if findings == [] {
    } else {
      assert findings[0] in findings;
      assert forall f :: f in findings[1..] ==> f in findings;
      SelectApproved(findings[1..], approvals, findingIds, approvalIds);
    }
  }

  lemma IdsOfRows(rows: seq<Row>, r: Row)
    requires r in rows
    ensures r.finding.publicId in FindingIds(rows) && r.approval.publicId in ApprovalIds(rows)
  {
    var i :| 0 <= i < |rows| && rows[i] == r;
    assert FindingIds(rows)[i] == r.finding.publicId && ApprovalIds(rows)[i] == r.approval.publicId;
  }

  /** A request built from the aggregate signal selects exactly the approved rows. */
  lemma SignalSelectsApproved(run: RunTarget, runId: Id, headSha: Sha, tables: Tables)
    requires tables.Valid()
    ensures RequestRows(tables, RequestFor(run, Fan.AggregateSignal(runId, headSha, tables))) == ApprovedOf(tables)
  {
    var rows := ApprovedOf(tables);
    forall f | f in tables.findings && f.publicId in tables.approvals
      ensures tables.approvals[f.publicId].decision == Approve <==> f.publicId in FindingIds(rows)
      ensures tables.approvals[f.publicId].decision == Approve ==> tables.approvals[f.publicId].publicId in ApprovalIds(rows)
    {
      var r := Row(f, tables.approvals[f.publicId]);
      ApprovedRowsAreRows(tables.findings, tables.approvals, r);
      if r in rows {
        IdsOfRows(rows, r);
      }
      if f.publicId in FindingIds(rows) {
        var i :| 0 <= i < |rows| && rows[i].finding.publicId == f.publicId;
        ApprovedRowsAreRows(tables.findings, tables.approvals, rows[i]);
        assert rows[i] in rows;
      }
    }
    SelectApproved(tables.findings, tables.approvals, FindingIds(rows), ApprovalIds(rows));
  }

  lemma SignalNamesSet(runId: Id, headSha: Sha, tables: Tables)
    ensures var g := Fan.AggregateSignal(runId, headSha, tables);
            g.approved ==> g.commentBodyRef == Some(Fan.SetDigest(runId, headSha, tables))
  {
  }

  /** Preparing a publish from the signal stores the rendering of the whole approved set. */
  lemma PrepareStoresApproved(c: Pub.Config, s: State, a: nat)
    requires Inv(c, s) && a in s.pub.attempts
    requires PrepareOutcome(s.pub.run, s.pub.tables, s.pub.action, s.pub.attempts[a].request, c.marker).Ok?
    ensures var row := PrepareOutcome(s.pub.run, s.pub.tables, s.pub.action, s.pub.attempts[a].request, c.marker).value.0;
            && s.fan.tables.Decided() && ApprovedOf(s.fan.tables) != []
            && row.fingerprint.body == ReviewBody(ApprovedOf(s.fan.tables), c.marker)
            && row.fingerprint.pairs == Pairs(ApprovedOf(s.fan.tables))
            && row.fingerprint.commentBodyRef == Fan.SetDigest(c.runId, c.headSha, s.fan.tables)
  {
    hide ReviewBody, Pairs, Authorizes, PrepareOutcome, RequestRows, Fan.AggregateSignal, Pub.Inv;
    SignalNamesSet(s.fan.runId, s.fan.runHead, s.fan.tables);
    var request := s.pub.attempts[a].request;
    var g :| g in s.fan.signals && g.approved && request == RequestFor(s.pub.run, g);
    assert g == Fan.AggregateSignal(s.fan.runId, s.fan.runHead, s.fan.tables);
    SignalSelectsApproved(s.pub.run, s.fan.runId, s.fan.runHead, s.fan.tables);
    PreparedPayload(s.pub.run, s.pub.tables, s.pub.action, request, c.marker);
  }

  // ---------------------------------------------------------------- every step keeps the invariant

  /** Only `_prepare` can set the stored payload, and only while no row is stored. */
  lemma PayloadOfAttempt(c: Pub.Config, s: Pub.State, e: Pub.Event)
    requires Pub.ByAttempt(e) && e.a in s.attempts && !e.Prepare?
    ensures var t := Pub.AttemptStep(c, s, e);
            && (s.action.Some? ==> t.action.Some? && t.action.value.fingerprint == s.action.value.fingerprint)
            && (s.action.None? ==> t.action.None?)
  {
    hide Marked, FindIn, WithDraft, WithoutReview, WithSubmitted, Pub.StepPrepare;
  }

  lemma PayloadOfPrepare(c: Pub.Config, s: Pub.State, a: nat)
    requires a in s.attempts
    ensures var t := Pub.AttemptStep(c, s, Pub.Prepare(a));
            var outcome := PrepareOutcome(s.run, s.tables, s.action, s.attempts[a].request, c.marker);
            && (s.action.Some? ==> t.action.Some? && t.action.value.fingerprint == s.action.value.fingerprint)
            && (s.action.None? && t.action.Some? ==> outcome.Ok? && t.action.value == outcome.value.0)
  {
    hide PrepareOutcome;
    if PrepareOutcome(s.run, s.tables, s.action, s.attempts[a].request, c.marker).Ok? {
      PreparedIsAuthorized(s.run, s.tables, s.action, s.attempts[a].request, c.marker);
    }
  }

  lemma PayloadOnlyFromPrepare(c: Pub.Config, s: Pub.State, e: Pub.Event)
    ensures var t := Pub.Step(c, s, e);
            && (s.action.Some? ==> t.action.Some? && t.action.value.fingerprint == s.action.value.fingerprint)
            && (s.action.None? && t.action.Some? ==>
                  && e.Prepare? && e.a in s.attempts
                  && PrepareOutcome(s.run, s.tables, s.action, s.attempts[e.a].request, c.marker).Ok?
                  && t.action.value == PrepareOutcome(s.run, s.tables, s.action, s.attempts[e.a].request, c.marker).value.0)
  {
    hide PrepareOutcome, Marked, ShapeError, Pub.AttemptStep;
    if Pub.ByAttempt(e) && e.a in s.attempts {
      if e.Prepare? {
        PayloadOfPrepare(c, s, e.a);
      } else {
        PayloadOfAttempt(c, s, e);
      }
    }
  }

  /** The shared rows and the requests of attempts are as before. */
  predicate KeepsRows(s: Pub.State, t: Pub.State) {
    && t.tables == s.tables && t.run == s.run
    && forall a :: a in t.attempts ==> a in s.attempts && t.attempts[a].request == s.attempts[a].request
  }

  lemma PrepareKeepsRows(c: Pub.Config, s: Pub.State, a: nat)
    requires a in s.attempts
    ensures KeepsRows(s, Pub.StepPrepare(c, s, a))
  {
    hide PrepareOutcome;
  }

  lemma RecordKeepsRows(s: Pub.State, a: nat, pc: Pub.Pc)
    requires a in s.attempts
    ensures KeepsRows(s, Pub.StepRecord(s, a, pc)) && KeepsRows(s, Pub.StepRecordUnacknowledged(s, a, pc))
  {
    hide RecordedSuccess, RecordedFailure;
  }

  lemma ListKeepsRows(s: Pub.State, a: nat, p: Prepared)
    requires a in s.attempts
    ensures KeepsRows(s, Pub.StepList(s, a, p))
  {
    hide FindIn;
  }

  lemma HeadReadKeepsRows(s: Pub.State, a: nat, pc: Pub.Pc)
    requires a in s.attempts
    ensures KeepsRows(s, Pub.StepReadHead(s, a, pc))
  {
  }

  lemma MoveKeepsRows(s: Pub.State, a: nat, pc: Pub.Pc, reviews: seq<Review>, nextId: nat, claim: Option<nat>)
    requires a in s.attempts
    ensures KeepsRows(s, s) && KeepsRows(s, Pub.End(s, a))
    ensures KeepsRows(s, Pub.SetPc(s, a, pc).(reviews := reviews, nextId := nextId, claim := claim))
  {
  }

  /** What a step of an attempt leaves alone. */
  lemma AttemptKeepsRows(c: Pub.Config, s: Pub.State, e: Pub.Event)
    requires Pub.ByAttempt(e) && e.a in s.attempts
    ensures KeepsRows(s, Pub.AttemptStep(c, s, e))
  {
    hide Pub.StepPrepare, Pub.StepRecord, Pub.StepRecordUnacknowledged, Pub.StepList, Pub.StepReadHead, Pub.End;
    hide WithDraft, WithoutReview, WithSubmitted, KeepsRows;
    var a, pc, t := e.a, s.attempts[e.a].pc, Pub.AttemptStep(c, s, e);
    MoveKeepsRows(s, a, pc, s.reviews, s.nextId, s.claim);
    match e {
      case Prepare(_) => PrepareKeepsRows(c, s, a);
      case ListReviews(_) => if pc.Searching? { ListKeepsRows(s, a, pc.prepared); }
      case ReadHead(_) => HeadReadKeepsRows(s, a, pc);
      case Record(_) => RecordKeepsRows(s, a, pc);
      case RecordUnacknowledged(_) => RecordKeepsRows(s, a, pc);
      case Acquire(_) => MoveKeepsRows(s, a, Pub.Claimed, s.reviews, s.nextId, Some(a));
      case CreateDraft(_) =>
        if pc.Creating? { MoveKeepsRows(s, a, Pub.Resolving(pc.prepared, s.nextId), t.reviews, t.nextId, s.claim); }
      case DeleteDraft(_) => MoveKeepsRows(s, a, Pub.Blocking, t.reviews, s.nextId, s.claim);
      case SubmitDraft(_) =>
        if pc.Submitting? { MoveKeepsRows(s, a, Pub.Recording(pc.prepared, pc.id), t.reviews, s.nextId, s.claim); }
      case ProviderError(_) => MoveKeepsRows(s, a, Pub.Failing, s.reviews, s.nextId, s.claim);
      case Die(_) =>
    }
  }

  /** What an own step of the protocol leaves alone. */
  lemma OwnStepKeepsRows(c: Pub.Config, s: Pub.State, e: Pub.Event)
    requires OwnStep(e)
    ensures KeepsRows(s, Pub.Step(c, s, e))
  {
    hide Pub.AttemptStep, Marked;
    if Pub.ByAttempt(e) && e.a in s.attempts {
      AttemptKeepsRows(c, s, e);
    }
  }

  /** The publish half of an event, given that the shared rows stay shared. */
  lemma PubHalf(c: Pub.Config, s: State, e: Event)
    requires Inv(c, s)
    ensures var t := Step(c, s, e);
            && Pub.Inv(c, t.pub) && t.pub.tables == t.fan.tables
            && t.pub.run.repositoryId == s.pub.run.repositoryId
            && t.pub.run.pullRequestNumber == s.pub.run.pullRequestNumber
  {
    hide Pub.Inv, Fan.Inv, Pub.AttemptStep, Fan.StepDispatch, Fan.AggregateSignal, StoredApprovedSet, FromSignal;
    match PubEvent(s, e) {
      case Some(p) => Pub.InvStep(c, s.pub, p);
      case None =>
    }
    match e {
      case PublishStep(p) => if OwnStep(p) { OwnStepKeepsRows(c, s.pub, p); }
      case DispatchApproval(commits) => Fan.InvDispatch(s.fan, commits);
      case Decide(findingId, request, newId) => Fan.InvRecord(s.fan, findingId, request, newId);
      case _ =>
    }
  }

  lemma FanHalf(c: Pub.Config, s: State, e: Event)
    requires Inv(c, s)
    ensures var t := Step(c, s, e);
            && Fan.Inv(t.fan) && s.fan.tables.ExtendedBy(t.fan.tables)
            && t.fan.runId == s.fan.runId && t.fan.runHead == s.fan.runHead
            && forall g :: g in s.fan.signals ==> g in t.fan.signals
  {
    hide Pub.Inv, Fan.Inv, Pub.Step, Fan.AggregateSignal, Fan.SetDigest, Fan.AggregateReceipt;
    match FanEvent(e) {
      case Some(f) =>
        Fan.InvStep(s.fan, f);
        Fan.SameRun(s.fan, f);
      case None =>
    }
  }

  /** Decisions are final once everything is decided, so the approved set no longer changes. */
  lemma {:induction false} DecidedIsFinal(findings: seq<Finding>, before: map<Id, Approval>, after: map<Id, Approval>)
    requires forall f :: f in findings ==> f.publicId in before
    requires forall f :: f in before ==> f in after && after[f] == before[f]
    ensures ApprovedRows(findings, before) == ApprovedRows(findings, after)
  {
    if findings == [] {
    } else {
      assert findings[0] in findings;
      DecidedIsFinal(findings[1..], before, after);
    }
  }

  lemma StoredSetLasts(c: Pub.Config, s: State, e: Event)
    requires Inv(c, s)
    ensures StoredApprovedSet(c, Step(c, s, e))
  {
    hide Pub.Inv, Fan.Inv, ReviewBody, Pairs, PrepareOutcome, Pub.Step, Fan.Step, FromSignal;
    var t := Step(c, s, e);
    FanHalf(c, s, e);
    if t.fan.tables != s.fan.tables && s.fan.tables.Decided() {
      DecidedIsFinal(s.fan.tables.findings, s.fan.tables.approvals, t.fan.tables.approvals);
    }
    match PubEvent(s, e) {
      case Some(p) =>
        PayloadOnlyFromPrepare(c, s.pub, p);
        if s.pub.action.None? && t.pub.action.Some? {
          PrepareStoresApproved(c, s, p.a);
          assert e.PublishStep?;
        }
      case None =>
    }
  }

  /** A sent signal stays sent. */
  lemma SignalLasts(s: State, t: State, request: PublishRequest)
    requires forall g :: g in s.fan.signals ==> g in t.fan.signals
    requires t.pub.run.repositoryId == s.pub.run.repositoryId && t.pub.run.pullRequestNumber == s.pub.run.pullRequestNumber
    requires FromSignal(s, request)
    ensures FromSignal(t, request)
  {
    var g :| g in s.fan.signals && g.approved && request == RequestFor(s.pub.run, g);
    assert g in t.fan.signals && RequestFor(t.pub.run, g) == request;
  }

  /** Attempts start from sent signals. */
  lemma AttemptsFromSignals(c: Pub.Config, s: State, e: Event, a: nat)
    requires Inv(c, s) && a in Step(c, s, e).pub.attempts
    ensures FromSignal(s, Step(c, s, e).pub.attempts[a].request)
  {
    hide Pub.Inv, Fan.Inv, Fan.Step, Pub.AttemptStep, ShapeError, Marked, StoredApprovedSet, FromSignal, RequestFor;
    match e {
      case PublishStep(p) => if OwnStep(p) { OwnStepKeepsRows(c, s.pub, p); }
      case StartPublish(_, signal) => FromSentSignal(s, signal);
      case _ =>
    }
  }

  lemma FromSentSignal(s: State, signal: Fan.ApprovalSignal)
    ensures signal in s.fan.signals && signal.approved ==> FromSignal(s, RequestFor(s.pub.run, signal))
  {
  }

  lemma RequestsLast(c: Pub.Config, s: State, e: Event)
    requires Inv(c, s)
    ensures var t := Step(c, s, e);
            forall a :: a in t.pub.attempts ==> FromSignal(t, t.pub.attempts[a].request)
  {
    hide Step, Inv, FromSignal;
    var t := Step(c, s, e);
    FanHalf(c, s, e);
    PubHalf(c, s, e);
    forall a | a in t.pub.attempts
      ensures FromSignal(t, t.pub.attempts[a].request)
    {
      AttemptsFromSignals(c, s, e, a);
      SignalLasts(s, t, t.pub.attempts[a].request);
    }
  }

  lemma InvStep(c: Pub.Config, s: State, e: Event)
    requires Inv(c, s)
    ensures Inv(c, Step(c, s, e))
  {
    hide Step, Pub.Inv, Fan.Inv, StoredApprovedSet, FromSignal;
    FanHalf(c, s, e);
    PubHalf(c, s, e);
    StoredSetLasts(c, s, e);
    RequestsLast(c, s, e);
  }

  lemma {:induction false} InvExec(c: Pub.Config, s: State, events: seq<Event>)
    requires Init(c, s)
    ensures Inv(c, Exec(c, s, events))
  {
    hide Step;
    if events == [] {
      assert Inv(c, s);
    } else {
      InvExec(c, s, events[..|events| - 1]);
      InvStep(c, Exec(c, s, events[..|events| - 1]), events[|events| - 1]);
    }
  }

  // ---------------------------------------------------------------- where an approval comes from

  /** Event `i` is a human decision on the finding, and the stored approval is exactly that decision. */
  predicate DecidedAt(t: State, events: seq<Event>, findingId: Id, i: nat) {
    && i < |events| && events[i].Decide? && events[i].findingId == findingId
    && findingId in t.fan.tables.approvals
    && t.fan.tables.approvals[findingId]
       == Approval(events[i].newId, events[i].request.decision, events[i].request.headSha)
  }

  lemma ApprovalsChangeOnlyByDecide(c: Pub.Config, s: State, e: Event, findingId: Id)
    requires findingId in Step(c, s, e).fan.tables.approvals
    ensures || (findingId in s.fan.tables.approvals
                && Step(c, s, e).fan.tables.approvals[findingId] == s.fan.tables.approvals[findingId])
            || DecidedAt(Step(c, s, e), [e], findingId, 0)
  {
    hide Fan.Step, Pub.Step, PubEvent, Fan.CanRecord;
    match FanEvent(e) {
      case Some(f) => Fan.ApprovalsChangeBy(s.fan, f);
      case None =>
    }
  }

  /** Over every run, each stored approval is what one event of the run decided for that finding. */
  lemma {:induction false} ApprovalsComeFromDecisions(c: Pub.Config, s: State, events: seq<Event>, findingId: Id)
    requires Init(c, s) && findingId in Exec(c, s, events).fan.tables.approvals
    ensures exists i: nat :: DecidedAt(Exec(c, s, events), events, findingId, i)
  {
    if events == [] {
      assert false;
    } else {
      hide Step, Pub.Init;
      var n := |events| - 1;
      var front := events[..n];
      ApprovalsChangeOnlyByDecide(c, Exec(c, s, front), events[n], findingId);
      if DecidedAt(Exec(c, s, events), [events[n]], findingId, 0) {
        assert DecidedAt(Exec(c, s, events), events, findingId, n);
      } else {
        ApprovalsComeFromDecisions(c, s, front, findingId);
        var i: nat :| DecidedAt(Exec(c, s, front), front, findingId, i);
        assert DecidedAt(Exec(c, s, events), events, findingId, i);
      }
    }
  }

  /** Event `i` is a human's approval of this row, and the row's approval carries its id. */
  predicate ApprovedAt(events: seq<Event>, row: Row, i: nat) {
    && i < |events| && events[i].Decide? && events[i].findingId == row.finding.publicId
    && events[i].request.decision == Approve
    && row.approval == Approval(events[i].newId, Approve, events[i].request.headSha)
  }

  /** The rows are exactly the findings of the run whose stored decision is an approval. */
  predicate AreTheApproved(tables: Tables, rows: seq<Row>) {
    && (forall r :: r in rows ==> r.finding in tables.findings && r.finding.publicId in tables.approvals
                                  && r.approval == tables.approvals[r.finding.publicId] && r.approval.decision == Approve)
    && (forall f :: f in tables.findings && f.publicId in tables.approvals && tables.approvals[f.publicId].decision == Approve
                    ==> Row(f, tables.approvals[f.publicId]) in rows)
  }

  lemma ApprovedRowsAreTheApproved(tables: Tables)
    ensures AreTheApproved(tables, ApprovedOf(tables)) && InFindingOrder(tables.findings, ApprovedOf(tables))
  {
    hide ApprovedRows, InFindingOrder;
    var rows := ApprovedOf(tables);
    ApprovedInOrder(tables.findings, tables.approvals);
    forall r | r in rows
      ensures r.finding in tables.findings && r.finding.publicId in tables.approvals
      ensures r.approval == tables.approvals[r.finding.publicId] && r.approval.decision == Approve
    {
      ApprovedRowsAreRows(tables.findings, tables.approvals, r);
    }
    forall f | f in tables.findings && f.publicId in tables.approvals && tables.approvals[f.publicId].decision == Approve
      ensures Row(f, tables.approvals[f.publicId]) in rows
    {
      ApprovedRowsAreRows(tables.findings, tables.approvals, Row(f, tables.approvals[f.publicId]));
    }
  }

  // ---------------------------------------------------------------- main result, over every run

  lemma ApprovedRowWasDecided(c: Pub.Config, s: State, events: seq<Event>, row: Row)
    requires Init(c, s) && row in ApprovedOf(Exec(c, s, events).fan.tables)
    ensures row.approval.decision == Approve && row.approval.headSha == c.headSha
    ensures exists i: nat :: ApprovedAt(events, row, i)
  {
    hide Step, Exec, Pub.Inv;
    InvExec(c, s, events);
    var t := Exec(c, s, events);
    ApprovedRowsAreRows(t.fan.tables.findings, t.fan.tables.approvals, row);
    ApprovalsComeFromDecisions(c, s, events, row.finding.publicId);
    var i: nat :| DecidedAt(t, events, row.finding.publicId, i);
    assert ApprovedAt(events, row, i);
  }

  /**
   Every review written for the run's key consists of the heading, the severity and claim of exactly
   the run's approved findings in finding order, and the marker. Each of these findings was approved
   by an event of the run, on the run's head, and its stored approval carries that event's id. The
   review exists only once every finding is decided, so no later decision can change that set.
   */
  lemma PublishedIsApprovedSet(c: Pub.Config, s: State, events: seq<Event>, r: Review)
    requires Init(c, s)
    requires r in Exec(c, s, events).pub.reviews && Marked(r, c.marker)
    ensures var t := Exec(c, s, events).fan.tables;
            var rows := ApprovedOf(t);
            && (forall f :: f in t.findings ==> f.publicId in t.approvals)
            && rows != [] && AreTheApproved(t, rows) && InFindingOrder(t.findings, rows)
            && r.commitSha == c.headSha
            && Renders(rows, c.marker, r.body)
            && (forall row :: row in rows ==> row.approval.decision == Approve && row.approval.headSha == c.headSha)
            && (forall row :: row in rows ==> exists i: nat :: ApprovedAt(events, row, i))
  {
    hide Step, Exec, ReviewBody, Renders, InFindingOrder, Marked, ApprovedRows;
    InvExec(c, s, events);
    var t := Exec(c, s, events);
    assert Pub.ReviewsOk(c, t.pub);
    ApprovedRowsAreTheApproved(t.fan.tables);
    BodyRenders(ApprovedOf(t.fan.tables), c.marker);
    forall row | row in ApprovedOf(t.fan.tables)
      ensures row.approval.decision == Approve && row.approval.headSha == c.headSha
      ensures exists i: nat :: ApprovedAt(events, row, i)
    {
      ApprovedRowWasDecided(c, s, events, row);
    }
  }

  // ---------------------------------------------------------------- an approved set gets published

  lemma ApprovedIdsAreDistinct(tables: Tables)
    requires tables.Valid()
    ensures var rows := ApprovedOf(tables);
            && NoDuplicates(FindingIds(rows)) && NoDuplicates(ApprovalIds(rows))
  {
    hide ApprovedRows;
    var rows := ApprovedOf(tables);
    ApprovedRowsAreTheApproved(tables);
    var positions: seq<nat> :| AtPositions(tables.findings, rows, positions);
    forall i, j | 0 <= i < j < |rows|
      ensures rows[i].finding.publicId != rows[j].finding.publicId && rows[i].approval.publicId != rows[j].approval.publicId
    {
      assert tables.findings[positions[i]].publicId != tables.findings[positions[j]].publicId;
      assert rows[i] in rows && rows[j] in rows;
    }
  }

  lemma SignalIsWellFormed(run: RunTarget, runId: Id, headSha: Sha, tables: Tables)
    requires tables.Valid() && ApprovedOf(tables) != []
    ensures WellFormed(RequestFor(run, Fan.AggregateSignal(runId, headSha, tables)))
  {
    ApprovedIdsAreDistinct(tables);
  }

  lemma SignalIsApproved(run: RunTarget, runId: Id, headSha: Sha, tables: Tables, marker: string)
    requires tables.Valid()
    requires forall f :: f in tables.approvals ==> tables.approvals[f].headSha == headSha
    ensures Approved(RequestFor(run, Fan.AggregateSignal(runId, headSha, tables)), ApprovedOf(tables), marker)
            <==> |ReviewBody(ApprovedOf(tables), marker)| <= 60_000
  {
    hide ReviewBody, ApprovedRows;
    var rows := ApprovedOf(tables);
    ApprovedRowsAreTheApproved(tables);
    forall r | r in rows
      ensures r.approval.publicId in ApprovalIds(rows)
    {
      IdsOfRows(rows, r);
    }
    forall a | a in ApprovalIds(rows)
      ensures exists r :: r in rows && r.approval.publicId == a
    {
      var i :| 0 <= i < |rows| && ApprovalIds(rows)[i] == a;
      assert rows[i] in rows;
    }
  }

  /** What a stored payload of this run is compared with. */
  lemma StoredPayloadMatches(c: Pub.Config, s: State, g: Fan.ApprovalSignal)
    requires Inv(c, s) && g in s.fan.signals && g.approved && s.pub.action.Some?
    ensures var request := RequestFor(s.pub.run, g);
            s.pub.action.value.fingerprint == PayloadOf(request, RequestRows(s.pub.tables, request), c.marker)
  {
    hide ReviewBody, Pairs, RequestRows, Fan.SetDigest, Pub.Inv, ApprovedRows;
    assert g == Fan.AggregateSignal(s.fan.runId, s.fan.runHead, s.fan.tables);
    SignalSelectsApproved(s.pub.run, s.fan.runId, s.fan.runHead, s.fan.tables);
  }

  /**
   In every reachable state, the publish request of a sent approved signal prepares exactly when the
   review text is within the limit and, before anything is stored, the run waits on its head.
   */
  lemma SignalPrepares(c: Pub.Config, s: State, g: Fan.ApprovalSignal)
    requires Inv(c, s) && g in s.fan.signals && g.approved
    ensures PrepareOutcome(s.pub.run, s.pub.tables, s.pub.action, RequestFor(s.pub.run, g), c.marker).Ok? <==>
            && |ReviewBody(ApprovedOf(s.pub.tables), c.marker)| <= 60_000
            && (s.pub.action.None? ==> s.pub.run.state == AwaitingApproval && s.pub.run.currentHeadSha == c.headSha)
  {
    hide ReviewBody, PrepareOutcome, PayloadOf, RequestRows, WellFormed, Approved, ApprovedRows, Marked;
    hide Pub.ReviewsOk, Pub.PcOk, Authorizes;
    var request := RequestFor(s.pub.run, g);
    assert g == Fan.AggregateSignal(s.fan.runId, s.fan.runHead, s.fan.tables);
    SignalSelectsApproved(s.pub.run, s.fan.runId, s.fan.runHead, s.fan.tables);
    PreparesIff(s.pub.run, s.pub.tables, s.pub.action, request, c.marker);
    SignalIsWellFormed(s.pub.run, s.fan.runId, s.fan.runHead, s.fan.tables);
    SignalIsApproved(s.pub.run, s.fan.runId, s.fan.runHead, s.fan.tables, c.marker);
    if s.pub.action.Some? {
      StoredPayloadMatches(c, s, g);
    }
  }

  lemma ExecOne(c: Pub.Config, s: State, events: seq<Event>, e: Event)
    ensures Exec(c, s, events + [e]) == Step(c, Exec(c, s, events), e)
  {
    hide Step;
    assert (events + [e])[..|events|] == events;
  }

  lemma PubSteps(c: Pub.Config, s: State, e: Event)
    ensures e.PublishStep? && OwnStep(e.e) ==> Step(c, s, e).pub == Pub.Step(c, s.pub, e.e)
    ensures e.StartPublish? && e.signal in s.fan.signals && e.signal.approved ==>
              Step(c, s, e).pub == Pub.Step(c, s.pub, Pub.Begin(e.a, RequestFor(s.pub.run, e.signal)))
  {
    hide Pub.Step;
  }

  lemma OwnLast(front: seq<Pub.Event>, last: Pub.Event)
    ensures Own([]) == [] && Own(front + [last]) == Own(front) + [PublishStep(last)]
  {
  }

  lemma OwnFront(own: seq<Pub.Event>)
    requires own != [] && forall e :: e in own ==> OwnStep(e)
    ensures forall e :: e in own[..|own| - 1] ==> OwnStep(e)
    ensures OwnStep(own[|own| - 1]) && own == own[..|own| - 1] + [own[|own| - 1]]
  {
  }

  lemma {:induction false} OwnSteps(c: Pub.Config, s: State, own: seq<Pub.Event>)
    requires forall e :: e in own ==> OwnStep(e)
    ensures Exec(c, s, Own(own)).pub == Pub.Exec(c, s.pub, own)
  {
    hide Step, Pub.Step, Own, OwnStep;
    if own == [] {
      OwnLast([], Pub.Acquire(0));
    } else {
      hide Exec, Pub.Exec;
      var front, last := own[..|own| - 1], own[|own| - 1];
      OwnFront(own);
      OwnLast(front, last);
      OwnSteps(c, s, front);
      ExecOne(c, s, Own(front), PublishStep(last));
      PubSteps(c, Exec(c, s, Own(front)), PublishStep(last));
      Pub.ExecAppend(c, s.pub, front, last);
    }
  }

  lemma {:induction false} ExecAppend(c: Pub.Config, s: State, events: seq<Event>, more: seq<Event>)
    ensures Exec(c, s, events + more) == Exec(c, Exec(c, s, events), more)
  {
    if more == [] {
      assert events + more == events;
    } else {
      hide Step;
      var all := events + more;
      assert all[..|all| - 1] == events + more[..|more| - 1];
      ExecAppend(c, s, events, more[..|more| - 1]);
    }
  }

  function Own(own: seq<Pub.Event>): seq<Event> {
    seq(|own|, i requires 0 <= i < |own| => PublishStep(own[i]))
  }

  /** One publish attempt that nothing stops. */
  function Attempt(a: nat): seq<Pub.Event> {
    [Pub.Acquire(a), Pub.Prepare(a), Pub.ListReviews(a), Pub.ReadHead(a), Pub.CreateDraft(a), Pub.ReadHead(a),
     Pub.SubmitDraft(a), Pub.Record(a)]
  }

  lemma AttemptIsRetry(c: Pub.Config, s: Pub.State, a: nat, request: PublishRequest)
    ensures Pub.Exec(c, Pub.Step(c, s, Pub.Begin(a, request)), Attempt(a)) == Pub.Retry(c, s, a, request)
  {
    hide Pub.Step;
    var t := Pub.Step(c, s, Pub.Begin(a, request));
    assert [Pub.Acquire(a)] == [] + [Pub.Acquire(a)];
    Pub.ExecAppend(c, t, [], Pub.Acquire(a));
    Pub.ExecAppend(c, t, [Pub.Acquire(a)], Pub.Prepare(a));
    Pub.ExecAppend(c, t, [Pub.Acquire(a), Pub.Prepare(a)], Pub.ListReviews(a));
    var searched := [Pub.Acquire(a), Pub.Prepare(a), Pub.ListReviews(a)];
    assert searched == [Pub.Acquire(a), Pub.Prepare(a)] + [Pub.ListReviews(a)];
    Pub.ExecAppend(c, t, searched, Pub.ReadHead(a));
    Pub.ExecAppend(c, t, searched + [Pub.ReadHead(a)], Pub.CreateDraft(a));
    var drafted := searched + [Pub.ReadHead(a)] + [Pub.CreateDraft(a)];
    Pub.ExecAppend(c, t, drafted, Pub.ReadHead(a));
    Pub.ExecAppend(c, t, drafted + [Pub.ReadHead(a)], Pub.SubmitDraft(a));
    Pub.ExecAppend(c, t, drafted + [Pub.ReadHead(a)] + [Pub.SubmitDraft(a)], Pub.Record(a));
    assert Attempt(a) == drafted + [Pub.ReadHead(a)] + [Pub.SubmitDraft(a)] + [Pub.Record(a)];
  }

  /**
   From every reachable state with an approved signal sent and the claim free, whatever attempts were made
   before: while the run waits on its unmoved head and the text fits, one attempt left alone ends with the
   review of the approved set submitted and its id stored.
   */
  lemma ApprovedSetGetsPublished(c: Pub.Config, s: State, events: seq<Event>, g: Fan.ApprovalSignal, a: nat)
    requires Init(c, s)
    requires var t := Exec(c, s, events);
             && g in t.fan.signals && g.approved
             && t.pub.claim.None? && a !in t.pub.attempts
             && t.pub.run.state == AwaitingApproval && t.pub.run.currentHeadSha == c.headSha && t.pub.remoteHead == c.headSha
             && |ReviewBody(ApprovedOf(t.fan.tables), c.marker)| <= 60_000
    ensures var t := Exec(c, s, events + [StartPublish(a, g)] + Own(Attempt(a)));
            && t.pub.action.Some? && t.pub.action.value.status == ActionPublished && t.pub.action.value.remoteId.Some?
            && exists r :: r in t.pub.reviews && r.id == t.pub.action.value.remoteId.value && r.state == Commented
                           && Marked(r, c.marker)
  {
    hide Exec, Step, Pub.Exec, Pub.Step, ReviewBody, ApprovedRows, PrepareOutcome, Marked, Attempt, Pub.Retry;
    hide WellFormed, Approved, PayloadOf, RequestRows, Pub.ReviewsOk, Pub.ActionOk, Pub.PcOk, StoredApprovedSet, Own;
    var t := Exec(c, s, events);
    InvExec(c, s, events);
    SignalPrepares(c, t, g);
    var request := RequestFor(t.pub.run, g);
    PreparesIff(t.pub.run, t.pub.tables, t.pub.action, request, c.marker);
    ExecOne(c, s, events, StartPublish(a, g));
    PubSteps(c, t, StartPublish(a, g));
    AttemptIsRetry(c, t.pub, a, request);
    AttemptIsOwn(a);
    var started := Exec(c, s, events + [StartPublish(a, g)]);
    ExecAppend(c, s, events + [StartPublish(a, g)], Own(Attempt(a)));
    OwnSteps(c, started, Attempt(a));
    if PrepareOutcome(t.pub.run, t.pub.tables, t.pub.action, request, c.marker).value.1.createBlock.None? {
      Pub.RetryPublishes(c, t.pub, a, request);
    }
  }

  lemma AttemptIsOwn(a: nat)
    ensures forall e :: e in Attempt(a) ==> OwnStep(e)
  {
  }
}
