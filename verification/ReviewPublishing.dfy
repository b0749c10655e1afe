/**
 Publishing of one approved review: the database transactions around the external action row, and
 the review client that looks up, drafts, submits or deletes the remote review.

 Everything here concerns one idempotency key, so `action` is the row stored under that key and
 `marker` the retry marker derived from it. SHA-256 digests are represented by what they digest.
 */
module ReviewPublishing {
  import opened Options
  import opened RunContracts
  import opened ReviewTables

  const REVIEWS_PER_PAGE := 100
  const REVIEW_ACTION := "github.pull_request_review"

  datatype PublishRequest = PublishRequest(
    runId: Id, repositoryId: Id, pullRequestNumber: int, headSha: Sha,
    findingIds: seq<Id>, approvalIds: seq<Id>, commentBodyRef: ApprovalSetDigest, idempotencyKey: string)

  datatype BlockReason =
    | EmptyApprovalSet
    | DuplicateFindingId
    | DuplicateApprovalId
    | ApprovalCountMismatch
    | IdempotencyKeyInvalid
    | TargetMismatch
    | IdempotencyCommitMismatch
    | IdempotencyActionMismatch
    | RunNotAwaitingApproval
    | StaleHead
    | ApprovalMissing
    | ApprovalRejected
    | ApprovalCommitMismatch
    | ApprovalSetMismatch
    | PayloadMismatch
    | MissingRemoteIdentity
    | BodyLimit
    | AuthorizationChanged
    | ReviewPayloadMismatch

  datatype ActionStatus = ActionPublishing | ActionPublished | ActionFailed

  /** The digested payload: approval pairs without order, the body reference and the full body. */
  datatype Fingerprint = Fingerprint(pairs: multiset<(Id, Id)>, commentBodyRef: ApprovalSetDigest, body: string)

  datatype Action = Action(
    targetSha: Sha, runId: Id, actionType: string, fingerprint: Fingerprint,
    status: ActionStatus, remoteId: Option<nat>)

  /** The run joined with its pull request and repository. */
  datatype RunTarget = RunTarget(
    runId: Id, repositoryId: Id, pullRequestNumber: int, state: RunState, currentHeadSha: Sha)

  datatype Prepared = Prepared(
    headSha: Sha, marker: string, body: string, fingerprint: Fingerprint,
    remoteId: Option<nat>, createBlock: Option<BlockReason>)

  // ---------------------------------------------------------------- request shape

  predicate NoDuplicates(ids: seq<Id>) {
    forall i, j :: 0 <= i < j < |ids| ==> ids[i] != ids[j]
  }

  function PublishKey(runId: Id, headSha: Sha): string {
    runId + ":" + headSha + ":publish"
  }

  function ShapeError(request: PublishRequest): Option<BlockReason> {
    if request.findingIds == [] || request.approvalIds == [] then Some(EmptyApprovalSet)
    else if !NoDuplicates(request.findingIds) then Some(DuplicateFindingId)
    else if !NoDuplicates(request.approvalIds) then Some(DuplicateApprovalId)
    else if |request.findingIds| != |request.approvalIds| then Some(ApprovalCountMismatch)
    else if request.idempotencyKey != PublishKey(request.runId, request.headSha) then Some(IdempotencyKeyInvalid)
    else None
  }

  // ---------------------------------------------------------------- database transactions

  function Pairs(rows: seq<Row>): multiset<(Id, Id)> {
    multiset(seq(|rows|, i requires 0 <= i < |rows| => (rows[i].finding.publicId, rows[i].approval.publicId)))
  }

  function RequestRows(tables: Tables, request: PublishRequest): seq<Row> {
    SelectRows(tables.findings, tables.approvals, request.findingIds, request.approvalIds)
  }

  function PayloadOf(request: PublishRequest, rows: seq<Row>, marker: string): Fingerprint {
    Fingerprint(Pairs(rows), request.commentBodyRef, ReviewBody(rows, marker))
  }

  /** Why the stored approvals do not authorize the requested set. */
  function ApprovalError(request: PublishRequest, rows: seq<Row>, marker: string): Option<BlockReason> {
    if |rows| != |request.findingIds| then Some(ApprovalMissing)
    else if exists r :: r in rows && r.approval.decision != Approve then Some(ApprovalRejected)
    else if exists r :: r in rows && r.approval.headSha != request.headSha then Some(ApprovalCommitMismatch)
    else if (set r | r in rows :: r.approval.publicId) != (set a | a in request.approvalIds) then Some(ApprovalSetMismatch)
    else if |ReviewBody(rows, marker)| > MAX_REVIEW_BODY_CHARACTERS then Some(BodyLimit)
    else None
  }

  function CreateBlock(run: RunTarget, request: PublishRequest): Option<BlockReason> {
    if run.state != AwaitingApproval then Some(AuthorizationChanged)
    else if run.currentHeadSha != request.headSha then Some(StaleHead)
    else None
  }

  /** Why an action row that is already stored cannot serve this request. */
  function ExistingActionError(request: PublishRequest, action: Action): Option<BlockReason> {
    if action.targetSha != request.headSha then Some(IdempotencyCommitMismatch)
    else if action.runId != request.runId || action.actionType != REVIEW_ACTION then Some(IdempotencyActionMismatch)
    else None
  }

  /** The action row and the prepared publish that one `_prepare` transaction leaves behind. */
  function PrepareOutcome(
    run: RunTarget, tables: Tables, action: Option<Action>, request: PublishRequest, marker: string
  ): Result<(Action, Prepared), BlockReason>
  {
    var rows := RequestRows(tables, request);
    var payload := PayloadOf(request, rows, marker);
    var block := CreateBlock(run, request);
    var prepared := Prepared(request.headSha, marker, payload.body, payload, None, None);
    if ShapeError(request).Some? then Err(ShapeError(request).value)
    else if request.runId != run.runId || request.repositoryId != run.repositoryId
         || request.pullRequestNumber != run.pullRequestNumber then Err(TargetMismatch)
    else if action.Some? && ExistingActionError(request, action.value).Some? then
      Err(ExistingActionError(request, action.value).value)
    else if action.None? && block == Some(AuthorizationChanged) then Err(RunNotAwaitingApproval)
    else if action.None? && block == Some(StaleHead) then Err(StaleHead)
    else if ApprovalError(request, rows, marker).Some? then Err(ApprovalError(request, rows, marker).value)
    else if action.None? then
      Ok((Action(request.headSha, request.runId, REVIEW_ACTION, payload, ActionPublishing, None), prepared))
    else if action.value.fingerprint != payload then Err(PayloadMismatch)
    else if action.value.status == ActionPublished then
      if action.value.remoteId.None? then Err(MissingRemoteIdentity)
      else Ok((action.value, prepared.(body := "", remoteId := action.value.remoteId)))
    else if block.Some? then Ok((action.value, prepared.(createBlock := block)))
    else Ok((action.value.(status := ActionPublishing), prepared))
  }

  /** The request names nonempty, equally long lists without repetition, under the key of its run and head. */
  predicate WellFormed(request: PublishRequest) {
    && request.findingIds != [] && request.approvalIds != [] && |request.findingIds| == |request.approvalIds|
    && (forall i, j :: 0 <= i < j < |request.findingIds| ==> request.findingIds[i] != request.findingIds[j])
    && (forall i, j :: 0 <= i < j < |request.approvalIds| ==> request.approvalIds[i] != request.approvalIds[j])
    && request.idempotencyKey == request.runId + ":" + request.headSha + ":publish"
  }

  /** The selected rows are all the request names, each approved on its head, and their text fits. */
  predicate Approved(request: PublishRequest, rows: seq<Row>, marker: string) {
    && |rows| == |request.findingIds|
    && (forall r :: r in rows ==> r.approval.decision == Approve && r.approval.headSha == request.headSha)
    && (forall r :: r in rows ==> r.approval.publicId in request.approvalIds)
    && (forall a :: a in request.approvalIds ==> exists r :: r in rows && r.approval.publicId == a)
    && |ReviewBody(rows, marker)| <= 60_000
  }

  lemma ApprovedMeans(request: PublishRequest, rows: seq<Row>, marker: string)
    ensures ApprovalError(request, rows, marker).None? <==> Approved(request, rows, marker)
  {
    hide ReviewBody;
    var stored, named := (set r | r in rows :: r.approval.publicId), (set a | a in request.approvalIds);
    if Approved(request, rows, marker) {
      assert forall x :: x in stored <==> x in named;
      assert stored == named;
    }
    if stored == named {
      forall r | r in rows
        ensures r.approval.publicId in request.approvalIds
      {
        assert r.approval.publicId in stored;
      }
      forall a | a in request.approvalIds
        ensures exists r :: r in rows && r.approval.publicId == a
      {
        assert a in named;
      }
    }
  }

  lemma ShapeMeans(request: PublishRequest)
    ensures ShapeError(request).None? <==> WellFormed(request)
  {
  }

  /**
   Preparing succeeds exactly for a well-formed request for this run whose approvals are all stored,
   approved and on its head, while the run waits for approval on that head if nothing is stored yet, and
   for the same payload if something is. What is blocked afterwards is only a stored, unpublished review
   of a run that no longer waits on that head.
   */
  lemma PreparesIff(run: RunTarget, tables: Tables, action: Option<Action>, request: PublishRequest, marker: string)
    ensures var outcome, rows := PrepareOutcome(run, tables, action, request, marker), RequestRows(tables, request);
            var waiting := run.state == AwaitingApproval && run.currentHeadSha == request.headSha;
            && (outcome.Ok? <==>
                  && WellFormed(request) && Approved(request, rows, marker)
                  && request.runId == run.runId && request.repositoryId == run.repositoryId
                  && request.pullRequestNumber == run.pullRequestNumber
                  && (action.None? ==> waiting)
                  && (action.Some? ==>
                        && action.value.targetSha == request.headSha && action.value.runId == request.runId
                        && action.value.actionType == "github.pull_request_review"
                        && action.value.fingerprint == PayloadOf(request, rows, marker)
                        && (action.value.status == ActionPublished ==> action.value.remoteId.Some?)))
            && (outcome.Ok? ==>
                  var (row, prepared) := outcome.value;
                  && (prepared.remoteId.Some? <==> action.Some? && action.value.status == ActionPublished)
                  && (prepared.remoteId.Some? ==> prepared.createBlock.None?)
                  && (prepared.remoteId.None? ==>
                        && (prepared.createBlock.None? <==> waiting)
                        && (prepared.createBlock.None? ==> row.status == ActionPublishing)
                        && prepared.body == ReviewBody(rows, marker)))
  {
    hide ShapeError, ApprovalError, WellFormed, Approved, RequestRows, ReviewBody, Pairs;
    ShapeMeans(request);
    ApprovedMeans(request, RequestRows(tables, request), marker);
  }

  /** The stored payload is exactly what the stored approvals authorize for this head. */
  ghost predicate Authorizes(tables: Tables, headSha: Sha, marker: string, payload: Fingerprint) {
    exists rows: seq<Row> ::
      && rows != []
      && (forall r :: r in rows ==>
            && r.finding in tables.findings
            && r.finding.publicId in tables.approvals
            && r.approval == tables.approvals[r.finding.publicId]
            && r.approval.decision == Approve
            && r.approval.headSha == headSha)
      && payload.pairs == Pairs(rows)
      && payload.body == ReviewBody(rows, marker)
  }

  /** A successful `_prepare` never loosens authorization, and only reuses a row for the same payload. */
  lemma PreparedIsAuthorized(
    run: RunTarget, tables: Tables, action: Option<Action>, request: PublishRequest, marker: string)
    requires PrepareOutcome(run, tables, action, request, marker).Ok?
    ensures var (row, prepared) := PrepareOutcome(run, tables, action, request, marker).value;
            && Authorizes(tables, request.headSha, marker, row.fingerprint)
            && prepared.fingerprint == row.fingerprint
            && row.targetSha == request.headSha == prepared.headSha
            && row.runId == request.runId && row.actionType == REVIEW_ACTION && prepared.marker == marker
            && (prepared.remoteId.None? ==> prepared.body == row.fingerprint.body && row.status != ActionPublished)
            && (prepared.remoteId.Some? ==> row.status == ActionPublished && row.remoteId == prepared.remoteId)
            && (prepared.remoteId.None? && prepared.createBlock.None? ==>
                  run.state == AwaitingApproval && run.currentHeadSha == request.headSha)
            && (action.Some? ==> row == action.value.(status := row.status))
            && (action.None? ==> row.remoteId.None?)
            && (row.status == ActionPublished <==> action.Some? && action.value.status == ActionPublished)
  {
    var rows := RequestRows(tables, request);
    forall r | r in rows
      ensures r.finding in tables.findings && r.finding.publicId in tables.approvals
           && r.approval == tables.approvals[r.finding.publicId]
    {
      var k :| 0 <= k < |rows| && rows[k] == r;
      SelectRowsAreRows(tables.findings, tables.approvals, request.findingIds, request.approvalIds, k);
    }
    assert rows != [];
  }

  /** The stored payload is the one computed from the request and the stored rows. */
  lemma PreparedPayload(
    run: RunTarget, tables: Tables, action: Option<Action>, request: PublishRequest, marker: string)
    requires PrepareOutcome(run, tables, action, request, marker).Ok?
    ensures PrepareOutcome(run, tables, action, request, marker).value.0.fingerprint
         == PayloadOf(request, RequestRows(tables, request), marker)
    ensures RequestRows(tables, request) != []
  {
    hide PayloadOf, RequestRows;
  }

  /** The row `_record_success` updates, and without which it fails. */
  predicate IsPreparedRow(action: Option<Action>, prepared: Prepared) {
    action.Some? && action.value.targetSha == prepared.headSha && action.value.fingerprint == prepared.fingerprint
  }

  /** `_record_success` only touches the row prepared for this head and payload. */
  function RecordedSuccess(action: Option<Action>, prepared: Prepared, remoteId: nat): Option<Action> {
    if IsPreparedRow(action, prepared)
    then Some(action.value.(status := ActionPublished, remoteId := Some(remoteId)))
    else action
  }

  /** Both `_record_action_blocked` and `_record_failure` mark the row failed. */
  function RecordedFailure(action: Option<Action>): Option<Action> {
    if action.Some? then Some(action.value.(status := ActionFailed)) else None
  }

  /**
   A blocked or failed record closes nothing: unless the row was published, the next prepare of any
   request decides the same and prepares the same publish as without that record.
   */
  lemma FailureKeepsTheWayOpen(
    run: RunTarget, tables: Tables, action: Option<Action>, request: PublishRequest, marker: string)
    requires action.Some? ==> action.value.status != ActionPublished
    ensures var failed := PrepareOutcome(run, tables, RecordedFailure(action), request, marker);
            var before := PrepareOutcome(run, tables, action, request, marker);
            && (failed.Ok? <==> before.Ok?)
            && (failed.Ok? ==> failed.value.1 == before.value.1 && failed.value.0.fingerprint == before.value.0.fingerprint)
            && (failed.Err? ==> failed.error == before.error)
  {
    hide RequestRows, ReviewBody, ShapeError, ApprovalError, CreateBlock;
  }

  // ---------------------------------------------------------------- remote reviews

  datatype ReviewState = Pending | Commented | OtherReviewState

  /** A remote review; `ours` says that the authenticated App wrote it. */
  datatype Review = Review(id: nat, ours: bool, body: string, commitSha: Sha, state: ReviewState)

  datatype Lookup = Submitted(review: Review) | Mismatch | Draft(review: Review) | Absent

  predicate Exact(r: Review, body: string, headSha: Sha) {
    r.ours && r.body == body && r.commitSha == headSha
  }

  predicate Marked(r: Review, marker: string) {
    r.ours && EndsWith(r.body, BLANK_LINE + marker)
  }

  predicate IsMismatch(r: Review, body: string, headSha: Sha, marker: string) {
    if Exact(r, body, headSha) then r.state == OtherReviewState else Marked(r, marker)
  }

  function FirstSubmitted(listing: seq<Review>, body: string, headSha: Sha): Option<Review> {
    if listing == [] then None
    else
      var last := listing[|listing| - 1];
      var earlier := FirstSubmitted(listing[..|listing| - 1], body, headSha);
      if earlier.Some? then earlier
      else if Exact(last, body, headSha) && last.state == Commented then Some(last)
      else None
  }

  function LastDraft(listing: seq<Review>, body: string, headSha: Sha): Option<Review> {
    if listing == [] then None
    else
      var last := listing[|listing| - 1];
      if Exact(last, body, headSha) && last.state == Pending then Some(last)
      else LastDraft(listing[..|listing| - 1], body, headSha)
  }

  predicate HasMismatch(listing: seq<Review>, body: string, headSha: Sha, marker: string) {
    exists r :: r in listing && IsMismatch(r, body, headSha, marker)
  }

  /** What a search of the whole listing finds: a submitted match wins over everything else. */
  function FindIn(listing: seq<Review>, body: string, headSha: Sha, marker: string): Lookup {
    if FirstSubmitted(listing, body, headSha).Some? then Submitted(FirstSubmitted(listing, body, headSha).value)
    else if HasMismatch(listing, body, headSha, marker) then Mismatch
    else if LastDraft(listing, body, headSha).Some? then Draft(LastDraft(listing, body, headSha).value)
    else Absent
  }

  /** Review `i` is this App's review of this body and commit, in the given state. */
  predicate ExactAt(listing: seq<Review>, i: nat, body: string, headSha: Sha, state: ReviewState) {
    && i < |listing| && listing[i].ours && listing[i].body == body && listing[i].commitSha == headSha && listing[i].state == state
  }

  lemma {:induction false} FirstSubmittedAt(listing: seq<Review>, body: string, headSha: Sha)
    ensures match FirstSubmitted(listing, body, headSha)
            case Some(r) =>
              exists i: nat :: ExactAt(listing, i, body, headSha, Commented) && listing[i] == r
                 && forall j: nat :: j < i ==> !ExactAt(listing, j, body, headSha, Commented)
            case None => forall i: nat :: !ExactAt(listing, i, body, headSha, Commented)
  {
    if listing == [] {
    } else {
      var n := |listing| - 1;
      var front := listing[..n];
      FirstSubmittedAt(front, body, headSha);
      assert forall i: nat :: i < n ==>
        (ExactAt(listing, i, body, headSha, Commented) <==> ExactAt(front, i, body, headSha, Commented));
      assert Exact(listing[n], body, headSha) && listing[n].state == Commented <==> ExactAt(listing, n, body, headSha, Commented);
      assert forall i: nat :: ExactAt(listing, i, body, headSha, Commented) ==> i <= n;
    }
  }

  lemma {:induction false} LastDraftAt(listing: seq<Review>, body: string, headSha: Sha)
    ensures match LastDraft(listing, body, headSha)
            case Some(r) =>
              exists i: nat :: ExactAt(listing, i, body, headSha, Pending) && listing[i] == r
                 && forall j: nat :: i < j ==> !ExactAt(listing, j, body, headSha, Pending)
            case None => forall i: nat :: !ExactAt(listing, i, body, headSha, Pending)
  {
    if listing == [] {
    } else {
      var n := |listing| - 1;
      var front := listing[..n];
      LastDraftAt(front, body, headSha);
      assert forall i: nat :: i < n ==>
        (ExactAt(listing, i, body, headSha, Pending) <==> ExactAt(front, i, body, headSha, Pending));
      assert Exact(listing[n], body, headSha) && listing[n].state == Pending <==> ExactAt(listing, n, body, headSha, Pending);
      assert forall i: nat :: ExactAt(listing, i, body, headSha, Pending) ==> i <= n;
    }
  }

  /**
   The search answers the first submitted review of this body and commit. Without one it answers a
   mismatch exactly when the App wrote another review that ends with the marker, or this one in another
   state; else the last draft of it; else nothing.
   */
  lemma LookupMeans(listing: seq<Review>, body: string, headSha: Sha, marker: string)
    ensures var mismatch := exists r ::
              && r in listing && r.ours
              && if r.body == body && r.commitSha == headSha then r.state == OtherReviewState
                 else EndsWith(r.body, "\n\n" + marker);
            match FindIn(listing, body, headSha, marker)
            case Submitted(r) =>
              exists i: nat :: ExactAt(listing, i, body, headSha, Commented) && listing[i] == r
                 && forall j: nat :: j < i ==> !ExactAt(listing, j, body, headSha, Commented)
            case Mismatch => mismatch && forall i: nat :: !ExactAt(listing, i, body, headSha, Commented)
            case Draft(r) =>
              && !mismatch && (forall i: nat :: !ExactAt(listing, i, body, headSha, Commented))
              && exists i: nat :: ExactAt(listing, i, body, headSha, Pending) && listing[i] == r
                    && forall j: nat :: i < j ==> !ExactAt(listing, j, body, headSha, Pending)
            case Absent =>
              !mismatch &&
              forall i: nat, state :: state == Commented || state == Pending ==> !ExactAt(listing, i, body, headSha, state)
  {
    hide ExactAt, FirstSubmitted, LastDraft, EndsWith;
    FirstSubmittedAt(listing, body, headSha);
    LastDraftAt(listing, body, headSha);
  }

  function Page(listing: seq<Review>, page: nat): seq<Review>
    requires page >= 1
  {
    var from := REVIEWS_PER_PAGE * (page - 1);
    if from >= |listing| then []
    else if from + REVIEWS_PER_PAGE >= |listing| then listing[from..]
    else listing[from..from + REVIEWS_PER_PAGE]
  }

  lemma {:induction false} FirstSubmittedIsFirst(listing: seq<Review>, n: nat, body: string, headSha: Sha)
    requires n <= |listing| && FirstSubmitted(listing[..n], body, headSha).Some?
    ensures FirstSubmitted(listing, body, headSha) == FirstSubmitted(listing[..n], body, headSha)
    decreases |listing| - n
  {
    if n < |listing| {
      assert listing[..n + 1][..n] == listing[..n];
      FirstSubmittedIsFirst(listing, n + 1, body, headSha);
    } else {
      assert listing[..n] == listing;
    }
  }

  lemma MismatchStep(listing: seq<Review>, r: Review, body: string, headSha: Sha, marker: string)
    ensures HasMismatch(listing + [r], body, headSha, marker)
       <==> HasMismatch(listing, body, headSha, marker) || IsMismatch(r, body, headSha, marker)
  {
    if HasMismatch(listing, body, headSha, marker) {
      var m :| m in listing && IsMismatch(m, body, headSha, marker);
      assert m in listing + [r];
    }
    assert r in listing + [r];
  }

  lemma NoMismatch(body: string, headSha: Sha, marker: string)
    ensures !HasMismatch([], body, headSha, marker)
  {
  }

  lemma TakeOneMore(listing: seq<Review>, seen: nat)
    requires seen < |listing|
    ensures listing[..seen + 1] == listing[..seen] + [listing[seen]]
    ensures listing[..seen + 1][..seen] == listing[..seen]
  {
  }

  lemma PageIsNext(listing: seq<Review>, page: nat)
    requires page >= 1 && REVIEWS_PER_PAGE * (page - 1) <= |listing|
    ensures var from := REVIEWS_PER_PAGE * (page - 1);
            var reviews := Page(listing, page);
            && from + |reviews| <= |listing| && reviews == listing[from..from + |reviews|]
            && |reviews| <= REVIEWS_PER_PAGE
            && (|reviews| < REVIEWS_PER_PAGE ==> from + |reviews| == |listing|)
  {
  }

  /**
   Page-by-page lookup. It stops at the first submitted match; any other App-authored review that
   carries the marker is a mismatch; otherwise the last exact draft is resumed.
   */
  method FindReview(listing: seq<Review>, body: string, headSha: Sha, marker: string) returns (found: Lookup)
    ensures found == FindIn(listing, body, headSha, marker)
  {
    hide Page, EndsWith, HasMismatch;
    assert !HasMismatch([], body, headSha, marker) by { NoMismatch(body, headSha, marker); }
    var page := 1;
    var mismatched := false;
    var draft: Option<Review> := None;
    ghost var seen := 0;
    while true
      invariant page >= 1 && seen == REVIEWS_PER_PAGE * (page - 1) && seen <= |listing|
      invariant FirstSubmitted(listing[..seen], body, headSha).None?
      invariant mismatched <==> HasMismatch(listing[..seen], body, headSha, marker)
      invariant draft == LastDraft(listing[..seen], body, headSha)
      decreases |listing| - seen
    {
      var reviews := Page(listing, page);
      PageIsNext(listing, page);
      ghost var start := seen;
      for i := 0 to |reviews|
        invariant seen == start + i && start + |reviews| <= |listing|
        invariant reviews == listing[start..start + |reviews|]
        invariant FirstSubmitted(listing[..seen], body, headSha).None?
        invariant mismatched <==> HasMismatch(listing[..seen], body, headSha, marker)
        invariant draft == LastDraft(listing[..seen], body, headSha)
      {
        var review := reviews[i];
        TakeOneMore(listing, seen);
        MismatchStep(listing[..seen], review, body, headSha, marker);
        seen := seen + 1;
        if !review.ours {
          continue;
        }
        if review.body == body && review.commitSha == headSha {
          if review.state == Commented {
            FirstSubmittedIsFirst(listing, seen, body, headSha);
            return Submitted(review);
          }
          if review.state == Pending {
            draft := Some(review);
            continue;
          }
          mismatched := true;
          continue;
        }
        if EndsWith(review.body, BLANK_LINE + marker) {
          mismatched := true;
        }
      }
      if |reviews| < REVIEWS_PER_PAGE {
        assert listing[..seen] == listing;
        break;
      }
      page := page + 1;
    }
    if mismatched {
      return Mismatch;
    }
    if draft.Some? {
      return Draft(draft.value);
    }
    return Absent;
  }

  function WithDraft(reviews: seq<Review>, id: nat, body: string, headSha: Sha): seq<Review> {
    reviews + [Review(id, true, body, headSha, Pending)]
  }

  function WithoutReview(reviews: seq<Review>, id: nat): seq<Review> {
    if reviews == [] then []
    else (if reviews[0].id == id then [] else [reviews[0]]) + WithoutReview(reviews[1..], id)
  }

  function WithSubmitted(reviews: seq<Review>, id: nat): seq<Review> {
    seq(|reviews|, i requires 0 <= i < |reviews| =>
      if reviews[i].id == id then reviews[i].(state := Commented) else reviews[i])
  }
}
