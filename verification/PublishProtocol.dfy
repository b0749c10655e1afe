/**
 Interleaved publish attempts for one idempotency key.

 Each event is one database transaction, one provider request, the death of an attempt, or a step
 of the environment. Any attempt can fail or die after any of its steps, and a retry is a new
 attempt. A provider request takes effect before its claim closes or never, the claim is exclusive,
 a listing is atomic, and nobody else writes a review of the App that ends with this marker.
 */
module PublishProtocol {
  import opened Options
  import opened RunContracts
  import opened ReviewTables
  import opened ReviewPublishing

  /** What never changes while the key is in use. */
  datatype Config = Config(runId: Id, headSha: Sha, marker: string)

  datatype Pc =
    | WaitingForClaim
    | Claimed
    | Searching(prepared: Prepared)
    | CheckingHead(prepared: Prepared)
    | Creating(prepared: Prepared)
    | Resolving(prepared: Prepared, id: nat)
    | Deleting(prepared: Prepared, id: nat)
    | Submitting(prepared: Prepared, id: nat)
    | Recording(prepared: Prepared, id: nat)
    | Blocking
    | Failing

  datatype Attempt = Attempt(request: PublishRequest, pc: Pc)

  datatype State = State(
    run: RunTarget, tables: Tables, action: Option<Action>,
    reviews: seq<Review>, nextId: nat, remoteHead: Sha,
    attempts: map<nat, Attempt>, claim: Option<nat>)

  datatype Event =
    // steps of attempt `a`
    | Begin(a: nat, request: PublishRequest)
    | Acquire(a: nat)
    | Prepare(a: nat)
    | ListReviews(a: nat)
    | ReadHead(a: nat)
    | CreateDraft(a: nat)
    | DeleteDraft(a: nat)
    | SubmitDraft(a: nat)
    | Record(a: nat)
    | RecordUnacknowledged(a: nat)
    | ProviderError(a: nat)
    | Die(a: nat)
    // steps of everybody else
    | MoveRemoteHead(sha: Sha)
    | MoveStoredHead(sha: Sha)
    | ChangeRunState(state: RunState)
    | Decide(finding: Id, approval: Approval)
    | OtherReview(review: Review)

  // ---------------------------------------------------------------- steps

  function SetPc(s: State, a: nat, pc: Pc): State
    requires a in s.attempts
  {
    s.(attempts := s.attempts[a := s.attempts[a].(pc := pc)])
  }

  /** The attempt returns, raises or dies; closing its connection gives the claim back. */
  function End(s: State, a: nat): State {
    s.(attempts := s.attempts - {a}, claim := if s.claim == Some(a) then None else s.claim)
  }

  function StepPrepare(c: Config, s: State, a: nat): State
    requires a in s.attempts
  {
    match PrepareOutcome(s.run, s.tables, s.action, s.attempts[a].request, c.marker)
    case Err(_) => End(s, a)
    case Ok((row, prepared)) =>
      var stored := s.(action := Some(row));
      if prepared.remoteId.Some? then End(stored, a) else SetPc(stored, a, Searching(prepared))
  }

  function StepList(s: State, a: nat, p: Prepared): State
    requires a in s.attempts
  {
    match FindIn(s.reviews, p.body, p.headSha, p.marker)
    case Submitted(review) => SetPc(s, a, Recording(p, review.id))
    case Mismatch => SetPc(s, a, Blocking)
    case Draft(review) => SetPc(s, a, Resolving(p, review.id))
    case Absent => SetPc(s, a, if p.createBlock.Some? then Blocking else CheckingHead(p))
  }

  function StepReadHead(s: State, a: nat, pc: Pc): State
    requires a in s.attempts
  {
    match pc
    case CheckingHead(p) => SetPc(s, a, if s.remoteHead == p.headSha then Creating(p) else Blocking)
    case Resolving(p, id) => SetPc(s, a, if s.remoteHead == p.headSha then Submitting(p, id) else Deleting(p, id))
    case _ => s
  }

  function StepRecord(s: State, a: nat, pc: Pc): State
    requires a in s.attempts
  {
    match pc
    case Recording(p, id) =>
      if IsPreparedRow(s.action, p) then End(s.(action := RecordedSuccess(s.action, p, id)), a) else SetPc(s, a, Failing)
    case Blocking => End(s.(action := RecordedFailure(s.action)), a)
    case Failing => End(s.(action := RecordedFailure(s.action)), a)
    case _ => s
  }

  /** The record commits but its acknowledgement is lost, so the attempt goes on to record a failure. */
  function StepRecordUnacknowledged(s: State, a: nat, pc: Pc): State
    requires a in s.attempts
  {
    match pc
    case Recording(p, id) => SetPc(s.(action := RecordedSuccess(s.action, p, id)), a, Failing)
    case Blocking => SetPc(s.(action := RecordedFailure(s.action)), a, Failing)
    case _ => s
  }

  predicate PastPrepare(pc: Pc) {
    !pc.WaitingForClaim? && !pc.Claimed?
  }

  predicate ByAttempt(e: Event) {
    !e.Begin? && !e.MoveRemoteHead? && !e.MoveStoredHead? && !e.ChangeRunState? && !e.Decide? && !e.OtherReview?
  }

  /** A step of attempt `a`; an event that is not enabled changes nothing. */
  function AttemptStep(c: Config, s: State, e: Event): State
    requires ByAttempt(e) && e.a in s.attempts
  {
    var pc := s.attempts[e.a].pc;
    match e
    case Acquire(a) => if pc.WaitingForClaim? && s.claim.None? then SetPc(s, a, Claimed).(claim := Some(a)) else s
    case Prepare(a) => if pc.Claimed? then StepPrepare(c, s, a) else s
    case ListReviews(a) => if pc.Searching? then StepList(s, a, pc.prepared) else s
    case ReadHead(a) => StepReadHead(s, a, pc)
    case CreateDraft(a) =>
      if pc.Creating? then
        SetPc(s, a, Resolving(pc.prepared, s.nextId)).(
          reviews := WithDraft(s.reviews, s.nextId, pc.prepared.body, pc.prepared.headSha), nextId := s.nextId + 1)
      else s
    case DeleteDraft(a) =>
      if pc.Deleting? then SetPc(s, a, Blocking).(reviews := WithoutReview(s.reviews, pc.id)) else s
    case SubmitDraft(a) =>
      if pc.Submitting? then
        SetPc(s, a, Recording(pc.prepared, pc.id)).(reviews := WithSubmitted(s.reviews, pc.id))
      else s
    case Record(a) => StepRecord(s, a, pc)
    case RecordUnacknowledged(a) => StepRecordUnacknowledged(s, a, pc)
    case ProviderError(a) => if PastPrepare(pc) then SetPc(s, a, Failing) else s
    case Die(a) => End(s, a)
  }

  function Step(c: Config, s: State, e: Event): State {
    match e
    case Begin(a, request) =>
      if a !in s.attempts && ShapeError(request).None? && request.runId == c.runId && request.headSha == c.headSha
      then s.(attempts := s.attempts[a := Attempt(request, WaitingForClaim)])
      else s
    case MoveRemoteHead(sha) => s.(remoteHead := sha)
    case MoveStoredHead(sha) => s.(run := s.run.(currentHeadSha := sha))
    case ChangeRunState(state) => s.(run := s.run.(state := state))
    case Decide(finding, approval) =>
      if finding in s.tables.approvals then s
      else s.(tables := s.tables.(approvals := s.tables.approvals[finding := approval]))
    case OtherReview(review) =>
      if Marked(review, c.marker) then s
      else s.(reviews := s.reviews + [review.(id := s.nextId)], nextId := s.nextId + 1)
    case _ => if e.a in s.attempts then AttemptStep(c, s, e) else s
  }

  function Exec(c: Config, s: State, events: seq<Event>): State {
    if events == [] then s
    else Step(c, Exec(c, s, events[..|events| - 1]), events[|events| - 1])
  }

  // ---------------------------------------------------------------- invariant

  ghost predicate Init(c: Config, s: State) {
    && s.run.runId == c.runId
    && s.action.None?
    && s.attempts == map[]
    && s.claim.None?
    && (forall r :: r in s.reviews ==> !Marked(r, c.marker) && r.id < s.nextId)
    && DistinctIds(s.reviews)
  }

  ghost predicate DistinctIds(reviews: seq<Review>) {
    forall i, j :: 0 <= i < j < |reviews| ==> reviews[i].id != reviews[j].id
  }

  /** At most one review carries the marker. */
  ghost predicate OneMarked(c: Config, reviews: seq<Review>) {
    forall i, j :: 0 <= i < j < |reviews| ==> !(Marked(reviews[i], c.marker) && Marked(reviews[j], c.marker))
  }

  ghost predicate NoneMarked(c: Config, reviews: seq<Review>) {
    forall r :: r in reviews ==> !Marked(r, c.marker)
  }

  ghost predicate HasMarked(c: Config, reviews: seq<Review>, id: nat, state: ReviewState) {
    exists r :: r in reviews && r.id == id && r.state == state && Marked(r, c.marker)
  }

  ghost predicate ReviewsOk(c: Config, s: State) {
    && DistinctIds(s.reviews)
    && OneMarked(c, s.reviews)
    && (forall r :: r in s.reviews ==> r.id < s.nextId)
    && (forall r :: r in s.reviews && Marked(r, c.marker) ==>
          && s.action.Some?
          && r.body == s.action.value.fingerprint.body
          && r.commitSha == c.headSha
          && r.state != OtherReviewState)
  }

  ghost predicate ActionOk(c: Config, s: State) {
    s.action.Some? ==>
      var action := s.action.value;
      && action.targetSha == c.headSha && action.runId == c.runId && action.actionType == REVIEW_ACTION
      && Authorizes(s.tables, c.headSha, c.marker, action.fingerprint)
      && (action.status == ActionPublished ==> action.remoteId.Some?)
      && (action.remoteId.Some? ==> HasMarked(c, s.reviews, action.remoteId.value, Commented))
  }

  ghost predicate ClaimOk(c: Config, s: State) {
    && s.run.runId == c.runId
    && (forall a :: a in s.attempts ==>
          && s.attempts[a].request.runId == c.runId && s.attempts[a].request.headSha == c.headSha
          && (s.claim == Some(a) <==> !s.attempts[a].pc.WaitingForClaim?))
    && (s.claim.Some? ==> s.claim.value in s.attempts)
  }

  ghost predicate PreparedOk(c: Config, s: State, p: Prepared) {
    && s.action.Some?
    && p.fingerprint == s.action.value.fingerprint
    && p.body == p.fingerprint.body
    && p.headSha == c.headSha
    && p.marker == c.marker
    && p.remoteId.None?
  }

  ghost predicate PcOk(c: Config, s: State, pc: Pc) {
    && (PastPrepare(pc) ==> s.action.Some? && (s.action.value.status != ActionPublished || pc.Failing?))
    && match pc
       case Searching(p) => PreparedOk(c, s, p)
       case CheckingHead(p) => PreparedOk(c, s, p) && NoneMarked(c, s.reviews)
       case Creating(p) => PreparedOk(c, s, p) && NoneMarked(c, s.reviews)
       case Resolving(p, id) => PreparedOk(c, s, p) && HasMarked(c, s.reviews, id, Pending)
       case Deleting(p, id) => PreparedOk(c, s, p) && HasMarked(c, s.reviews, id, Pending)
       case Submitting(p, id) => PreparedOk(c, s, p) && HasMarked(c, s.reviews, id, Pending)
       case Recording(p, id) => PreparedOk(c, s, p) && HasMarked(c, s.reviews, id, Commented)
       case _ => true
  }

  ghost predicate Inv(c: Config, s: State) {
    && ReviewsOk(c, s)
    && ActionOk(c, s)
    && ClaimOk(c, s)
    && forall a :: a in s.attempts ==> PcOk(c, s, s.attempts[a].pc)
  }

  // ---------------------------------------------------------------- facts about the review list

  lemma AuthorizedBodyIsMarked(c: Config, tables: Tables, payload: Fingerprint)
    requires Authorizes(tables, c.headSha, c.marker, payload)
    ensures EndsWith(payload.body, BLANK_LINE + c.marker)
  {
    var rows: seq<Row> :| payload.body == ReviewBody(rows, c.marker);
    BodyEndsWithMarker(rows, c.marker);
  }

  lemma {:induction false} WithoutReviewKeeps(reviews: seq<Review>, id: nat)
    requires DistinctIds(reviews)
    ensures forall r :: r in WithoutReview(reviews, id) <==> r in reviews && r.id != id
    ensures DistinctIds(WithoutReview(reviews, id))
  {
    if reviews == [] {
    } else {
      WithoutReviewKeeps(reviews[1..], id);
      assert reviews == [reviews[0]] + reviews[1..];
    }
  }

  lemma MarkedIsUnique(c: Config, reviews: seq<Review>, r: Review, q: Review)
    requires OneMarked(c, reviews)
    requires r in reviews && q in reviews && Marked(r, c.marker) && Marked(q, c.marker)
    ensures r == q
  {
    var i :| 0 <= i < |reviews| && reviews[i] == r;
    var j :| 0 <= j < |reviews| && reviews[j] == q;
    assert i == j;
  }

  lemma LastIsIn(listing: seq<Review>)
    requires listing != []
    ensures forall r :: r in listing <==> r in listing[..|listing| - 1] || r == listing[|listing| - 1]
  {
    assert listing == listing[..|listing| - 1] + [listing[|listing| - 1]];
  }

  lemma {:induction false} FirstSubmittedMeans(listing: seq<Review>, body: string, headSha: Sha)
    ensures var first := FirstSubmitted(listing, body, headSha);
            if first.Some? then first.value in listing && Exact(first.value, body, headSha) && first.value.state == Commented
            else forall r :: r in listing && Exact(r, body, headSha) ==> r.state != Commented
  {
    hide Exact;
    if listing == [] {
      assert FirstSubmitted(listing, body, headSha).None?;
    } else {
      FirstSubmittedMeans(listing[..|listing| - 1], body, headSha);
      LastIsIn(listing);
    }
  }

  lemma {:induction false} LastDraftMeans(listing: seq<Review>, body: string, headSha: Sha)
    ensures var draft := LastDraft(listing, body, headSha);
            if draft.Some? then draft.value in listing && Exact(draft.value, body, headSha) && draft.value.state == Pending
            else forall r :: r in listing && Exact(r, body, headSha) ==> r.state != Pending
  {
    hide Exact;
    if listing == [] {
      assert LastDraft(listing, body, headSha).None?;
    } else {
      LastDraftMeans(listing[..|listing| - 1], body, headSha);
      LastIsIn(listing);
    }
  }

  /** With the invariant, a lookup finds the marked review in whatever state it is, or there is none. */
  lemma LookupFindsMarked(c: Config, s: State, p: Prepared)
    requires Inv(c, s) && PreparedOk(c, s, p)
    ensures match FindIn(s.reviews, p.body, p.headSha, p.marker)
            case Submitted(r) => HasMarked(c, s.reviews, r.id, Commented)
            case Draft(r) => HasMarked(c, s.reviews, r.id, Pending)
            case Mismatch => false
            case Absent => NoneMarked(c, s.reviews)
  {
    hide PrepareOutcome;
    AuthorizedBodyIsMarked(c, s.tables, p.fingerprint);
    FirstSubmittedMeans(s.reviews, p.body, p.headSha);
    LastDraftMeans(s.reviews, p.body, p.headSha);
    forall r | r in s.reviews
      ensures Exact(r, p.body, p.headSha) <==> Marked(r, c.marker)
    {
    }
    assert !HasMismatch(s.reviews, p.body, p.headSha, p.marker);
  }

  // ---------------------------------------------------------------- every step keeps the invariant

  /** Only the claim holder is past waiting, so nobody else depends on what it changes. */
  lemma OthersWait(c: Config, s: State, a: nat)
    requires ClaimOk(c, s) && a in s.attempts && !s.attempts[a].pc.WaitingForClaim?
    ensures s.claim == Some(a)
    ensures forall b :: b in s.attempts && b != a ==> s.attempts[b].pc.WaitingForClaim?
  {
    hide Marked, PrepareOutcome, Authorizes;
  }

  lemma InvEnd(c: Config, s: State, a: nat)
    requires ReviewsOk(c, s) && ActionOk(c, s) && ClaimOk(c, s) && a in s.attempts
    requires forall b :: b in s.attempts && b != a ==> PcOk(c, s, s.attempts[b].pc)
    ensures Inv(c, End(s, a))
  {
    hide Marked, PrepareOutcome, Authorizes;
  }

  /** Moving only the claim holder's program counter. */
  lemma InvSetPc(c: Config, s: State, a: nat, pc: Pc)
    requires ReviewsOk(c, s) && ActionOk(c, s) && ClaimOk(c, s) && s.claim == Some(a) && a in s.attempts
    requires !pc.WaitingForClaim? && PcOk(c, s, pc)
    ensures Inv(c, SetPc(s, a, pc))
  {
    hide Marked, PrepareOutcome, Authorizes;
    OthersWait(c, s, a);
  }

  /** Storing the row that `_prepare` returned. */
  lemma InvStored(c: Config, s: State, a: nat, row: Action, prepared: Prepared)
    requires Inv(c, s) && a in s.attempts && s.attempts[a].pc.Claimed?
    requires Authorizes(s.tables, c.headSha, c.marker, row.fingerprint)
    requires row.targetSha == c.headSha && row.runId == c.runId && row.actionType == REVIEW_ACTION
    requires s.action.Some? ==> row == s.action.value.(status := row.status)
    requires s.action.None? ==> row.remoteId.None?
    requires row.status == ActionPublished ==> row.remoteId.Some?
    requires prepared.remoteId.None? ==> PreparedOk(c, s.(action := Some(row)), prepared) && row.status != ActionPublished
    ensures var stored := s.(action := Some(row));
            Inv(c, if prepared.remoteId.Some? then End(stored, a) else SetPc(stored, a, Searching(prepared)))
  {
    hide Marked, PrepareOutcome, Authorizes;
    var stored := s.(action := Some(row));
    OthersWait(c, s, a);
    assert ReviewsOk(c, stored) && ActionOk(c, stored) && ClaimOk(c, stored);
    if prepared.remoteId.Some? {
      InvEnd(c, stored, a);
    } else {
      InvSetPc(c, stored, a, Searching(prepared));
    }
  }

  lemma InvPrepare(c: Config, s: State, a: nat)
    requires Inv(c, s) && a in s.attempts && s.attempts[a].pc.Claimed?
    ensures Inv(c, StepPrepare(c, s, a))
  {
    hide Marked, PrepareOutcome, Authorizes;
    var request := s.attempts[a].request;
    var outcome := PrepareOutcome(s.run, s.tables, s.action, request, c.marker);
    if outcome.Ok? {
      PreparedIsAuthorized(s.run, s.tables, s.action, request, c.marker);
      var (row, prepared) := outcome.value;
      InvStored(c, s, a, row, prepared);
    } else {
      OthersWait(c, s, a);
      InvEnd(c, s, a);
    }
  }

  lemma InvList(c: Config, s: State, a: nat)
    requires Inv(c, s) && a in s.attempts && s.attempts[a].pc.Searching?
    ensures Inv(c, StepList(s, a, s.attempts[a].pc.prepared))
  {
    hide Marked, PrepareOutcome, Authorizes, FindIn;
    var p := s.attempts[a].pc.prepared;
    LookupFindsMarked(c, s, p);
    match FindIn(s.reviews, p.body, p.headSha, p.marker) {
      case Submitted(review) => InvSetPc(c, s, a, Recording(p, review.id));
      case Mismatch =>
      case Draft(review) => InvSetPc(c, s, a, Resolving(p, review.id));
      case Absent => InvSetPc(c, s, a, if p.createBlock.Some? then Blocking else CheckingHead(p));
    }
  }

  lemma InvReadHead(c: Config, s: State, a: nat)
    requires Inv(c, s) && a in s.attempts
    ensures Inv(c, StepReadHead(s, a, s.attempts[a].pc))
  {
    hide Marked, PrepareOutcome, Authorizes;
    match s.attempts[a].pc {
      case CheckingHead(p) => InvSetPc(c, s, a, if s.remoteHead == p.headSha then Creating(p) else Blocking);
      case Resolving(p, id) =>
        InvSetPc(c, s, a, if s.remoteHead == p.headSha then Submitting(p, id) else Deleting(p, id));
      case _ =>
    }
  }

  lemma SubmittedIsNoDraft(c: Config, reviews: seq<Review>, id: nat)
    requires OneMarked(c, reviews) && HasMarked(c, reviews, id, Commented)
    ensures !NoneMarked(c, reviews)
    ensures forall draft :: !HasMarked(c, reviews, draft, Pending)
  {
    hide Marked;
    var r :| r in reviews && r.id == id && r.state == Commented && Marked(r, c.marker);
    forall q | q in reviews && Marked(q, c.marker)
      ensures q == r
    {
      MarkedIsUnique(c, reviews, r, q);
    }
  }

  /** A stored identity names a submitted review, so then there is no draft to create, delete or submit. */
  lemma NoDraftOnceStored(c: Config, s: State, id: nat)
    requires ReviewsOk(c, s) && ActionOk(c, s) && s.action.Some?
    requires NoneMarked(c, s.reviews) || HasMarked(c, s.reviews, id, Pending)
    ensures s.action.value.remoteId.None?
  {
    hide NoneMarked, HasMarked, Authorizes;
    if s.action.value.remoteId.Some? {
      SubmittedIsNoDraft(c, s.reviews, s.action.value.remoteId.value);
    }
  }

  lemma InvCreate(c: Config, s: State, a: nat)
    requires Inv(c, s) && a in s.attempts && s.attempts[a].pc.Creating?
    ensures Inv(c, AttemptStep(c, s, CreateDraft(a)))
  {
    hide PrepareOutcome, Authorizes;
    var p := s.attempts[a].pc.prepared;
    OthersWait(c, s, a);
    AuthorizedBodyIsMarked(c, s.tables, p.fingerprint);
    var draft := Review(s.nextId, true, p.body, p.headSha, Pending);
    var t := AttemptStep(c, s, CreateDraft(a));
    assert t.reviews == s.reviews + [draft] && Marked(draft, c.marker);
    assert draft in t.reviews;
    NoDraftOnceStored(c, s, s.nextId);
  }

  lemma InvDelete(c: Config, s: State, a: nat)
    requires Inv(c, s) && a in s.attempts && s.attempts[a].pc.Deleting?
    ensures Inv(c, AttemptStep(c, s, DeleteDraft(a)))
    ensures NoneMarked(c, AttemptStep(c, s, DeleteDraft(a)).reviews)
  {
    hide Marked, PrepareOutcome, Authorizes;
    var id := s.attempts[a].pc.id;
    OthersWait(c, s, a);
    NoDraftOnceStored(c, s, id);
    WithoutReviewKeeps(s.reviews, id);
    var draft :| draft in s.reviews && draft.id == id && Marked(draft, c.marker);
    forall r | r in WithoutReview(s.reviews, id)
      ensures !Marked(r, c.marker)
    {
      if Marked(r, c.marker) {
        MarkedIsUnique(c, s.reviews, r, draft);
      }
    }
  }

  lemma SubmitKeepsReviews(c: Config, s: State, id: nat)
    requires ReviewsOk(c, s) && HasMarked(c, s.reviews, id, Pending)
    ensures ReviewsOk(c, s.(reviews := WithSubmitted(s.reviews, id)))
    ensures HasMarked(c, WithSubmitted(s.reviews, id), id, Commented)
  {
    hide PrepareOutcome, Authorizes;
    var after := WithSubmitted(s.reviews, id);
    var draft :| draft in s.reviews && draft.id == id && Marked(draft, c.marker);
    var k :| 0 <= k < |s.reviews| && s.reviews[k] == draft;
    assert after[k] == draft.(state := Commented) && Marked(after[k], c.marker);
    assert after[k] in after;
    forall i | 0 <= i < |after|
      ensures after[i].id == s.reviews[i].id && Marked(after[i], c.marker) == Marked(s.reviews[i], c.marker)
    {
    }
    forall r | r in after && Marked(r, c.marker)
      ensures r.body == s.action.value.fingerprint.body && r.commitSha == c.headSha && r.state != OtherReviewState
    {
      var i :| 0 <= i < |after| && after[i] == r;
      assert s.reviews[i] in s.reviews;
    }
  }

  lemma InvSubmit(c: Config, s: State, a: nat)
    requires Inv(c, s) && a in s.attempts && s.attempts[a].pc.Submitting?
    ensures Inv(c, AttemptStep(c, s, SubmitDraft(a)))
  {
    hide Marked, PrepareOutcome, Authorizes;
    var Submitting(p, id) := s.attempts[a].pc;
    SubmitKeepsReviews(c, s, id);
    var submitted := s.(reviews := WithSubmitted(s.reviews, id));
    NoDraftOnceStored(c, s, id);
    InvSetPc(c, submitted, a, Recording(p, id));
    assert AttemptStep(c, s, SubmitDraft(a)) == SetPc(submitted, a, Recording(p, id));
  }

  lemma InvRecord(c: Config, s: State, a: nat)
    requires Inv(c, s) && a in s.attempts
    ensures Inv(c, StepRecord(s, a, s.attempts[a].pc))
  {
    hide Marked, PrepareOutcome, Authorizes;
    var pc := s.attempts[a].pc;
    if pc.Recording? || pc.Blocking? || pc.Failing? {
      OthersWait(c, s, a);
      var row := if pc.Recording? then RecordedSuccess(s.action, pc.prepared, pc.id) else RecordedFailure(s.action);
      var stored := s.(action := row);
      assert ReviewsOk(c, stored) && ActionOk(c, stored) && ClaimOk(c, stored);
      InvEnd(c, stored, a);
    }
  }

  lemma InvRecordUnacknowledged(c: Config, s: State, a: nat)
    requires Inv(c, s) && a in s.attempts
    ensures Inv(c, StepRecordUnacknowledged(s, a, s.attempts[a].pc))
  {
    hide Marked, PrepareOutcome, Authorizes;
    var pc := s.attempts[a].pc;
    if pc.Recording? || pc.Blocking? {
      OthersWait(c, s, a);
      var stored := s.(action := if pc.Recording? then RecordedSuccess(s.action, pc.prepared, pc.id) else RecordedFailure(s.action));
      assert ReviewsOk(c, stored) && ActionOk(c, stored) && ClaimOk(c, stored);
      InvSetPc(c, stored, a, Failing);
    }
  }

  lemma UnmarkedChangesNothing(c: Config, reviews: seq<Review>, other: Review)
    requires !Marked(other, c.marker)
    ensures forall id, state :: HasMarked(c, reviews, id, state) ==> HasMarked(c, reviews + [other], id, state)
    ensures NoneMarked(c, reviews) ==> NoneMarked(c, reviews + [other])
    ensures OneMarked(c, reviews) ==> OneMarked(c, reviews + [other])
    ensures DistinctIds(reviews) && (forall r :: r in reviews ==> r.id != other.id) ==> DistinctIds(reviews + [other])
  {
    hide Marked;
    forall id, state | HasMarked(c, reviews, id, state)
      ensures HasMarked(c, reviews + [other], id, state)
    {
      var r :| r in reviews && r.id == id && r.state == state && Marked(r, c.marker);
      assert r in reviews + [other];
    }
  }

  lemma PcWithOther(c: Config, s: State, other: Review, pc: Pc)
    requires PcOk(c, s, pc) && !Marked(other, c.marker)
    ensures PcOk(c, s.(reviews := s.reviews + [other], nextId := s.nextId + 1), pc)
  {
    hide Marked, Authorizes, HasMarked, NoneMarked;
    UnmarkedChangesNothing(c, s.reviews, other);
  }

  lemma ReviewsWithOther(c: Config, s: State, other: Review)
    requires ReviewsOk(c, s) && other.id == s.nextId && !Marked(other, c.marker)
    ensures ReviewsOk(c, s.(reviews := s.reviews + [other], nextId := s.nextId + 1))
  {
    hide Marked, OneMarked, DistinctIds;
    UnmarkedChangesNothing(c, s.reviews, other);
  }

  lemma InvOtherReview(c: Config, s: State, review: Review)
    requires Inv(c, s) && !Marked(review, c.marker)
    ensures Inv(c, Step(c, s, OtherReview(review)))
  {
    var other := review.(id := s.nextId);
    assert !Marked(other, c.marker);
    hide Marked, Authorizes, HasMarked, ReviewsOk, PcOk;
    var t := Step(c, s, OtherReview(review));
    assert t == s.(reviews := s.reviews + [other], nextId := s.nextId + 1);
    UnmarkedChangesNothing(c, s.reviews, other);
    ReviewsWithOther(c, s, other);
    forall a | a in t.attempts
      ensures PcOk(c, t, t.attempts[a].pc)
    {
      PcWithOther(c, s, other, s.attempts[a].pc);
    }
  }

  /** Decisions are never changed, so what was authorized once stays authorized. */
  lemma AuthorizationLasts(c: Config, tables: Tables, later: Tables, payload: Fingerprint)
    requires Authorizes(tables, c.headSha, c.marker, payload) && tables.ExtendedBy(later)
    ensures Authorizes(later, c.headSha, c.marker, payload)
  {
  }

  lemma InvDecide(c: Config, s: State, finding: Id, approval: Approval)
    requires Inv(c, s)
    ensures Inv(c, Step(c, s, Decide(finding, approval)))
  {
    hide Marked, PrepareOutcome, Authorizes;
    if s.action.Some? {
      var t := Step(c, s, Decide(finding, approval));
      AuthorizationLasts(c, s.tables, t.tables, s.action.value.fingerprint);
    }
  }

  lemma InvRemoteStep(c: Config, s: State, e: Event)
    requires e.CreateDraft? || e.DeleteDraft? || e.SubmitDraft?
    requires Inv(c, s) && e.a in s.attempts
    ensures Inv(c, AttemptStep(c, s, e))
  {
    hide Marked, PrepareOutcome, Authorizes, ReviewsOk, ActionOk;
    var pc := s.attempts[e.a].pc;
    match e {
      case CreateDraft(a) => if pc.Creating? { InvCreate(c, s, a); }
      case DeleteDraft(a) => if pc.Deleting? { InvDelete(c, s, a); }
      case SubmitDraft(a) => if pc.Submitting? { InvSubmit(c, s, a); }
    }
  }

  lemma InvAttemptStep(c: Config, s: State, e: Event)
    requires ByAttempt(e) && Inv(c, s) && e.a in s.attempts
    ensures Inv(c, AttemptStep(c, s, e))
  {
    hide Marked, PrepareOutcome, Authorizes, ReviewsOk, ActionOk;
    var pc := s.attempts[e.a].pc;
    if e.CreateDraft? || e.DeleteDraft? || e.SubmitDraft? {
      InvRemoteStep(c, s, e);
    } else if e.Prepare? {
      if pc.Claimed? { InvPrepare(c, s, e.a); }
    } else if e.ListReviews? {
      if pc.Searching? { InvList(c, s, e.a); }
    } else if e.ReadHead? {
      InvReadHead(c, s, e.a);
    } else if e.Record? {
      InvRecord(c, s, e.a);
    } else if e.RecordUnacknowledged? {
      InvRecordUnacknowledged(c, s, e.a);
    } else if e.Die? {
      InvEnd(c, s, e.a);
    } else if e.ProviderError? {
      if PastPrepare(pc) { InvSetPc(c, s, e.a, Failing); }
    } else if pc.WaitingForClaim? && s.claim.None? {
      InvAcquire(c, s, e.a);
    }
  }

  lemma InvAcquire(c: Config, s: State, a: nat)
    requires Inv(c, s) && a in s.attempts && s.attempts[a].pc.WaitingForClaim? && s.claim.None?
    ensures Inv(c, SetPc(s, a, Claimed).(claim := Some(a)))
  {
    hide Marked, PrepareOutcome, Authorizes;
  }

  lemma InvBegin(c: Config, s: State, a: nat, request: PublishRequest)
    requires Inv(c, s) && a !in s.attempts && request.runId == c.runId && request.headSha == c.headSha
    ensures Inv(c, s.(attempts := s.attempts[a := Attempt(request, WaitingForClaim)]))
  {
    hide Marked, PrepareOutcome, Authorizes, HasMarked, NoneMarked;
  }

  /** The invariant does not depend on the heads and the state of the run. */
  lemma InvElsewhere(c: Config, s: State, t: State)
    requires Inv(c, s) && t.run.runId == s.run.runId
    requires t.tables == s.tables && t.action == s.action && t.reviews == s.reviews && t.nextId == s.nextId
    requires t.attempts == s.attempts && t.claim == s.claim
    ensures Inv(c, t)
  {
    hide Marked, PrepareOutcome, Authorizes, HasMarked, NoneMarked;
  }

  lemma InvEnvironment(c: Config, s: State, e: Event)
    requires e.Begin? || e.MoveRemoteHead? || e.MoveStoredHead? || e.ChangeRunState?
    requires Inv(c, s)
    ensures Inv(c, Step(c, s, e))
  {
    hide Inv, ShapeError;
    if e.Begin? {
      if e.a !in s.attempts && ShapeError(e.request).None? && e.request.runId == c.runId && e.request.headSha == c.headSha {
        InvBegin(c, s, e.a, e.request);
      }
    } else {
      InvElsewhere(c, s, Step(c, s, e));
    }
  }

  lemma InvStep(c: Config, s: State, e: Event)
    requires Inv(c, s)
    ensures Inv(c, Step(c, s, e))
  {
    hide Marked, PrepareOutcome, Authorizes, ReviewsOk, ActionOk, ClaimOk, PcOk;
    if e.OtherReview? {
      if !Marked(e.review, c.marker) { InvOtherReview(c, s, e.review); }
    } else if e.Decide? {
      InvDecide(c, s, e.finding, e.approval);
    } else if !ByAttempt(e) {
      InvEnvironment(c, s, e);
    } else if e.a in s.attempts {
      InvAttemptStep(c, s, e);
    }
  }

  lemma {:induction false} InvExec(c: Config, s: State, events: seq<Event>)
    requires Init(c, s)
    ensures Inv(c, Exec(c, s, events))
  {
    if events == [] {
    } else {
      InvExec(c, s, events[..|events| - 1]);
      InvStep(c, Exec(c, s, events[..|events| - 1]), events[|events| - 1]);
    }
  }

  /** The invariant holds along every run, also from a state in the middle of one. */
  lemma {:induction false} InvRun(c: Config, s: State, events: seq<Event>)
    requires Inv(c, s)
    ensures Inv(c, Exec(c, s, events))
  {
    if events == [] {
      assert Exec(c, s, events) == s;
    } else {
      hide Step, Inv;
      InvRun(c, s, events[..|events| - 1]);
      InvStep(c, Exec(c, s, events[..|events| - 1]), events[|events| - 1]);
    }
  }

  lemma ExecAppend(c: Config, s: State, first: seq<Event>, e: Event)
    ensures Exec(c, s, first + [e]) == Step(c, Exec(c, s, first), e)
  {
    assert (first + [e])[..|first|] == first;
  }

  // ---------------------------------------------------------------- main results, over every run

  /**
   At most one review for the key is ever submitted, and a stored remote id is that review's id.
   (Even drafts and submitted reviews together are at most one.)
   */
  lemma AtMostOneReview(c: Config, s: State, events: seq<Event>)
    requires Init(c, s)
    ensures var t := Exec(c, s, events);
            && (forall r, q :: r in t.reviews && q in t.reviews && Marked(r, c.marker) && Marked(q, c.marker) ==> r == q)
            && (t.action.Some? && t.action.value.remoteId.Some? ==>
                  exists r :: r in t.reviews && Marked(r, c.marker) && r.state == Commented
                              && r.id == t.action.value.remoteId.value)
  {
    hide Step, Exec, Marked, PrepareOutcome;
    InvExec(c, s, events);
    var t := Exec(c, s, events);
    forall r, q | r in t.reviews && q in t.reviews && Marked(r, c.marker) && Marked(q, c.marker)
      ensures r == q
    {
      MarkedIsUnique(c, t.reviews, r, q);
    }
  }

  /** The submitted review carries exactly the approved findings, each with its own approval on this head. */
  lemma SubmittedIsAuthorized(c: Config, s: State, events: seq<Event>, r: Review)
    requires Init(c, s)
    requires r in Exec(c, s, events).reviews && Marked(r, c.marker)
    ensures var t := Exec(c, s, events);
            && t.action.Some?
            && r.commitSha == c.headSha
            && r.body == t.action.value.fingerprint.body
            && Authorizes(t.tables, c.headSha, c.marker, t.action.value.fingerprint)
  {
    hide Step, Exec;
    InvExec(c, s, events);
  }

  lemma AdditionSpares(c: Config, reviews: seq<Review>, id: nat, other: Review)
    requires HasMarked(c, reviews, id, Commented)
    ensures HasMarked(c, reviews + [other], id, Commented)
  {
    hide Marked;
    var r :| r in reviews && r.id == id && r.state == Commented && Marked(r, c.marker);
    assert r in reviews + [other];
  }

  /** Which steps change the reviews, and how. */
  lemma ReviewsChangeBy(c: Config, s: State, e: Event)
    ensures var before, after := s.reviews, Step(c, s, e).reviews;
            || after == before
            || (exists other :: after == before + [other])
            || (e.DeleteDraft? && e.a in s.attempts && s.attempts[e.a].pc.Deleting?
                && after == WithoutReview(before, s.attempts[e.a].pc.id))
            || (e.SubmitDraft? && e.a in s.attempts && s.attempts[e.a].pc.Submitting?
                && after == WithSubmitted(before, s.attempts[e.a].pc.id))
  {
    hide Marked, PrepareOutcome, FindIn, ShapeError, WithoutReview, WithSubmitted;
  }

  /** While a submitted review exists nobody holds a draft, so only other reviews are added. */
  lemma SubmittedStays(c: Config, s: State, e: Event, id: nat)
    requires Inv(c, s) && HasMarked(c, s.reviews, id, Commented)
    ensures HasMarked(c, Step(c, s, e).reviews, id, Commented)
  {
    hide Step, HasMarked, Authorizes, ActionOk, ClaimOk;
    SubmittedIsNoDraft(c, s.reviews, id);
    ReviewsChangeBy(c, s, e);
    if other :| Step(c, s, e).reviews == s.reviews + [other] {
      AdditionSpares(c, s.reviews, id, other);
    }
  }

  /** Once submitted, the review stays: "at most one now" is "at most one ever". */
  lemma {:induction false} SubmittedForever(c: Config, s: State, events: seq<Event>, n: nat, id: nat)
    requires Init(c, s) && n <= |events|
    requires HasMarked(c, Exec(c, s, events[..n]).reviews, id, Commented)
    ensures HasMarked(c, Exec(c, s, events).reviews, id, Commented)
    decreases |events| - n
  {
    hide Step, Inv, HasMarked;
    if n == |events| {
      assert events[..n] == events;
    } else {
      InvExec(c, s, events[..n]);
      SubmittedStays(c, Exec(c, s, events[..n]), events[n], id);
      ExecAppend(c, s, events[..n], events[n]);
      assert events[..n] + [events[n]] == events[..n + 1];
      SubmittedForever(c, s, events, n + 1, id);
    }
  }

  ghost predicate AtSubmission(s: State, a: nat) {
    a in s.attempts && s.attempts[a].pc.Submitting?
  }

  /** At event `j` attempt `a` read a remote head equal to the bound commit and has only waited since. */
  ghost predicate HeadReadAt(c: Config, s: State, events: seq<Event>, a: nat, j: nat) {
    && j < |events| && events[j] == ReadHead(a)
    && Exec(c, s, events[..j]).remoteHead == c.headSha
    && !AtSubmission(Exec(c, s, events[..j]), a)
    && forall k :: j < k <= |events| ==> AtSubmission(Exec(c, s, events[..k]), a)
  }

  lemma OnlyHeadReadEnables(c: Config, s: State, e: Event, a: nat)
    requires Inv(c, s) && AtSubmission(Step(c, s, e), a) && !AtSubmission(s, a)
    ensures e == ReadHead(a) && s.remoteHead == c.headSha
  {
    hide AttemptStep, PcOk, ReviewsOk, ActionOk, ClaimOk, ShapeError, Marked;
    if ByAttempt(e) && e.a in s.attempts {
      HeadReadOfAttempt(c, s, e, a);
    }
  }

  lemma HeadReadOfAttempt(c: Config, s: State, e: Event, a: nat)
    requires ByAttempt(e) && e.a in s.attempts && PcOk(c, s, s.attempts[e.a].pc)
    requires AtSubmission(AttemptStep(c, s, e), a) && !AtSubmission(s, a)
    ensures e == ReadHead(a) && s.remoteHead == c.headSha
  {
    hide PrepareOutcome, FindIn, Authorizes, HasMarked, NoneMarked, WithDraft, WithoutReview, WithSubmitted,
      RecordedSuccess, RecordedFailure;
  }

  lemma HeadReadExtends(c: Config, s: State, events: seq<Event>, e: Event, a: nat, j: nat)
    requires HeadReadAt(c, s, events, a, j) && AtSubmission(Exec(c, s, events + [e]), a)
    ensures HeadReadAt(c, s, events + [e], a, j)
  {
    var longer := events + [e];
    assert longer[..j] == events[..j];
    forall k | j < k <= |longer|
      ensures AtSubmission(Exec(c, s, longer[..k]), a)
    {
      if k <= |events| {
        assert longer[..k] == events[..k];
      } else {
        assert longer[..k] == longer;
      }
    }
  }

  lemma HeadReadStarts(c: Config, s: State, events: seq<Event>, e: Event, a: nat)
    requires Init(c, s)
    requires !AtSubmission(Exec(c, s, events), a) && AtSubmission(Exec(c, s, events + [e]), a)
    ensures HeadReadAt(c, s, events + [e], a, |events|)
  {
    hide Step, Inv;
    var longer := events + [e];
    InvExec(c, s, events);
    ExecAppend(c, s, events, e);
    OnlyHeadReadEnables(c, Exec(c, s, events), e, a);
    assert longer[..|events|] == events && longer[..|longer|] == longer;
  }

  /** Every submission follows a head read of the same attempt that equalled the bound commit. */
  lemma {:induction false} SubmitFollowsHeadRead(c: Config, s: State, events: seq<Event>, a: nat)
    requires Init(c, s) && AtSubmission(Exec(c, s, events), a)
    ensures exists j: nat :: HeadReadAt(c, s, events, a, j)
  {
    if events == [] {
    } else {
      var front, e := events[..|events| - 1], events[|events| - 1];
      assert events == front + [e];
      if AtSubmission(Exec(c, s, front), a) {
        SubmitFollowsHeadRead(c, s, front, a);
        var j: nat :| HeadReadAt(c, s, front, a, j);
        HeadReadExtends(c, s, front, e, a, j);
      } else {
        HeadReadStarts(c, s, front, e, a);
      }
    }
  }

  /** A review is submitted only by the submission step of an attempt that is at its submission. */
  lemma OnlySubmissionPublishes(c: Config, s: State, e: Event, id: nat)
    requires Inv(c, s) && !HasMarked(c, s.reviews, id, Commented)
    requires HasMarked(c, Step(c, s, e).reviews, id, Commented)
    ensures e.SubmitDraft? && AtSubmission(s, e.a)
  {
    hide PrepareOutcome, Authorizes;
    var t := Step(c, s, e);
    var r :| r in t.reviews && r.id == id && r.state == Commented && Marked(r, c.marker);
    if e.DeleteDraft? && e.a in s.attempts && s.attempts[e.a].pc.Deleting? {
      WithoutReviewKeeps(s.reviews, s.attempts[e.a].pc.id);
    }
  }

  // ---------------------------------------------------------------- a moved head

  /** A head that moved after the draft was staged: the draft is deleted, nothing is submitted, the row says failed. */
  lemma MovedHeadDeletesDraft(c: Config, s: State, a: nat, p: Prepared, id: nat)
    requires Inv(c, s) && a in s.attempts && s.attempts[a].pc == Resolving(p, id) && s.remoteHead != c.headSha
    ensures var t := Step(c, Step(c, Step(c, s, ReadHead(a)), DeleteDraft(a)), Record(a));
            && a !in t.attempts && t.claim.None?
            && (forall r :: r in t.reviews <==> r in s.reviews && r.id != id)
            && (forall r :: r in t.reviews ==> !Marked(r, c.marker))
            && t.action.Some? && t.action.value.status == ActionFailed && t.action.value.fingerprint == s.action.value.fingerprint
  {
    hide Marked, Authorizes, WithoutReview;
    WithoutReviewKeeps(s.reviews, id);
    var r :| r in s.reviews && r.id == id && r.state == Pending && Marked(r, c.marker);
    forall q | q in s.reviews && Marked(q, c.marker)
      ensures q.id == id
    {
      MarkedIsUnique(c, s.reviews, q, r);
    }
  }

  /** A head that moved before anything was staged: nothing is written remotely, and the row says failed. */
  lemma MovedHeadStagesNothing(c: Config, s: State, a: nat, p: Prepared)
    requires Inv(c, s) && a in s.attempts && s.attempts[a].pc == CheckingHead(p) && s.remoteHead != c.headSha
    ensures var t := Step(c, Step(c, s, ReadHead(a)), Record(a));
            && a !in t.attempts && t.claim.None? && t.reviews == s.reviews
            && t.action.Some? && t.action.value.status == ActionFailed && t.action.value.fingerprint == s.action.value.fingerprint
  {
    hide Marked, Authorizes, ReviewsOk;
  }

  // ---------------------------------------------------------------- recovery

  /** One attempt left alone; events its program counter does not enable change nothing. */
  function Retry(c: Config, s: State, a: nat, request: PublishRequest): State {
    var claimed := Step(c, Step(c, s, Begin(a, request)), Acquire(a));
    var searched := Step(c, Step(c, claimed, Prepare(a)), ListReviews(a));
    var drafted := Step(c, Step(c, searched, ReadHead(a)), CreateDraft(a));
    var submitted := Step(c, Step(c, drafted, ReadHead(a)), SubmitDraft(a));
    Step(c, submitted, Record(a))
  }

  ghost predicate IsPublished(c: Config, s: State) {
    && s.action.Some? && s.action.value.status == ActionPublished && s.action.value.remoteId.Some?
    && HasMarked(c, s.reviews, s.action.value.remoteId.value, Commented)
  }

  lemma RecordCompletes(c: Config, s: State, a: nat)
    requires Inv(c, s) && a in s.attempts && s.attempts[a].pc.Recording?
    ensures IsPublished(c, Step(c, s, Record(a)))
  {
    hide Marked, PrepareOutcome, Authorizes;
    InvStep(c, s, Record(a));
  }

  lemma SubmitCompletes(c: Config, s: State, a: nat)
    requires Inv(c, s) && a in s.attempts && (s.attempts[a].pc.Submitting? || s.attempts[a].pc.Recording?)
    ensures IsPublished(c, Step(c, Step(c, s, SubmitDraft(a)), Record(a)))
  {
    hide Marked, PrepareOutcome, Authorizes;
    InvStep(c, s, SubmitDraft(a));
    var t := Step(c, s, SubmitDraft(a));
    RecordCompletes(c, t, a);
  }

  lemma ResolveCompletes(c: Config, s: State, a: nat)
    requires Inv(c, s) && a in s.attempts && s.remoteHead == c.headSha
    requires s.attempts[a].pc.Resolving? || s.attempts[a].pc.Submitting? || s.attempts[a].pc.Recording?
    ensures IsPublished(c, Step(c, Step(c, Step(c, s, ReadHead(a)), SubmitDraft(a)), Record(a)))
  {
    hide Marked, PrepareOutcome, Authorizes;
    InvStep(c, s, ReadHead(a));
    var t := Step(c, s, ReadHead(a));
    assert t.attempts[a].pc.Submitting? || t.attempts[a].pc.Recording?;
    SubmitCompletes(c, t, a);
  }

  lemma CreateCompletes(c: Config, s: State, a: nat)
    requires Inv(c, s) && a in s.attempts && s.remoteHead == c.headSha
    requires s.attempts[a].pc.Creating? || s.attempts[a].pc.Submitting? || s.attempts[a].pc.Recording?
    ensures IsPublished(c, Step(c, Step(c, Step(c, Step(c, s, CreateDraft(a)), ReadHead(a)), SubmitDraft(a)), Record(a)))
  {
    hide Marked, PrepareOutcome, Authorizes;
    InvStep(c, s, CreateDraft(a));
    var t := Step(c, s, CreateDraft(a));
    assert t.attempts[a].pc.Resolving? || t.attempts[a].pc.Submitting? || t.attempts[a].pc.Recording?;
    ResolveCompletes(c, t, a);
  }

  /** The lookup and the first head read: whatever was left behind is being recorded, submitted or created. */
  lemma SearchingAdvances(c: Config, s: State, a: nat, p: Prepared)
    requires Inv(c, s) && a in s.attempts && s.attempts[a].pc == Searching(p)
    requires p.createBlock.None? && s.remoteHead == c.headSha
    ensures var t := Step(c, Step(c, s, ListReviews(a)), ReadHead(a));
            && a in t.attempts && t.remoteHead == c.headSha
            && (t.attempts[a].pc.Recording? || t.attempts[a].pc.Submitting? || t.attempts[a].pc.Creating?)
  {
    assert PcOk(c, s, s.attempts[a].pc);
    LookupFindsMarked(c, s, p);
    hide Inv, PcOk, Marked, FindIn, HasMarked, NoneMarked;
  }

  /** From the lookup on: whatever an earlier attempt left behind, the retry finishes it. */
  lemma SearchingCompletes(c: Config, s: State, a: nat, p: Prepared)
    requires Inv(c, s) && a in s.attempts && s.attempts[a].pc == Searching(p)
    requires p.createBlock.None? && s.remoteHead == c.headSha
    ensures var drafted := Step(c, Step(c, Step(c, s, ListReviews(a)), ReadHead(a)), CreateDraft(a));
            var submitted := Step(c, Step(c, drafted, ReadHead(a)), SubmitDraft(a));
            IsPublished(c, Step(c, submitted, Record(a)))
  {
    hide Inv, Step, IsPublished;
    var s1 := Step(c, s, ListReviews(a));
    InvStep(c, s, ListReviews(a));
    InvStep(c, s1, ReadHead(a));
    SearchingAdvances(c, s, a, p);
    CreateCompletes(c, Step(c, s1, ReadHead(a)), a);
  }

  /**
   Crash recovery: in any reachable state with the claim free, an authorized retry on an unmoved
   head ends with the one submitted review and its id stored.
   */
  lemma RetryPublishes(c: Config, s: State, a: nat, request: PublishRequest)
    requires Inv(c, s) && s.claim.None? && a !in s.attempts
    requires request.runId == c.runId && request.headSha == c.headSha && s.remoteHead == c.headSha
    requires PrepareOutcome(s.run, s.tables, s.action, request, c.marker).Ok?
    requires PrepareOutcome(s.run, s.tables, s.action, request, c.marker).value.1.createBlock.None?
    ensures IsPublished(c, Retry(c, s, a, request))
  {
    hide Marked, PrepareOutcome, Authorizes, Inv, AttemptStep, IsPublished;
    var s1 := Step(c, s, Begin(a, request));
    InvStep(c, s, Begin(a, request));
    var s2 := Step(c, s1, Acquire(a));
    InvStep(c, s1, Acquire(a));
    var s3 := Step(c, s2, Prepare(a));
    InvStep(c, s2, Prepare(a));
    RetryPrepares(c, s, a, request);
    if a in s3.attempts {
      SearchingCompletes(c, s3, a, s3.attempts[a].pc.prepared);
    } else {
      assert Retry(c, s, a, request) == s3;
    }
  }

  /** After its claim and `_prepare`, the retry is either done or about to look up the review. */
  lemma RetryPrepares(c: Config, s: State, a: nat, request: PublishRequest)
    requires Inv(c, s) && s.claim.None? && a !in s.attempts
    requires request.runId == c.runId && request.headSha == c.headSha
    requires PrepareOutcome(s.run, s.tables, s.action, request, c.marker).Ok?
    requires PrepareOutcome(s.run, s.tables, s.action, request, c.marker).value.1.createBlock.None?
    ensures var t := Step(c, Step(c, Step(c, s, Begin(a, request)), Acquire(a)), Prepare(a));
            && t.remoteHead == s.remoteHead
            && if a in t.attempts then t.attempts[a].pc.Searching? && t.attempts[a].pc.prepared.createBlock.None?
               else IsPublished(c, t)
  {
    hide Marked, PrepareOutcome, Authorizes;
    PreparedHasShape(s.run, s.tables, s.action, request, c.marker);
    PreparedIsAuthorized(s.run, s.tables, s.action, request, c.marker);
  }

  lemma PreparedHasShape(run: RunTarget, tables: Tables, action: Option<Action>, request: PublishRequest, marker: string)
    requires PrepareOutcome(run, tables, action, request, marker).Ok?
    ensures ShapeError(request).None?
  {
  }
}
