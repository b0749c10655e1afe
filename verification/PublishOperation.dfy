/**
 One publish call, statement by statement, without interference: the transactions on the action
 row and the review client's requests change this object's fields in place.

 Each call is shown to be a run of the publish protocol: it returns the protocol's events as `trace`.
 */
module PublishOperation {
  import opened Options
  import opened RunContracts
  import opened ReviewTables
  import opened ReviewPublishing
  import opened PublishProtocol

  /** How a call ends: returned, refused for good, or failed and to be retried. */
  datatype PublishResult = Done | Blocked(reason: BlockReason) | PublishFailed

  /** What becomes of a request: done as asked, answered with something else and not done, or an exception. */
  datatype Reply = Faithful | Mismatching | Raises(applied: bool)

  /** What becomes of the transaction recording success. */
  datatype Commit = Acknowledged | LostAfterCommit | NotCommitted

  /** The answers of one call's environment; a head is None when reading it raises. */
  datatype Provider = Provider(
    listingRaises: bool, precheckHead: Option<Sha>, create: Reply, recheckHead: Option<Sha>, settle: Reply,
    record: Commit, auditCommits: bool)

  /** What the review client hands back or raises. */
  datatype ClientResult = Reviewed(id: nat) | PayloadMismatchRaised | StaleHeadRaised | ProviderErrorRaised

  /** The protocol state with the call's attempt, numbered 0, at `pc`. */
  function Alone(s: State, request: PublishRequest, pc: Pc): State {
    s.(attempts := map[0 := Attempt(request, pc)], claim := Some(0))
  }

  predicate Quiet(s: State) {
    s.attempts == map[] && s.claim.None?
  }

  /** No review of the key was submitted meanwhile. */
  ghost predicate NothingSubmitted(marker: string, before: seq<Review>, after: seq<Review>) {
    forall r :: r in after && Marked(r, marker) && r.state == Commented ==> r in before
  }

  /** The object serves one key, and a well-formed request's key names its run and head. */
  predicate Serves(c: Config, request: PublishRequest) {
    ShapeError(request).None? ==> request.runId == c.runId && request.headSha == c.headSha
  }

  // ---------------------------------------------------------------- steps of an attempt that runs alone

  lemma AlonePc(s: State, request: PublishRequest, pc: Pc, next: Pc)
    ensures SetPc(Alone(s, request, pc), 0, next) == Alone(s, request, next)
  {
  }

  lemma AloneEnds(s: State, request: PublishRequest, pc: Pc)
    requires Quiet(s)
    ensures End(Alone(s, request, pc), 0) == s
  {
    assert map[0 := Attempt(request, pc)] - {0} == map[];
  }

  lemma Extends(c: Config, s: State, trace: seq<Event>, e: Event, before: State)
    requires Exec(c, s, trace) == before
    ensures Exec(c, s, trace + [e]) == Step(c, before, e)
  {
    ExecAppend(c, s, trace, e);
  }

  /** Beginning, taking the claim and preparing. */
  lemma BeginsAlone(c: Config, s: State, request: PublishRequest) returns (trace: seq<Event>)
    requires Quiet(s) && ShapeError(request).None? && Serves(c, request)
    ensures Exec(c, s, trace) == StepPrepare(c, Alone(s, request, Claimed), 0)
  {
    trace := [Begin(0, request), Acquire(0), Prepare(0)];
    var begun := Step(c, s, Begin(0, request));
    assert begun == s.(attempts := map[0 := Attempt(request, WaitingForClaim)]);
    hide Step;
    assert Exec(c, s, []) == s;
    Extends(c, s, [], Begin(0, request), s);
    Extends(c, s, [Begin(0, request)], Acquire(0), begun);
    Claims(c, s, request);
    Extends(c, s, [Begin(0, request), Acquire(0)], Prepare(0), Alone(s, request, Claimed));
    assert [] + [Begin(0, request)] == [Begin(0, request)];
    assert [Begin(0, request)] + [Acquire(0)] == [Begin(0, request), Acquire(0)];
    assert [Begin(0, request), Acquire(0)] + [Prepare(0)] == trace;
  }

  lemma Claims(c: Config, s: State, request: PublishRequest)
    requires Quiet(s)
    ensures Step(c, s.(attempts := map[0 := Attempt(request, WaitingForClaim)]), Acquire(0)) == Alone(s, request, Claimed)
    ensures Step(c, Alone(s, request, Claimed), Prepare(0)) == StepPrepare(c, Alone(s, request, Claimed), 0)
  {
    hide StepPrepare;
  }

  lemma ErrorFails(c: Config, s: State, request: PublishRequest, pc: Pc)
    requires PastPrepare(pc)
    ensures Step(c, Alone(s, request, pc), ProviderError(0)) == Alone(s, request, Failing)
  {
    AlonePc(s, request, pc, Failing);
  }

  lemma FailureEnds(c: Config, s: State, request: PublishRequest, pc: Pc)
    requires Quiet(s) && (pc.Failing? || pc.Blocking?)
    ensures Step(c, Alone(s, request, pc), Record(0)) == s.(action := RecordedFailure(s.action))
    ensures Step(c, Alone(s, request, pc), Die(0)) == s
  {
    AloneEnds(s, request, pc);
    AloneEnds(s.(action := RecordedFailure(s.action)), request, pc);
  }

  lemma RecordingEnds(c: Config, s: State, request: PublishRequest, p: Prepared, id: nat)
    requires Quiet(s)
    ensures var recorded := s.(action := RecordedSuccess(s.action, p, id));
            var alone := Alone(s, request, Recording(p, id));
            && Step(c, alone, Record(0)) == (if IsPreparedRow(s.action, p) then recorded else Alone(s, request, Failing))
            && Step(c, alone, RecordUnacknowledged(0)) == Alone(recorded, request, Failing)
  {
    var recorded := s.(action := RecordedSuccess(s.action, p, id));
    AloneEnds(recorded, request, Recording(p, id));
    AlonePc(s, request, Recording(p, id), Failing);
    AlonePc(recorded, request, Recording(p, id), Failing);
  }

  /** What the lookup leads to. */
  function AfterLookup(found: Lookup, p: Prepared): Pc {
    match found
    case Submitted(review) => Recording(p, review.id)
    case Mismatch => Blocking
    case Draft(review) => Resolving(p, review.id)
    case Absent => if p.createBlock.Some? then Blocking else CheckingHead(p)
  }

  lemma LooksUp(c: Config, s: State, request: PublishRequest, p: Prepared)
    ensures Step(c, Alone(s, request, Searching(p)), ListReviews(0))
         == Alone(s, request, AfterLookup(FindIn(s.reviews, p.body, p.headSha, p.marker), p))
  {
    hide FindIn;
    AlonePc(s, request, Searching(p), AfterLookup(FindIn(s.reviews, p.body, p.headSha, p.marker), p));
  }

  /** Where a head read leads the attempt that makes it. */
  function AfterHeadRead(pc: Pc, sha: Sha): Pc {
    match pc
    case CheckingHead(p) => if sha == p.headSha then Creating(p) else Blocking
    case Resolving(p, id) => if sha == p.headSha then Submitting(p, id) else Deleting(p, id)
    case _ => pc
  }

  lemma ReadsHead(c: Config, s: State, request: PublishRequest, pc: Pc, sha: Sha)
    requires pc.CheckingHead? || pc.Resolving?
    ensures Step(c, Step(c, Alone(s, request, pc), MoveRemoteHead(sha)), ReadHead(0))
         == Alone(s.(remoteHead := sha), request, AfterHeadRead(pc, sha))
  {
    AlonePc(s.(remoteHead := sha), request, pc, AfterHeadRead(pc, sha));
  }

  lemma CreatesAlone(c: Config, s: State, request: PublishRequest, p: Prepared)
    ensures Step(c, Alone(s, request, Creating(p)), CreateDraft(0))
         == Alone(s.(reviews := WithDraft(s.reviews, s.nextId, p.body, p.headSha), nextId := s.nextId + 1),
                  request, Resolving(p, s.nextId))
  {
    hide WithDraft;
    AlonePc(s, request, Creating(p), Resolving(p, s.nextId));
  }

  lemma SettlesAlone(c: Config, s: State, request: PublishRequest, p: Prepared, id: nat)
    ensures Step(c, Alone(s, request, Submitting(p, id)), SubmitDraft(0))
         == Alone(s.(reviews := WithSubmitted(s.reviews, id)), request, Recording(p, id))
    ensures Step(c, Alone(s, request, Deleting(p, id)), DeleteDraft(0))
         == Alone(s.(reviews := WithoutReview(s.reviews, id)), request, Blocking)
  {
    hide WithSubmitted, WithoutReview;
    AlonePc(s, request, Submitting(p, id), Recording(p, id));
    AlonePc(s, request, Deleting(p, id), Blocking);
  }

  lemma HeadIsRead(c: Config, s0: State, before: seq<Event>, s: State, request: PublishRequest, pc: Pc, sha: Sha)
      returns (trace: seq<Event>)
    requires Exec(c, s0, before) == Alone(s, request, pc) && (pc.CheckingHead? || pc.Resolving?)
    ensures Exec(c, s0, trace) == Alone(s.(remoteHead := sha), request, AfterHeadRead(pc, sha))
  {
    hide Step;
    Extends(c, s0, before, MoveRemoteHead(sha), Alone(s, request, pc));
    Extends(c, s0, before + [MoveRemoteHead(sha)], ReadHead(0), Step(c, Alone(s, request, pc), MoveRemoteHead(sha)));
    ReadsHead(c, s, request, pc, sha);
    trace := before + [MoveRemoteHead(sha)] + [ReadHead(0)];
  }

  /** Where the review client's answer leaves the attempt. */
  function AfterClient(r: ClientResult, p: Prepared): Pc {
    match r
    case Reviewed(id) => Recording(p, id)
    case StaleHeadRaised => Blocking
    case PayloadMismatchRaised => Failing
    case ProviderErrorRaised => Failing
  }

  /** Nothing in the call's environment raises, disagrees, or moves the head. */
  predicate Unhindered(p: Prepared, provider: Provider) {
    && p.createBlock.None? && !provider.listingRaises && provider.precheckHead == Some(p.headSha)
    && provider.create.Faithful? && provider.recheckHead == Some(p.headSha) && provider.settle.Faithful?
    && provider.record.Acknowledged?
  }

  /** A call that returns: authorized, and already published or unhindered. */
  predicate MustReturn(c: Config, s: State, request: PublishRequest, provider: Provider) {
    var outcome := PrepareOutcome(s.run, s.tables, s.action, request, c.marker);
    outcome.Ok? && (outcome.value.1.remoteId.Some? || Unhindered(outcome.value.1, provider))
  }

  lemma PreparesAlone(c: Config, s: State, request: PublishRequest) returns (trace: seq<Event>)
    requires Quiet(s) && Serves(c, request)
    requires PrepareOutcome(s.run, s.tables, s.action, request, c.marker).Ok?
    ensures var (row, p) := PrepareOutcome(s.run, s.tables, s.action, request, c.marker).value;
            var stored := s.(action := Some(row));
            Exec(c, s, trace) == if p.remoteId.Some? then stored else Alone(stored, request, Searching(p))
  {
    hide PrepareOutcome, Exec;
    PreparedHasShape(s.run, s.tables, s.action, request, c.marker);
    trace := BeginsAlone(c, s, request);
    var (row, p) := PrepareOutcome(s.run, s.tables, s.action, request, c.marker).value;
    AloneEnds(s.(action := Some(row)), request, Claimed);
    AlonePc(s.(action := Some(row)), request, Claimed, Searching(p));
  }

  lemma NeverMismatches(c: Config, s: State, request: PublishRequest, p: Prepared)
    requires Inv(c, Alone(s, request, Searching(p)))
    ensures !FindIn(s.reviews, p.body, p.headSha, p.marker).Mismatch?
  {
    hide FindIn, ReviewsOk, ActionOk, ClaimOk, PreparedOk;
    var alone := Alone(s, request, Searching(p));
    assert PcOk(c, alone, alone.attempts[0].pc);
    LookupFindsMarked(c, alone, p);
  }

  lemma PublishedRow(c: Config, s: State)
    requires Inv(c, s) && s.action.Some? && s.action.value.status == ActionPublished
    ensures IsPublished(c, s)
  {
    hide ReviewsOk, ClaimOk, PcOk, HasMarked, Authorizes;
  }

  lemma EmptyRun(c: Config, s: State)
    ensures Exec(c, s, []) == s
  {
  }

  lemma {:induction false} WithoutReviewIsSubset(reviews: seq<Review>, id: nat, r: Review)
    requires r in WithoutReview(reviews, id)
    ensures r in reviews
  {
    if reviews[0].id == id || r != reviews[0] {
      WithoutReviewIsSubset(reviews[1..], id, r);
    }
  }

  lemma DraftsSubmitNothing(marker: string, before: seq<Review>, id: nat, body: string, headSha: Sha)
    ensures NothingSubmitted(marker, before, before)
    ensures NothingSubmitted(marker, before, WithDraft(before, id, body, headSha))
    ensures forall deleted :: NothingSubmitted(marker, before, WithoutReview(before, deleted))
    ensures NothingSubmitted(marker, before, WithoutReview(WithDraft(before, id, body, headSha), id))
  {
    hide Marked;
    forall deleted, r | r in WithoutReview(before, deleted)
      ensures r in before
    {
      WithoutReviewIsSubset(before, deleted, r);
    }
    forall r | r in WithoutReview(WithDraft(before, id, body, headSha), id)
      ensures r in WithDraft(before, id, body, headSha)
    {
      WithoutReviewIsSubset(WithDraft(before, id, body, headSha), id, r);
    }
  }

  class GitHubReviewPublishOperation {
    const config: Config
    var run: RunTarget
    var tables: Tables
    var action: Option<Action>
    var reviews: seq<Review>
    var nextId: nat
    var remoteHead: Sha

    constructor (config: Config, run: RunTarget, tables: Tables, remoteHead: Sha)
      requires run.runId == config.runId
      ensures this.config == config && this.run == run && this.tables == tables && this.remoteHead == remoteHead
      ensures Init(config, S())
    {
      this.config := config;
      this.run := run;
      this.tables := tables;
      this.action := None;
      this.reviews := [];
      this.nextId := 1;
      this.remoteHead := remoteHead;
    }

    /** The fields as a protocol state in which no attempt is running. */
    ghost function S(): State
      reads this
    {
      State(run, tables, action, reviews, nextId, remoteHead, map[], None)
    }

    method PrepareAction(request: PublishRequest) returns (r: Result<Prepared, BlockReason>)
      modifies this`action
      ensures match PrepareOutcome(run, tables, old(action), request, config.marker)
              case Err(reason) => r == Err(reason) && action == old(action)
              case Ok((row, prepared)) => r == Ok(prepared) && action == Some(row)
    {
      hide ReviewBody, Pairs, RequestRows, NoDuplicates, PublishKey;
      var shape := ShapeError(request);
      if shape.Some? {
        return Err(shape.value);
      }
      if request.runId != run.runId || request.repositoryId != run.repositoryId
         || request.pullRequestNumber != run.pullRequestNumber {
        return Err(TargetMismatch);
      }
      if action.Some? {
        if action.value.targetSha != request.headSha {
          return Err(IdempotencyCommitMismatch);
        }
        if action.value.runId != request.runId || action.value.actionType != REVIEW_ACTION {
          return Err(IdempotencyActionMismatch);
        }
      }
      var createBlock: Option<BlockReason> := None;
      if run.state != AwaitingApproval {
        createBlock := Some(AuthorizationChanged);
      } else if run.currentHeadSha != request.headSha {
        createBlock := Some(StaleHead);
      }
      if action.None? && createBlock.Some? {
        return Err(if createBlock.value == AuthorizationChanged then RunNotAwaitingApproval else StaleHead);
      }
      var rows := RequestRows(tables, request);
      if |rows| != |request.findingIds| {
        return Err(ApprovalMissing);
      }
      if exists r :: r in rows && r.approval.decision != Approve {
        return Err(ApprovalRejected);
      }
      if exists r :: r in rows && r.approval.headSha != request.headSha {
        return Err(ApprovalCommitMismatch);
      }
      if (set r | r in rows :: r.approval.publicId) != (set a | a in request.approvalIds) {
        return Err(ApprovalSetMismatch);
      }
      var body, withinLimit := RenderReviewBody(rows, config.marker);
      if !withinLimit {
        return Err(BodyLimit);
      }
      var fingerprint := Fingerprint(Pairs(rows), request.commentBodyRef, body);
      if action.None? {
        action := Some(Action(request.headSha, request.runId, REVIEW_ACTION, fingerprint, ActionPublishing, None));
      } else {
        if action.value.fingerprint != fingerprint {
          return Err(PayloadMismatch);
        }
        if action.value.status == ActionPublished {
          if action.value.remoteId.None? {
            return Err(MissingRemoteIdentity);
          }
          return Ok(Prepared(request.headSha, config.marker, "", fingerprint, action.value.remoteId, None));
        }
        if createBlock.Some? {
          return Ok(Prepared(request.headSha, config.marker, body, fingerprint, None, createBlock));
        }
        action := Some(action.value.(status := ActionPublishing));
      }
      return Ok(Prepared(request.headSha, config.marker, body, fingerprint, None, None));
    }

    /** Marks the prepared row published; without that row the record fails. */
    method RecordSuccess(prepared: Prepared, remoteId: nat) returns (recorded: bool)
      modifies this`action
      ensures action == RecordedSuccess(old(action), prepared, remoteId)
      ensures recorded <==> IsPreparedRow(old(action), prepared)
    {
      recorded := action.Some? && action.value.targetSha == prepared.headSha
                  && action.value.fingerprint == prepared.fingerprint;
      if recorded {
        action := Some(action.value.(status := ActionPublished, remoteId := Some(remoteId)));
      }
    }

    method RecordActionBlocked()
      modifies this`action
      ensures action == RecordedFailure(old(action))
    {
      if action.Some? {
        action := Some(action.value.(status := ActionFailed));
      }
    }

    /** The provider-error exit: records the failure, unless that audit fails as well. */
    method RecordFailure(request: PublishRequest, auditCommits: bool, ghost s0: State, ghost before: seq<Event>)
        returns (ghost trace: seq<Event>)
      requires Quiet(S()) && Exec(config, s0, before) == Alone(S(), request, Failing)
      modifies this`action
      ensures Exec(config, s0, trace) == S()
      ensures action == if auditCommits then RecordedFailure(old(action)) else old(action)
    {
      hide Step, Exec;
      ghost var s := S();
      if auditCommits {
        RecordActionBlocked();
        trace := before + [Record(0)];
      } else {
        trace := before + [Die(0)];
      }
      Extends(config, s0, before, trace[|before|], Alone(s, request, Failing));
      FailureEnds(config, s, request, Failing);
    }

    /** A refusal: records the action as blocked. */
    method Block(request: PublishRequest, reason: BlockReason, ghost pc: Pc, ghost s0: State, ghost before: seq<Event>)
        returns (r: PublishResult, ghost trace: seq<Event>)
      requires Quiet(S()) && Exec(config, s0, before) == Alone(S(), request, pc) && (pc.Blocking? || pc.Failing?)
      modifies this`action
      ensures Exec(config, s0, trace) == S() && r == Blocked(reason)
      ensures action == RecordedFailure(old(action))
    {
      hide Step, Exec;
      ghost var s := S();
      RecordActionBlocked();
      trace := before + [Record(0)];
      Extends(config, s0, before, Record(0), Alone(s, request, pc));
      FailureEnds(config, s, request, pc);
      r := Blocked(reason);
    }

    /** Records the submitted review; whatever raises here ends in the provider-error exit. */
    method Succeed(request: PublishRequest, p: Prepared, id: nat, provider: Provider, ghost s0: State, ghost before: seq<Event>)
        returns (r: PublishResult, ghost trace: seq<Event>)
      requires Quiet(S()) && Exec(config, s0, before) == Alone(S(), request, Recording(p, id))
      modifies this`action
      ensures Exec(config, s0, trace) == S()
      ensures r.Done? <==> provider.record.Acknowledged? && IsPreparedRow(old(action), p)
      ensures r.Done? ==> action.Some? && action.value.status == ActionPublished
      ensures !r.Blocked?
      ensures !r.Done? && provider.auditCommits && old(action).Some? ==> action.Some? && action.value.status == ActionFailed
    {
      hide Step, Exec;
      ghost var s := S();
      if provider.record.NotCommitted? {
        trace := before + [ProviderError(0)];
        Extends(config, s0, before, ProviderError(0), Alone(s, request, Recording(p, id)));
        ErrorFails(config, s, request, Recording(p, id));
        trace := RecordFailure(request, provider.auditCommits, s0, trace);
        return PublishFailed, trace;
      }
      var recorded := RecordSuccess(p, id);
      RecordingEnds(config, s, request, p, id);
      if recorded && provider.record.Acknowledged? {
        trace := before + [Record(0)];
        Extends(config, s0, before, Record(0), Alone(s, request, Recording(p, id)));
        return Done, trace;
      }
      ghost var e := if recorded then RecordUnacknowledged(0) else Record(0);
      trace := before + [e];
      Extends(config, s0, before, e, Alone(s, request, Recording(p, id)));
      trace := RecordFailure(request, provider.auditCommits, s0, trace);
      return PublishFailed, trace;
    }

    /** Rechecks the head, then submits the draft, or deletes it when the head has moved. */
    method ResolvePendingReview(
      request: PublishRequest, p: Prepared, id: nat, provider: Provider, ghost s0: State, ghost before: seq<Event>)
        returns (r: ClientResult, ghost trace: seq<Event>)
      requires Quiet(S()) && Exec(config, s0, before) == Alone(S(), request, Resolving(p, id))
      modifies this`reviews, this`remoteHead
      ensures Exec(config, s0, trace) == Alone(S(), request, AfterClient(r, p))
      ensures r.Reviewed? ==> r.id == id
      ensures provider.recheckHead == Some(p.headSha) && provider.settle.Faithful? ==> r.Reviewed?
      ensures r.Reviewed? ==> reviews == WithSubmitted(old(reviews), id)
      ensures r.StaleHeadRaised? ==> remoteHead != p.headSha && reviews == WithoutReview(old(reviews), id)
      ensures r.PayloadMismatchRaised? ==> reviews == old(reviews)
    {
      hide Step, Exec, WithoutReview, WithSubmitted;
      ghost var s := S();
      trace := before;
      if provider.recheckHead.None? {
        trace := trace + [ProviderError(0)];
        Extends(config, s0, before, ProviderError(0), Alone(s, request, Resolving(p, id)));
        ErrorFails(config, s, request, Resolving(p, id));
        return ProviderErrorRaised, trace;
      }
      remoteHead := provider.recheckHead.value;
      trace := HeadIsRead(config, s0, before, s, request, Resolving(p, id), remoteHead);
      ghost var t := S();
      SettlesAlone(config, t, request, p, id);
      if remoteHead != p.headSha {
        Extends(config, s0, trace, DeleteDraft(0), Alone(t, request, Deleting(p, id)));
        Extends(config, s0, trace, ProviderError(0), Alone(t, request, Deleting(p, id)));
        ErrorFails(config, t, request, Deleting(p, id));
        if provider.settle.Raises? && !provider.settle.applied {
          return ProviderErrorRaised, trace + [ProviderError(0)];
        }
        reviews := WithoutReview(reviews, id);
        trace := trace + [DeleteDraft(0)];
        if provider.settle.Raises? {
          Extends(config, s0, trace, ProviderError(0), Alone(S(), request, Blocking));
          ErrorFails(config, S(), request, Blocking);
          return ProviderErrorRaised, trace + [ProviderError(0)];
        }
        return StaleHeadRaised, trace;
      }
      Extends(config, s0, trace, SubmitDraft(0), Alone(t, request, Submitting(p, id)));
      Extends(config, s0, trace, ProviderError(0), Alone(t, request, Submitting(p, id)));
      ErrorFails(config, t, request, Submitting(p, id));
      if provider.settle.Mismatching? || (provider.settle.Raises? && !provider.settle.applied) {
        r := if provider.settle.Mismatching? then PayloadMismatchRaised else ProviderErrorRaised;
        return r, trace + [ProviderError(0)];
      }
      reviews := WithSubmitted(reviews, id);
      trace := trace + [SubmitDraft(0)];
      if provider.settle.Raises? {
        Extends(config, s0, trace, ProviderError(0), Alone(S(), request, Recording(p, id)));
        ErrorFails(config, S(), request, Recording(p, id));
        return ProviderErrorRaised, trace + [ProviderError(0)];
      }
      return Reviewed(id), trace;
    }

    /** Stages an unsubmitted review, checks what was staged, and resolves it. */
    method CreateReview(request: PublishRequest, p: Prepared, provider: Provider, ghost s0: State, ghost before: seq<Event>)
        returns (r: ClientResult, ghost trace: seq<Event>)
      requires Quiet(S()) && Exec(config, s0, before) == Alone(S(), request, Creating(p))
      modifies this`reviews, this`nextId, this`remoteHead
      ensures Exec(config, s0, trace) == Alone(S(), request, AfterClient(r, p))
      ensures provider.create.Faithful? && provider.recheckHead == Some(p.headSha) && provider.settle.Faithful? ==> r.Reviewed?
      ensures r.Reviewed? ==> reviews == WithSubmitted(WithDraft(old(reviews), r.id, p.body, p.headSha), r.id)
      ensures r.StaleHeadRaised? ==> reviews == WithoutReview(WithDraft(old(reviews), old(nextId), p.body, p.headSha), old(nextId))
      ensures r.PayloadMismatchRaised? ==>
                reviews == old(reviews) || reviews == WithDraft(old(reviews), old(nextId), p.body, p.headSha)
    {
      hide Step, Exec, WithoutReview, WithSubmitted;
      ghost var s := S();
      trace := before;
      if provider.create.Mismatching? || (provider.create.Raises? && !provider.create.applied) {
        Extends(config, s0, trace, ProviderError(0), Alone(s, request, Creating(p)));
        ErrorFails(config, s, request, Creating(p));
        trace := trace + [ProviderError(0)];
        return if provider.create.Mismatching? then PayloadMismatchRaised else ProviderErrorRaised, trace;
      }
      var id := nextId;
      reviews := reviews + [Review(id, true, p.body, p.headSha, Pending)];
      nextId := nextId + 1;
      Extends(config, s0, trace, CreateDraft(0), Alone(s, request, Creating(p)));
      CreatesAlone(config, s, request, p);
      trace := trace + [CreateDraft(0)];
      if provider.create.Raises? {
        Extends(config, s0, trace, ProviderError(0), Alone(S(), request, Resolving(p, id)));
        ErrorFails(config, S(), request, Resolving(p, id));
        trace := trace + [ProviderError(0)];
        return ProviderErrorRaised, trace;
      }
      r, trace := ResolvePendingReview(request, p, id, provider, s0, trace);
    }

    /** From the lookup on, with the claim held and the action row prepared. */
    method PublishPrepared(
      request: PublishRequest, p: Prepared, provider: Provider, ghost s0: State, ghost before: seq<Event>)
        returns (r: PublishResult, ghost trace: seq<Event>)
      requires Quiet(S()) && Exec(config, s0, before) == Alone(S(), request, Searching(p))
      requires IsPreparedRow(action, p)
      modifies this`action, this`reviews, this`nextId, this`remoteHead
      ensures Exec(config, s0, trace) == S()
      ensures r.Done? ==> action.Some? && action.value.status == ActionPublished
      ensures !r.Done? && (r.Blocked? || provider.auditCommits) ==> action.Some? && action.value.status == ActionFailed
      ensures r.Blocked? ==> NothingSubmitted(config.marker, old(reviews), reviews)
      ensures Unhindered(p, provider) && !FindIn(old(reviews), p.body, p.headSha, p.marker).Mismatch? ==> r.Done?
    {
      hide FindIn, Exec, Step, NothingSubmitted, WithDraft, WithoutReview, WithSubmitted;
      ghost var s := S();
      DraftsSubmitNothing(config.marker, reviews, nextId, p.body, p.headSha);
      if provider.listingRaises {
        Extends(config, s0, before, ProviderError(0), Alone(s, request, Searching(p)));
        ErrorFails(config, s, request, Searching(p));
        trace := RecordFailure(request, provider.auditCommits, s0, before + [ProviderError(0)]);
        return PublishFailed, trace;
      }
      var found := FindReview(reviews, p.body, p.headSha, p.marker);
      Extends(config, s0, before, ListReviews(0), Alone(s, request, Searching(p)));
      LooksUp(config, s, request, p);
      trace := before + [ListReviews(0)];
      if found.Submitted? {
        r, trace := Succeed(request, p, found.review.id, provider, s0, trace);
        return;
      }
      if found.Mismatch? {
        r, trace := Block(request, ReviewPayloadMismatch, Blocking, s0, trace);
        return;
      }
      var client: ClientResult;
      if found.Draft? {
        client, trace := ResolvePendingReview(request, p, found.review.id, provider, s0, trace);
      } else {
        if p.createBlock.Some? {
          r, trace := Block(request, p.createBlock.value, Blocking, s0, trace);
          return;
        }
        if provider.precheckHead.None? {
          Extends(config, s0, trace, ProviderError(0), Alone(s, request, CheckingHead(p)));
          ErrorFails(config, s, request, CheckingHead(p));
          trace := RecordFailure(request, provider.auditCommits, s0, trace + [ProviderError(0)]);
          return PublishFailed, trace;
        }
        remoteHead := provider.precheckHead.value;
        trace := HeadIsRead(config, s0, trace, s, request, CheckingHead(p), remoteHead);
        if remoteHead != p.headSha {
          r, trace := Block(request, StaleHead, Blocking, s0, trace);
          return;
        }
        client, trace := CreateReview(request, p, provider, s0, trace);
      }
      match client {
        case Reviewed(id) => r, trace := Succeed(request, p, id, provider, s0, trace);
        case StaleHeadRaised => r, trace := Block(request, StaleHead, Blocking, s0, trace);
        case PayloadMismatchRaised => r, trace := Block(request, ReviewPayloadMismatch, Failing, s0, trace);
        case ProviderErrorRaised =>
          trace := RecordFailure(request, provider.auditCommits, s0, trace);
          r := PublishFailed;
      }
    }

    /**
     The whole call is a run of the protocol, so it keeps the protocol's invariant. When it returns, the
     one review is submitted and its id stored; when it is refused, nothing was submitted; refused or
     failed, the row says so; and it returns whenever it is authorized, the head stays and nobody raises.
     */
    method Publish(request: PublishRequest, provider: Provider) returns (r: PublishResult, ghost trace: seq<Event>)
      requires Inv(config, S()) && Serves(config, request)
      modifies this`action, this`reviews, this`nextId, this`remoteHead
      ensures Exec(config, old(S()), trace) == S() && Inv(config, S())
      ensures r.Done? ==> IsPublished(config, S())
      ensures PrepareOutcome(run, tables, old(action), request, config.marker).Ok?
              && !r.Done? && (r.Blocked? || provider.auditCommits) ==>
                action.Some? && action.value.status == ActionFailed
      ensures r.Blocked? ==> NothingSubmitted(config.marker, old(reviews), reviews)
      ensures PrepareOutcome(run, tables, old(action), request, config.marker).Err? ==>
                r == Blocked(PrepareOutcome(run, tables, old(action), request, config.marker).error) && S() == old(S())
      ensures MustReturn(config, old(S()), request, provider) ==> r.Done?
    {
      hide PrepareOutcome, FindIn, ReviewBody, EndsWith, Exec, IsPublished, Inv, Serves;
      ghost var s0 := S();
      PreparedFits(request);
      var outcome := PrepareAction(request);
      if outcome.Err? {
        trace := [];
        r := Blocked(outcome.error);
        EmptyRun(config, s0);
      } else {
        trace := PreparesAlone(config, s0, request);
        var p := outcome.value;
        if p.remoteId.Some? {
          r := Done;
        } else {
          InvRun(config, s0, trace);
          NeverMismatches(config, S(), request, p);
          r, trace := PublishPrepared(request, p, provider, s0, trace);
        }
      }
      InvRun(config, s0, trace);
      if r.Done? {
        PublishedRow(config, S());
      }
    }

    lemma PreparedFits(request: PublishRequest)
      ensures match PrepareOutcome(run, tables, action, request, config.marker)
              case Err(_) => true
              case Ok((row, p)) =>
                && ShapeError(request).None? && IsPreparedRow(Some(row), p) && p.marker == config.marker
                && (p.remoteId.Some? ==> row.status == ActionPublished)
    {
      hide PrepareOutcome;
      if PrepareOutcome(run, tables, action, request, config.marker).Ok? {
        PreparedIsAuthorized(run, tables, action, request, config.marker);
        PreparedHasShape(run, tables, action, request, config.marker);
      }
    }
  }
}
