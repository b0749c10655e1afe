# Verification of the pull request review pipeline

A Dafny 4.11 model of the durable review pipeline: webhooks allocate run generations and append
outbox commands, dispatchers hand them to a durable workflow, the workflow runs context, analysis,
verification, approval and publishing, and activities keep a run row, a GitHub review and a GitHub
Check Run. Any attempt may be retried, duplicated, late, or die between two steps. Beside the
protocols stand the sequential algorithms the pipeline relies on. `dafny verify dfyconfig.toml`
checks everything.

How it is written:

- A protocol is a state machine in which each event is one database transaction, one provider
  request, one signal or the death of an attempt. `Step` takes one event (an event that is not enabled
  changes nothing), `Exec` a list of events, and the main results hold for every list. They rest on
  invariants proved event by event.
- Components that change rows or fields in place are classes. Each method is proved against the same
  specification function the machine steps with, so a machine step and the code that performs it
  cannot drift apart.
- What a specification function computes is stated once more without it: in literals for one step, and
  over whole runs for the state it leads to. Beside what never happens stand results on what does:
  undisturbed continuations of any reachable state publish, return, project or finish.
- Loops of the source are loops here, proved against independent definitions (a declarative glob, a
  longest walk, a longest fitting prefix, a JSON grammar, a fold over a document tree).
- SHA-256 digests are represented by what they digest, that is, as injective.

Modules:

| file | subject |
|---|---|
| `Options`, `Utf8` | optional values and results; lengths of text in bytes |
| `RunContracts`, `RunLifecycle` | the declared run states, and the transactions on the run row |
| `ReviewTables`, `ReviewPublishing`, `PublishOperation`, `PublishProtocol` | exactly-once publishing of a review with crash recovery |
| `ApprovalFanIn`, `HumanApproval` | many decisions become one signal; the decided content end to end |
| `ReviewWorkflow`, `WorkflowProgress`, `CommandOutbox` | generations, superseding and stage order; which schedules end how; the per-pull-request outbox |
| `RunRefinement` | a workflow execution with its run row, which refines the declared states |
| `CheckRunProjection` | one remote Check Run per head |
| `InstallationInventory` | reconciliation by compare-and-set against revoking deliveries |
| `WebhookIntake` | out-of-order deliveries as a register, and commit chains |
| `PathMatcher` | path filters and the check plan |
| `ContextRendering`, `ContextSelection` | files under a token budget |
| `OutputBudget` | two readers sharing one output limit |
| `Redaction` | literal redaction before storage and display |
| `JsonExtraction` | the first JSON object in tool output |
| `JUnitSummary` | event handlers against the document tree |

Assumptions of the machines:

- A transaction is atomic and a lock or claim is mutual exclusion; a claim ends with its connection.
- A provider request takes effect before the claim it was made under closes, or never.
- The provider answers truthfully: a review it reports as not staged or not submitted as asked is not.
- A listing of reviews or checks is atomic, and nobody else writes a review of the App with this
  idempotency key's marker or a check with this external id.

What the proofs brought to light:

- A run without findings is never woken by the approval dispatcher (`NoFindingsNeverWakes`).
- A decided run loses its wake-up exactly when its last command is skipped, which happens exactly when
  that command is dispatched while the run does not wait or the head is elsewhere
  (`WakeUpIsLostIff`, `LastDispatchLosesIff`), and then for good (`LostForever`); a head that moves away
  and back is enough (`SkippedLosesWakeUp`). Lost means by the receipts: a signal whose receipt was lost
  in a crash may have arrived before.
- The run row follows the declared transition table because attempts exist only for what the workflow
  requested (`RunRefinement`): loading for a stage on its own can jump over states, exactly when the run
  is more than one stage behind (`LoadIsEdgeIffInOrder`, `OutOfOrderLoadSkips`).
- Commit chains are followed for a hundred pushes. The final head of a chain is exact
  (`PermutationConverges`), and a longer chain can stop short of its end (`LongChainStopsShort`).
- A file can be marked truncated although it was included whole, because the record with `true` is one
  character shorter than the one with `false` (`WholeFileMarkedCut`, `WholeFileIsMarkedCut`).
- A run that times out never reports that it overflowed (`ReportIsTrueIff`, `TimeoutHidesOverflow`).
- Redaction keeps its promise for a list of plain patterns exactly when none of them occurs in the
  replacement or the marker (`RedactionIsCleanIff`); a pattern such as `a` is put back by the replacement.
- docs/architecture.md says that the dispatcher skips superseded generations and cancels superseded
  queued runs. dispatch.py skips a command only for a terminal run or by policy and cancels a queued
  run only by policy (`SkippedIff`, `SupersededIsStillSent`); the model follows dispatch.py.

## Model

| member | source | states |
|---|---|---|
| `PublishProtocol.InvStep` | workers/src/pr_reliability_workers/activities/publish.py:130-254 | every step of any attempt, its death at any point, a record whose acknowledgement is lost, and every step of the environment keeps the invariant: distinct review ids, at most one review carrying the marker, and that review has the stored body and commit; the action row is authorized; only the claim holder is past waiting, and it holds what its program counter says |
| `PublishProtocol.AtMostOneReview` | workers/src/pr_reliability_workers/activities/publish.py:130-254 | over every interleaving of attempts for one idempotency key at most one marked review exists, and a stored remote id names a submitted one |
| `PublishProtocol.SubmittedForever` | workers/src/pr_reliability_workers/activities/github.py:148-177 | a submitted review is never lost again, so "at most one now" means "at most one ever" |
| `PublishProtocol.SubmittedIsAuthorized` | workers/src/pr_reliability_workers/activities/publish.py:321-355 | a marked review is on the bound commit and its body is the stored payload, which stored approvals of this head authorize row by row |
| `PublishProtocol.SubmitFollowsHeadRead` | workers/src/pr_reliability_workers/activities/github.py:231-259 | an attempt is at its submission only if the same attempt read a remote head equal to the bound commit and has done nothing but wait since |
| `PublishProtocol.OnlySubmissionPublishes` | workers/src/pr_reliability_workers/activities/github.py:240-253 | the only step after which a marked review is submitted is the submission of an attempt that is at its submission |
| `PublishProtocol.LookupFindsMarked` | workers/src/pr_reliability_workers/activities/github.py:85-146 | in every reachable state the recovery lookup finds the marked review in the state it is in, or there is none; it never reports a mismatch |
| `PublishProtocol.RetryPublishes` | workers/src/pr_reliability_workers/activities/publish.py:143-251 | crash recovery: whatever earlier attempts left behind, an authorized retry on an unmoved head ends with the review submitted and its id stored |
| `PublishProtocol.MovedHeadDeletesDraft` | workers/src/pr_reliability_workers/activities/github.py:231-259 | when the head moved after a draft was staged, the attempt deletes exactly that draft, submits nothing, and leaves the row failed with its payload |
| `PublishProtocol.MovedHeadStagesNothing` | workers/src/pr_reliability_workers/activities/github.py:148-177 | when the head moved before staging, nothing is written remotely and the row says failed |
| `ReviewPublishing.FindReview` | workers/src/pr_reliability_workers/activities/github.py:85-146 | the page-by-page loop computes the lookup of the whole listing: first submitted exact match, else a mismatch anywhere, else the last exact draft, else nothing |
| `ReviewPublishing.LookupMeans` | workers/src/pr_reliability_workers/activities/github.py:85-146 | the lookup in the words of the listing: the first submitted review of this body and commit; without one a mismatch exactly when the App wrote another review ending with the marker or this one in another state; else the last such draft; else nothing |
| `ReviewPublishing.PreparedIsAuthorized` | workers/src/pr_reliability_workers/activities/publish.py:256-435 | a successful prepare leaves a row that stored approvals authorize for the request head, only reuses a stored row for the same payload, and allows creation only for an awaiting run on its current head |
| `ReviewPublishing.PreparedPayload` | workers/src/pr_reliability_workers/activities/publish.py:321-372 | the stored payload is the one computed from the request and the selected rows, never of an empty set |
| `ReviewPublishing.PreparesIff` | workers/src/pr_reliability_workers/activities/publish.py:256-435 | a prepare succeeds exactly for a well-formed request for this run whose approvals are all stored, approved and on its head and whose text fits, of a run waiting on that head if nothing is stored and with the same payload if something is; creation is blocked exactly when a stored, unpublished review belongs to a run no longer waiting on that head |
| `ReviewTables.RenderReviewBody` | workers/src/pr_reliability_workers/activities/publish.py:673-681 | appending sections to a list and joining it yields, literally, the heading, then for each row in order `### `, its severity word, ` finding`, a blank line and its claim, then the marker; the limit flag compares the length of that text |
| `ReviewTables.BodyRenders` | workers/src/pr_reliability_workers/activities/publish.py:673-681 | for every row list the text consists of the literal heading, each row's severity word and claim in order, and the marker, and of nothing else |
| `ReviewTables.RenderedIsUnique` | workers/src/pr_reliability_workers/activities/publish.py:673-681 | only one text renders a row list, so the rendering fixes the body completely |
| `ReviewTables.ApprovedInOrder` | workers/src/pr_reliability_workers/activities/publish.py:321-355 | approved rows keep the order in which the findings are stored |
| `ReviewTables.BodyEndsWithMarker` | workers/src/pr_reliability_workers/activities/publish.py:648-681 | every rendered body ends with a blank line and the marker, which is what the lookup of retries relies on |
| `PublishOperation.GitHubReviewPublishOperation.PrepareAction` | workers/src/pr_reliability_workers/activities/publish.py:256-435 | the checks of the transaction in order; row and result are those of the specification the protocol uses, an error changes nothing |
| `PublishOperation.GitHubReviewPublishOperation.RecordSuccess` | workers/src/pr_reliability_workers/activities/publish.py:437-503 | only the row with the prepared head and payload is marked published with the review id; without that row nothing changes and the record fails |
| `ReviewPublishing.FailureKeepsTheWayOpen` | workers/src/pr_reliability_workers/activities/publish.py:543-632 | a blocked or failed record closes nothing: unless the row was published, the next prepare of any request decides the same and prepares the same publish as without that record |
| `PublishOperation.GitHubReviewPublishOperation.RecordFailure` | workers/src/pr_reliability_workers/activities/publish.py:238-251 | the provider-error exit ends the attempt as the protocol does: with the row failed, or untouched when the audit raises too |
| `PublishOperation.GitHubReviewPublishOperation.CreateReview` | workers/src/pr_reliability_workers/activities/github.py:148-177 | a run of the protocol from staging to a settled draft: the draft is staged and resolved, refused when the answer mismatches, or abandoned when a request raises, whether or not it took effect |
| `PublishOperation.GitHubReviewPublishOperation.ResolvePendingReview` | workers/src/pr_reliability_workers/activities/github.py:231-259 | a run of the protocol: the draft is submitted if the head read now equals the commit, else deleted, and every request may raise with or without effect |
| `PublishOperation.GitHubReviewPublishOperation.Succeed` | workers/src/pr_reliability_workers/activities/publish.py:214-223 | the record of success ends the call, and a record that raises, also after its commit, ends in the provider-error exit |
| `PublishOperation.GitHubReviewPublishOperation.Publish` | workers/src/pr_reliability_workers/activities/publish.py:130-254 | one call against any provider answers is a run of the protocol and keeps its invariant; it returns only with the one review submitted and its id stored, is refused only with nothing submitted, leaves a failed row otherwise, and does return when authorized and unhindered |
| `ApprovalFanIn.InvStep` | workers/src/pr_reliability_workers/dispatch.py:273-437 | decisions, head moves, run changes and dispatches, each also when its receipt is lost, keep the invariant that ties approvals, commands, receipts and sent signals together |
| `ApprovalFanIn.OneAcceptedSignal` | workers/src/pr_reliability_workers/dispatch.py:377-437 | at most one aggregate receipt is accepted for the run and head, every signal ever sent is the same one, and none is sent before all findings are decided |
| `ApprovalFanIn.SignalIsApprovedSet` | workers/src/pr_reliability_workers/dispatch.py:377-420 | a sent signal lists, position by position, the ids of the approved findings and of their approvals in finding order, only after every finding was decided, and approves iff there are any |
| `ApprovalFanIn.NoLostWakeUp` | workers/src/pr_reliability_workers/dispatch.py:273-437 | once all findings of a run with findings are decided, the aggregate was accepted, or a command is pending, or the command that completed the set was skipped |
| `ApprovalFanIn.NextDispatchAccepts` | workers/src/pr_reliability_workers/dispatch.py:325-437 | the next dispatch of a decided run that still awaits this commit sends the aggregate and accepts it |
| `ApprovalFanIn.WakeUpIsLostIff` | workers/src/pr_reliability_workers/dispatch.py:273-437 | in every decided run with findings the wake-up is lost, with nothing accepted and nothing pending, exactly when its last command was skipped |
| `ApprovalFanIn.LastDispatchLosesIff` | workers/src/pr_reliability_workers/dispatch.py:325-352 | the guard of the loss: the dispatch of the last pending command of a decided run loses the wake-up exactly when the run no longer waits or its head is not this commit |
| `ApprovalFanIn.LostForever` | workers/src/pr_reliability_workers/dispatch.py:273-437 | a lost wake-up stays lost: in every continuation nothing is accepted, sent, receipted or left to dispatch |
| `ApprovalFanIn.AcceptedIsFinal` | workers/src/pr_reliability_workers/dispatch.py:273-324 | once the aggregate is accepted, no continuation sends or receipts anything more |
| `ApprovalFanIn.SkippedLosesWakeUp` | workers/src/pr_reliability_workers/dispatch.py:325-352 | concrete run: the head moves away and back around one dispatch, and the decided run is left awaiting with nothing pending and nothing sent |
| `ApprovalFanIn.NoFindingsNeverWakes` | workers/src/pr_reliability_workers/dispatch.py:353-376 | a run without findings never gets a signal, a pending command or an accepted receipt |
| `ApprovalFanIn.DecisionIsImmutable` | apps/api/src/pr_reliability_api/approvals/inbox.py:159-206 | a stored decision never changes; while the run waits on its head, repeating it is answered by its own receipt exactly for the same actor, decision and reason, and refused otherwise |
| `ApprovalFanIn.DecisionIsStored` | apps/api/src/pr_reliability_api/approvals/inbox.py:159-250 | recording succeeds anew exactly for an undecided finding of a run waiting on its head, and then stores and announces the decision the request carries |
| `ApprovalFanIn.ApprovalsComeFromRequests` | apps/api/src/pr_reliability_api/approvals/inbox.py:109-259 | over every run each stored approval is the decision, head and id of one recording event for that finding, at a moment when it could be recorded |
| `ApprovalFanIn.DispatchDecides` | workers/src/pr_reliability_workers/dispatch.py:325-437 | a dispatch skips the oldest pending command when the run left the wait or the commit, defers it while a finding is undecided, and else sends one signal and accepts |
| `ApprovalFanIn.ReceiptCountsDecisions` | workers/src/pr_reliability_workers/dispatch.py:377-437 | the aggregate receipt of a decided run counts its approvals and its rejections |
| `ApprovalFanIn.ApprovalStore.RecordApprovalDecision` | apps/api/src/pr_reliability_api/approvals/inbox.py:109-259 | exactly for an undecided finding of a run waiting on its head, the request's own decision, actor and reason become the stored approval, decision and outbox command under the new id; else nothing changes, with the error the branch order gives |
| `ApprovalFanIn.ApprovalStore.OldestPending` | workers/src/pr_reliability_workers/dispatch.py:273-324 | the scan finds the first command without a receipt |
| `ApprovalFanIn.ApprovalStore.DispatchNextApproval` | workers/src/pr_reliability_workers/dispatch.py:262-437 | the oldest pending command is skipped, deferred or answered by the aggregate, and the invariant is kept |
| `HumanApproval.SignalSelectsApproved` | workers/src/pr_reliability_workers/activities/publish.py:321-355 | a publish request built from the aggregate signal selects exactly the approved findings, each with its own approval |
| `HumanApproval.DecidedIsFinal` | apps/api/src/pr_reliability_api/approvals/inbox.py:159-250 | once everything is decided, later decisions do not change the approved set |
| `HumanApproval.PublishedIsApprovedSet` | workers/src/pr_reliability_workers/workflows/pull_request_review.py:101-118 | end to end, over every run of decisions, dispatches and publish attempts: a marked review consists of the literal heading, the severity word and claim of exactly the approved findings in finding order, and the marker; each of them was approved by a decision event of the run with that approval id on the run's head; and every finding was decided before |
| `HumanApproval.SignalPrepares` | workers/src/pr_reliability_workers/activities/publish.py:256-435 | in every reachable state the publish request of a sent approved signal prepares exactly when the text is within 60000 characters and, before anything is stored, the run waits on its head |
| `HumanApproval.ApprovedSetGetsPublished` | workers/src/pr_reliability_workers/activities/publish.py:130-254 | from every reachable state with an approved signal sent and the claim free, while the run waits on its unmoved head and the text fits, one attempt left alone ends with the review of the approved set submitted and its id stored |
| `RunLifecycle.StateNeverGoesBack` | workers/src/pr_reliability_workers/providers/operations.py:367-402 | for any mix of duplicate, late and retried transactions the rank of the stored state never falls and a terminal state never changes |
| `RunLifecycle.LoadIsEdgeIffInOrder` | workers/src/pr_reliability_workers/providers/operations.py:367-402 | loading a run for a stage commits an edge of the declared table, or nothing, exactly when the run is at most one stage behind |
| `RunLifecycle.OutOfOrderLoadSkips` | workers/src/pr_reliability_workers/providers/operations.py:390-402 | concrete row: a verify attempt on a queued run jumps to verifying, which the table does not allow |
| `RunLifecycle.LoadByState` | workers/src/pr_reliability_workers/providers/operations.py:367-402 | loading succeeds exactly for a current request on a run that is not over, and moves exactly the runs that lag behind the stage |
| `RunLifecycle.StageIsRecordedOnce` | workers/src/pr_reliability_workers/providers/operations.py:500-574 | a stage result is stored once for a current request on a run that is not over; the same result is accepted again and another one refused |
| `RunLifecycle.TerminalByOutcome` | workers/src/pr_reliability_workers/providers/operations.py:588-615 | each outcome with the state it stores (a timeout is stored as failed), when it is stored, replayed or refused |
| `RunContracts.TransitionsMean` | packages/contracts/src/pr_reliability_contracts/runs.py:23-56 | the declared table: any state that is not final may fail or be cancelled, and the rest advances one by one |
| `RunRefinement.RowRefinesTable` | packages/contracts/src/pr_reliability_contracts/runs.py:23-56 | one workflow execution with its run row: for every schedule of signals, failures, retries and late attempts, where attempts exist only for what the workflow requested, every committed change of the row is an edge of the declared transition table or a stutter |
| `RunRefinement.PublishedAfterPublish` | workers/src/pr_reliability_workers/providers/operations.py:588-615 | a row reads published only if the workflow saw the publish activity it had requested succeed |
| `RunRefinement.ReturnedIsStored` | workers/src/pr_reliability_workers/workflows/pull_request_review.py:183-243 | an execution returns an outcome only if the row stores it, and is replaced only once the row is terminal |
| `RunRefinement.DecidedPassedEveryState` | packages/contracts/src/pr_reliability_contracts/runs.py:23-56 | a published or rejected row was, in order, selecting context, analyzing, verifying and awaiting approval |
| `RunRefinement.UndisturbedRowIsPublished` | workers/src/pr_reliability_workers/workflows/pull_request_review.py:50-118 | the undisturbed run with its row, each stage loading it and verification marking it: the row ends published exactly when the approval is complete, and rejected otherwise |
| `RunLifecycle.RunStore.RequireCurrentRun` | workers/src/pr_reliability_workers/providers/operations.py:669-676 | the stale-commit and base checks, in their order |
| `RunLifecycle.RunStore.LoadActive` | workers/src/pr_reliability_workers/providers/operations.py:367-402 | the row moves to the target, stays if it is further, or is left alone with the error |
| `RunLifecycle.RunStore.MarkAwaiting` | workers/src/pr_reliability_workers/providers/operations.py:576-586 | verifying becomes awaiting approval, awaiting stays, anything else is an error that changes nothing |
| `RunLifecycle.RunStore.RecordOutcome` | workers/src/pr_reliability_workers/providers/operations.py:588-615 | an outcome is stored once with its receipt, a repeated one must agree, a conflicting terminal state is refused |
| `ReviewWorkflow.GenerationsOnlyMoveForward` | workers/src/pr_reliability_workers/workflows/pull_request_review.py:183-200 | for every schedule of signals executed generations strictly increase, a pending supersede is newer than the executing generation, an execution that continues does so as the greatest generation it was offered, and one that returns was offered nothing newer |
| `ReviewWorkflow.RuntimeErrorsAreDead` | workers/src/pr_reliability_workers/workflows/pull_request_review.py:61-118 | none of the three RuntimeError branches is reachable for any schedule of signals and activity results |
| `ReviewWorkflow.PublishFollowsStages` | workers/src/pr_reliability_workers/workflows/pull_request_review.py:61-118 | publish is requested only after select_context, analyze and verify succeeded in that order, each given the previous reference, and for a complete approval of this run and head |
| `ReviewWorkflow.PublishedFollowsPublish` | workers/src/pr_reliability_workers/workflows/pull_request_review.py:104-118 | the published outcome is recorded only right after the publish activity succeeded |
| `ReviewWorkflow.WaitEndsAfterStages` | workers/src/pr_reliability_workers/workflows/pull_request_review.py:76-112 | a rejection or an approval timeout is recorded only right after the three stages succeeded, each given the previous reference |
| `WorkflowProgress.ApprovalDecides` | workers/src/pr_reliability_workers/workflows/pull_request_review.py:93-118 | at the wait without an interrupt, publishing is requested exactly for a complete approval of this run and head, and the rejected record otherwise |
| `WorkflowProgress.UndisturbedRun` | workers/src/pr_reliability_workers/workflows/pull_request_review.py:50-118 | started, with its stages succeeding and a human deciding during the wait or before the start, the run returns published exactly when the approval is complete and rejected otherwise, having requested just the listed activities |
| `WorkflowProgress.ApprovalEnds` | workers/src/pr_reliability_workers/workflows/pull_request_review.py:93-118 | the same from any state of the wait, however it was reached |
| `WorkflowProgress.CancelEnds` | workers/src/pr_reliability_workers/workflows/pull_request_review.py:183-200 | a cancellation during a stage or the wait returns cancelled with the stripped reason, requesting nothing but that record |
| `WorkflowProgress.SupersedeEnds` | workers/src/pr_reliability_workers/workflows/pull_request_review.py:183-200 | a newer generation arriving during a stage or the wait replaces the run, which records its cancellation first |
| `WorkflowProgress.FailureEnds` | workers/src/pr_reliability_workers/workflows/pull_request_review.py:73-117 | a timeout of the wait returns timed out, a failed stage or publish returns failed |
| `WorkflowProgress.CheckFailureEnds` | workers/src/pr_reliability_workers/workflows/pull_request_review.py:61-75 | a failed check update before the stages fails the run |
| `WorkflowProgress.FailedRecordEnds` | workers/src/pr_reliability_workers/workflows/pull_request_review.py:61-96 | a cancellation record that fails becomes a failed record inside the stages and ends the execution with its error after the wait |
| `WorkflowProgress.InterruptStopsPublishing` | workers/src/pr_reliability_workers/workflows/pull_request_review.py:50-118 | once a cancellation or a newer run is pending before publishing was requested, this execution never requests it, whatever follows |
| `ReviewWorkflow.PullRequestReviewWorkflow.ApproveSignal` | workers/src/pr_reliability_workers/workflows/pull_request_review.py:315-318 | an approval is kept before the run starts or when it matches run and head, else dropped |
| `ReviewWorkflow.PullRequestReviewWorkflow.CancelSignal` | workers/src/pr_reliability_workers/workflows/pull_request_review.py:320-322 | the stored reason is the stripped one and never empty |
| `ReviewWorkflow.PullRequestReviewWorkflow.SupersedeSignal` | workers/src/pr_reliability_workers/workflows/pull_request_review.py:324-330 | a newer generation than both the executing and the pending one becomes pending, nothing else does |
| `ReviewWorkflow.PullRequestReviewWorkflow.Run` | workers/src/pr_reliability_workers/workflows/pull_request_review.py:50-60 | starting drops a pending supersede that is not newer and an approval of another run |
| `ReviewWorkflow.PullRequestReviewWorkflow.HonorInterrupt` | workers/src/pr_reliability_workers/workflows/pull_request_review.py:183-192 | a supersede wins over a cancellation, and either requests the cancelled record |
| `ReviewWorkflow.PullRequestReviewWorkflow.StageEnded` | workers/src/pr_reliability_workers/workflows/pull_request_review.py:61-99 | after a stage: interrupt, error, next stage or the wait for a decision |
| `ReviewWorkflow.PullRequestReviewWorkflow.ApprovalWaitEnded` | workers/src/pr_reliability_workers/workflows/pull_request_review.py:93-112 | after the wait: interrupt first; without one, the publish request exactly for an approval that approves, names findings and approvals and has a body reference, and the rejected record otherwise |
| `ReviewWorkflow.PullRequestReviewWorkflow.TerminalRecorded` | workers/src/pr_reliability_workers/workflows/pull_request_review.py:183-200 | after the terminal record the execution continues as the pending run or returns its outcome |
| `CommandOutbox.InvStep` | workers/src/pr_reliability_workers/dispatch.py:109-259 | allocation, selection, skip, send, commit and crash of concurrent dispatchers keep the first-in-first-out invariant of every pull request |
| `CommandOutbox.ReceiptedIsPrefix` | workers/src/pr_reliability_workers/dispatch.py:109-161 | receipted commands of a pull request are a prefix of its commands and each has one receipt, whatever crashes |
| `CommandOutbox.SentGenerationsNeverDecrease` | workers/src/pr_reliability_workers/dispatch.py:175-259 | generations accepted by the workflow service for a pull request never decrease, resends included |
| `CommandOutbox.GenerationsCountUp` | apps/api/src/pr_reliability_api/webhooks/github.py:400-403 | generations of a pull request are 1, 2, 3, ... in command order: one more than there are earlier commands of it, so a later command has a greater one |
| `CommandOutbox.OldestIsEligible` | workers/src/pr_reliability_workers/dispatch.py:109-161 | a command without a receipt always leaves some command of its pull request eligible |
| `CommandOutbox.DispatchCompletes` | workers/src/pr_reliability_workers/dispatch.py:92-259 | one dispatch left alone receipts an eligible command that nobody holds: accepted and sent, or skipped, as its run and the policy say |
| `CommandOutbox.SkippedIff` | workers/src/pr_reliability_workers/dispatch.py:205-259 | whatever newer generations exist, a selected command is skipped exactly when its run is over or policy refuses it, with that reason as its receipt, and can be sent exactly otherwise; refusing it cancels its run exactly if that is queued |
| `CommandOutbox.SupersededIsStillSent` | workers/src/pr_reliability_workers/dispatch.py:175-259 | concrete run: generation 2 exists and generation 1 is still selected, sent and receipted as accepted |
| `CommandOutbox.Outbox.CreateRun` | apps/api/src/pr_reliability_api/webhooks/checks.py:227-302 | the new generation is one more than the greatest of the pull request, and run and command are added together |
| `CommandOutbox.Outbox.DispatchNext` | workers/src/pr_reliability_workers/dispatch.py:92-259 | the oldest eligible command is skipped or sent with the status of its branch, only a queued run is cancelled by policy, and with none eligible nothing changes |
| `CheckRunProjection.InvStep` | workers/src/pr_reliability_workers/activities/checks.py:48-240 | every transaction, provider request and death of an attempt keeps the invariant |
| `CheckRunProjection.AtMostOneCheck` | workers/src/pr_reliability_workers/activities/checks.py:48-79 | at most one remote check exists for the head, and a stored remote id is its id |
| `CheckRunProjection.RowNeverGoesBack` | workers/src/pr_reliability_workers/activities/checks.py:125-240 | the row moves forward in (generation, status rank) order and a remote id never changes once set |
| `CheckRunProjection.StaleRequestWritesNothing` | workers/src/pr_reliability_workers/activities/checks.py:125-186 | a request older than the recorded generation writes nothing remotely |
| `CheckRunProjection.RecordAgrees` | workers/src/pr_reliability_workers/activities/checks.py:197-240 | the record always matches its row, and then row and remote check show the requested state |
| `CheckRunProjection.PreparedIff` | workers/src/pr_reliability_workers/activities/checks.py:95-195 | a request is applied exactly when it starts the row or a newer generation queued, or continues the row's own run with no lower status and something new; skipped exactly when it is older, lower or already applied; refused otherwise |
| `CheckRunProjection.CallShows` | workers/src/pr_reliability_workers/activities/checks.py:48-79 | from every reachable idle state an attempt that applies and is not stopped ends with one remote check and the row showing what was requested, an existing check kept |
| `CheckRunProjection.RunIsProjected` | workers/src/pr_reliability_workers/activities/checks.py:48-240 | a run newer than everything projected before ends, through its three requests, as one completed check with its conclusion |
| `CheckRunProjection.RetryShows` | workers/src/pr_reliability_workers/activities/checks.py:48-79 | an attempt that dies anywhere after its prepare is made good by repeating its request, and no second check appears |
| `CheckRunProjection.GitHubCheckRunOperation.PrepareCheck` | workers/src/pr_reliability_workers/activities/checks.py:95-195 | the decision and the inserted row of each branch |
| `CheckRunProjection.GitHubCheckRunOperation.Call` | workers/src/pr_reliability_workers/activities/checks.py:48-79 | one uninterrupted call: rejected, skipped, or exactly one remote check in the requested state, an existing one reused |
| `InstallationInventory.ActiveWasReadAfterRevocation` | workers/src/pr_reliability_workers/repository_sync.py:17-31 | in every interleaving an active repository was listed by an applied active inventory of its installation whose reconciler had read the revision, and after that read no new delivery of the installation is a deletion or suspension or removes the repository |
| `InstallationInventory.RevocationIsImmediate` | apps/api/src/pr_reliability_api/repositories/lifecycle.py:34-79 | a new delivery that deletes or suspends the installation or removes the repository ends its admission in its own transaction, with the installation stored as deleted or suspended, for known and unknown repositories |
| `InstallationInventory.DeliveryByAction` | apps/api/src/pr_reliability_api/repositories/lifecycle.py:34-79 | what a new delivery leaves, row by row: deleted, suspended or the state before, the next revision, removed repositories, everything else as it was |
| `InstallationInventory.InventoryByRow` | apps/api/src/pr_reliability_api/repositories/store.py:36-105 | what an inventory leaves, row by row: listed repositories active here, the others of the installation and unassigned ones removed, the rest alone; with a stale revision every stored row alone |
| `InstallationInventory.UndisturbedReconciliation` | workers/src/pr_reliability_workers/repository_sync.py:17-31 | a reconciliation that nothing comes between admits exactly what its active inventory lists |
| `InstallationInventory.AppliedInventoryDecides` | apps/api/src/pr_reliability_api/repositories/store.py:36-105 | after an inventory is applied a repository is admitted iff the snapshot is active and lists it |
| `InstallationInventory.DeliveriesOnlyRevoke` | apps/api/src/pr_reliability_api/repositories/lifecycle.py:34-79 | a delivery never makes a repository active |
| `InstallationInventory.DuplicateChangesNothing` | apps/api/src/pr_reliability_api/repositories/lifecycle.py:34-55 | a delivery repeated at any later moment, whatever came between, changes no repository, no installation row and no time of revocation |
| `InstallationInventory.InventoryStore.LockInstallation` | apps/api/src/pr_reliability_api/repositories/store.py:10-20 | the installation row exists afterwards and an existing one is unchanged |
| `InstallationInventory.InventoryStore.Apply` | apps/api/src/pr_reliability_api/repositories/store.py:36-105 | the compare-and-set: with another revision nothing changes, else the listed repositories become active here and the others of the installation removed |
| `InstallationInventory.InventoryStore.ReceiveLifecycle` | apps/api/src/pr_reliability_api/repositories/lifecycle.py:34-79 | a repeated delivery changes nothing; after a new one the installation is deleted or suspended as it says and the repositories it takes away are removed, the revision one higher |
| `WebhookIntake.RegisterIsMaximum` | apps/api/src/pr_reliability_api/webhooks/github.py:287-345 | the stored time and state are the maximum of the initial row and all applied deliveries, by time and with open beating closed |
| `WebhookIntake.RegisterByTime` | apps/api/src/pr_reliability_api/webhooks/github.py:287-345 | the same spelled out: the stored time is the greatest of the applied deliveries and the first row, and the pull request is open exactly when something of that time opened it or kept it open |
| `WebhookIntake.RowComesFromDelivery` | apps/api/src/pr_reliability_api/webhooks/github.py:158-382 | over every run the stored row is the first one or has base, openness and time of one new delivery, and that delivery's head unless it is a push, whose head is where a walk of at most a hundred arrived pushes leads from the pushed one |
| `WebhookIntake.ReceivedByAction` | apps/api/src/pr_reliability_api/webhooks/github.py:287-382 | what a new delivery leaves, by action: its own base, head, openness and time exactly when it replaces the row, else the row as it was, and never a change for an unknown repository |
| `WebhookIntake.AppliedAreTheNew` | apps/api/src/pr_reliability_api/webhooks/github.py:158-229 | the applied deliveries are exactly the valid payloads of the known repository whose id no earlier valid payload carried |
| `WebhookIntake.RegisterConverges` | apps/api/src/pr_reliability_api/webhooks/github.py:287-345 | the same deliveries in any order and with any repetition leave the same time and state |
| `WebhookIntake.ResolveIsLongest` | apps/api/src/pr_reliability_api/webhooks/github.py:348-382 | the recursive query answers the end of a longest walk over distinct commits of at most a hundred pushes, the greatest end on ties |
| `WebhookIntake.ChainConverges` | apps/api/src/pr_reliability_api/webhooks/github.py:287-382 | among any other deliveries, a chain of pushes of the greatest time leaves the head a hundred pushes past the last arrival, hence the end of the chain iff no more remain |
| `WebhookIntake.PermutationConverges` | apps/api/src/pr_reliability_api/webhooks/github.py:287-382 | every permutation of a chain of distinct commits: the exact final head, which is the end of the chain iff at most a hundred pushes follow the last arrival |
| `WebhookIntake.LongChainStopsShort` | apps/api/src/pr_reliability_api/webhooks/github.py:348-382 | concrete chain of 102 pushes, the first arriving last: the head stops one commit short |
| `WebhookIntake.Intake.ResolveHeadSha` | apps/api/src/pr_reliability_api/webhooks/github.py:348-382 | the head of a delivery that is no push is its own; for a push, extending all paths round by round computes the resolved head |
| `WebhookIntake.Intake.UpsertPullRequest` | apps/api/src/pr_reliability_api/webhooks/github.py:277-345 | the conditional upsert and whether the delivery is current |
| `WebhookIntake.Intake.ReceiveWebhook` | apps/api/src/pr_reliability_api/webhooks/github.py:158-229 | deduplication, the stored push, and the upsert only for a known repository; a delivery that is no push leaves its own base, head, openness and time when nothing dated is stored |
| `PathMatcher.SplitJoins` | workers/src/pr_reliability_workers/sandbox/checks.py:325-326 | splitting at slashes loses nothing and leaves none inside a segment |
| `PathMatcher.PathMatches` | workers/src/pr_reliability_workers/sandbox/checks.py:324-339 | the row-by-row table equals the declarative meaning: the path falls into consecutive pieces, one per part, `**` covering any number of segments and any other part exactly one it matches |
| `PathMatcher.NextRow` | workers/src/pr_reliability_workers/sandbox/checks.py:329-338 | one row of the table is the meaning of one more part for every prefix of the path |
| `PathMatcher.GlobStar` | workers/src/pr_reliability_workers/sandbox/checks.py:331-334 | the recurrence of `**` against the declarative meaning |
| `PathMatcher.GlobSegment` | workers/src/pr_reliability_workers/sandbox/checks.py:335-337 | the recurrence of any other part against the declarative meaning |
| `PathMatcher.GlobAppend` | workers/src/pr_reliability_workers/sandbox/checks.py:324-339 | a pattern in two halves matches exactly what can be cut in two that the halves match |
| `PathMatcher.GlobAround` | workers/src/pr_reliability_workers/sandbox/checks.py:331-334 | around a `**` the path starts with what the first half and ends with what the second half matches |
| `PathMatcher.GlobWithoutStar` | workers/src/pr_reliability_workers/sandbox/checks.py:335-337 | without `**` a pattern matches segment by segment, with as many segments as parts |
| `PathMatcher.SkippedIff` | workers/src/pr_reliability_workers/sandbox/checks.py:151-164 | a check is skipped exactly when `.pr-reliability.json` is unchanged and no changed path matches a pattern of it |
| `PathMatcher.AnyMatches` | workers/src/pr_reliability_workers/sandbox/checks.py:160-164 | some changed path matches some pattern, by the declarative meaning |
| `PathMatcher.LoadVerificationPlan` | workers/src/pr_reliability_workers/sandbox/checks.py:131-172 | a plan is made iff there are 1 to 16 admitted checks with distinct names and selected timeouts of at most 900 in total; each check is decided by the configuration file and the declarative match, and the proof timeout is the longest selected one or the default |
| `ContextRendering.AsciiLength` | workers/src/pr_reliability_workers/context/selector.py:30-35 | the estimate of ASCII text is its length divided by three, rounded up |
| `ContextRendering.EscapeGrows` | workers/src/pr_reliability_workers/context/selector.py:174-181 | each further character lengthens the escaped text, which makes fitting monotone |
| `ContextRendering.RecordFormat` | workers/src/pr_reliability_workers/context/selector.py:174-181 | a record is one line of JSON with path, source, truncated and content in this order |
| `ContextRendering.RecordRoundTrip` | workers/src/pr_reliability_workers/context/selector.py:174-181 | unescaping the escaped path and content gives them back, every Unicode character included |
| `ContextRendering.QuotesAreEscaped` | workers/src/pr_reliability_workers/context/selector.py:174-181 | in an escaped text every quote follows a backslash, so it cannot end the string early |
| `ContextSelection.LargestPrefix` | workers/src/pr_reliability_workers/context/selector.py:184-201 | the binary search returns the longest prefix whose truncated record fits, or none |
| `ContextSelection.SelectContext` | workers/src/pr_reliability_workers/context/selector.py:38-132 | a budget below one is refused; else the result is the selection over changed files first and then their dependencies, each sorted, with the earlier exclusions first |
| `ContextSelection.NeverOverBudget` | workers/src/pr_reliability_workers/context/selector.py:94-132 | the rendered text is the records of the selected files in order and within the budget, included counts add up to its total exactly, and none exceeds its original count |
| `ContextSelection.SelectedIsCutBest` | workers/src/pr_reliability_workers/context/selector.py:94-122 | each selected file is a candidate, whole when that fits at its turn, else cut to the longest prefix whose truncated record fits |
| `ContextSelection.EligibleIsSelectedOrExhausted` | workers/src/pr_reliability_workers/context/selector.py:56-123 | every readable, unexcluded changed file and dependency of one is selected or excluded as exhausting the budget, never both |
| `ContextSelection.SelectionIsJustified` | workers/src/pr_reliability_workers/context/selector.py:38-132 | a selected file is a readable, unexcluded changed file or a dependency of one, and its text a prefix of the file's; a path is excluded as missing, by pattern or as ambiguous exactly when it is |
| `ContextSelection.TakenAsFarAsItFits` | workers/src/pr_reliability_workers/context/selector.py:94-122 | a candidate is taken whole when it fits whole, and left out exactly when not even its first character fits; its original count is what the whole record would add |
| `ContextSelection.ExhaustedFitsNothing` | workers/src/pr_reliability_workers/context/selector.py:94-122 | whatever is excluded for the budget did not fit with a single character after the text selected before it |
| `ContextSelection.ChangedFilesComeFirst` | workers/src/pr_reliability_workers/context/selector.py:56-93 | selected changed files come before selected dependencies, each group in increasing order of path |
| `ContextSelection.WholeFileMarkedCut` | workers/src/pr_reliability_workers/context/selector.py:94-122 | a file is marked truncated although whole iff the record with the shorter word `true` fills the budget exactly |
| `ContextSelection.WholeFileIsMarkedCut` | workers/src/pr_reliability_workers/context/selector.py:94-122 | concrete file: one character under a budget of 21 tokens is included whole and marked as cut |
| `OutputBudget.InvStep` | workers/src/pr_reliability_workers/sandbox/docker.py:424-498 | every turn of either reader, of the process and of the waiting task keeps the shared-budget invariant |
| `OutputBudget.BudgetIsConserved` | workers/src/pr_reliability_workers/sandbox/docker.py:424-451 | for every interleaving kept stdout plus kept stderr plus remaining is the limit, and each kept part is a prefix of its stream |
| `OutputBudget.OverflowIsExact` | workers/src/pr_reliability_workers/sandbox/docker.py:453-498 | without a timeout overflow is reported iff more than the limit was produced, and then exactly the limit is kept; otherwise both streams are whole |
| `OutputBudget.CollectionFinishes` | workers/src/pr_reliability_workers/sandbox/docker.py:424-498 | once the process is gone and its streams are closed, from every reachable state the readers and the waiting task can finish, and then report overflow truly |
| `OutputBudget.ReportIsTrueIff` | workers/src/pr_reliability_workers/sandbox/docker.py:453-498 | the overflow flag tells the truth exactly when the run did not time out or nothing overflowed |
| `OutputBudget.TimeoutHidesOverflow` | workers/src/pr_reliability_workers/sandbox/docker.py:462-476 | concrete run: two bytes under a limit of one and then a timeout, with no overflow reported |
| `OutputBudget.Capture.Accept` | workers/src/pr_reliability_workers/sandbox/docker.py:434-446 | a chunk is kept whole, or cut to what remains with the overflow event set; the other stream is untouched |
| `OutputBudget.Capture.NextRead` | workers/src/pr_reliability_workers/sandbox/docker.py:433-434 | the size asked for never exceeds the remaining budget |
| `Redaction.Redact` | packages/evidence/src/pr_reliability_evidence/payload.py:39-58 | the loops compute the specified cut and replacement |
| `Redaction.LongestSecretPrefix` | packages/evidence/src/pr_reliability_evidence/payload.py:48-53 | the nested loops find the longest suffix that is a prefix of any pattern |
| `Redaction.RedactedIsClean` | packages/evidence/src/pr_reliability_evidence/payload.py:39-58 | for patterns free of brackets and U+FFFD that do not occur in the replacement or the marker, none occurs in the redacted text, not even across the marker |
| `Redaction.RedactionIsCleanIff` | packages/evidence/src/pr_reliability_evidence/payload.py:39-58 | for any list of patterns without brackets and U+FFFD, no pattern is ever left in any redacted text iff no pattern occurs in the replacement or in the marker |
| `Redaction.RedactedIsFixed` | packages/evidence/src/pr_reliability_evidence/payload.py:81-91 | redacting again before display changes nothing |
| `Redaction.WholeSecretIsOneMark` | packages/evidence/src/pr_reliability_evidence/payload.py:56-57 | because longer patterns go first, a secret containing another one is replaced as a whole |
| `Redaction.TextOutsideSecretsIsKept` | packages/evidence/src/pr_reliability_evidence/payload.py:39-58 | redaction takes nothing out but pieces that are exactly a pattern, each replaced by `[redacted]`; without any pattern the text is unchanged |
| `Redaction.CutMeans` | packages/evidence/src/pr_reliability_evidence/payload.py:45-55 | truncated text loses at most a beginning of a pattern at its end, with broken characters after it, and exactly when it ends in one |
| `Redaction.MarkedTextIsTruncated` | packages/evidence/src/pr_reliability_evidence/payload.py:39-44 | text ending with the truncation marker is redacted as truncated text in front of it, and keeps the marker |
| `Redaction.LongestFirstElements` | packages/evidence/src/pr_reliability_evidence/payload.py:56 | sorting keeps every pattern with its multiplicity |
| `Redaction.BoundOutput` | packages/evidence/src/pr_reliability_evidence/payload.py:60-75 | one stream is redacted, cut to its share of bytes and redacted again |
| `Redaction.StoredIsClean` | packages/evidence/src/pr_reliability_evidence/payload.py:60-91 | stored text holds no pattern although it was cut after redaction, and displaying it changes nothing |
| `Redaction.StoredIsBounded` | packages/evidence/src/pr_reliability_evidence/payload.py:62-75 | stored text exceeds its share by at most the mark and the marker |
| `Redaction.ShortOutputIsStoredWhole` | packages/evidence/src/pr_reliability_evidence/payload.py:60-75 | output captured whole that holds no secret and fits its share is stored as it is |
| `Redaction.StoredByCase` | packages/evidence/src/pr_reliability_evidence/payload.py:60-75 | stored text is the redacted text when that was captured whole and fits, else its longest fitting prefix, redacted as truncated and marked |
| `JsonExtraction.ExtractJson` | workers/src/pr_reliability_workers/agents/codex_client.py:218-262 | the one-pass scanner computes the specified extraction |
| `JsonExtraction.ExtractsRenderedObject` | workers/src/pr_reliability_workers/agents/codex_client.py:218-262 | for any prefix without an opening brace, any JSON object as RFC 8259 sections 2 to 7 write it, and any suffix, exactly the text of that object is extracted |
| `JsonExtraction.BrokenOffObject` | workers/src/pr_reliability_workers/agents/codex_client.py:254-255 | output that breaks off inside the object yields nothing |
| `JsonExtraction.ExtractedIsFirstClosed` | workers/src/pr_reliability_workers/agents/codex_client.py:226-262 | whatever the output, an extracted text begins at the first brace, closes there for the first time, and parses |
| `JsonExtraction.ValueIsNeutral` | workers/src/pr_reliability_workers/agents/codex_client.py:236-253 | no value inside an object, with any escapes and braces in its strings, closes it or changes its depth |
| `JUnitSummary.MachineIsFold` | packages/evidence/src/pr_reliability_evidence/reports.py:24-63 | a document is accepted iff its root is a suite, no name is namespaced, test cases are not nested and have usable times, and depth and size are bounded; the summary is then the fold over its test cases, each failed iff a failure or error lies inside, else skipped iff a skip does |
| `JUnitSummary.CountersAddUp` | packages/evidence/src/pr_reliability_evidence/reports.py:55-63 | passed plus failed plus skipped is the number of test cases |
| `JUnitSummary.AcceptsMeans` | packages/evidence/src/pr_reliability_evidence/reports.py:24-53 | acceptance in the words of the document: root `testsuite` or `testsuites`, no brace in a name or attribute, test cases with times of 0 to 86400 seconds and none inside another, depth at most 32, at most 20000 elements |
| `JUnitSummary.VerdictMeans` | packages/evidence/src/pr_reliability_evidence/reports.py:49-53 | a test case failed iff a `failure` or `error` lies anywhere inside it, else was skipped iff a `skipped` does |
| `JUnitSummary.AllCasesAreCounted` | packages/evidence/src/pr_reliability_evidence/reports.py:24-77 | the three counters of an accepted report are the numbers of its test cases with each verdict, together all its `testcase` elements |
| `JUnitSummary.MillisecondsAreNearest` | packages/evidence/src/pr_reliability_evidence/reports.py:42-48 | a time becomes the nearest whole number of milliseconds, the even one when two are as near |
| `JUnitSummary.Handlers.HandleStart` | packages/evidence/src/pr_reliability_evidence/reports.py:27-53 | the handler rejects or moves to the state of the machine |
| `JUnitSummary.Handlers.HandleEnd` | packages/evidence/src/pr_reliability_evidence/reports.py:55-63 | closing a test case counts its status and duration |
| `JUnitSummary.SummarizeJunit` | packages/evidence/src/pr_reliability_evidence/reports.py:15-77 | a report of allowed size is summarized iff its document is accepted, with the summary of its test cases |

## Left out

- Isolation levels, indexes and other database engine detail: every transaction is atomic.
- HTTP, tokens, signatures, hashing, encryption and subprocess handling: I/O or library behaviour.
- Audit events, timestamps, metrics, traces and the rest of the admission policy (enabled flag, branches, synchronization within fifteen minutes): the models keep only what the protocols read back.
- Publishing under several idempotency keys at once: each key has its own claim, row and marker, and a well-formed request's key names its run and head.
- Recording of a refused publish request before it has an action row (publish.py:505-541): it only adds an event.
- Text and annotations of a Check Run (checks.py:243-377): presentation.
- Liveness beyond undisturbed continuations: that every run ends, that the newest generation is the newest push, or that a failed outcome means nothing was posted is not what the code guarantees.
- The status shown by the remote Check Run between a remote update and its record: only the row is fenced, as in the source.
- The two generation allocators share one specification; whether a webhook asks for a run at all (an existing run of the head, policy, a closed pull request) is not modelled.
- Validation of configuration files, requests and payloads: malformed input arrives as an absent value or an invalid delivery.
- `fnmatch` on one segment: a parameter of the path matcher.
- Python import resolution and exclusion patterns of the context selector: parameters; paths arrive normalized, and only the default token estimate is modelled.
- Cancellation of an output capture: it raises instead of returning a result.
- JSON parsing of the extracted text: a parameter; the theorem asks that the parser accepts the object's text.
- Floating point in test case times: exact reals, rounded half to even.
- The web interface, dashboard queries, deployment tooling and evaluations: reporting and plumbing.
