/**
 The state column of one run, written by stage activities, the terminal recorder and the dispatcher,
 against the declared transition table.

 An activity attempt may be retried, duplicated or run late, long after its stage is over; each of
 its transactions is one step. The workflow only decides which activities may have been started.
 */
module RunLifecycle {
  import opened Options
  import opened RunContracts

  type Sha = string

  datatype Stage = SelectContext | Analyze | Verify {
    function Target(): RunState {
      match this
      case SelectContext => SelectingContext
      case Analyze => Analyzing
      case Verify => Verifying
    }

    /** Position in the workflow's order, from 1. */
    function Number(): nat {
      match this
      case SelectContext => 1
      case Analyze => 2
      case Verify => 3
    }
  }

  datatype Outcome = OutcomePublished | OutcomeRejected | OutcomeCancelled | OutcomeTimedOut | OutcomeFailed {
    /** The stored state of an outcome; a timeout is stored as a failure. */
    function Stored(): RunState {
      match this
      case OutcomePublished => Published
      case OutcomeRejected => Rejected
      case OutcomeCancelled => Cancelled
      case OutcomeTimedOut => Failed
      case OutcomeFailed => Failed
    }
  }

  datatype StageRequest = StageRequest(headSha: Sha, baseSha: Option<Sha>)

  datatype EventKey = StageCompleted(stage: Stage) | RunCompleted(outcome: Outcome)

  datatype RunRow = RunRow(state: RunState, headSha: Sha, baseSha: Sha, currentHeadSha: Sha, events: map<EventKey, string>)

  datatype RunError = StaleCommit | BaseMismatch | RunIsTerminal | CannotAdvance | ReceiptMismatch | OutcomeConflict

  function StateRank(state: RunState): Option<nat> {
    match state
    case Queued => Some(0)
    case SelectingContext => Some(1)
    case Analyzing => Some(2)
    case Verifying => Some(3)
    case AwaitingApproval => Some(4)
    case _ => None
  }

  // ---------------------------------------------------------------- the transactions

  function CurrentRunError(row: RunRow, request: StageRequest): Option<RunError> {
    if row.headSha != request.headSha || row.currentHeadSha != request.headSha then Some(StaleCommit)
    else if request.baseSha.Some? && request.baseSha.value != row.baseSha then Some(BaseMismatch)
    else None
  }

  function LoadActiveRun(row: RunRow, request: StageRequest, target: RunState): Result<RunRow, RunError>
    requires StateRank(target).Some?
  {
    if CurrentRunError(row, request).Some? then Err(CurrentRunError(row, request).value)
    else if StateRank(row.state).None? then Err(RunIsTerminal)
    else if StateRank(row.state).value > StateRank(target).value then Ok(row)
    else Ok(row.(state := target))
  }

  function RecordStage(row: RunRow, request: StageRequest, stage: Stage, data: string): Result<RunRow, RunError> {
    if CurrentRunError(row, request).Some? then Err(CurrentRunError(row, request).value)
    else if row.state in TERMINAL_RUN_STATES then Err(RunIsTerminal)
    else if StageCompleted(stage) in row.events then
      if row.events[StageCompleted(stage)] == data then Ok(row) else Err(ReceiptMismatch)
    else Ok(row.(events := row.events[StageCompleted(stage) := data]))
  }

  function MarkAwaitingApproval(row: RunRow, request: StageRequest): Result<RunRow, RunError> {
    if CurrentRunError(row, request).Some? then Err(CurrentRunError(row, request).value)
    else if row.state == Verifying then Ok(row.(state := AwaitingApproval))
    else if row.state == AwaitingApproval then Ok(row)
    else Err(CannotAdvance)
  }

  function RecordTerminal(row: RunRow, headSha: Sha, outcome: Outcome, data: string): Result<RunRow, RunError> {
    if row.headSha != headSha then Err(StaleCommit)
    else if RunCompleted(outcome) in row.events then
      if row.events[RunCompleted(outcome)] == data then Ok(row) else Err(ReceiptMismatch)
    else if row.state in TERMINAL_RUN_STATES && row.state != outcome.Stored() then Err(OutcomeConflict)
    else Ok(row.(state := outcome.Stored(), events := row.events[RunCompleted(outcome) := data]))
  }

  /** The dispatcher cancels a run that policy no longer admits, but only while it is queued. */
  function CancelQueued(row: RunRow): RunRow {
    if row.state == Queued then row.(state := Cancelled) else row
  }

  /** One run row, changed in place by the same transactions. */
  class RunStore {
    const headSha: Sha
    const baseSha: Sha
    var state: RunState
    var currentHeadSha: Sha
    var events: map<EventKey, string>

    constructor (headSha: Sha, baseSha: Sha)
      ensures Row() == RunRow(Queued, headSha, baseSha, headSha, map[])
    {
      this.headSha, this.baseSha := headSha, baseSha;
      this.state, this.currentHeadSha, this.events := Queued, headSha, map[];
    }

    ghost function Row(): RunRow
      reads this
    {
      RunRow(state, headSha, baseSha, currentHeadSha, events)
    }

    method RequireCurrentRun(request: StageRequest) returns (error: Option<RunError>)
      ensures error == CurrentRunError(Row(), request)
    {
      if headSha != request.headSha || currentHeadSha != request.headSha {
        return Some(StaleCommit);
      }
      if request.baseSha.Some? && request.baseSha.value != baseSha {
        return Some(BaseMismatch);
      }
      return None;
    }

    method LoadActive(request: StageRequest, target: RunState) returns (error: Option<RunError>)
      requires StateRank(target).Some?
      modifies this`state
      ensures match LoadActiveRun(old(Row()), request, target)
              case Ok(row) => error == None && Row() == row
              case Err(e) => error == Some(e) && Row() == old(Row())
    {
      error := RequireCurrentRun(request);
      if error.Some? {
        return;
      }
      var currentRank := StateRank(state);
      if currentRank.None? {
        return Some(RunIsTerminal);
      }
      if currentRank.value > StateRank(target).value {
        return None;
      }
      state := target;
    }

    method MarkAwaiting(request: StageRequest) returns (error: Option<RunError>)
      modifies this`state
      ensures match MarkAwaitingApproval(old(Row()), request)
              case Ok(row) => error == None && Row() == row
              case Err(e) => error == Some(e) && Row() == old(Row())
    {
      error := RequireCurrentRun(request);
      if error.Some? {
        return;
      }
      if state == Verifying {
        state := AwaitingApproval;
      } else if state != AwaitingApproval {
        error := Some(CannotAdvance);
      }
    }

    method RecordOutcome(headSha: Sha, outcome: Outcome, data: string) returns (error: Option<RunError>)
      modifies this`state, this`events
      ensures match RecordTerminal(old(Row()), headSha, outcome, data)
              case Ok(row) => error == None && Row() == row
              case Err(e) => error == Some(e) && Row() == old(Row())
    {
      if this.headSha != headSha {
        return Some(StaleCommit);
      }
      var key := RunCompleted(outcome);
      if key in events {
        return if events[key] != data then Some(ReceiptMismatch) else None;
      }
      if state in TERMINAL_RUN_STATES && state != outcome.Stored() {
        return Some(OutcomeConflict);
      }
      state := outcome.Stored();
      events := events[key := data];
      return None;
    }
  }

  // ---------------------------------------------------------------- any transactions, in any order

  datatype Transaction =
    | Load(stage: Stage, request: StageRequest)
    | Complete(stage: Stage, request: StageRequest, data: string)
    | Mark(request: StageRequest)
    | Terminate(headSha: Sha, outcome: Outcome, data: string)
    | PolicyCancel
    | MoveHead(sha: Sha)

  function RowOr(result: Result<RunRow, RunError>, row: RunRow): RunRow {
    if result.Ok? then result.value else row
  }

  function Apply(row: RunRow, t: Transaction): RunRow {
    match t
    case Load(stage, request) => RowOr(LoadActiveRun(row, request, stage.Target()), row)
    case Complete(stage, request, data) => RowOr(RecordStage(row, request, stage, data), row)
    case Mark(request) => RowOr(MarkAwaitingApproval(row, request), row)
    case Terminate(headSha, outcome, data) => RowOr(RecordTerminal(row, headSha, outcome, data), row)
    case PolicyCancel => CancelQueued(row)
    case MoveHead(sha) => row.(currentHeadSha := sha)
  }

  function ApplyAll(row: RunRow, ts: seq<Transaction>): RunRow {
    if ts == [] then row else Apply(ApplyAll(row, ts[..|ts| - 1]), ts[|ts| - 1])
  }

  /** Later in the life of a run: the same terminal state, or at least the same rank. */
  predicate NotBefore(earlier: RunState, later: RunState) {
    if earlier in TERMINAL_RUN_STATES then later == earlier
    else later in TERMINAL_RUN_STATES
         || (StateRank(later).Some? && StateRank(earlier).Some? && StateRank(later).value >= StateRank(earlier).value)
  }

  lemma NoTransactionGoesBack(row: RunRow, t: Transaction)
    ensures NotBefore(row.state, Apply(row, t).state)
  {
  }

  /**
   Whatever is retried, duplicated or late, without any order between activities: the rank of the
   stored state never falls, and a terminal state never changes.
   */
  lemma {:induction false} StateNeverGoesBack(row: RunRow, ts: seq<Transaction>, n: nat)
    requires n <= |ts|
    ensures NotBefore(ApplyAll(row, ts[..n]).state, ApplyAll(row, ts).state)
    decreases |ts|
  {
    hide Apply;
    if n == |ts| {
      assert ts[..n] == ts;
    } else {
      var front := ts[..|ts| - 1];
      assert front[..n] == ts[..n];
      StateNeverGoesBack(row, front, n);
      NoTransactionGoesBack(ApplyAll(row, front), ts[|ts| - 1]);
    }
  }

  /**
   Order is needed for more: `_load_active_run` alone commits an edge of the table, or no change,
   exactly when the run is at most one stage behind the target.
   */
  lemma LoadIsEdgeIffInOrder(row: RunRow, request: StageRequest, stage: Stage)
    requires LoadActiveRun(row, request, stage.Target()).Ok?
    ensures EdgeOrStutter(row.state, LoadActiveRun(row, request, stage.Target()).value.state)
       <==> StateRank(row.state).value + 1 >= stage.Number()
  {
  }

  /** A verify attempt on a queued run would jump over two states. */
  lemma OutOfOrderLoadSkips(sha: Sha)
    ensures var row := RunRow(Queued, sha, sha, sha, map[]);
            var after := Apply(row, Load(Verify, StageRequest(sha, None)));
            after.state == Verifying && !EdgeOrStutter(row.state, after.state)
  {
  }

  // ---------------------------------------------------------------- what each transaction does, state by state

  /** The request names the run's commit, which is still the pull request's head, and its base if it names one. */
  predicate IsCurrent(row: RunRow, request: StageRequest) {
    request.headSha == row.headSha == row.currentHeadSha && (request.baseSha.Some? ==> request.baseSha.value == row.baseSha)
  }

  /** Loading succeeds exactly for a current request on a run that is not over, and pulls only lagging runs forward. */
  lemma LoadByState(row: RunRow, request: StageRequest, stage: Stage)
    ensures var r := LoadActiveRun(row, request, stage.Target());
            && (r.Ok? <==> IsCurrent(row, request) && row.state !in {Published, Rejected, Failed, Cancelled})
            && (r.Ok? ==>
                  r.value == row.(state :=
                    match stage
                    case SelectContext => if row.state == Queued then SelectingContext else row.state
                    case Analyze => if row.state in {Queued, SelectingContext} then Analyzing else row.state
                    case Verify => if row.state in {Queued, SelectingContext, Analyzing} then Verifying else row.state))
  {
  }

  lemma MarkByState(row: RunRow, request: StageRequest)
    ensures var r := MarkAwaitingApproval(row, request);
            && (r.Ok? <==> IsCurrent(row, request) && row.state in {Verifying, AwaitingApproval})
            && (r.Ok? ==> r.value == row.(state := AwaitingApproval))
  {
  }

  /** A stage result is stored once, and the same result is accepted again. */
  lemma StageIsRecordedOnce(row: RunRow, request: StageRequest, stage: Stage, data: string)
    ensures var r, key := RecordStage(row, request, stage, data), StageCompleted(stage);
            && (r.Ok? <==> IsCurrent(row, request) && row.state !in {Published, Rejected, Failed, Cancelled}
                           && (key in row.events ==> row.events[key] == data))
            && (r.Ok? ==> r.value == row.(events := row.events[key := data]))
  {
    if StageCompleted(stage) in row.events && row.events[StageCompleted(stage)] == data {
      assert row.events[StageCompleted(stage) := data] == row.events;
    }
  }

  /** An outcome is stored on the run's commit unless the run is over differently, and its receipt is replayed. */
  lemma TerminalByOutcome(row: RunRow, headSha: Sha, outcome: Outcome, data: string)
    ensures var r, key := RecordTerminal(row, headSha, outcome, data), RunCompleted(outcome);
            var final := match outcome
                         case OutcomePublished => Published
                         case OutcomeRejected => Rejected
                         case OutcomeCancelled => Cancelled
                         case OutcomeTimedOut => Failed
                         case OutcomeFailed => Failed;
            && (key in row.events ==>
                  && (r.Ok? <==> row.headSha == headSha && row.events[key] == data)
                  && (r.Ok? ==> r.value == row))
            && (key !in row.events ==>
                  && (r.Ok? <==> row.headSha == headSha
                                 && (row.state in {Published, Rejected, Failed, Cancelled} ==> row.state == final))
                  && (r.Ok? ==> r.value == row.(state := final, events := row.events[key := data])))
  {
  }

  lemma PolicyCancelsOnlyQueued(row: RunRow)
    ensures CancelQueued(row) == if row.state == Queued then row.(state := Cancelled) else row
    ensures row.state != Queued ==> Apply(row, PolicyCancel) == row
    ensures row.state == Queued ==> Apply(row, PolicyCancel).state == Cancelled
  {
  }

  function StageAt(number: nat): Stage {
    if number <= 1 then SelectContext else if number == 2 then Analyze else Verify
  }
}
