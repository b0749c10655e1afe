/**
 The durable review workflow: stages in order, an approval wait, publishing, and replacement by a
 newer generation through continue-as-new.

 Between two awaits the workflow runs alone, so a state is the instance's fields together with the
 await it is suspended at. Signals may arrive at any of them, and before `run` starts.
 */
module ReviewWorkflow {
  import opened Options
  import opened ReviewTables
  import opened Stages = RunLifecycle
  import Fan = ApprovalFanIn

  type Ref = string

  datatype Input = Input(runId: Id, headSha: Id, generation: nat)

  datatype Ending =
    | ContinueAsNew   // `_honor_interrupt` for a superseding run
    | Finish          // `_finish`

  datatype Await =
    | NotStarted(request: Input)
    | UpdatingCheck(inProgress: bool)
    | RunningStage(stage: Stage)
    | DrainingStage(stage: Stage)
    | AwaitingDecision
    | Publishing
    // `guarded`: inside the try block whose handler records a failed review
    | RecordingTerminal(outcome: Outcome, ending: Ending, guarded: bool)
    | UpdatingTerminalCheck(outcome: Outcome, ending: Ending)
    | FinalizingMetrics(outcome: Outcome, ending: Ending)
    | Returned(outcome: Outcome)
    | Continued(next: Input)
    | ActivityErrorEscaped
    | RuntimeErrorRaised

  datatype Entry =
    | StageRequested(stage: Stage, inputRef: Option<Ref>)
    | StageDone(stage: Stage, outputRef: Ref)
    | PublishRequested(approval: Fan.ApprovalSignal)
    | PublishDone
    | TerminalRequested(outcome: Outcome)

  /**
   Fields of one execution. `log` lists the activities it requested and saw succeed, `offers` the
   superseding runs it was sent.
   */
  datatype Execution = Execution(
    input: Option<Input>, approval: Option<Fan.ApprovalSignal>, cancelReason: Option<string>, supersede: Option<Input>,
    checksEnabled: bool, at: Await, log: seq<Entry>, offers: seq<Input>)

  /** A workflow over continue-as-new: the current execution and the generations executed so far. */
  datatype Workflow = Workflow(current: Execution, executed: seq<nat>)

  datatype Event =
    | Approve(approval: Fan.ApprovalSignal)
    | Cancel(reason: string)
    | Supersede(next: Input)
    | StartRun(checksEnabled: bool)
    | ActivitySucceeds(outputRef: Ref)
    | ActivityFails
    | ConditionHolds
    | ApprovalTimeout
    | NextExecution

  // ---------------------------------------------------------------- signals

  function NewExecution(request: Input): Execution {
    Execution(None, None, None, None, false, NotStarted(request), [], [])
  }

  predicate Matches(approval: Fan.ApprovalSignal, input: Input) {
    approval.runId == input.runId && approval.headSha == input.headSha
  }

  function OnApprove(x: Execution, approval: Fan.ApprovalSignal): Execution {
    if x.input.None? || Matches(approval, x.input.value) then x.(approval := Some(approval)) else x
  }

  /** The reason is stored stripped, and never empty. */
  function OnCancel(x: Execution, stripped: string): Execution {
    x.(cancelReason := Some(if stripped == "" then "cancelled" else stripped))
  }

  function Generation(input: Option<Input>): nat {
    if input.Some? then input.value.generation else 0
  }

  function OnSupersede(x: Execution, next: Input): Execution {
    var offered := x.(offers := x.offers + [next]);
    if next.generation > Generation(x.input) && next.generation > Generation(x.supersede)
    then offered.(supersede := Some(next))
    else offered
  }

  // ---------------------------------------------------------------- the run method between awaits

  function OnStartRun(x: Execution, request: Input, checksEnabled: bool): Execution {
    var started := x.(
      input := Some(request),
      supersede := if x.supersede.Some? && x.supersede.value.generation <= request.generation then None else x.supersede,
      approval := if x.approval.Some? && !Matches(x.approval.value, request) then None else x.approval,
      checksEnabled := checksEnabled);
    if checksEnabled then started.(at := UpdatingCheck(false)) else RequestStage(started, SelectContext, None)
  }

  function RequestStage(x: Execution, stage: Stage, inputRef: Option<Ref>): Execution {
    x.(at := RunningStage(stage), log := x.log + [StageRequested(stage, inputRef)])
  }

  function RequestTerminal(x: Execution, outcome: Outcome, ending: Ending, guarded: bool): Execution {
    x.(at := RecordingTerminal(outcome, ending, guarded), log := x.log + [TerminalRequested(outcome)])
  }

  /** The wait conditions test truthiness. */
  predicate Interrupted(x: Execution) {
    (x.cancelReason.Some? && x.cancelReason.value != "") || x.supersede.Some?
  }

  predicate MustHonor(x: Execution) {
    x.supersede.Some? || x.cancelReason.Some?
  }

  function Honor(x: Execution, guarded: bool): Execution
    requires MustHonor(x)
  {
    RequestTerminal(x, OutcomeCancelled, if x.supersede.Some? then ContinueAsNew else Finish, guarded)
  }

  /** After a stage: honour an interrupt, refuse a missing result, or go on with its output reference. */
  function AfterStage(x: Execution, stage: Stage, result: Option<Ref>): Execution {
    var seen := if result.Some? then x.(log := x.log + [StageDone(stage, result.value)]) else x;
    if MustHonor(x) then Honor(seen, true)
    else
      match stage
      case SelectContext => if result.None? then x.(at := RuntimeErrorRaised) else RequestStage(seen, Analyze, result)
      case Analyze => if result.None? then x.(at := RuntimeErrorRaised) else RequestStage(seen, Verify, result)
      case Verify => seen.(at := AwaitingDecision)
  }

  function AfterApprovalWait(x: Execution): Execution {
    if MustHonor(x) then Honor(x, false)
    else if x.approval.None? then x.(at := RuntimeErrorRaised)
    else
      var approval := x.approval.value;
      if !approval.approved then RequestTerminal(x, OutcomeRejected, Finish, false)
      else if approval.findingIds == [] || approval.approvalIds == [] || approval.commentBodyRef.None?
      then RequestTerminal(x, OutcomeRejected, Finish, false)
      else x.(at := Publishing, log := x.log + [PublishRequested(approval)])
  }

  function AfterTerminal(x: Execution, outcome: Outcome, ending: Ending): Execution {
    if x.supersede.Some? then x.(at := Continued(x.supersede.value))
    else if ending.ContinueAsNew? then x.(at := RuntimeErrorRaised)
    else x.(at := Returned(outcome))
  }

  /** The activity the execution waits for has ended; `result` is None when it failed. */
  function OnActivity(x: Execution, result: Option<Ref>): Execution {
    match x.at
    case UpdatingCheck(inProgress) =>
      if result.None? then RequestTerminal(x, OutcomeFailed, Finish, false)
      else if inProgress then RequestStage(x, SelectContext, None)
      else x.(at := UpdatingCheck(true))
    case RunningStage(stage) =>
      if Interrupted(x) then AfterStage(x, stage, None)
      else if result.None? then RequestTerminal(x, OutcomeFailed, Finish, false)
      else AfterStage(x, stage, result)
    case DrainingStage(stage) => AfterStage(x, stage, None)
    case Publishing =>
      if result.None? then RequestTerminal(x, OutcomeFailed, Finish, false)
      else RequestTerminal(x.(log := x.log + [PublishDone]), OutcomePublished, Finish, false)
    case RecordingTerminal(outcome, ending, guarded) =>
      if result.Some? then
        x.(at := if x.checksEnabled then UpdatingTerminalCheck(outcome, ending) else FinalizingMetrics(outcome, ending))
      else if guarded then RequestTerminal(x, OutcomeFailed, Finish, false)
      else x.(at := ActivityErrorEscaped)
    case UpdatingTerminalCheck(outcome, ending) => x.(at := FinalizingMetrics(outcome, ending))
    case FinalizingMetrics(outcome, ending) => AfterTerminal(x, outcome, ending)
    case _ => x
  }

  /** A wait condition of `run` or of a running stage is noticed. */
  function OnCondition(x: Execution): Execution {
    match x.at
    case RunningStage(stage) => if Interrupted(x) then x.(at := DrainingStage(stage)) else x
    case AwaitingDecision => if Interrupted(x) || x.approval.Some? then AfterApprovalWait(x) else x
    case _ => x
  }

  function Step(s: Workflow, e: Event): Workflow {
    var x := s.current;
    match e
    case Approve(approval) => if Closed(x) then s else s.(current := OnApprove(x, approval))
    case Cancel(reason) => if Closed(x) then s else s.(current := OnCancel(x, reason))
    case Supersede(next) => if Closed(x) then s else s.(current := OnSupersede(x, next))
    case StartRun(checksEnabled) =>
      if x.at.NotStarted?
      then Workflow(OnStartRun(x, x.at.request, checksEnabled), s.executed + [x.at.request.generation])
      else s
    case ActivitySucceeds(outputRef) => s.(current := OnActivity(x, Some(outputRef)))
    case ActivityFails => s.(current := OnActivity(x, None))
    case ConditionHolds => s.(current := OnCondition(x))
    case ApprovalTimeout =>
      if x.at.AwaitingDecision? then s.(current := RequestTerminal(x, OutcomeTimedOut, Finish, false)) else s
    case NextExecution => if x.at.Continued? then s.(current := NewExecution(x.at.next)) else s
  }

  /** A closed execution takes no more signals. */
  predicate Closed(x: Execution) {
    x.at.Returned? || x.at.Continued? || x.at.ActivityErrorEscaped? || x.at.RuntimeErrorRaised?
  }

  function Exec(s: Workflow, events: seq<Event>): Workflow {
    if events == [] then s else Step(Exec(s, events[..|events| - 1]), events[|events| - 1])
  }

  ghost predicate Init(s: Workflow) {
    s.executed == [] && s.current.at.NotStarted? && s.current.at.request.generation >= 1
    && s.current == NewExecution(s.current.at.request)
  }

  // ---------------------------------------------------------------- generations

  /** The pending run is the greatest one offered that is newer than `current`, if there is any. */
  ghost predicate PendingIsGreatest(offers: seq<Input>, current: nat, pending: Option<Input>) {
    if pending.Some? then
      pending.value in offers && pending.value.generation > current
      && forall o :: o in offers ==> o.generation <= pending.value.generation
    else forall o :: o in offers ==> o.generation <= current
  }

  ghost predicate Increasing(generations: seq<nat>) {
    forall i, j :: 0 <= i < j < |generations| ==> generations[i] < generations[j]
  }

  ghost predicate GenerationsOk(s: Workflow) {
    var x := s.current;
    && Increasing(s.executed)
    && PendingIsGreatest(x.offers, Generation(x.input), x.supersede)
    && (x.at.NotStarted? <==> x.input.None?)
    && (x.input.Some? ==> s.executed != [] && s.executed[|s.executed| - 1] == x.input.value.generation)
    && (x.at.NotStarted? && s.executed != [] ==> x.at.request.generation > s.executed[|s.executed| - 1])
    && (x.at.Continued? ==> x.supersede == Some(x.at.next))
    && (x.at.Returned? ==> x.supersede.None?)
  }

  /** Going on with `run` changes neither the input nor the pending run. */
  ghost predicate SamePending(x: Execution, y: Execution) {
    && y.input == x.input && y.supersede == x.supersede && y.offers == x.offers
    && (x.at.NotStarted? <==> y.at.NotStarted?)
    && (Closed(x) || x.at.NotStarted? ==> y == x)
    && (!Closed(x) && y.at.Continued? ==> x.supersede == Some(y.at.next))
    && (!Closed(x) && y.at.Returned? ==> x.supersede.None?)
  }

  lemma AfterStageKeepsPending(x: Execution, stage: Stage, result: Option<Ref>)
    requires !Closed(x) && !x.at.NotStarted?
    ensures SamePending(x, AfterStage(x, stage, result))
  {
  }

  lemma ActivityKeepsPending(x: Execution, result: Option<Ref>)
    ensures SamePending(x, OnActivity(x, result))
  {
    hide AfterStage;
    if x.at.RunningStage? || x.at.DrainingStage? {
      AfterStageKeepsPending(x, x.at.stage, None);
      AfterStageKeepsPending(x, x.at.stage, result);
    }
  }

  lemma ConditionKeepsPending(x: Execution)
    ensures SamePending(x, OnCondition(x))
  {
  }

  lemma GenerationsStep(s: Workflow, e: Event)
    requires GenerationsOk(s)
    ensures GenerationsOk(Step(s, e))
  {
    hide OnActivity, OnCondition, RequestStage;
    var x, y := s.current, Step(s, e).current;
    match e {
      case Supersede(next) =>
        if !Closed(x) {
          assert y.offers == x.offers + [next];
        }
      case ActivitySucceeds(outputRef) => ActivityKeepsPending(x, Some(outputRef));
      case ActivityFails => ActivityKeepsPending(x, None);
      case ConditionHolds => ConditionKeepsPending(x);
      case StartRun(checksEnabled) => if x.at.NotStarted? { StartKeepsOffers(x, checksEnabled); }
      case _ =>
    }
  }

  lemma StartKeepsOffers(x: Execution, checksEnabled: bool)
    requires x.at.NotStarted? && PendingIsGreatest(x.offers, 0, x.supersede)
    ensures var y := OnStartRun(x, x.at.request, checksEnabled);
            && PendingIsGreatest(y.offers, x.at.request.generation, y.supersede)
            && y.input == Some(x.at.request) && !y.at.NotStarted? && !Closed(y)
  {
  }

  lemma {:induction false} GenerationsExec(s: Workflow, events: seq<Event>)
    requires Init(s)
    ensures GenerationsOk(Exec(s, events))
  {
    if events != [] {
      hide Step, GenerationsOk;
      GenerationsExec(s, events[..|events| - 1]);
      GenerationsStep(Exec(s, events[..|events| - 1]), events[|events| - 1]);
    } else {
      assert GenerationsOk(s);
    }
  }

  /**
   For every schedule of signals, duplicated, reordered or early: executed generations strictly
   increase, a pending run is newer than the executing one, an execution that continues continues as
   the greatest generation it was offered, and one that returns was offered nothing newer.
   */
  lemma GenerationsOnlyMoveForward(s: Workflow, events: seq<Event>)
    requires Init(s)
    ensures var t := Exec(s, events);
            var x := t.current;
            && Increasing(t.executed)
            && (x.input.Some? && x.supersede.Some? ==> x.supersede.value.generation > x.input.value.generation)
            && (x.at.Continued? ==>
                  && x.at.next in x.offers && x.at.next.generation > Generation(x.input)
                  && forall o :: o in x.offers ==> o.generation <= x.at.next.generation)
            && (x.at.Returned? ==> forall o :: o in x.offers ==> o.generation <= Generation(x.input))
  {
    GenerationsExec(s, events);
    hide Exec;
  }

  // ---------------------------------------------------------------- stage order and dead branches

  function StagesUpTo(refs: seq<Ref>): seq<Entry> {
    if |refs| == 0 then []
    else if |refs| == 1 then [StageRequested(SelectContext, None), StageDone(SelectContext, refs[0])]
    else if |refs| == 2 then
      StagesUpTo(refs[..1]) + [StageRequested(Analyze, Some(refs[0])), StageDone(Analyze, refs[1])]
    else StagesUpTo(refs[..2]) + [StageRequested(Verify, Some(refs[1])), StageDone(Verify, refs[2])]
  }

  /** The log consists of these stages, each requested with the previous one's output. */
  ghost predicate DoneStages(log: seq<Entry>, n: nat) {
    exists refs: seq<Ref> :: |refs| == n && log == StagesUpTo(refs)
  }

  ghost predicate RequestedStage(log: seq<Entry>, stage: Stage) {
    exists refs: seq<Ref> ::
      && |refs| == stage.Number() - 1
      && log == StagesUpTo(refs) + [StageRequested(stage, if refs == [] then None else Some(refs[|refs| - 1]))]
  }

  ghost predicate ReadyToPublish(x: Execution, approval: Fan.ApprovalSignal) {
    && x.input.Some? && Matches(approval, x.input.value) && approval.approved
    && approval.findingIds != [] && approval.approvalIds != [] && approval.commentBodyRef.Some?
  }

  /** Outcomes of the approval wait itself. */
  predicate EndsTheWait(entry: Entry) {
    entry == TerminalRequested(OutcomeRejected) || entry == TerminalRequested(OutcomeTimedOut)
  }

  predicate FollowsItsPredecessor(log: seq<Entry>, i: nat)
    requires i < |log| && log[i].StageRequested?
  {
    log[i].stage != SelectContext ==>
      i >= 1 && log[i - 1].StageDone? && log[i - 1].stage.Number() + 1 == log[i].stage.Number()
  }

  /** Every later stage follows the end of the one before. */
  predicate StagesFollow(log: seq<Entry>) {
    forall i :: 0 <= i < |log| && log[i].StageRequested? ==> FollowsItsPredecessor(log, i)
  }

  /** Every outcome of the approval wait follows exactly the three stages. */
  ghost predicate WaitEndsOk(log: seq<Entry>) {
    forall i :: 0 <= i < |log| && EndsTheWait(log[i]) ==> DoneStages(log[..i], 3)
  }

  /** Every publish request follows exactly the three stages, for a complete approval. */
  ghost predicate PublishesOk(x: Execution, log: seq<Entry>) {
    forall i :: 0 <= i < |log| && log[i].PublishRequested? ==>
      DoneStages(log[..i], 3) && ReadyToPublish(x, log[i].approval)
  }

  /** A published outcome follows a finished publish. */
  predicate PublishedOk(log: seq<Entry>) {
    forall i :: 0 <= i < |log| && log[i] == TerminalRequested(OutcomePublished) ==>
      i >= 2 && log[i - 1] == PublishDone && log[i - 2].PublishRequested?
  }

  ghost predicate LogOk(x: Execution) {
    StagesFollow(x.log) && WaitEndsOk(x.log) && PublishesOk(x, x.log) && PublishedOk(x.log)
  }

  ghost predicate AwaitOk(x: Execution) {
    match x.at
    case NotStarted(_) => x.log == []
    case UpdatingCheck(_) => x.log == []
    case RunningStage(stage) => RequestedStage(x.log, stage)
    case DrainingStage(stage) => RequestedStage(x.log, stage) && Interrupted(x)
    case AwaitingDecision => DoneStages(x.log, 3)
    case Publishing => x.log != [] && x.log[|x.log| - 1].PublishRequested?
    case RecordingTerminal(_, ending, _) => ending.ContinueAsNew? ==> x.supersede.Some?
    case UpdatingTerminalCheck(_, ending) => ending.ContinueAsNew? ==> x.supersede.Some?
    case FinalizingMetrics(_, ending) => ending.ContinueAsNew? ==> x.supersede.Some?
    case RuntimeErrorRaised => false
    case _ => true
  }

  ghost predicate OrderOk(x: Execution) {
    && LogOk(x) && AwaitOk(x)
    && (x.cancelReason.Some? ==> x.cancelReason.value != "")
    && (x.input.Some? && x.approval.Some? ==> Matches(x.approval.value, x.input.value))
    && (x.input.None? <==> x.at.NotStarted?)
  }

  lemma LogGrows(x: Execution, y: Execution, entry: Entry)
    requires LogOk(x) && y.log == x.log + [entry] && y.input == x.input
    requires entry.PublishRequested? ==> DoneStages(x.log, 3) && ReadyToPublish(x, entry.approval)
    requires EndsTheWait(entry) ==> DoneStages(x.log, 3)
    requires entry.StageRequested? ==> FollowsItsPredecessor(x.log + [entry], |x.log|)
    requires entry == TerminalRequested(OutcomePublished) ==>
               |x.log| >= 2 && x.log[|x.log| - 1] == PublishDone && x.log[|x.log| - 2].PublishRequested?
    ensures LogOk(y)
  {
    hide DoneStages;
    StagesGrow(x.log, entry);
    WaitEndsGrow(x.log, entry);
    PublishesGrow(x, y, entry);
  }

  lemma StagesGrow(log: seq<Entry>, entry: Entry)
    requires StagesFollow(log)
    requires entry.StageRequested? ==> FollowsItsPredecessor(log + [entry], |log|)
    ensures StagesFollow(log + [entry])
  {
    forall i | 0 <= i < |log| && log[i].StageRequested?
      ensures FollowsItsPredecessor(log + [entry], i)
    {
      assert FollowsItsPredecessor(log, i);
    }
  }

  lemma WaitEndsGrow(log: seq<Entry>, entry: Entry)
    requires WaitEndsOk(log) && (EndsTheWait(entry) ==> DoneStages(log, 3))
    ensures WaitEndsOk(log + [entry])
  {
    hide DoneStages;
    assert forall i :: 0 <= i <= |log| ==> (log + [entry])[..i] == log[..i];
    assert log[..|log|] == log;
  }

  lemma PublishesGrow(x: Execution, y: Execution, entry: Entry)
    requires PublishesOk(x, x.log) && y.input == x.input
    requires entry.PublishRequested? ==> DoneStages(x.log, 3) && ReadyToPublish(x, entry.approval)
    ensures PublishesOk(y, x.log + [entry])
  {
    hide DoneStages;
    assert forall i :: 0 <= i <= |x.log| ==> (x.log + [entry])[..i] == x.log[..i];
    assert x.log[..|x.log|] == x.log;
  }

  lemma StageSeen(log: seq<Entry>, stage: Stage, outputRef: Ref)
    requires RequestedStage(log, stage)
    ensures DoneStages(log + [StageDone(stage, outputRef)], stage.Number())
    ensures stage != Verify ==>
              RequestedStage(log + [StageDone(stage, outputRef), StageRequested(StageAt(stage.Number() + 1), Some(outputRef))],
                             StageAt(stage.Number() + 1))
  {
    var refs: seq<Ref> :| |refs| == stage.Number() - 1
      && log == StagesUpTo(refs) + [StageRequested(stage, if refs == [] then None else Some(refs[|refs| - 1]))];
    var longer := refs + [outputRef];
    assert longer[..|refs|] == refs;
    assert StagesUpTo(longer) == log + [StageDone(stage, outputRef)];
    var both := [StageDone(stage, outputRef), StageRequested(StageAt(stage.Number() + 1), Some(outputRef))];
    assert log + both == (log + [StageDone(stage, outputRef)]) + [both[1]];
  }

  lemma HonorKeeps(x: Execution, guarded: bool)
    requires MustHonor(x) && LogOk(x) && x.input.Some?
    requires x.cancelReason.Some? ==> x.cancelReason.value != ""
    requires x.approval.Some? ==> Matches(x.approval.value, x.input.value)
    ensures OrderOk(Honor(x, guarded))
  {
    LogGrows(x, Honor(x, guarded), TerminalRequested(OutcomeCancelled));
  }

  lemma TerminalKeeps(x: Execution, outcome: Outcome)
    requires LogOk(x) && x.input.Some?
    requires x.cancelReason.Some? ==> x.cancelReason.value != ""
    requires x.approval.Some? ==> Matches(x.approval.value, x.input.value)
    requires outcome == OutcomePublished ==>
               |x.log| >= 2 && x.log[|x.log| - 1] == PublishDone && x.log[|x.log| - 2].PublishRequested?
    requires EndsTheWait(TerminalRequested(outcome)) ==> DoneStages(x.log, 3)
    ensures OrderOk(RequestTerminal(x, outcome, Finish, false))
  {
    LogGrows(x, RequestTerminal(x, outcome, Finish, false), TerminalRequested(outcome));
  }

  /** A stage that ended without a result was interrupted, so the missing result is never used. */
  lemma AfterStageKeeps(x: Execution, stage: Stage, result: Option<Ref>)
    requires OrderOk(x) && (x.at == RunningStage(stage) || x.at == DrainingStage(stage))
    requires result.None? ==> Interrupted(x)
    ensures OrderOk(AfterStage(x, stage, result))
  {
    hide DoneStages, RequestedStage, LogOk;
    if result.Some? {
      var seen := x.(log := x.log + [StageDone(stage, result.value)]);
      LogGrows(x, seen, StageDone(stage, result.value));
      StageSeen(x.log, stage, result.value);
      if MustHonor(x) {
        HonorKeeps(seen, true);
      } else if stage != Verify {
        var next := StageAt(stage.Number() + 1);
        LogGrows(seen, RequestStage(seen, next, result), StageRequested(next, result));
        assert RequestStage(seen, next, result).log == x.log + [StageDone(stage, result.value), StageRequested(next, result)];
      } else {
        LogSame(seen, seen.(at := AwaitingDecision));
      }
    } else {
      HonorKeeps(x, true);
    }
  }

  lemma LogSame(x: Execution, y: Execution)
    requires LogOk(x) && y.log == x.log && y.input == x.input
    ensures LogOk(y)
  {
  }

  lemma AfterApprovalKeeps(x: Execution)
    requires OrderOk(x) && x.at.AwaitingDecision? && (Interrupted(x) || x.approval.Some?)
    ensures OrderOk(AfterApprovalWait(x))
  {
    hide DoneStages, RequestedStage, LogOk;
    if MustHonor(x) {
      HonorKeeps(x, false);
    } else if AfterApprovalWait(x).at.Publishing? {
      LogGrows(x, AfterApprovalWait(x), PublishRequested(x.approval.value));
    } else {
      TerminalKeeps(x, OutcomeRejected);
    }
  }

  lemma FirstStageKeeps(x: Execution)
    requires x.log == [] && x.input.Some?
    requires x.cancelReason.Some? ==> x.cancelReason.value != ""
    requires x.approval.Some? ==> Matches(x.approval.value, x.input.value)
    ensures OrderOk(RequestStage(x, SelectContext, None))
  {
    var y := RequestStage(x, SelectContext, None);
    assert y.log == StagesUpTo([]) + [StageRequested(SelectContext, None)];
    assert RequestedStage(y.log, SelectContext);
  }

  lemma StageActivityKeeps(x: Execution, result: Option<Ref>)
    requires OrderOk(x) && (x.at.RunningStage? || x.at.DrainingStage?)
    ensures OrderOk(OnActivity(x, result))
  {
    hide DoneStages, RequestedStage, LogOk, AfterStage;
    if Interrupted(x) || x.at.DrainingStage? {
      AfterStageKeeps(x, x.at.stage, None);
    } else if result.None? {
      TerminalKeeps(x, OutcomeFailed);
    } else {
      AfterStageKeeps(x, x.at.stage, result);
    }
  }

  lemma PublishActivityKeeps(x: Execution, result: Option<Ref>)
    requires OrderOk(x) && x.at.Publishing?
    ensures OrderOk(OnActivity(x, result))
  {
    hide DoneStages, RequestedStage, LogOk;
    if result.None? {
      TerminalKeeps(x, OutcomeFailed);
    } else {
      var done := x.(log := x.log + [PublishDone]);
      LogGrows(x, done, PublishDone);
      TerminalKeeps(done, OutcomePublished);
    }
  }

  lemma OnActivityKeeps(x: Execution, result: Option<Ref>)
    requires OrderOk(x)
    ensures OrderOk(OnActivity(x, result))
  {
    hide DoneStages, RequestedStage, LogOk, AfterStage;
    match x.at {
      case UpdatingCheck(inProgress) =>
        if result.None? {
          TerminalKeeps(x, OutcomeFailed);
        } else if inProgress {
          FirstStageKeeps(x);
        } else {
          LogSame(x, x.(at := UpdatingCheck(true)));
        }
      case RunningStage(stage) => StageActivityKeeps(x, result);
      case DrainingStage(stage) => StageActivityKeeps(x, result);
      case Publishing => PublishActivityKeeps(x, result);
      case RecordingTerminal(_, _, guarded) =>
        if result.None? && guarded {
          TerminalKeeps(x, OutcomeFailed);
        } else {
          LogSame(x, OnActivity(x, result));
        }
      case _ => LogSame(x, OnActivity(x, result));
    }
  }

  lemma SignalsKeep(x: Execution, e: Event)
    requires OrderOk(x) && !Closed(x) && (e.Approve? || e.Cancel? || e.Supersede?)
    ensures OrderOk(Step(Workflow(x, []), e).current)
  {
    hide DoneStages, RequestedStage, LogOk;
    LogSame(x, Step(Workflow(x, []), e).current);
  }

  lemma OrderStep(s: Workflow, e: Event)
    requires OrderOk(s.current)
    ensures OrderOk(Step(s, e).current)
  {
    hide DoneStages, RequestedStage, LogOk, AfterStage, AfterApprovalWait, OnActivity;
    var x := s.current;
    match e {
      case StartRun(checksEnabled) =>
        if x.at.NotStarted? {
          StartKeeps(x, checksEnabled);
        }
      case ActivitySucceeds(outputRef) => OnActivityKeeps(x, Some(outputRef));
      case ActivityFails => OnActivityKeeps(x, None);
      case ConditionHolds =>
        if x.at.AwaitingDecision? && (Interrupted(x) || x.approval.Some?) { AfterApprovalKeeps(x); }
        else { LogSame(x, OnCondition(x)); }
      case ApprovalTimeout => if x.at.AwaitingDecision? { TerminalKeeps(x, OutcomeTimedOut); }
      case NextExecution => NewKeeps(x);
      case _ => if !Closed(x) { SignalsKeep(x, e); }
    }
  }

  lemma NewKeeps(x: Execution)
    requires OrderOk(x)
    ensures x.at.Continued? ==> OrderOk(NewExecution(x.at.next))
  {
  }

  lemma StartKeeps(x: Execution, checksEnabled: bool)
    requires OrderOk(x) && x.at.NotStarted?
    ensures OrderOk(OnStartRun(x, x.at.request, checksEnabled))
  {
    hide DoneStages, RequestedStage;
    if !checksEnabled {
      FirstStageKeeps(OnStartRun(x, x.at.request, false).(log := []));
    }
  }

  lemma {:induction false} OrderExec(s: Workflow, events: seq<Event>)
    requires Init(s)
    ensures OrderOk(Exec(s, events).current)
  {
    if events == [] {
      assert OrderOk(s.current);
    } else {
      hide Step, OrderOk;
      OrderExec(s, events[..|events| - 1]);
      OrderStep(Exec(s, events[..|events| - 1]), events[|events| - 1]);
    }
  }

  /** None of the three RuntimeError branches is reachable, whatever signals arrive and when. */
  lemma RuntimeErrorsAreDead(s: Workflow, events: seq<Event>)
    requires Init(s)
    ensures !Exec(s, events).current.at.RuntimeErrorRaised?
  {
    OrderExec(s, events);
    hide Exec;
  }

  /**
   Publish is requested only after select_context, analyze and verify each succeeded, in that order
   and each with the previous output reference, for a complete approval of this run and head.
   */
  lemma PublishFollowsStages(s: Workflow, events: seq<Event>, i: nat)
    requires Init(s) && i < |Exec(s, events).current.log| && Exec(s, events).current.log[i].PublishRequested?
    ensures var x := Exec(s, events).current;
            && (exists a, b, c ::
                  x.log[..i] == [StageRequested(SelectContext, None), StageDone(SelectContext, a),
                                 StageRequested(Analyze, Some(a)), StageDone(Analyze, b),
                                 StageRequested(Verify, Some(b)), StageDone(Verify, c)])
            && var approval := x.log[i].approval;
               && x.input.Some? && approval.runId == x.input.value.runId && approval.headSha == x.input.value.headSha
               && approval.approved && approval.findingIds != [] && approval.approvalIds != [] && approval.commentBodyRef.Some?
  {
    OrderExec(s, events);
    hide Exec;
    var x := Exec(s, events).current;
    var refs: seq<Ref> :| |refs| == 3 && x.log[..i] == StagesUpTo(refs);
    ThreeStages(refs);
  }

  lemma ThreeStages(refs: seq<Ref>)
    requires |refs| == 3
    ensures StagesUpTo(refs) ==
            [StageRequested(SelectContext, None), StageDone(SelectContext, refs[0]),
             StageRequested(Analyze, Some(refs[0])), StageDone(Analyze, refs[1]),
             StageRequested(Verify, Some(refs[1])), StageDone(Verify, refs[2])]
  {
    assert refs[..2][..1] == refs[..1];
    assert StagesUpTo(refs[..1]) == [StageRequested(SelectContext, None), StageDone(SelectContext, refs[0])];
    assert StagesUpTo(refs[..2]) == StagesUpTo(refs[..1]) + [StageRequested(Analyze, Some(refs[0])), StageDone(Analyze, refs[1])];
  }

  /** A published outcome is recorded only right after the publish activity succeeded. */
  lemma PublishedFollowsPublish(s: Workflow, events: seq<Event>, i: nat)
    requires Init(s) && i < |Exec(s, events).current.log|
    requires Exec(s, events).current.log[i] == TerminalRequested(OutcomePublished)
    ensures var log := Exec(s, events).current.log;
            i >= 2 && log[i - 1] == PublishDone && log[i - 2].PublishRequested?
  {
    OrderExec(s, events);
    hide Exec;
  }

  /** A rejection or an approval timeout is recorded only right after the three stages succeeded. */
  lemma WaitEndsAfterStages(s: Workflow, events: seq<Event>, i: nat)
    requires Init(s) && i < |Exec(s, events).current.log|
    requires Exec(s, events).current.log[i].TerminalRequested?
    requires Exec(s, events).current.log[i].outcome in {OutcomeRejected, OutcomeTimedOut}
    ensures exists a, b, c ::
              Exec(s, events).current.log[..i] ==
              [StageRequested(SelectContext, None), StageDone(SelectContext, a),
               StageRequested(Analyze, Some(a)), StageDone(Analyze, b),
               StageRequested(Verify, Some(b)), StageDone(Verify, c)]
  {
    OrderExec(s, events);
    hide Exec;
    var x := Exec(s, events).current;
    assert EndsTheWait(x.log[i]);
    var refs: seq<Ref> :| |refs| == 3 && x.log[..i] == StagesUpTo(refs);
    ThreeStages(refs);
  }

  // ---------------------------------------------------------------- the workflow object

  /** One execution's instance: signal handlers and the parts of `run` between its awaits. */
  class PullRequestReviewWorkflow {
    var input: Option<Input>
    var approval: Option<Fan.ApprovalSignal>
    var cancelReason: Option<string>
    var supersede: Option<Input>
    var checksEnabled: bool
    var at: Await
    var log: seq<Entry>
    ghost var offers: seq<Input>

    constructor (request: Input)
      ensures Fields() == NewExecution(request)
    {
      input, approval, cancelReason, supersede := None, None, None, None;
      checksEnabled, at, log, offers := false, NotStarted(request), [], [];
    }

    ghost function Fields(): Execution
      reads this
    {
      Execution(input, approval, cancelReason, supersede, checksEnabled, at, log, offers)
    }

    method ApproveSignal(signal: Fan.ApprovalSignal)
      modifies this`approval
      ensures Fields() == OnApprove(old(Fields()), signal)
    {
      if input.None? || (signal.runId == input.value.runId && signal.headSha == input.value.headSha) {
        approval := Some(signal);
      }
    }

    method CancelSignal(stripped: string)
      modifies this`cancelReason
      ensures Fields() == OnCancel(old(Fields()), stripped) && cancelReason.value != ""
    {
      cancelReason := Some(stripped);
      if stripped == "" {
        cancelReason := Some("cancelled");
      }
    }

    method SupersedeSignal(next: Input)
      modifies this`supersede, this`offers
      ensures Fields() == OnSupersede(old(Fields()), next)
    {
      offers := offers + [next];
      var currentGeneration := if input.Some? then input.value.generation else 0;
      var pendingGeneration := if supersede.Some? then supersede.value.generation else 0;
      var newest := if currentGeneration < pendingGeneration then pendingGeneration else currentGeneration;
      if next.generation > newest {
        supersede := Some(next);
      }
    }

    /** The start of `run`: drop what arrived early and is not for a newer run or this run's approval. */
    method Run(withChecks: bool)
      requires at.NotStarted?
      modifies this`input, this`supersede, this`approval, this`checksEnabled, this`at, this`log
      ensures Fields() == OnStartRun(old(Fields()), old(at).request, withChecks)
    {
      var request := at.request;
      input := Some(request);
      if supersede.Some? && supersede.value.generation <= request.generation {
        supersede := None;
      }
      if approval.Some? && !Matches(approval.value, request) {
        approval := None;
      }
      checksEnabled := withChecks;
      if checksEnabled {
        at := UpdatingCheck(false);
      } else {
        StartStage(SelectContext, None);
      }
    }

    method StartStage(stage: Stage, inputRef: Option<Ref>)
      modifies this`at, this`log
      ensures Fields() == RequestStage(old(Fields()), stage, inputRef)
    {
      at := RunningStage(stage);
      log := log + [StageRequested(stage, inputRef)];
    }

    /** Whether an interrupt was pending; if so its terminal record has been requested. */
    method HonorInterrupt(guarded: bool) returns (honored: bool)
      modifies this`at, this`log
      ensures honored <==> MustHonor(old(Fields()))
      ensures Fields() == if honored then Honor(old(Fields()), guarded) else old(Fields())
    {
      if supersede.Some? {
        at := RecordingTerminal(OutcomeCancelled, ContinueAsNew, guarded);
        log := log + [TerminalRequested(OutcomeCancelled)];
        return true;
      }
      if cancelReason.Some? {
        at := RecordingTerminal(OutcomeCancelled, Finish, guarded);
        log := log + [TerminalRequested(OutcomeCancelled)];
        return true;
      }
      return false;
    }

    method StageEnded(stage: Stage, result: Option<Ref>)
      modifies this`at, this`log
      ensures Fields() == AfterStage(old(Fields()), stage, result)
    {
      if result.Some? {
        log := log + [StageDone(stage, result.value)];
      }
      var honored := HonorInterrupt(true);
      if honored {
        return;
      }
      if stage == Verify {
        at := AwaitingDecision;
      } else if result.None? {
        at := RuntimeErrorRaised;
      } else {
        StartStage(if stage == SelectContext then Analyze else Verify, result);
      }
    }

    method ApprovalWaitEnded()
      modifies this`at, this`log
      ensures Fields() == AfterApprovalWait(old(Fields()))
      ensures approval.Some? && supersede.None? && cancelReason.None? ==>
                if approval.value.approved && approval.value.findingIds != [] && approval.value.approvalIds != []
                   && approval.value.commentBodyRef.Some?
                then at == Publishing && log == old(log) + [PublishRequested(approval.value)]
                else at == RecordingTerminal(OutcomeRejected, Finish, false)
                     && log == old(log) + [TerminalRequested(OutcomeRejected)]
    {
      var honored := HonorInterrupt(false);
      if honored {
        return;
      }
      if approval.None? {
        at := RuntimeErrorRaised;
        return;
      }
      var signal := approval.value;
      if !signal.approved || signal.findingIds == [] || signal.approvalIds == [] || signal.commentBodyRef.None? {
        at := RecordingTerminal(OutcomeRejected, Finish, false);
        log := log + [TerminalRequested(OutcomeRejected)];
        return;
      }
      at := Publishing;
      log := log + [PublishRequested(signal)];
    }

    /** The end of `_honor_interrupt` or `_finish`, after the terminal record: continue as new, or return. */
    method TerminalRecorded(outcome: Outcome, ending: Ending)
      requires ending.ContinueAsNew? ==> supersede.Some?
      modifies this`at
      ensures Fields() == AfterTerminal(old(Fields()), outcome, ending)
      ensures at == if supersede.Some? then Continued(supersede.value) else Returned(outcome)
    {
      if supersede.Some? {
        at := Continued(supersede.value);
      } else {
        at := Returned(outcome);
      }
    }
  }
}
