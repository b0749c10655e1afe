/**
 One execution of the review workflow together with the row of its run.

 Attempts of an activity exist once the workflow has requested it, and may be retried, duplicated or
 arbitrarily late; each of their transactions is one event. The workflow sees an activity succeed only
 after the transactions that its successful attempt ends with.
 */
module RunRefinement {
  import opened Options
  import opened RunContracts
  import opened RunLifecycle
  import Flow = ReviewWorkflow
  import Fan = ApprovalFanIn
  import Progress = WorkflowProgress

  /**
   `loaded` and `marked` remember which stages some attempt loaded the run for and whether one marked
   it as awaiting approval, `recorded` which outcomes some attempt recorded.
   */
  datatype State = State(flow: Flow.Workflow, row: RunRow, loaded: set<Stage>, marked: bool, recorded: set<Outcome>)

  datatype Event = Workflow(e: Flow.Event) | Attempt(t: Transaction)

  predicate StageIsRequested(log: seq<Flow.Entry>, stage: Stage) {
    exists i :: 0 <= i < |log| && log[i].StageRequested? && log[i].stage == stage
  }

  predicate StageIsDone(log: seq<Flow.Entry>, stage: Stage) {
    exists i :: 0 <= i < |log| && log[i].StageDone? && log[i].stage == stage
  }

  /** Whether attempts with this transaction exist; policy and pushes need no activity. */
  predicate IsRequested(log: seq<Flow.Entry>, t: Transaction) {
    match t
    case Load(stage, _) => StageIsRequested(log, stage)
    case Complete(stage, _, _) => StageIsRequested(log, stage)
    case Mark(_) => StageIsRequested(log, Verify)
    case Terminate(_, outcome, _) => Flow.TerminalRequested(outcome) in log
    case PolicyCancel => true
    case MoveHead(_) => true
  }

  predicate StageCanSucceed(s: State, stage: Stage) {
    stage in s.loaded && (stage == Verify ==> s.marked)
  }

  predicate CanHappen(s: State, e: Flow.Event) {
    match e
    case ActivitySucceeds(_) =>
      (match s.flow.current.at
       case RunningStage(stage) => StageCanSucceed(s, stage)
       case DrainingStage(stage) => StageCanSucceed(s, stage)
       case RecordingTerminal(outcome, _, _) => outcome in s.recorded
       case _ => true)
    // the next execution is another run, with its own row
    case NextExecution => false
    case _ => true
  }

  function AfterAttempt(s: State, t: Transaction): State {
    var u := s.(row := Apply(s.row, t));
    match t
    case Load(stage, request) =>
      if LoadActiveRun(s.row, request, stage.Target()).Ok? then u.(loaded := s.loaded + {stage}) else u
    case Mark(request) => if MarkAwaitingApproval(s.row, request).Ok? then u.(marked := true) else u
    case Terminate(headSha, outcome, data) =>
      if RecordTerminal(s.row, headSha, outcome, data).Ok? then u.(recorded := s.recorded + {outcome}) else u
    case _ => u
  }

  function Step(s: State, e: Event): State {
    match e
    case Workflow(f) => if CanHappen(s, f) then s.(flow := Flow.Step(s.flow, f)) else s
    case Attempt(t) => if IsRequested(s.flow.current.log, t) then AfterAttempt(s, t) else s
  }

  function Exec(s: State, events: seq<Event>): State {
    if events == [] then s else Step(Exec(s, events[..|events| - 1]), events[|events| - 1])
  }

  /** A queued run without receipts, and its execution before it starts. */
  ghost predicate Init(s: State) {
    && Flow.Init(s.flow)
    && s.row.state == Queued && s.row.events == map[]
    && s.loaded == {} && !s.marked && s.recorded == {}
  }

  // ---------------------------------------------------------------- what the workflow's log grows by

  /** The log is extended, with ends of stages only of `stage`. */
  predicate Extends(log: seq<Flow.Entry>, longer: seq<Flow.Entry>, stage: Option<Stage>) {
    && log <= longer
    && forall i :: |log| <= i < |longer| && longer[i].StageDone? ==> stage == Some(longer[i].stage)
  }

  lemma AfterStageExtends(x: Flow.Execution, stage: Stage, result: Option<Flow.Ref>)
    ensures Extends(x.log, Flow.AfterStage(x, stage, result).log, if result.Some? then Some(stage) else None)
  {
  }

  lemma ActivityExtends(x: Flow.Execution, result: Option<Flow.Ref>)
    ensures Extends(x.log, Flow.OnActivity(x, result).log,
                    if result.Some? && x.at.RunningStage? then Some(x.at.stage) else None)
  {
    hide Flow.AfterStage;
    if x.at.RunningStage? || x.at.DrainingStage? {
      AfterStageExtends(x, x.at.stage, None);
      AfterStageExtends(x, x.at.stage, result);
    }
  }

  lemma ConditionExtends(x: Flow.Execution)
    ensures Extends(x.log, Flow.OnCondition(x).log, None)
  {
  }

  lemma StepExtends(x: Flow.Workflow, e: Flow.Event)
    requires !e.NextExecution?
    ensures Extends(x.current.log, Flow.Step(x, e).current.log,
                    if e.ActivitySucceeds? && x.current.at.RunningStage? then Some(x.current.at.stage) else None)
  {
    hide Flow.OnActivity, Flow.OnCondition;
    match e {
      case ActivitySucceeds(outputRef) => ActivityExtends(x.current, Some(outputRef));
      case ActivityFails => ActivityExtends(x.current, None);
      case ConditionHolds => ConditionExtends(x.current);
      case _ =>
    }
  }

  /** Only a running stage that succeeds adds its end. */
  lemma LogGrowsBy(x: Flow.Workflow, e: Flow.Event, stage: Stage)
    requires !e.NextExecution?
    ensures x.current.log <= Flow.Step(x, e).current.log
    ensures StageIsDone(Flow.Step(x, e).current.log, stage) ==>
              StageIsDone(x.current.log, stage) || (e.ActivitySucceeds? && x.current.at == Flow.RunningStage(stage))
  {
    hide Flow.Step;
    StepExtends(x, e);
    var log, longer := x.current.log, Flow.Step(x, e).current.log;
    if StageIsDone(longer, stage) {
      var i :| 0 <= i < |longer| && longer[i].StageDone? && longer[i].stage == stage;
      if i < |log| {
        assert log[i] == longer[i];
      }
    }
  }

  lemma RequestedStays(log: seq<Flow.Entry>, longer: seq<Flow.Entry>, outcome: Outcome)
    requires log <= longer && Flow.TerminalRequested(outcome) in log
    ensures Flow.TerminalRequested(outcome) in longer
  {
    var i :| 0 <= i < |log| && log[i] == Flow.TerminalRequested(outcome);
    assert longer[i] == log[i];
  }

  /** The activity for the terminal record is over, so its record was seen to succeed. */
  function RecordSeen(at: Flow.Await): Option<Outcome> {
    match at
    case UpdatingTerminalCheck(outcome, _) => Some(outcome)
    case FinalizingMetrics(outcome, _) => Some(outcome)
    case Returned(outcome) => Some(outcome)
    case _ => None
  }

  // ---------------------------------------------------------------- the invariant

  predicate AtLeast(state: RunState, rank: nat) {
    state in TERMINAL_RUN_STATES || (StateRank(state).Some? && StateRank(state).value >= rank)
  }

  /** How far the row must have come for what the attempts have done. */
  ghost predicate RowOk(s: State) {
    && (forall stage :: stage in s.loaded ==> AtLeast(s.row.state, stage.Number()))
    && (s.marked ==> AtLeast(s.row.state, 4))
    && (forall outcome :: outcome in s.recorded ==> s.row.state == outcome.Stored())
    && (forall outcome :: RunCompleted(outcome) in s.row.events ==> s.row.state == outcome.Stored())
    && (s.row.state == Published ==> Flow.TerminalRequested(OutcomePublished) in s.flow.current.log)
  }

  ghost predicate Inv(s: State) {
    && Flow.OrderOk(s.flow.current)
    && RowOk(s)
    && (forall stage :: StageIsDone(s.flow.current.log, stage) ==> StageCanSucceed(s, stage))
    && (RecordSeen(s.flow.current.at).Some? ==> RecordSeen(s.flow.current.at).value in s.recorded)
    && (s.flow.current.at.Continued? ==> s.recorded != {})
  }

  /** A requested stage follows the end of the stage before it. */
  lemma RequestedAfter(s: State, stage: Stage)
    requires Inv(s) && StageIsRequested(s.flow.current.log, stage) && stage != SelectContext
    ensures StageCanSucceed(s, StageAt(stage.Number() - 1))
  {
    var log := s.flow.current.log;
    var i :| 0 <= i < |log| && log[i].StageRequested? && log[i].stage == stage;
    assert Flow.FollowsItsPredecessor(log, i);
    assert log[i - 1].StageDone? && log[i - 1].stage == StageAt(stage.Number() - 1);
    assert StageIsDone(log, StageAt(stage.Number() - 1));
  }

  lemma ThreeStagesDone(s: State, i: nat)
    requires Inv(s) && i <= |s.flow.current.log| && Flow.DoneStages(s.flow.current.log[..i], 3)
    ensures s.marked
  {
    var log := s.flow.current.log;
    var refs: seq<Flow.Ref> :| |refs| == 3 && log[..i] == Flow.StagesUpTo(refs);
    Flow.ThreeStages(refs);
    assert log[..i][5] == log[5] == Flow.StageDone(Verify, refs[2]);
    assert StageIsDone(log, Verify);
  }

  /** A published or rejected outcome is requested only when the run was marked. */
  lemma DecidedAfterMark(s: State, outcome: Outcome)
    requires Inv(s) && Flow.TerminalRequested(outcome) in s.flow.current.log
    requires outcome == OutcomePublished || outcome == OutcomeRejected
    ensures s.marked
  {
    var log := s.flow.current.log;
    var i :| 0 <= i < |log| && log[i] == Flow.TerminalRequested(outcome);
    if outcome == OutcomeRejected {
      assert Flow.EndsTheWait(log[i]);
      ThreeStagesDone(s, i);
    } else {
      assert log[i - 2].PublishRequested?;
      ThreeStagesDone(s, i - 2);
    }
  }

  // ---------------------------------------------------------------- every step

  lemma AttemptIsEdge(s: State, t: Transaction)
    requires Inv(s) && IsRequested(s.flow.current.log, t)
    ensures EdgeOrStutter(s.row.state, Apply(s.row, t).state)
  {
    hide Flow.OrderOk;
    if t.Load? && t.stage != SelectContext {
      RequestedAfter(s, t.stage);
    }
    if t.Terminate? && (t.outcome == OutcomePublished || t.outcome == OutcomeRejected) {
      DecidedAfterMark(s, t.outcome);
    }
  }

  lemma StepIsEdge(s: State, e: Event)
    requires Inv(s)
    ensures EdgeOrStutter(s.row.state, Step(s, e).row.state)
  {
    hide Inv, Flow.Step, Apply;
    if e.Attempt? && IsRequested(s.flow.current.log, e.t) {
      AttemptIsEdge(s, e.t);
    }
  }

  lemma ApplyKeepsRank(row: RunRow, t: Transaction, rank: nat)
    requires AtLeast(row.state, rank)
    ensures AtLeast(Apply(row, t).state, rank)
  {
  }

  lemma ApplyKeepsOutcome(row: RunRow, t: Transaction, outcome: Outcome)
    requires row.state == outcome.Stored()
    ensures Apply(row, t).state == outcome.Stored()
  {
  }

  lemma AttemptKeepsRow(s: State, t: Transaction)
    requires RowOk(s) && IsRequested(s.flow.current.log, t)
    ensures RowOk(AfterAttempt(s, t))
  {
    hide AtLeast;
    var u := AfterAttempt(s, t);
    forall stage | stage in u.loaded
      ensures AtLeast(u.row.state, stage.Number())
    {
      if stage in s.loaded {
        ApplyKeepsRank(s.row, t, stage.Number());
      } else {
        LoadReaches(s.row, t);
      }
    }
    if u.marked {
      if s.marked {
        ApplyKeepsRank(s.row, t, 4);
      } else {
        MarkReaches(s.row, t);
      }
    }
    hide Apply;
    forall outcome | outcome in u.recorded || RunCompleted(outcome) in u.row.events
      ensures u.row.state == outcome.Stored()
    {
      OutcomeKept(s, t, outcome);
    }
    if u.row.state == Published {
      PublishedKept(s, t);
    }
  }

  lemma LoadReaches(row: RunRow, t: Transaction)
    requires t.Load? && LoadActiveRun(row, t.request, t.stage.Target()).Ok?
    ensures AtLeast(Apply(row, t).state, t.stage.Number())
  {
  }

  lemma MarkReaches(row: RunRow, t: Transaction)
    requires t.Mark? && MarkAwaitingApproval(row, t.request).Ok?
    ensures AtLeast(Apply(row, t).state, 4)
  {
  }

  lemma OutcomeKept(s: State, t: Transaction, outcome: Outcome)
    requires RowOk(s)
    requires outcome in AfterAttempt(s, t).recorded || RunCompleted(outcome) in Apply(s.row, t).events
    ensures Apply(s.row, t).state == outcome.Stored()
  {
    hide AtLeast;
    if outcome in s.recorded || RunCompleted(outcome) in s.row.events {
      ApplyKeepsOutcome(s.row, t, outcome);
    }
  }

  lemma PublishedKept(s: State, t: Transaction)
    requires RowOk(s) && IsRequested(s.flow.current.log, t) && Apply(s.row, t).state == Published
    ensures Flow.TerminalRequested(OutcomePublished) in s.flow.current.log
  {
    hide AtLeast;
  }

  lemma InvAttempt(s: State, t: Transaction)
    requires Inv(s) && IsRequested(s.flow.current.log, t)
    ensures Inv(AfterAttempt(s, t))
  {
    hide Flow.OrderOk, RowOk, Apply;
    AttemptKeepsRow(s, t);
  }

  lemma StagesStaySucceeded(s: State, e: Flow.Event, stage: Stage)
    requires Inv(s) && CanHappen(s, e) && StageIsDone(Flow.Step(s.flow, e).current.log, stage)
    ensures StageCanSucceed(s, stage)
  {
    hide Flow.Step, Flow.OrderOk, RowOk, StageIsDone, StageCanSucceed;
    LogGrowsBy(s.flow, e, stage);
  }

  lemma LongerLogKeepsRow(s: State, flow: Flow.Workflow)
    requires RowOk(s) && s.flow.current.log <= flow.current.log
    ensures RowOk(s.(flow := flow))
  {
    hide AtLeast;
    if s.row.state == Published {
      RequestedStays(s.flow.current.log, flow.current.log, OutcomePublished);
    }
  }

  lemma InvWorkflow(s: State, e: Flow.Event)
    requires Inv(s) && CanHappen(s, e)
    ensures Inv(Step(s, Workflow(e)))
  {
    hide Flow.Step, Flow.OrderOk, RowOk, StageIsDone;
    Flow.OrderStep(s.flow, e);
    forall stage: Stage | StageIsDone(Flow.Step(s.flow, e).current.log, stage)
      ensures StageCanSucceed(s, stage)
    {
      StagesStaySucceeded(s, e, stage);
    }
    RecordSeenKept(s, e);
    LogGrowsBy(s.flow, e, Verify);
    LongerLogKeepsRow(s, Flow.Step(s.flow, e));
  }

  /** Only the end of the terminal record moves the workflow past it, and only from there it ends. */
  lemma SeenOnlyAfterRecord(x: Flow.Execution, result: Option<Flow.Ref>)
    ensures var y := Flow.OnActivity(x, result);
            && (RecordSeen(y.at).Some? ==>
                  RecordSeen(x.at) == RecordSeen(y.at)
                  || (result.Some? && x.at.RecordingTerminal? && x.at.outcome == RecordSeen(y.at).value))
            && (y.at.Continued? ==> x.at.Continued? || RecordSeen(x.at).Some?)
  {
  }

  lemma ElsewhereNothingIsSeen(x: Flow.Workflow, e: Flow.Event)
    requires !e.ActivitySucceeds? && !e.ActivityFails? && !e.NextExecution?
    ensures var y := Flow.Step(x, e).current;
            && (RecordSeen(y.at).Some? ==> RecordSeen(x.current.at) == RecordSeen(y.at))
            && (y.at.Continued? ==> x.current.at.Continued?)
  {
    hide Flow.OnActivity;
  }

  lemma RecordSeenKept(s: State, e: Flow.Event)
    requires Inv(s) && CanHappen(s, e)
    ensures var at := Flow.Step(s.flow, e).current.at;
            && (RecordSeen(at).Some? ==> RecordSeen(at).value in s.recorded)
            && (at.Continued? ==> s.recorded != {})
  {
    hide RowOk, Flow.OrderOk, Flow.OnActivity, Flow.OnCondition, StageIsDone, StageCanSucceed;
    match e {
      case ActivitySucceeds(outputRef) => SeenOnlyAfterRecord(s.flow.current, Some(outputRef));
      case ActivityFails => SeenOnlyAfterRecord(s.flow.current, None);
      case _ => ElsewhereNothingIsSeen(s.flow, e);
    }
  }

  lemma InvStep(s: State, e: Event)
    requires Inv(s)
    ensures Inv(Step(s, e))
  {
    hide Inv, Flow.Step, AfterAttempt;
    match e {
      case Workflow(f) =>
        if CanHappen(s, f) {
          InvWorkflow(s, f);
        }
      case Attempt(t) =>
        if IsRequested(s.flow.current.log, t) {
          InvAttempt(s, t);
        }
    }
  }

  lemma {:induction false} InvExec(s: State, events: seq<Event>)
    requires Init(s)
    ensures Inv(Exec(s, events))
  {
    if events == [] {
      assert Flow.OrderOk(s.flow.current);
    } else {
      hide Step, Inv;
      InvExec(s, events[..|events| - 1]);
      InvStep(Exec(s, events[..|events| - 1]), events[|events| - 1]);
    }
  }

  // ---------------------------------------------------------------- main results, over every run

  /**
   Whatever signals, failures, retries and late attempts occur, every committed change of the row is an
   edge of the declared table, because attempts exist only for what the workflow requested.
   */
  lemma RowRefinesTable(s: State, events: seq<Event>, n: nat)
    requires Init(s) && n < |events|
    ensures EdgeOrStutter(Exec(s, events[..n]).row.state, Exec(s, events[..n + 1]).row.state)
  {
    hide Step, Inv;
    InvExec(s, events[..n]);
    StepIsEdge(Exec(s, events[..n]), events[n]);
    assert events[..n + 1][..n] == events[..n];
  }

  /** A row reads published only if the workflow saw the publish activity it had requested succeed. */
  lemma PublishedAfterPublish(s: State, events: seq<Event>)
    requires Init(s) && Exec(s, events).row.state == Published
    ensures var log := Exec(s, events).flow.current.log;
            exists i :: 1 <= i < |log| && log[i] == Flow.PublishDone && log[i - 1].PublishRequested?
  {
    InvExec(s, events);
    hide Exec;
    var log := Exec(s, events).flow.current.log;
    var i :| 0 <= i < |log| && log[i] == Flow.TerminalRequested(OutcomePublished);
    assert log[i - 1] == Flow.PublishDone && log[i - 2].PublishRequested?;
  }

  /** An execution returns an outcome only if the row stores it, and is replaced only by way of a terminal row. */
  lemma ReturnedIsStored(s: State, events: seq<Event>)
    requires Init(s)
    ensures var t := Exec(s, events);
            && (t.flow.current.at.Returned? ==> t.row.state == t.flow.current.at.outcome.Stored())
            && (t.flow.current.at.Continued? ==> t.row.state in TERMINAL_RUN_STATES)
  {
    InvExec(s, events);
    hide Exec, Flow.OrderOk, AtLeast;
    var t := Exec(s, events);
    if t.flow.current.at.Continued? {
      var outcome :| outcome in t.recorded;
      assert t.row.state == outcome.Stored();
    }
  }

  // ---------------------------------------------------------------- every state on the way

  predicate StateAt(s: State, events: seq<Event>, n: nat, state: RunState) {
    n <= |events| && Exec(s, events[..n]).row.state == state
  }

  /** A state other than queued was entered by an edge of the table. */
  lemma {:induction false} EnteredFrom(s: State, events: seq<Event>, n: nat)
    requires Init(s) && n <= |events| && Exec(s, events[..n]).row.state != Queued
    ensures exists m: nat :: m < n && CanTransition(Exec(s, events[..m]).row.state, Exec(s, events[..n]).row.state)
    decreases n
  {
    if n == 0 {
      assert false;
    } else {
      hide Step, CanTransition;
      RowRefinesTable(s, events, n - 1);
      if Exec(s, events[..n - 1]).row.state == Exec(s, events[..n]).row.state {
        EnteredFrom(s, events, n - 1);
      }
    }
  }

  lemma OnlyEntry(state: RunState)
    ensures forall from :: CanTransition(from, state) ==>
              && (state == SelectingContext ==> from == Queued)
              && (state == Analyzing ==> from == SelectingContext)
              && (state == Verifying ==> from == Analyzing)
              && (state == AwaitingApproval ==> from == Verifying)
              && (state == Published || state == Rejected ==> from == AwaitingApproval)
  {
  }

  lemma EnteredByWayOf(s: State, events: seq<Event>, n: nat, from: RunState, state: RunState)
    requires Init(s) && StateAt(s, events, n, state) && state != Queued
    requires forall other :: CanTransition(other, state) ==> other == from
    ensures exists m: nat :: m < n && StateAt(s, events, m, from)
  {
    EnteredFrom(s, events, n);
    hide Exec;
    var m: nat :| m < n && CanTransition(Exec(s, events[..m]).row.state, Exec(s, events[..n]).row.state);
    assert StateAt(s, events, m, from);
  }

  /** A published or rejected run was in every state on the way there, in order. */
  lemma DecidedPassedEveryState(s: State, events: seq<Event>)
    requires Init(s) && Exec(s, events).row.state in {Published, Rejected}
    ensures exists a: nat, b: nat, c: nat, d: nat ::
              && a < b < c < d < |events|
              && StateAt(s, events, a, SelectingContext) && StateAt(s, events, b, Analyzing)
              && StateAt(s, events, c, Verifying) && StateAt(s, events, d, AwaitingApproval)
  {
    hide Exec, StateAt, CanTransition;
    var state := Exec(s, events).row.state;
    FinalState(s, events);
    OnlyEntry(state);
    EnteredByWayOf(s, events, |events|, AwaitingApproval, state);
    var d: nat :| d < |events| && StateAt(s, events, d, AwaitingApproval);
    OnlyEntry(AwaitingApproval);
    EnteredByWayOf(s, events, d, Verifying, AwaitingApproval);
    var c: nat :| c < d && StateAt(s, events, c, Verifying);
    OnlyEntry(Verifying);
    EnteredByWayOf(s, events, c, Analyzing, Verifying);
    var b: nat :| b < c && StateAt(s, events, b, Analyzing);
    OnlyEntry(Analyzing);
    EnteredByWayOf(s, events, b, SelectingContext, Analyzing);
    var a: nat :| a < b && StateAt(s, events, a, SelectingContext);
  }

  lemma FinalState(s: State, events: seq<Event>)
    ensures StateAt(s, events, |events|, Exec(s, events).row.state)
  {
    assert events[..|events|] == events;
  }

  // ---------------------------------------------------------------- the undisturbed run publishes

  lemma {:induction false} ExecAppend(s: State, events: seq<Event>, more: seq<Event>)
    ensures Exec(s, events + more) == Exec(Exec(s, events), more)
  {
    if more == [] {
      assert events + more == events;
    } else {
      hide Step;
      var all := events + more;
      assert all[..|all| - 1] == events + more[..|more| - 1];
      ExecAppend(s, events, more[..|more| - 1]);
    }
  }

  lemma ExecFirst(s: State, e: Event, rest: seq<Event>)
    ensures Exec(s, [e] + rest) == Exec(Step(s, e), rest)
  {
    hide Step;
    assert Exec(s, []) == s && [e][..0] == [];
    assert Exec(s, [e]) == Step(s, e);
    ExecAppend(s, [e], rest);
  }

  lemma ExecTwo(s: State, a: Event, b: Event)
    ensures Exec(s, [a, b]) == Step(Step(s, a), b)
  {
    hide Step;
    assert [a, b] == [a] + [b] && [b] == [b] + [];
    ExecFirst(s, a, [b]);
    ExecFirst(Step(s, a), b, []);
  }

  /** Stage by stage: the row before it, and the events of an attempt that succeeds. */
  function StageEvents(stage: Stage, request: StageRequest, outputRef: Flow.Ref): seq<Event> {
    [Attempt(Load(stage, request))]
    + (if stage == Verify then [Attempt(Mark(request))] else [])
    + [Workflow(Flow.ActivitySucceeds(outputRef))]
  }

  predicate AtStage(s: State, stage: Stage, request: StageRequest) {
    && IsCurrent(s.row, request)
    && s.flow.current.at == Flow.RunningStage(stage) && !Flow.MustHonor(s.flow.current) && !s.flow.current.checksEnabled
    && s.flow.current.log != [] && s.flow.current.log[|s.flow.current.log| - 1].StageRequested?
    && s.flow.current.log[|s.flow.current.log| - 1].stage == stage
    && s.row.state == (match stage case SelectContext => Queued case Analyze => SelectingContext case Verify => Analyzing)
    && (forall outcome :: RunCompleted(outcome) !in s.row.events)
  }

  predicate AtWait(s: State) {
    && s.flow.current.at == Flow.AwaitingDecision && !Flow.MustHonor(s.flow.current) && !s.flow.current.checksEnabled
    && s.row.state == AwaitingApproval
    && (forall outcome :: RunCompleted(outcome) !in s.row.events)
  }

  lemma LoadAtStage(s: State, stage: Stage, request: StageRequest)
    requires AtStage(s, stage, request)
    ensures Step(s, Attempt(Load(stage, request))) == s.(row := s.row.(state := stage.Target()), loaded := s.loaded + {stage})
  {
    assert StageIsRequested(s.flow.current.log, stage);
  }

  lemma StageSucceeds(s: State, stage: Stage, request: StageRequest, outputRef: Flow.Ref)
    requires AtStage(s, stage, request)
    ensures var t := Exec(s, StageEvents(stage, request, outputRef));
            && (if stage == Verify then AtWait(t) else AtStage(t, StageAt(stage.Number() + 1), request))
            && t.flow.current.input == s.flow.current.input && t.row.headSha == s.row.headSha
  {
    hide Exec;
    LoadAtStage(s, stage, request);
    var done := Workflow(Flow.ActivitySucceeds(outputRef));
    var s1 := Step(s, Attempt(Load(stage, request)));
    if stage == Verify {
      var mark := Attempt(Mark(request));
      assert StageEvents(stage, request, outputRef) == [Attempt(Load(stage, request))] + [mark, done];
      ExecFirst(s, Attempt(Load(stage, request)), [mark, done]);
      assert StageIsRequested(s1.flow.current.log, Verify);
      ExecTwo(s1, mark, done);
    } else {
      assert StageEvents(stage, request, outputRef) == [Attempt(Load(stage, request)), done];
      ExecTwo(s, Attempt(Load(stage, request)), done);
    }
  }

  /** The human decides, publishing succeeds if it was requested, and the outcome is recorded. */
  function DecidingEvents(s: State, approval: Fan.ApprovalSignal, published: Flow.Ref, data: string): seq<Event> {
    [Workflow(Flow.Approve(approval)), Workflow(Flow.ConditionHolds)]
    + (if Progress.Complete(approval) then [Workflow(Flow.ActivitySucceeds(published))] else [])
    + [Attempt(Terminate(s.row.headSha, if Progress.Complete(approval) then OutcomePublished else OutcomeRejected, data)),
       Workflow(Flow.ActivitySucceeds(published)), Workflow(Flow.ActivitySucceeds(published))]
  }

  lemma RecordCloses(s: State, outcome: Outcome, published: Flow.Ref, data: string)
    requires s.flow.current.at == Flow.RecordingTerminal(outcome, Flow.Finish, false) && s.flow.current.supersede.None?
    requires !s.flow.current.checksEnabled && Flow.TerminalRequested(outcome) in s.flow.current.log
    requires s.row.state == AwaitingApproval && RunCompleted(outcome) !in s.row.events
    ensures var done := Workflow(Flow.ActivitySucceeds(published));
            var t := Exec(s, [Attempt(Terminate(s.row.headSha, outcome, data)), done, done]);
            t.flow.current.at == Flow.Returned(outcome) && t.row.state == outcome.Stored()
  {
    hide Exec, Step;
    var done := Workflow(Flow.ActivitySucceeds(published));
    var terminate := Attempt(Terminate(s.row.headSha, outcome, data));
    assert [terminate, done, done] == [terminate] + [done, done];
    ExecFirst(s, terminate, [done, done]);
    TerminateRecords(s, outcome, data);
    ExecTwo(Step(s, terminate), done, done);
    RecordedReturns(Step(s, terminate), outcome, published);
  }

  lemma TerminateRecords(s: State, outcome: Outcome, data: string)
    requires Flow.TerminalRequested(outcome) in s.flow.current.log
    requires s.row.state == AwaitingApproval && RunCompleted(outcome) !in s.row.events
    ensures var t := Step(s, Attempt(Terminate(s.row.headSha, outcome, data)));
            t.flow == s.flow && t.row.state == outcome.Stored() && outcome in t.recorded
  {
  }

  lemma RecordedReturns(s: State, outcome: Outcome, published: Flow.Ref)
    requires s.flow.current.at == Flow.RecordingTerminal(outcome, Flow.Finish, false) && s.flow.current.supersede.None?
    requires !s.flow.current.checksEnabled && outcome in s.recorded
    ensures var done := Workflow(Flow.ActivitySucceeds(published));
            var t := Step(Step(s, done), done);
            t.flow.current.at == Flow.Returned(outcome) && t.row == s.row
  {
  }

  lemma ApprovalCloses(s: State, approval: Fan.ApprovalSignal, published: Flow.Ref, data: string)
    requires AtWait(s) && s.flow.current.input.Some? && Flow.Matches(approval, s.flow.current.input.value)
    ensures var t := Exec(s, DecidingEvents(s, approval, published, data));
            if Progress.Complete(approval)
            then t.flow.current.at == Flow.Returned(OutcomePublished) && t.row.state == Published
            else t.flow.current.at == Flow.Returned(OutcomeRejected) && t.row.state == Rejected
  {
    hide Exec;
    var done := Workflow(Flow.ActivitySucceeds(published));
    var start := [Workflow(Flow.Approve(approval)), Workflow(Flow.ConditionHolds)];
    var s2 := Exec(s, start);
    ExecTwo(s, Workflow(Flow.Approve(approval)), Workflow(Flow.ConditionHolds));
    if Progress.Complete(approval) {
      var rest := [Attempt(Terminate(s.row.headSha, OutcomePublished, data)), done, done];
      assert DecidingEvents(s, approval, published, data) == start + ([done] + rest);
      ExecAppend(s, start, [done] + rest);
      ExecFirst(s2, done, rest);
      RecordCloses(Step(s2, done), OutcomePublished, published, data);
    } else {
      var rest := [Attempt(Terminate(s.row.headSha, OutcomeRejected, data)), done, done];
      assert DecidingEvents(s, approval, published, data) == start + rest;
      ExecAppend(s, start, rest);
      RecordCloses(s2, OutcomeRejected, published, data);
    }
  }

  /**
   The undisturbed run of the workflow with its row: each stage loads the run and succeeds, verification
   marks it, a human decides. The row then reads published exactly when the approval is complete, and
   rejected otherwise.
   */
  lemma UndisturbedRowIsPublished(
    s: State, request: StageRequest, refs: (Flow.Ref, Flow.Ref, Flow.Ref), approval: Fan.ApprovalSignal, data: string)
    requires Init(s) && IsCurrent(s.row, request)
    requires approval.runId == s.flow.current.at.request.runId && approval.headSha == s.flow.current.at.request.headSha
    ensures var events := [Workflow(Flow.StartRun(false))]
                          + (StageEvents(SelectContext, request, refs.0)
                             + (StageEvents(Analyze, request, refs.1)
                                + (StageEvents(Verify, request, refs.2) + DecidingEvents(s, approval, refs.2, data))));
            var t := Exec(s, events);
            if approval.approved && approval.findingIds != [] && approval.approvalIds != [] && approval.commentBodyRef.Some?
            then t.flow.current.at == Flow.Returned(OutcomePublished) && t.row.state == Published
            else t.flow.current.at == Flow.Returned(OutcomeRejected) && t.row.state == Rejected
  {
    hide Exec, StageEvents, DecidingEvents, AtStage, AtWait;
    var deciding := DecidingEvents(s, approval, refs.2, data);
    var verify := StageEvents(Verify, request, refs.2) + deciding;
    var analyze := StageEvents(Analyze, request, refs.1) + verify;
    var select := StageEvents(SelectContext, request, refs.0) + analyze;
    ExecFirst(s, Workflow(Flow.StartRun(false)), select);
    var s0 := Step(s, Workflow(Flow.StartRun(false)));
    StartsAtStage(s, request);
    ExecAppend(s0, StageEvents(SelectContext, request, refs.0), analyze);
    StageSucceeds(s0, SelectContext, request, refs.0);
    var s1 := Exec(s0, StageEvents(SelectContext, request, refs.0));
    ExecAppend(s1, StageEvents(Analyze, request, refs.1), verify);
    StageSucceeds(s1, Analyze, request, refs.1);
    var s2 := Exec(s1, StageEvents(Analyze, request, refs.1));
    ExecAppend(s2, StageEvents(Verify, request, refs.2), deciding);
    StageSucceeds(s2, Verify, request, refs.2);
    var s3 := Exec(s2, StageEvents(Verify, request, refs.2));
    SameDeciding(s, s3, approval, refs.2, data);
    ApprovalCloses(s3, approval, refs.2, data);
  }

  lemma StartsAtStage(s: State, request: StageRequest)
    requires Init(s) && IsCurrent(s.row, request)
    ensures var t := Step(s, Workflow(Flow.StartRun(false)));
            AtStage(t, SelectContext, request) && t.flow.current.input == Some(s.flow.current.at.request) && t.row == s.row
  {
  }

  lemma SameDeciding(s: State, t: State, approval: Fan.ApprovalSignal, published: Flow.Ref, data: string)
    requires s.row.headSha == t.row.headSha
    ensures DecidingEvents(s, approval, published, data) == DecidingEvents(t, approval, published, data)
  {
  }
}
