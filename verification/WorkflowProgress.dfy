/**
 What the review workflow achieves: which schedules end published, rejected, cancelled, timed out,
 failed or replaced, stated as what `Exec` leaves after them.
 */
module WorkflowProgress {
  import opened Options
  import opened RunLifecycle
  import opened ReviewWorkflow
  import Fan = ApprovalFanIn

  // ---------------------------------------------------------------- schedules

  lemma {:induction false} ExecAppend(s: Workflow, events: seq<Event>, more: seq<Event>)
    ensures Exec(s, events + more) == Exec(Exec(s, events), more)
  {
    if more == [] {
      assert events + more == events;
    } else {
      hide Step;
      var all := events + more;
      assert all[..|all| - 1] == events + more[..|more| - 1];
      ExecAppend(s, events, more[..|more| - 1]);
    }
  }

  lemma ExecFirst(s: Workflow, e: Event, rest: seq<Event>)
    ensures Exec(s, [e] + rest) == Exec(Step(s, e), rest)
  {
    hide Step;
    assert Exec(s, []) == s && [e][..0] == [];
    assert Exec(s, [e]) == Step(s, e);
    ExecAppend(s, [e], rest);
  }

  lemma ExecThenOne(s: Workflow, e: Event)
    ensures Exec(s, [e]) == Step(s, e)
  {
    hide Step;
    assert [e] == [e] + [];
    ExecFirst(s, e, []);
  }

  lemma ExecThree(s: Workflow, a: Event, b: Event, c: Event)
    ensures Exec(s, [a, b, c]) == Step(Step(Step(s, a), b), c)
  {
    hide Step;
    assert [a, b, c] == [a] + [b, c] && [b, c] == [b] + [c] && [c] == [c] + [];
    ExecFirst(s, a, [b, c]);
    ExecFirst(Step(s, a), b, [c]);
    ExecFirst(Step(Step(s, a), b), c, []);
  }

  /** The terminal record, the check update where there is one, and the metrics. */
  function Closing(refs: (Ref, Ref, Ref)): seq<Event> {
    [ActivitySucceeds(refs.0), ActivitySucceeds(refs.1), ActivitySucceeds(refs.2)]
  }

  predicate IsClosing(at: Await) {
    at.RecordingTerminal? || at.UpdatingTerminalCheck? || at.FinalizingMetrics?
  }

  /** A requested terminal record ends the execution: replaced by the pending run, or with its outcome. */
  lemma ClosingEnds(s: Workflow, refs: (Ref, Ref, Ref))
    requires IsClosing(s.current.at)
    requires s.current.at.ending.ContinueAsNew? ==> s.current.supersede.Some?
    ensures var x := s.current;
            Exec(s, Closing(refs)).current ==
            x.(at := if x.supersede.Some? then Continued(x.supersede.value) else Returned(x.at.outcome))
    ensures Exec(s, Closing(refs)).executed == s.executed
  {
    hide Exec;
    ExecThree(s, ActivitySucceeds(refs.0), ActivitySucceeds(refs.1), ActivitySucceeds(refs.2));
  }

  // ---------------------------------------------------------------- the human approval

  predicate Complete(approval: Fan.ApprovalSignal) {
    approval.approved && approval.findingIds != [] && approval.approvalIds != [] && approval.commentBodyRef.Some?
  }

  /** Without an interrupt the wait ends in a publish request exactly for a complete approval, else in a rejection. */
  lemma ApprovalDecides(x: Execution)
    requires OrderOk(x) && x.at.AwaitingDecision? && !MustHonor(x) && x.approval.Some?
    ensures var y := OnCondition(x);
            && (y.at.Publishing? <==> ReadyToPublish(x, x.approval.value))
            && (if Complete(x.approval.value)
                then y == x.(at := Publishing, log := x.log + [PublishRequested(x.approval.value)])
                else y == x.(at := RecordingTerminal(OutcomeRejected, Finish, false),
                             log := x.log + [TerminalRequested(OutcomeRejected)]))
  {
  }

  /** The wait ends by the approval, publishing succeeds if it was requested, and the outcome is recorded. */
  function Deciding(published: Ref, refs: (Ref, Ref, Ref)): seq<Event> {
    [ConditionHolds, ActivitySucceeds(published)] + Closing(refs)
  }

  /**
   From any state of the wait with an approval and no interrupt, the run publishes and returns published
   exactly when the approval is complete; otherwise it returns rejected.
   */
  lemma ApprovalEnds(s: Workflow, published: Ref, refs: (Ref, Ref, Ref))
    requires s.current.at.AwaitingDecision? && !MustHonor(s.current) && s.current.approval.Some?
    ensures var y := Exec(s, Deciding(published, refs)).current;
            var approval := s.current.approval.value;
            && (Complete(approval) ==>
                  && y.at == Returned(OutcomePublished)
                  && y.log == s.current.log + [PublishRequested(approval), PublishDone, TerminalRequested(OutcomePublished)])
            && (!Complete(approval) ==>
                  && y.at == Returned(OutcomeRejected)
                  && y.log == s.current.log + [TerminalRequested(OutcomeRejected)])
  {
    hide Exec, Closing;
    var done := ActivitySucceeds(published);
    assert Deciding(published, refs) == [ConditionHolds] + ([done] + Closing(refs));
    ExecFirst(s, ConditionHolds, [done] + Closing(refs));
    ExecFirst(Step(s, ConditionHolds), done, Closing(refs));
    ClosingEnds(Step(Step(s, ConditionHolds), done), refs);
  }

  /** Start, the two check updates where there are any, and the three stages. */
  function Stages(checksEnabled: bool, checks: (Ref, Ref), a: Ref, b: Ref, c: Ref): seq<Event> {
    [StartRun(checksEnabled)]
    + (if checksEnabled then [ActivitySucceeds(checks.0), ActivitySucceeds(checks.1)] else [])
    + [ActivitySucceeds(a), ActivitySucceeds(b), ActivitySucceeds(c)]
  }

  lemma StagesReachTheWait(s: Workflow, checksEnabled: bool, checks: (Ref, Ref), a: Ref, b: Ref, c: Ref)
    requires s.current.at.NotStarted? && s.current.log == [] && !MustHonor(s.current)
    requires s.current.approval.Some? ==> Matches(s.current.approval.value, s.current.at.request)
    ensures var y := Exec(s, Stages(checksEnabled, checks, a, b, c)).current;
            && y.at == AwaitingDecision && !MustHonor(y)
            && y.input == Some(s.current.at.request) && y.approval == s.current.approval
            && y.log == [StageRequested(SelectContext, None), StageDone(SelectContext, a),
                         StageRequested(Analyze, Some(a)), StageDone(Analyze, b),
                         StageRequested(Verify, Some(b)), StageDone(Verify, c)]
  {
    hide Exec;
    var stages := [ActivitySucceeds(a), ActivitySucceeds(b), ActivitySucceeds(c)];
    var s1 := Step(s, StartRun(checksEnabled));
    if checksEnabled {
      var updates := [ActivitySucceeds(checks.0), ActivitySucceeds(checks.1)];
      assert Stages(true, checks, a, b, c) == [StartRun(true), ActivitySucceeds(checks.0), ActivitySucceeds(checks.1)] + stages;
      ExecAppend(s, [StartRun(true), ActivitySucceeds(checks.0), ActivitySucceeds(checks.1)], stages);
      ExecThree(s, StartRun(true), ActivitySucceeds(checks.0), ActivitySucceeds(checks.1));
      ThreeStagesSucceed(Step(Step(s1, ActivitySucceeds(checks.0)), ActivitySucceeds(checks.1)), a, b, c);
    } else {
      assert Stages(false, checks, a, b, c) == [StartRun(false)] + stages;
      ExecFirst(s, StartRun(false), stages);
      ThreeStagesSucceed(s1, a, b, c);
    }
  }

  lemma ThreeStagesSucceed(s: Workflow, a: Ref, b: Ref, c: Ref)
    requires s.current.at == RunningStage(SelectContext) && !MustHonor(s.current)
    requires s.current.log == [StageRequested(SelectContext, None)]
    ensures Exec(s, [ActivitySucceeds(a), ActivitySucceeds(b), ActivitySucceeds(c)]).current
            == s.current.(at := AwaitingDecision,
                          log := [StageRequested(SelectContext, None), StageDone(SelectContext, a),
                                  StageRequested(Analyze, Some(a)), StageDone(Analyze, b),
                                  StageRequested(Verify, Some(b)), StageDone(Verify, c)])
  {
    hide Exec;
    ExecThree(s, ActivitySucceeds(a), ActivitySucceeds(b), ActivitySucceeds(c));
    var s1 := Step(s, ActivitySucceeds(a));
    assert s1.current.log == [StageRequested(SelectContext, None), StageDone(SelectContext, a), StageRequested(Analyze, Some(a))];
    var s2 := Step(s1, ActivitySucceeds(b));
    assert s2.current.log == s1.current.log + [StageDone(Analyze, b), StageRequested(Verify, Some(b))];
  }

  /**
   The undisturbed run: started, with its stages succeeding and a human deciding during the wait or
   before the start, it returns published exactly when the approval is complete and rejected
   otherwise, having requested just these activities.
   */
  lemma UndisturbedRun(
    s: Workflow, checksEnabled: bool, checks: (Ref, Ref), a: Ref, b: Ref, c: Ref,
    approval: Fan.ApprovalSignal, early: bool, published: Ref, refs: (Ref, Ref, Ref))
    requires Init(s) && approval.runId == s.current.at.request.runId && approval.headSha == s.current.at.request.headSha
    ensures var stages := Stages(checksEnabled, checks, a, b, c);
            var decided := if early then [Approve(approval)] + stages else stages + [Approve(approval)];
            var y := Exec(s, decided + Deciding(published, refs)).current;
            var done := [StageRequested(SelectContext, None), StageDone(SelectContext, a),
                         StageRequested(Analyze, Some(a)), StageDone(Analyze, b),
                         StageRequested(Verify, Some(b)), StageDone(Verify, c)];
            if approval.approved && approval.findingIds != [] && approval.approvalIds != [] && approval.commentBodyRef.Some?
            then y.at == Returned(OutcomePublished)
                 && y.log == done + [PublishRequested(approval), PublishDone, TerminalRequested(OutcomePublished)]
            else y.at == Returned(OutcomeRejected) && y.log == done + [TerminalRequested(OutcomeRejected)]
  {
    hide Exec, Stages, Deciding;
    var stages := Stages(checksEnabled, checks, a, b, c);
    var decided := if early then [Approve(approval)] + stages else stages + [Approve(approval)];
    if early {
      ExecFirst(s, Approve(approval), stages);
      StagesReachTheWait(Step(s, Approve(approval)), checksEnabled, checks, a, b, c);
    } else {
      StagesReachTheWait(s, checksEnabled, checks, a, b, c);
      ExecAppend(s, stages, [Approve(approval)]);
      ExecThenOne(Exec(s, stages), Approve(approval));
    }
    ApprovalEnds(Exec(s, decided), published, refs);
    ExecAppend(s, decided, Deciding(published, refs));
  }

  // ---------------------------------------------------------------- the other ways to end

  /** The execution is at a stage or waits for the human. */
  predicate InProgress(at: Await) {
    at.RunningStage? || at.AwaitingDecision?
  }

  /** A pending interrupt is noticed, a running stage ends, succeeded or not, and the record is made. */
  lemma InterruptEnds(s: Workflow, drained: Event, refs: (Ref, Ref, Ref))
    requires InProgress(s.current.at) && Interrupted(s.current)
    requires drained.ActivitySucceeds? || (s.current.at.RunningStage? && drained.ActivityFails?)
    ensures var x, y := s.current, Exec(s, [ConditionHolds, drained] + Closing(refs)).current;
            && y.at == (if x.supersede.Some? then Continued(x.supersede.value) else Returned(OutcomeCancelled))
            && y.log == x.log + [TerminalRequested(OutcomeCancelled)] && y.cancelReason == x.cancelReason
  {
    hide Exec, Closing;
    assert [ConditionHolds, drained] + Closing(refs) == [ConditionHolds] + ([drained] + Closing(refs));
    ExecFirst(s, ConditionHolds, [drained] + Closing(refs));
    ExecFirst(Step(s, ConditionHolds), drained, Closing(refs));
    ClosingEnds(Step(Step(s, ConditionHolds), drained), refs);
  }

  /** A cancellation while a stage runs or during the wait returns cancelled, requesting nothing but that record. */
  lemma CancelEnds(s: Workflow, reason: string, drained: Event, refs: (Ref, Ref, Ref))
    requires InProgress(s.current.at) && s.current.supersede.None?
    requires drained.ActivitySucceeds? || (s.current.at.RunningStage? && drained.ActivityFails?)
    ensures var y := Exec(s, [Cancel(reason)] + ([ConditionHolds, drained] + Closing(refs))).current;
            && y.at == Returned(OutcomeCancelled) && y.log == s.current.log + [TerminalRequested(OutcomeCancelled)]
            && y.cancelReason == Some(if reason == "" then "cancelled" else reason)
  {
    hide Exec, Closing;
    ExecFirst(s, Cancel(reason), [ConditionHolds, drained] + Closing(refs));
    InterruptEnds(Step(s, Cancel(reason)), drained, refs);
  }

  /** A newer generation arriving then replaces the run, which is recorded as cancelled. */
  lemma SupersedeEnds(s: Workflow, next: Input, drained: Event, refs: (Ref, Ref, Ref))
    requires InProgress(s.current.at) && s.current.input.Some?
    requires next.generation > s.current.input.value.generation
    requires s.current.supersede.Some? ==> next.generation > s.current.supersede.value.generation
    requires drained.ActivitySucceeds? || (s.current.at.RunningStage? && drained.ActivityFails?)
    ensures var y := Exec(s, [Supersede(next)] + ([ConditionHolds, drained] + Closing(refs))).current;
            y.at == Continued(next) && y.log == s.current.log + [TerminalRequested(OutcomeCancelled)]
  {
    hide Exec, Closing;
    ExecFirst(s, Supersede(next), [ConditionHolds, drained] + Closing(refs));
    InterruptEnds(Step(s, Supersede(next)), drained, refs);
  }

  /** Without a pending run, a timeout of the wait returns timed out, and a failed stage or publish returns failed. */
  lemma FailureEnds(s: Workflow, refs: (Ref, Ref, Ref))
    requires s.current.supersede.None?
    ensures s.current.at.AwaitingDecision? ==>
              var y := Exec(s, [ApprovalTimeout] + Closing(refs)).current;
              y.at == Returned(OutcomeTimedOut) && y.log == s.current.log + [TerminalRequested(OutcomeTimedOut)]
    ensures s.current.at.Publishing? || (s.current.at.RunningStage? && !MustHonor(s.current)) ==>
              var y := Exec(s, [ActivityFails] + Closing(refs)).current;
              y.at == Returned(OutcomeFailed) && y.log == s.current.log + [TerminalRequested(OutcomeFailed)]
  {
    hide Exec;
    if s.current.at.AwaitingDecision? {
      ExecFirst(s, ApprovalTimeout, Closing(refs));
      ClosingEnds(Step(s, ApprovalTimeout), refs);
    } else if s.current.at.Publishing? || (s.current.at.RunningStage? && !MustHonor(s.current)) {
      ExecFirst(s, ActivityFails, Closing(refs));
      ClosingEnds(Step(s, ActivityFails), refs);
    }
  }

  /** A failed check update before the stages fails the run. */
  lemma CheckFailureEnds(s: Workflow, refs: (Ref, Ref, Ref))
    requires s.current.at.UpdatingCheck? && s.current.supersede.None?
    ensures var y := Exec(s, [ActivityFails] + Closing(refs)).current;
            y.at == Returned(OutcomeFailed) && y.log == s.current.log + [TerminalRequested(OutcomeFailed)]
  {
    hide Exec, Closing;
    ExecFirst(s, ActivityFails, Closing(refs));
    ClosingEnds(Step(s, ActivityFails), refs);
  }

  /** Once the outcome is recorded, a failing check update or metrics activity changes nothing of the end. */
  lemma LateFailuresAreIgnored(s: Workflow, outputRef: Ref)
    requires s.current.at.UpdatingTerminalCheck? || s.current.at.FinalizingMetrics?
    ensures Step(s, ActivityFails) == Step(s, ActivitySucceeds(outputRef))
  {
  }

  /**
   A cancellation record that fails: inside the stages a failed run is recorded instead, while after the
   wait the activity's error ends the execution.
   */
  lemma FailedRecordEnds(s: Workflow, drained: Event, refs: (Ref, Ref, Ref))
    requires InProgress(s.current.at) && Interrupted(s.current)
    requires drained.ActivitySucceeds? || drained.ActivityFails?
    ensures s.current.at.RunningStage? ==>
              var x, y := s.current, Exec(s, [ConditionHolds, drained, ActivityFails] + Closing(refs)).current;
              && y.at == (if x.supersede.Some? then Continued(x.supersede.value) else Returned(OutcomeFailed))
              && y.log == x.log + [TerminalRequested(OutcomeCancelled), TerminalRequested(OutcomeFailed)]
    ensures s.current.at.AwaitingDecision? ==>
              Exec(s, [ConditionHolds] + [ActivityFails]).current.at == ActivityErrorEscaped
  {
    hide Exec, Closing;
    if s.current.at.RunningStage? {
      ExecThree(s, ConditionHolds, drained, ActivityFails);
      ExecAppend(s, [ConditionHolds, drained, ActivityFails], Closing(refs));
      ClosingEnds(Exec(s, [ConditionHolds, drained, ActivityFails]), refs);
    } else {
      ExecFirst(s, ConditionHolds, [ActivityFails]);
      ExecThenOne(Step(s, ConditionHolds), ActivityFails);
    }
  }

  // ---------------------------------------------------------------- an interrupt stops publishing

  predicate RequestsPublish(log: seq<Entry>) {
    exists i :: 0 <= i < |log| && log[i].PublishRequested?
  }

  /** A started execution with an interrupt pending that has not requested its publish. */
  predicate Stopped(x: Execution) {
    x.input.Some? && !x.at.NotStarted? && !x.at.Publishing? && MustHonor(x) && !RequestsPublish(x.log)
  }

  lemma ActivityStaysStopped(x: Execution, result: Option<Ref>)
    requires Stopped(x)
    ensures Stopped(OnActivity(x, result))
  {
  }

  lemma StaysStopped(s: Workflow, e: Event)
    requires Stopped(s.current) && !e.NextExecution?
    ensures Stopped(Step(s, e).current)
  {
    hide OnActivity;
    match e {
      case ActivitySucceeds(outputRef) => ActivityStaysStopped(s.current, Some(outputRef));
      case ActivityFails => ActivityStaysStopped(s.current, None);
      case _ =>
    }
  }

  /**
   Once a cancellation or a newer run is pending before publishing was requested, this execution never
   requests it, whatever approvals, successes and further signals follow.
   */
  lemma {:induction false} InterruptStopsPublishing(s: Workflow, events: seq<Event>)
    requires s.current.input.Some? && !s.current.at.NotStarted? && !s.current.at.Publishing?
    requires s.current.cancelReason.Some? || s.current.supersede.Some?
    requires !RequestsPublish(s.current.log)
    requires NextExecution !in events
    ensures Stopped(Exec(s, events).current)
    ensures var log := Exec(s, events).current.log; forall i :: 0 <= i < |log| ==> !log[i].PublishRequested?
  {
    if events == [] {
    } else {
      var front := events[..|events| - 1];
      assert events == front + [events[|events| - 1]];
      InterruptStopsPublishing(s, front);
      hide Step;
      StaysStopped(Exec(s, front), events[|events| - 1]);
    }
  }
}
