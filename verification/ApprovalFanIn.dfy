/**
 Approval fan-in of one run: every recorded decision adds one outbox command, and dispatching the
 commands sends one aggregate signal once all findings are decided.

 Recording and dispatching lock the run, so each is one step. A dispatcher may stop after its
 signal was accepted and before its receipt commits.
 */
module ApprovalFanIn {
  import opened Options
  import opened ReviewTables

  datatype DecisionRequest = DecisionRequest(headSha: Sha, decision: Decision, actor: Id, reason: Option<string>)

  /** A stored decision together with who made it. */
  datatype StoredDecision = StoredDecision(approvalId: Id, request: DecisionRequest)

  datatype DecisionError = FindingNotFound | CommitStale | NotAwaitingApproval | AlreadyDecided

  datatype DecisionReceipt = DecisionReceipt(approvalId: Id, decision: Decision, alreadyRecorded: bool)

  datatype ApprovalCommand = ApprovalCommand(approvalId: Id, findingId: Id, decision: Decision, headSha: Sha)

  /** Keys under which dispatch receipts are stored; a key is written at most once. */
  datatype ReceiptKey = CommandReceipt(approvalId: Id) | SetReceipt(digest: ApprovalSetDigest)

  datatype Receipt = Skipped | Deferred | Accepted(approvedCount: nat, rejectedCount: nat)

  datatype ApprovalSignal = ApprovalSignal(
    runId: Id, headSha: Sha, approved: bool, findingIds: seq<Id>, approvalIds: seq<Id>,
    commentBodyRef: Option<ApprovalSetDigest>)

  datatype State = State(
    runId: Id, runHead: Sha, awaiting: bool, currentHead: Sha,
    tables: Tables, decisions: map<Id, StoredDecision>,
    commands: seq<ApprovalCommand>, receipts: map<ReceiptKey, Receipt>, signals: seq<ApprovalSignal>)

  datatype Event =
    | Record(findingId: Id, request: DecisionRequest, newId: Id)
    | Dispatch
    | DispatchCrash
    | ChangeRun(awaiting: bool)
    | MoveHead(sha: Sha)

  // ---------------------------------------------------------------- recording a decision

  predicate KnownFinding(tables: Tables, findingId: Id) {
    exists f :: f in tables.findings && f.publicId == findingId
  }

  function DecisionOutcome(s: State, findingId: Id, request: DecisionRequest, newId: Id): Result<DecisionReceipt, DecisionError> {
    if !KnownFinding(s.tables, findingId) then Err(FindingNotFound)
    else if request.headSha != s.runHead || s.currentHead != s.runHead then Err(CommitStale)
    else if !s.awaiting then Err(NotAwaitingApproval)
    else if findingId in s.decisions then
      var existing := s.decisions[findingId];
      if existing.request.actor == request.actor && existing.request.decision == request.decision
         && existing.request.reason == request.reason
      then Ok(DecisionReceipt(existing.approvalId, request.decision, true))
      else Err(AlreadyDecided)
    else Ok(DecisionReceipt(newId, request.decision, false))
  }

  function StepRecord(s: State, findingId: Id, request: DecisionRequest, newId: Id): State {
    match DecisionOutcome(s, findingId, request, newId)
    case Err(_) => s
    case Ok(receipt) =>
      if receipt.alreadyRecorded then s
      else
        s.(tables := s.tables.(approvals := s.tables.approvals[findingId := Approval(newId, request.decision, s.runHead)]),
           decisions := s.decisions[findingId := StoredDecision(newId, request)],
           commands := s.commands + [ApprovalCommand(newId, findingId, request.decision, s.runHead)])
  }

  // ---------------------------------------------------------------- dispatching

  function AggregateSignal(runId: Id, headSha: Sha, tables: Tables): ApprovalSignal {
    var rows := ApprovedRows(tables.findings, tables.approvals);
    ApprovalSignal(
      runId, headSha, rows != [], FindingIds(rows), ApprovalIds(rows),
      if rows != [] then Some(SetDigest(runId, headSha, tables)) else None)
  }

  function SetDigest(runId: Id, headSha: Sha, tables: Tables): ApprovalSetDigest {
    var rows := ApprovedRows(tables.findings, tables.approvals);
    ApprovalSetDigest(runId, headSha,
      seq(|rows|, i requires 0 <= i < |rows| => (rows[i].finding.publicId, rows[i].approval.publicId)))
  }

  function AggregateReceipt(tables: Tables): Receipt {
    var rows := ApprovedRows(tables.findings, tables.approvals);
    Accepted(|rows|, if |rows| <= |tables.findings| then |tables.findings| - |rows| else 0)
  }

  predicate HasAccepted(s: State) {
    exists k :: k in s.receipts && k.SetReceipt? && s.receipts[k].Accepted?
  }

  predicate IsPending(s: State, command: ApprovalCommand) {
    CommandReceipt(command.approvalId) !in s.receipts
  }

  /** Position of the oldest command without a receipt, or the number of commands. */
  function FirstPending(s: State, from: nat): (k: nat)
    requires from <= |s.commands|
    ensures from <= k <= |s.commands|
    ensures k < |s.commands| ==> IsPending(s, s.commands[k])
    ensures forall i :: from <= i < k ==> !IsPending(s, s.commands[i])
    decreases |s.commands| - from
  {
    if from == |s.commands| || IsPending(s, s.commands[from]) then from else FirstPending(s, from + 1)
  }

  predicate HasPending(s: State) {
    exists i :: 0 <= i < |s.commands| && IsPending(s, s.commands[i])
  }

  /** The stored command still matches the approval it announces. */
  predicate Persisted(tables: Tables, command: ApprovalCommand) {
    && command.findingId in tables.approvals
    && tables.approvals[command.findingId] == Approval(command.approvalId, command.decision, command.headSha)
  }

  /** `ON CONFLICT DO NOTHING` */
  function WithReceipt(receipts: map<ReceiptKey, Receipt>, key: ReceiptKey, receipt: Receipt): map<ReceiptKey, Receipt> {
    if key in receipts then receipts else receipts[key := receipt]
  }

  /** One dispatch; with `commits` false the process stops after the signal and before the receipt. */
  function StepDispatch(s: State, commits: bool): State {
    var k := FirstPending(s, 0);
    if HasAccepted(s) || k == |s.commands| || !Persisted(s.tables, s.commands[k]) then s
    else
      var key := CommandReceipt(s.commands[k].approvalId);
      if !s.awaiting || s.currentHead != s.runHead then
        if commits then s.(receipts := WithReceipt(s.receipts, key, Skipped)) else s
      else if s.tables.findings == [] || !s.tables.Decided() then
        if commits then s.(receipts := WithReceipt(s.receipts, key, Deferred)) else s
      else
        var sent := s.(signals := s.signals + [AggregateSignal(s.runId, s.runHead, s.tables)]);
        if commits then
          sent.(receipts := WithReceipt(s.receipts, SetReceipt(SetDigest(s.runId, s.runHead, s.tables)),
                                        AggregateReceipt(s.tables)))
        else sent
  }

  predicate Announced(commands: seq<ApprovalCommand>, approvalId: Id) {
    exists i :: 0 <= i < |commands| && commands[i].approvalId == approvalId
  }

  function Step(s: State, e: Event): State {
    match e
    case Record(findingId, request, newId) =>
      // the id factory never returns an id twice
      if Announced(s.commands, newId) then s else StepRecord(s, findingId, request, newId)
    case Dispatch => StepDispatch(s, true)
    case DispatchCrash => StepDispatch(s, false)
    case ChangeRun(awaiting) => s.(awaiting := awaiting)
    case MoveHead(sha) => s.(currentHead := sha)
  }

  function Exec(s: State, events: seq<Event>): State {
    if events == [] then s else Step(Exec(s, events[..|events| - 1]), events[|events| - 1])
  }

  // ---------------------------------------------------------------- invariant

  ghost predicate Init(s: State) {
    && s.tables.Valid()
    && s.tables.approvals == map[] && s.decisions == map[]
    && s.commands == [] && s.receipts == map[] && s.signals == []
  }

  predicate AnnouncedFinding(commands: seq<ApprovalCommand>, findingId: Id) {
    exists i :: 0 <= i < |commands| && commands[i].findingId == findingId
  }

  /** Decisions, approvals and commands tell the same story. */
  ghost predicate DecisionsOk(tables: Tables, decisions: map<Id, StoredDecision>, commands: seq<ApprovalCommand>, runHead: Sha) {
    && tables.Valid()
    && decisions.Keys == tables.approvals.Keys
    && (forall f :: f in decisions ==>
          tables.approvals[f] == Approval(decisions[f].approvalId, decisions[f].request.decision, runHead))
    && (forall f :: f in tables.approvals ==> KnownFinding(tables, f) && AnnouncedFinding(commands, f))
    && (forall i :: 0 <= i < |commands| ==> Persisted(tables, commands[i]))
    && (forall i, j :: 0 <= i < j < |commands| ==> commands[i].approvalId != commands[j].approvalId)
  }

  /** Receipts name known commands or the one decided set, and every signal is the one aggregate signal. */
  ghost predicate ReceiptsOk(
    commands: seq<ApprovalCommand>, receipts: map<ReceiptKey, Receipt>, signals: seq<ApprovalSignal>,
    decided: bool, digest: ApprovalSetDigest, signal: ApprovalSignal)
  {
    && (forall k :: k in receipts ==>
          match k
          case CommandReceipt(a) => Announced(commands, a) && !receipts[k].Accepted?
          case SetReceipt(d) => decided && d == digest && receipts[k].Accepted?)
    && (forall g :: g in signals ==> decided && g == signal)
  }

  /** The command that completed the decisions was never deferred. */
  ghost predicate LastNotDeferred(commands: seq<ApprovalCommand>, receipts: map<ReceiptKey, Receipt>, decided: bool) {
    decided && commands != [] ==>
      var key := CommandReceipt(commands[|commands| - 1].approvalId);
      key !in receipts || receipts[key] == Skipped
  }

  ghost predicate Inv(s: State) {
    && DecisionsOk(s.tables, s.decisions, s.commands, s.runHead)
    && ReceiptsOk(s.commands, s.receipts, s.signals, s.tables.Decided(),
                  SetDigest(s.runId, s.runHead, s.tables), AggregateSignal(s.runId, s.runHead, s.tables))
    && LastNotDeferred(s.commands, s.receipts, s.tables.Decided())
  }

  // ---------------------------------------------------------------- every step keeps the invariant

  function AddApproval(tables: Tables, findingId: Id, approval: Approval): Tables {
    tables.(approvals := tables.approvals[findingId := approval])
  }

  ghost predicate Fresh(
    tables: Tables, decisions: map<Id, StoredDecision>, commands: seq<ApprovalCommand>, findingId: Id, newId: Id)
  {
    KnownFinding(tables, findingId) && findingId !in decisions && !Announced(commands, newId)
  }

  lemma AnnouncedGrows(commands: seq<ApprovalCommand>, added: ApprovalCommand)
    ensures forall a :: Announced(commands + [added], a) <==> Announced(commands, a) || a == added.approvalId
    ensures forall f :: AnnouncedFinding(commands + [added], f) <==> AnnouncedFinding(commands, f) || f == added.findingId
  {
    var after := commands + [added];
    assert after[|commands|] == added;
    forall a | Announced(commands, a)
      ensures Announced(after, a)
    {
      var i :| 0 <= i < |commands| && commands[i].approvalId == a;
      assert after[i] == commands[i];
    }
    forall f | AnnouncedFinding(commands, f)
      ensures AnnouncedFinding(after, f)
    {
      var i :| 0 <= i < |commands| && commands[i].findingId == f;
      assert after[i] == commands[i];
    }
  }

  lemma ApprovalIdsAnnounced(
    tables: Tables, decisions: map<Id, StoredDecision>, commands: seq<ApprovalCommand>, runHead: Sha, f: Id)
    requires DecisionsOk(tables, decisions, commands, runHead) && f in tables.approvals
    ensures Announced(commands, tables.approvals[f].publicId)
  {
    var i :| 0 <= i < |commands| && commands[i].findingId == f;
    assert Persisted(tables, commands[i]);
  }

  lemma ApprovalKeepsTables(
    tables: Tables, decisions: map<Id, StoredDecision>, commands: seq<ApprovalCommand>, runHead: Sha,
    findingId: Id, approval: Approval)
    requires DecisionsOk(tables, decisions, commands, runHead)
    requires Fresh(tables, decisions, commands, findingId, approval.publicId)
    ensures AddApproval(tables, findingId, approval).Valid()
    ensures forall i :: 0 <= i < |commands| ==> Persisted(AddApproval(tables, findingId, approval), commands[i])
    ensures Persisted(AddApproval(tables, findingId, approval),
                      ApprovalCommand(approval.publicId, findingId, approval.decision, approval.headSha))
  {
    hide KnownFinding, Announced, AnnouncedFinding;
    forall f | f in tables.approvals
      ensures tables.approvals[f].publicId != approval.publicId
    {
      ApprovalIdsAnnounced(tables, decisions, commands, runHead, f);
    }
    forall i | 0 <= i < |commands|
      ensures Persisted(AddApproval(tables, findingId, approval), commands[i])
    {
      assert Persisted(tables, commands[i]);
    }
  }

  lemma DecisionKeepsStory(
    tables: Tables, decisions: map<Id, StoredDecision>, commands: seq<ApprovalCommand>, runHead: Sha,
    findingId: Id, request: DecisionRequest, newId: Id)
    requires DecisionsOk(tables, decisions, commands, runHead) && Fresh(tables, decisions, commands, findingId, newId)
    ensures DecisionsOk(AddApproval(tables, findingId, Approval(newId, request.decision, runHead)),
                        decisions[findingId := StoredDecision(newId, request)],
                        commands + [ApprovalCommand(newId, findingId, request.decision, runHead)], runHead)
  {
    hide Persisted, AnnouncedFinding;
    var added := ApprovalCommand(newId, findingId, request.decision, runHead);
    var after := AddApproval(tables, findingId, Approval(newId, request.decision, runHead));
    ApprovalKeepsTables(tables, decisions, commands, runHead, findingId, Approval(newId, request.decision, runHead));
    AnnouncedGrows(commands, added);
    forall i, j | 0 <= i < j < |commands + [added]|
      ensures (commands + [added])[i].approvalId != (commands + [added])[j].approvalId
    {
      if j == |commands| {
        assert Announced(commands, commands[i].approvalId);
      }
    }
    forall f | f in after.approvals
      ensures KnownFinding(after, f)
    {
      assert KnownFinding(tables, f);
    }
  }

  lemma UndecidedMeansUnsent(
    commands: seq<ApprovalCommand>, receipts: map<ReceiptKey, Receipt>, signals: seq<ApprovalSignal>,
    digest: ApprovalSetDigest, signal: ApprovalSignal, added: ApprovalCommand,
    decided: bool, digest': ApprovalSetDigest, signal': ApprovalSignal)
    requires ReceiptsOk(commands, receipts, signals, false, digest, signal) && !Announced(commands, added.approvalId)
    ensures ReceiptsOk(commands + [added], receipts, signals, decided, digest', signal')
    ensures LastNotDeferred(commands + [added], receipts, decided)
  {
    hide Announced;
    AnnouncedGrows(commands, added);
    assert CommandReceipt(added.approvalId) !in receipts;
  }

  /** A new decision is only possible while some finding is undecided, so nothing was sent yet. */
  lemma InvRecord(s: State, findingId: Id, request: DecisionRequest, newId: Id)
    requires Inv(s)
    ensures Inv(Step(s, Record(findingId, request, newId)))
    ensures s.tables.ExtendedBy(Step(s, Record(findingId, request, newId)).tables)
  {
    hide Announced, AggregateSignal, SetDigest, DecisionsOk, ReceiptsOk, LastNotDeferred;
    var t := Step(s, Record(findingId, request, newId));
    if t != s {
      DecidedKeys(s.tables, s.decisions, s.commands, s.runHead);
      var f :| f in s.tables.findings && f.publicId == findingId;
      assert !s.tables.Decided();
      DecisionKeepsStory(s.tables, s.decisions, s.commands, s.runHead, findingId, request, newId);
      UndecidedMeansUnsent(
        s.commands, s.receipts, s.signals,
        SetDigest(s.runId, s.runHead, s.tables), AggregateSignal(s.runId, s.runHead, s.tables),
        ApprovalCommand(newId, findingId, request.decision, s.runHead), t.tables.Decided(),
        SetDigest(s.runId, s.runHead, t.tables), AggregateSignal(s.runId, s.runHead, t.tables));
    }
  }

  lemma DecidedKeys(tables: Tables, decisions: map<Id, StoredDecision>, commands: seq<ApprovalCommand>, runHead: Sha)
    requires DecisionsOk(tables, decisions, commands, runHead)
    ensures decisions.Keys == tables.approvals.Keys
  {
  }

  lemma ReceiptKeeps(s: State, command: ApprovalCommand, receipt: Receipt)
    requires Inv(s) && command in s.commands && IsPending(s, command)
    requires receipt == Skipped || (receipt == Deferred && !s.tables.Decided())
    ensures Inv(s.(receipts := WithReceipt(s.receipts, CommandReceipt(command.approvalId), receipt)))
  {
    hide AggregateSignal, SetDigest, DecisionsOk;
    var k :| 0 <= k < |s.commands| && s.commands[k] == command;
    assert Announced(s.commands, command.approvalId);
  }

  lemma SignalKeeps(s: State, commits: bool)
    requires Inv(s) && s.tables.Decided()
    ensures var sent := s.(signals := s.signals + [AggregateSignal(s.runId, s.runHead, s.tables)]);
            var key := SetReceipt(SetDigest(s.runId, s.runHead, s.tables));
            && Inv(sent)
            && Inv(sent.(receipts := WithReceipt(s.receipts, key, AggregateReceipt(s.tables))))
  {
    hide AggregateSignal, SetDigest, DecisionsOk;
  }

  lemma NoFindingsNoCommands(s: State)
    requires Inv(s) && s.tables.findings == []
    ensures s.commands == []
  {
    assert s.commands == [] || Persisted(s.tables, s.commands[0]);
  }

  lemma InvDispatch(s: State, commits: bool)
    requires Inv(s)
    ensures Inv(StepDispatch(s, commits))
    ensures StepDispatch(s, commits).tables == s.tables
  {
    hide AggregateSignal, SetDigest, AggregateReceipt, Inv;
    var k := FirstPending(s, 0);
    if !HasAccepted(s) && k < |s.commands| && Persisted(s.tables, s.commands[k]) {
      if !s.awaiting || s.currentHead != s.runHead {
        ReceiptKeeps(s, s.commands[k], Skipped);
      } else if s.tables.findings == [] || !s.tables.Decided() {
        if s.tables.findings == [] {
          NoFindingsNoCommands(s);
        }
        ReceiptKeeps(s, s.commands[k], Deferred);
      } else {
        SignalKeeps(s, commits);
      }
    }
  }

  lemma InvStep(s: State, e: Event)
    requires Inv(s)
    ensures Inv(Step(s, e)) && s.tables.ExtendedBy(Step(s, e).tables)
  {
    hide StepRecord, StepDispatch, DecisionsOk, ReceiptsOk, LastNotDeferred, SetDigest, AggregateSignal;
    match e {
      case Record(findingId, request, newId) => InvRecord(s, findingId, request, newId);
      case Dispatch => InvDispatch(s, true);
      case DispatchCrash => InvDispatch(s, false);
      case ChangeRun(awaiting) =>
      case MoveHead(sha) =>
    }
  }

  lemma {:induction false} InvExec(s: State, events: seq<Event>)
    requires Init(s)
    ensures Inv(Exec(s, events))
    ensures Exec(s, events).runId == s.runId && Exec(s, events).runHead == s.runHead
    ensures s.tables.ExtendedBy(Exec(s, events).tables)
  {
    hide Step;
    if events == [] {
      assert Inv(s);
    } else {
      InvExec(s, events[..|events| - 1]);
      InvStep(Exec(s, events[..|events| - 1]), events[|events| - 1]);
      SameRun(Exec(s, events[..|events| - 1]), events[|events| - 1]);
    }
  }

  lemma SameRun(s: State, e: Event)
    ensures Step(s, e).runId == s.runId && Step(s, e).runHead == s.runHead
  {
  }

  // ---------------------------------------------------------------- main results, over every run

  /** At most one aggregate receipt is accepted, and every signal ever sent is the same one. */
  lemma OneAcceptedSignal(s: State, events: seq<Event>)
    requires Init(s)
    ensures var t := Exec(s, events);
            && (forall d, e :: SetReceipt(d) in t.receipts && SetReceipt(e) in t.receipts ==> d == e)
            && (forall g, h :: g in t.signals && h in t.signals ==> g == h)
            && (t.signals != [] ==> t.tables.Decided())
  {
    InvExec(s, events);
    InvMeansOne(Exec(s, events));
  }

  lemma InvMeansOne(t: State)
    requires Inv(t)
    ensures forall d, e :: SetReceipt(d) in t.receipts && SetReceipt(e) in t.receipts ==> d == e
    ensures forall g, h :: g in t.signals && h in t.signals ==> g == h
    ensures t.signals != [] ==> t.tables.Decided()
  {
    assert t.signals != [] ==> t.signals[0] in t.signals;
  }

  /** Nothing is sent before every finding is decided, and then the whole approved set is sent. */
  lemma SignalIsApprovedSet(s: State, events: seq<Event>, g: ApprovalSignal)
    requires Init(s) && g in Exec(s, events).signals
    ensures var t := Exec(s, events);
            var rows := ApprovedRows(t.tables.findings, t.tables.approvals);
            && (forall f :: f in t.tables.findings ==> f.publicId in t.tables.approvals)
            && g.runId == s.runId && g.headSha == s.runHead
            && |g.findingIds| == |rows| == |g.approvalIds|
            && (forall i :: 0 <= i < |rows| ==>
                  g.findingIds[i] == rows[i].finding.publicId && g.approvalIds[i] == rows[i].approval.publicId)
            && (g.approved <==> rows != []) && (g.commentBodyRef.Some? <==> rows != [])
  {
    InvExec(s, events);
  }

  /**
   No lost wake-up: once all findings of a run with findings are decided, either the aggregate was
   accepted, or a command is still pending, or the command that completed the set was skipped
   because the run had left this commit.
   */
  lemma NoLostWakeUp(s: State, events: seq<Event>)
    requires Init(s) && s.tables.findings != []
    requires Exec(s, events).tables.Decided()
    ensures var t := Exec(s, events);
            || HasAccepted(t)
            || HasPending(t)
            || (t.commands != [] && t.receipts[CommandReceipt(t.commands[|t.commands| - 1].approvalId)] == Skipped)
  {
    InvExec(s, events);
    var t := Exec(s, events);
    assert t.tables.findings[0] in t.tables.findings;
    var i :| 0 <= i < |t.commands| && t.commands[i].findingId == t.tables.findings[0].publicId;
    var last := t.commands[|t.commands| - 1];
    if IsPending(t, last) {
      assert HasPending(t);
    }
  }

  lemma NotYetAccepted(s: State, digest: ApprovalSetDigest)
    requires Inv(s) && !HasAccepted(s)
    ensures SetReceipt(digest) !in s.receipts
  {
  }

  lemma PendingIsFound(s: State)
    requires Inv(s) && HasPending(s)
    ensures FirstPending(s, 0) < |s.commands| && Persisted(s.tables, s.commands[FirstPending(s, 0)])
  {
  }

  lemma AcceptedFrom(s: State, key: ReceiptKey)
    requires key.SetReceipt? && key in s.receipts && s.receipts[key].Accepted?
    ensures HasAccepted(s)
  {
  }

  /** A pending command of a decided run that still awaits this commit is accepted by the next dispatch. */
  lemma NextDispatchAccepts(s: State)
    requires Inv(s) && s.awaiting && s.currentHead == s.runHead
    requires s.tables.findings != [] && s.tables.Decided() && HasPending(s) && !HasAccepted(s)
    ensures var t := Step(s, Dispatch);
            HasAccepted(t) && t.signals == s.signals + [AggregateSignal(s.runId, s.runHead, s.tables)]
  {
    hide AggregateSignal, SetDigest, DecisionsOk, ReceiptsOk, LastNotDeferred;
    PendingIsFound(s);
    NotYetAccepted(s, SetDigest(s.runId, s.runHead, s.tables));
    AcceptedFrom(StepDispatch(s, true), SetReceipt(SetDigest(s.runId, s.runHead, s.tables)));
  }

  // ---------------------------------------------------------------- exactly when the wake-up is lost

  /** Commands are receipted in order, and the command that brought the acceptance stays without receipt. */
  ghost predicate InOrder(s: State) {
    && (forall i, j :: 0 <= i < j < |s.commands| && !IsPending(s, s.commands[j]) ==> !IsPending(s, s.commands[i]))
    && (HasAccepted(s) ==> HasPending(s))
  }

  /** Everything is decided, yet nothing was accepted and nothing is left to dispatch. */
  ghost predicate Lost(s: State) {
    s.tables.findings != [] && s.tables.Decided() && !HasAccepted(s) && !HasPending(s)
  }

  predicate LastIsSkipped(s: State) {
    && s.commands != []
    && var key := CommandReceipt(s.commands[|s.commands| - 1].approvalId);
       key in s.receipts && s.receipts[key] == Skipped
  }

  lemma OtherCommandsStay(s: State, k: nat, receipt: Receipt, i: nat)
    requires DecisionsOk(s.tables, s.decisions, s.commands, s.runHead) && k < |s.commands| && i < |s.commands|
    ensures var t := s.(receipts := WithReceipt(s.receipts, CommandReceipt(s.commands[k].approvalId), receipt));
            IsPending(t, s.commands[i]) <==> i != k && IsPending(s, s.commands[i])
  {
    hide Persisted, KnownFinding, AnnouncedFinding;
  }

  lemma SameAccepted(s: State, command: ApprovalCommand, receipt: Receipt)
    ensures HasAccepted(s.(receipts := WithReceipt(s.receipts, CommandReceipt(command.approvalId), receipt))) ==> HasAccepted(s)
  {
  }

  lemma ReceiptInOrder(s: State, receipt: Receipt)
    requires Inv(s) && InOrder(s) && !HasAccepted(s) && FirstPending(s, 0) < |s.commands|
    ensures var command := s.commands[FirstPending(s, 0)];
            InOrder(s.(receipts := WithReceipt(s.receipts, CommandReceipt(command.approvalId), receipt)))
  {
    hide DecisionsOk, ReceiptsOk, LastNotDeferred, HasAccepted, IsPending, AggregateSignal, SetDigest;
    var k := FirstPending(s, 0);
    var t := s.(receipts := WithReceipt(s.receipts, CommandReceipt(s.commands[k].approvalId), receipt));
    SameAccepted(s, s.commands[k], receipt);
    forall i | 0 <= i < |s.commands|
      ensures IsPending(t, s.commands[i]) <==> i != k && IsPending(s, s.commands[i])
    {
      OtherCommandsStay(s, k, receipt, i);
    }
  }

  lemma AcceptanceInOrder(s: State, sent: State, receipt: Receipt, digest: ApprovalSetDigest)
    requires InOrder(s) && HasPending(s)
    requires sent.commands == s.commands && sent.receipts == WithReceipt(s.receipts, SetReceipt(digest), receipt)
    ensures InOrder(sent)
  {
    forall i | 0 <= i < |s.commands|
      ensures IsPending(sent, s.commands[i]) <==> IsPending(s, s.commands[i])
    {
    }
    var i :| 0 <= i < |s.commands| && IsPending(s, s.commands[i]);
    assert IsPending(sent, sent.commands[i]);
  }

  lemma DispatchInOrder(s: State, commits: bool)
    requires Inv(s) && InOrder(s)
    ensures InOrder(StepDispatch(s, commits))
  {
    hide Inv, InOrder, AggregateSignal, SetDigest, AggregateReceipt;
    var k := FirstPending(s, 0);
    if HasAccepted(s) || k == |s.commands| || !Persisted(s.tables, s.commands[k]) {
    } else if !s.awaiting || s.currentHead != s.runHead {
      ReceiptInOrder(s, Skipped);
    } else if s.tables.findings == [] || !s.tables.Decided() {
      ReceiptInOrder(s, Deferred);
    } else {
      var sent := s.(signals := s.signals + [AggregateSignal(s.runId, s.runHead, s.tables)]);
      SameOrder(s, sent);
      AcceptanceInOrder(s, StepDispatch(s, true), AggregateReceipt(s.tables), SetDigest(s.runId, s.runHead, s.tables));
    }
  }

  lemma SameOrder(s: State, t: State)
    requires t.commands == s.commands && t.receipts == s.receipts
    ensures InOrder(t) <==> InOrder(s)
    ensures HasAccepted(t) <==> HasAccepted(s)
    ensures HasPending(t) <==> HasPending(s)
  {
    assert forall command :: IsPending(t, command) <==> IsPending(s, command);
  }

  lemma RecordInOrder(s: State, findingId: Id, request: DecisionRequest, newId: Id)
    requires Inv(s) && InOrder(s)
    ensures InOrder(Step(s, Record(findingId, request, newId)))
  {
    hide DecisionsOk, LastNotDeferred, AggregateSignal, SetDigest;
    var t := Step(s, Record(findingId, request, newId));
    if t != s {
      assert t.receipts == s.receipts && |t.commands| == |s.commands| + 1;
      assert !Announced(s.commands, newId) && t.commands[|s.commands|].approvalId == newId;
      assert IsPending(t, t.commands[|s.commands|]);
      forall i | 0 <= i < |s.commands|
        ensures t.commands[i] == s.commands[i] && (IsPending(t, t.commands[i]) <==> IsPending(s, s.commands[i]))
      {
      }
    }
  }

  lemma InOrderStep(s: State, e: Event)
    requires Inv(s) && InOrder(s)
    ensures InOrder(Step(s, e))
  {
    hide Inv, InOrder, StepRecord, StepDispatch;
    match e {
      case Record(findingId, request, newId) => RecordInOrder(s, findingId, request, newId);
      case Dispatch => DispatchInOrder(s, true);
      case DispatchCrash => DispatchInOrder(s, false);
      case ChangeRun(awaiting) => SameOrder(s, Step(s, e));
      case MoveHead(sha) => SameOrder(s, Step(s, e));
    }
  }

  lemma {:induction false} InOrderExec(s: State, events: seq<Event>)
    requires Init(s)
    ensures InOrder(Exec(s, events))
  {
    if events == [] {
      assert !HasAccepted(s);
    } else {
      hide Step, Inv, InOrder;
      InvExec(s, events[..|events| - 1]);
      InOrderExec(s, events[..|events| - 1]);
      InOrderStep(Exec(s, events[..|events| - 1]), events[|events| - 1]);
    }
  }

  lemma DecidedHasCommands(s: State)
    requires Inv(s) && s.tables.findings != [] && s.tables.Decided()
    ensures s.commands != []
  {
    hide AggregateSignal, SetDigest, ReceiptsOk, LastNotDeferred, Persisted;
    assert s.tables.findings[0] in s.tables.findings;
    assert AnnouncedFinding(s.commands, s.tables.findings[0].publicId);
  }

  lemma LastIsPendingIff(s: State)
    requires InOrder(s) && s.commands != []
    ensures HasAccepted(s) || HasPending(s) <==> IsPending(s, s.commands[|s.commands| - 1])
  {
    hide HasAccepted, IsPending;
    var n := |s.commands| - 1;
    if HasPending(s) {
      var i :| 0 <= i < |s.commands| && IsPending(s, s.commands[i]);
      assert IsPending(s, s.commands[n]);
    }
  }

  /** A decided run keeps its wake-up, accepted or pending, unless its last command was skipped. */
  lemma DecidedIsPending(s: State)
    requires Inv(s) && InOrder(s) && s.tables.findings != [] && s.tables.Decided()
    ensures s.commands != []
    ensures HasAccepted(s) || HasPending(s) <==> !LastIsSkipped(s)
  {
    hide AggregateSignal, SetDigest, DecisionsOk, ReceiptsOk, InOrder, HasAccepted, HasPending;
    DecidedHasCommands(s);
    LastIsPendingIff(s);
  }

  /** In every run with findings that is decided, the wake-up is lost exactly when the last command was skipped. */
  lemma WakeUpIsLostIff(s: State, events: seq<Event>)
    requires Init(s) && s.tables.findings != [] && Exec(s, events).tables.Decided()
    ensures var t := Exec(s, events); HasAccepted(t) || HasPending(t) <==> !LastIsSkipped(t)
  {
    hide Inv, InOrder, HasAccepted, HasPending, LastIsSkipped;
    InvExec(s, events);
    InOrderExec(s, events);
    DecidedIsPending(Exec(s, events));
  }

  /**
   The guard of the loss: with one command left in a decided run, the dispatch of that command loses
   the wake-up exactly when the run has stopped waiting or its head is not this commit at that moment.
   */
  lemma LastDispatchLosesIff(s: State, events: seq<Event>)
    requires Init(s) && s.tables.findings != []
    requires var t := Exec(s, events);
             t.tables.Decided() && !HasAccepted(t) && t.commands != [] && FirstPending(t, 0) == |t.commands| - 1
    ensures var t := Exec(s, events); Lost(Step(t, Dispatch)) <==> !t.awaiting || t.currentHead != t.runHead
  {
    hide Inv, InOrder;
    InvExec(s, events);
    InOrderExec(s, events);
    LastDispatch(Exec(s, events));
  }

  lemma LastDispatch(s: State)
    requires Inv(s) && InOrder(s) && s.tables.findings != [] && s.tables.Decided() && !HasAccepted(s)
    requires s.commands != [] && FirstPending(s, 0) == |s.commands| - 1
    ensures Lost(Step(s, Dispatch)) <==> !s.awaiting || s.currentHead != s.runHead
  {
    hide AggregateSignal, SetDigest, DecisionsOk, ReceiptsOk, LastNotDeferred, InOrder, HasAccepted;
    var n := |s.commands| - 1;
    assert IsPending(s, s.commands[n]);
    PendingIsFound(s);
    if s.awaiting && s.currentHead == s.runHead {
      NextDispatchAccepts(s);
    } else {
      var t := Step(s, Dispatch);
      SameAccepted(s, s.commands[n], Skipped);
      forall i | 0 <= i < |s.commands|
        ensures !IsPending(t, t.commands[i])
      {
        OtherCommandsStay(s, n, Skipped, i);
      }
    }
  }

  lemma LostStep(s: State, e: Event)
    requires Inv(s) && Lost(s)
    ensures Lost(Step(s, e)) && Step(s, e).signals == s.signals && Step(s, e).receipts == s.receipts
  {
    hide AggregateSignal, SetDigest, ReceiptsOk, LastNotDeferred, HasAccepted;
    match e {
      case Record(findingId, request, newId) => DecidedTakesNoMore(s, findingId, request, newId);
      case Dispatch =>
      case DispatchCrash =>
      case ChangeRun(awaiting) => SameOrder(s, Step(s, e));
      case MoveHead(sha) => SameOrder(s, Step(s, e));
    }
  }

  lemma DecidedTakesNoMore(s: State, findingId: Id, request: DecisionRequest, newId: Id)
    requires Inv(s) && s.tables.Decided()
    ensures StepRecord(s, findingId, request, newId) == s
  {
    hide AggregateSignal, SetDigest, ReceiptsOk, LastNotDeferred;
    if KnownFinding(s.tables, findingId) {
      var f :| f in s.tables.findings && f.publicId == findingId;
      assert findingId in s.decisions;
    }
  }

  /** A lost wake-up stays lost: in no continuation is anything more accepted, sent or left to dispatch. */
  lemma {:induction false} LostForever(s: State, events: seq<Event>, n: nat)
    requires Init(s) && n <= |events| && Lost(Exec(s, events[..n]))
    ensures Lost(Exec(s, events))
    ensures Exec(s, events).signals == Exec(s, events[..n]).signals
    ensures Exec(s, events).receipts == Exec(s, events[..n]).receipts
    decreases |events|
  {
    if n == |events| {
      assert events[..n] == events;
    } else {
      hide Step, Inv, Lost;
      var front := events[..|events| - 1];
      assert front[..n] == events[..n];
      LostForever(s, front, n);
      InvExec(s, front);
      LostStep(Exec(s, front), events[|events| - 1]);
    }
  }

  lemma AcceptedStep(s: State, e: Event)
    requires Inv(s) && InOrder(s) && HasAccepted(s)
    ensures HasAccepted(Step(s, e)) && Step(s, e).signals == s.signals && Step(s, e).receipts == s.receipts
  {
    hide AggregateSignal, SetDigest, Inv, InOrder, FirstPending;
  }

  /** Once the aggregate is accepted, no continuation sends or receipts anything more. */
  lemma {:induction false} AcceptedIsFinal(s: State, events: seq<Event>, n: nat)
    requires Init(s) && n <= |events| && HasAccepted(Exec(s, events[..n]))
    ensures HasAccepted(Exec(s, events))
    ensures Exec(s, events).signals == Exec(s, events[..n]).signals
    ensures Exec(s, events).receipts == Exec(s, events[..n]).receipts
    decreases |events|
  {
    if n == |events| {
      assert events[..n] == events;
    } else {
      hide Step, Inv, InOrder, HasAccepted;
      var front := events[..|events| - 1];
      assert front[..n] == events[..n];
      AcceptedIsFinal(s, front, n);
      InvExec(s, front);
      InOrderExec(s, front);
      AcceptedStep(Exec(s, front), events[|events| - 1]);
    }
  }

  /** A run without findings is never woken: it can only time out, be cancelled or be superseded. */
  lemma NoFindingsNeverWakes(s: State, events: seq<Event>)
    requires Init(s) && s.tables.findings == []
    ensures Exec(s, events).signals == [] && !HasPending(Exec(s, events)) && !HasAccepted(Exec(s, events))
  {
    InvExec(s, events);
    NoFindingsNoCommands(Exec(s, events));
    NoFindingsNoSignals(s, events);
  }

  lemma {:induction false} NoFindingsNoSignals(s: State, events: seq<Event>)
    requires Init(s) && s.tables.findings == []
    ensures Exec(s, events).signals == [] && Exec(s, events).receipts == map[]
  {
    if events == [] {
    } else {
      var front := events[..|events| - 1];
      NoFindingsNoSignals(s, front);
      InvExec(s, front);
      NoFindingsNoCommands(Exec(s, front));
    }
  }

  /**
   A skipped receipt does lose the wake-up: with the head moved away and back around one dispatch,
   the run awaits its commit with everything decided, nothing pending and nothing sent.
   */
  lemma SkippedLosesWakeUp(finding: Finding, request: DecisionRequest, other: Sha)
    requires other != request.headSha
    ensures var s := State("run", request.headSha, true, request.headSha, Tables([finding], map[]), map[], [], map[], []);
            var decided := Step(s, Record(finding.publicId, request, "a"));
            var t := Step(Step(Step(decided, MoveHead(other)), Dispatch), MoveHead(request.headSha));
            && Init(s) && t.awaiting && t.currentHead == t.runHead && t.tables.Decided()
            && !HasAccepted(t) && !HasPending(t) && t.signals == []
  {
    var s := State("run", request.headSha, true, request.headSha, Tables([finding], map[]), map[], [], map[], []);
    assert s.tables.findings[0] == finding;
    var s1 := Step(s, Record(finding.publicId, request, "a"));
    var s2 := Step(s1, MoveHead(other));
    assert s2.commands[0].approvalId == "a" && FirstPending(s2, 0) == 0 && Persisted(s2.tables, s2.commands[0]);
    assert !HasAccepted(s2);
    var s3 := Step(s2, Dispatch);
    assert s3.receipts == map[CommandReceipt("a") := Skipped];
  }

  /**
   A stored decision never changes. While the run waits on its head, repeating it with the same actor,
   decision and reason is answered by its own receipt, and anything else is refused.
   */
  lemma DecisionIsImmutable(s: State, findingId: Id, request: DecisionRequest, newId: Id)
    requires findingId in s.decisions
    ensures StepRecord(s, findingId, request, newId) == s
    ensures var outcome := DecisionOutcome(s, findingId, request, newId);
            var stored := s.decisions[findingId];
            && (outcome.Ok? <==>
                  && (exists f :: f in s.tables.findings && f.publicId == findingId)
                  && request.headSha == s.runHead == s.currentHead && s.awaiting
                  && request.actor == stored.request.actor && request.decision == stored.request.decision
                  && request.reason == stored.request.reason)
            && (outcome.Ok? ==> outcome.value == DecisionReceipt(stored.approvalId, stored.request.decision, true))
  {
  }

  // ---------------------------------------------------------------- what a human decided is what is stored

  /** A decision can be recorded: for a finding of the run, on its head, while it waits, and not yet decided. */
  predicate CanRecord(s: State, findingId: Id, request: DecisionRequest) {
    && (exists f :: f in s.tables.findings && f.publicId == findingId)
    && request.headSha == s.runHead == s.currentHead && s.awaiting
    && findingId !in s.decisions
  }

  /** Recording succeeds anew exactly when it can, and then stores this decision and announces it. */
  lemma DecisionIsStored(s: State, findingId: Id, request: DecisionRequest, newId: Id)
    ensures var outcome := DecisionOutcome(s, findingId, request, newId);
            outcome.Ok? && !outcome.value.alreadyRecorded <==> CanRecord(s, findingId, request)
    ensures CanRecord(s, findingId, request) ==>
              DecisionOutcome(s, findingId, request, newId) == Ok(DecisionReceipt(newId, request.decision, false))
    ensures var t := StepRecord(s, findingId, request, newId);
            if CanRecord(s, findingId, request) then
              && t.tables.findings == s.tables.findings
              && t.tables.approvals == s.tables.approvals[findingId := Approval(newId, request.decision, request.headSha)]
              && t.decisions == s.decisions[findingId := StoredDecision(newId, request)]
              && t.commands == s.commands + [ApprovalCommand(newId, findingId, request.decision, request.headSha)]
              && t == s.(tables := t.tables, decisions := t.decisions, commands := t.commands)
            else t == s
  {
  }

  /** The only step that changes an approval adds the decision of its own request. */
  lemma ApprovalsChangeBy(s: State, e: Event)
    ensures var t := Step(s, e);
            || t.tables.approvals == s.tables.approvals
            || (e.Record? && CanRecord(s, e.findingId, e.request)
                && t.tables.approvals ==
                   s.tables.approvals[e.findingId := Approval(e.newId, e.request.decision, e.request.headSha)])
  {
    hide SetDigest, AggregateSignal, FirstPending, HasAccepted;
  }

  /** Event `i` records exactly the approval that is stored for the finding. */
  predicate RecordedAt(s: State, events: seq<Event>, findingId: Id, i: nat) {
    && i < |events| && events[i].Record? && events[i].findingId == findingId
    && CanRecord(Exec(s, events[..i]), findingId, events[i].request)
    && findingId in Exec(s, events).tables.approvals
    && Exec(s, events).tables.approvals[findingId]
       == Approval(events[i].newId, events[i].request.decision, events[i].request.headSha)
  }

  /**
   Over every run, each stored approval is the decision a request made for that finding, on the run's
   head, at a moment when the run was waiting for it and it was undecided.
   */
  lemma {:induction false} ApprovalsComeFromRequests(s: State, events: seq<Event>, findingId: Id)
    requires Init(s) && findingId in Exec(s, events).tables.approvals
    ensures exists i: nat :: RecordedAt(s, events, findingId, i)
  {
    if events == [] {
      assert false;
    } else {
      hide Step, CanRecord;
      var n := |events| - 1;
      var front := events[..n];
      ApprovalsChangeBy(Exec(s, front), events[n]);
      if findingId in Exec(s, front).tables.approvals
         && Exec(s, events).tables.approvals[findingId] == Exec(s, front).tables.approvals[findingId] {
        ApprovalsComeFromRequests(s, front, findingId);
        var i: nat :| RecordedAt(s, front, findingId, i);
        assert events[..i] == front[..i];
        assert RecordedAt(s, events, findingId, i);
      } else {
        assert RecordedAt(s, events, findingId, n);
      }
    }
  }

  /** What one dispatch does, case by case. */
  lemma DispatchDecides(s: State, k: nat)
    requires Inv(s) && !HasAccepted(s) && k < |s.commands| && IsPending(s, s.commands[k])
    requires forall i :: 0 <= i < k ==> !IsPending(s, s.commands[i])
    ensures var t, key := Step(s, Dispatch), CommandReceipt(s.commands[k].approvalId);
            if !s.awaiting || s.currentHead != s.runHead then t == s.(receipts := s.receipts[key := Skipped])
            else if exists f :: f in s.tables.findings && f.publicId !in s.tables.approvals
            then t == s.(receipts := s.receipts[key := Deferred])
            else |t.signals| == |s.signals| + 1 && HasAccepted(t)
  {
    hide DecisionsOk, ReceiptsOk, LastNotDeferred, AggregateSignal, SetDigest, HasAccepted;
    assert FirstPending(s, 0) == k;
    PendingIsFound(s);
    if s.tables.findings == [] {
      NoFindingsNoCommands(s);
    }
    if s.awaiting && s.currentHead == s.runHead && s.tables.Decided() {
      NextDispatchAccepts(s);
    }
  }

  /** Counted one by one. */
  function CountDecided(findings: seq<Finding>, approvals: map<Id, Approval>, decision: Decision): nat {
    if findings == [] then 0
    else (if findings[0].publicId in approvals && approvals[findings[0].publicId].decision == decision then 1 else 0)
         + CountDecided(findings[1..], approvals, decision)
  }

  lemma {:induction false} ApprovedAreCounted(findings: seq<Finding>, approvals: map<Id, Approval>)
    ensures |ApprovedRows(findings, approvals)| == CountDecided(findings, approvals, Approve)
    ensures (forall f :: f in findings ==> f.publicId in approvals) ==>
              CountDecided(findings, approvals, Approve) + CountDecided(findings, approvals, Reject) == |findings|
  {
    if findings == [] {
    } else {
      ApprovedAreCounted(findings[1..], approvals);
      assert findings == [findings[0]] + findings[1..];
    }
  }

  /** The receipt of a decided run counts its approvals and its rejections. */
  lemma ReceiptCountsDecisions(tables: Tables)
    requires forall f :: f in tables.findings ==> f.publicId in tables.approvals
    ensures AggregateReceipt(tables) ==
            Accepted(CountDecided(tables.findings, tables.approvals, Approve),
                     CountDecided(tables.findings, tables.approvals, Reject))
  {
    ApprovedAreCounted(tables.findings, tables.approvals);
  }

  // ---------------------------------------------------------------- the two transactions

  /** The rows of one run that the approval endpoint and the approval dispatcher change in place. */
  class ApprovalStore {
    const runId: Id
    const runHead: Sha
    var awaiting: bool
    var currentHead: Sha
    var tables: Tables
    var decisions: map<Id, StoredDecision>
    var commands: seq<ApprovalCommand>
    var receipts: map<ReceiptKey, Receipt>
    var signals: seq<ApprovalSignal>

    constructor (runId: Id, runHead: Sha, findings: seq<Finding>)
      requires Tables(findings, map[]).Valid()
      ensures this.runId == runId && this.runHead == runHead && tables.findings == findings
      ensures Init(S())
    {
      this.runId, this.runHead := runId, runHead;
      this.awaiting, this.currentHead := true, runHead;
      this.tables, this.decisions := Tables(findings, map[]), map[];
      this.commands, this.receipts, this.signals := [], map[], [];
    }

    ghost function S(): State
      reads this
    {
      State(runId, runHead, awaiting, currentHead, tables, decisions, commands, receipts, signals)
    }

    /** One immutable approval and its outbox command, or no change at all. */
    method RecordApprovalDecision(findingId: Id, request: DecisionRequest, newId: Id)
      returns (r: Result<DecisionReceipt, DecisionError>)
      modifies this`tables, this`decisions, this`commands
      ensures r == DecisionOutcome(old(S()), findingId, request, newId)
      ensures S() == StepRecord(old(S()), findingId, request, newId)
      ensures if CanRecord(old(S()), findingId, request) then
                && r == Ok(DecisionReceipt(newId, request.decision, false))
                && tables.findings == old(tables).findings
                && tables.approvals == old(tables).approvals[findingId := Approval(newId, request.decision, request.headSha)]
                && decisions == old(decisions)[findingId := StoredDecision(newId, request)]
                && commands == old(commands) + [ApprovalCommand(newId, findingId, request.decision, request.headSha)]
              else S() == old(S())
    {
      if !KnownFinding(tables, findingId) {
        return Err(FindingNotFound);
      }
      if request.headSha != runHead || currentHead != runHead {
        return Err(CommitStale);
      }
      if !awaiting {
        return Err(NotAwaitingApproval);
      }
      if findingId in decisions {
        var existing := decisions[findingId];
        if existing.request.actor == request.actor && existing.request.decision == request.decision
           && existing.request.reason == request.reason {
          return Ok(DecisionReceipt(existing.approvalId, request.decision, true));
        }
        return Err(AlreadyDecided);
      }
      tables := tables.(approvals := tables.approvals[findingId := Approval(newId, request.decision, runHead)]);
      decisions := decisions[findingId := StoredDecision(newId, request)];
      commands := commands + [ApprovalCommand(newId, findingId, request.decision, runHead)];
      return Ok(DecisionReceipt(newId, request.decision, false));
    }

    /** Scans for the oldest command without a receipt. */
    method OldestPending() returns (k: nat)
      ensures k == FirstPending(S(), 0)
    {
      k := 0;
      while k < |commands| && CommandReceipt(commands[k].approvalId) in receipts
        invariant k <= |commands|
        invariant FirstPending(S(), 0) == FirstPending(S(), k)
      {
        k := k + 1;
      }
    }

    /** Handles the oldest pending command: skipped, deferred, or answered by the aggregate signal. */
    method DispatchNextApproval() returns (dispatched: bool)
      requires Inv(S())
      modifies this`receipts, this`signals
      ensures S() == StepDispatch(old(S()), true) && Inv(S())
      ensures dispatched <==> !HasAccepted(old(S())) && HasPending(old(S()))
    {
      hide AggregateSignal, SetDigest, AggregateReceipt, DecisionsOk, ReceiptsOk, LastNotDeferred;
      InvDispatch(S(), true);
      if exists key :: key in receipts && key.SetReceipt? && receipts[key].Accepted? {
        return false;
      }
      var k := OldestPending();
      if k == |commands| {
        return false;
      }
      PendingIsFound(S());
      var key := CommandReceipt(commands[k].approvalId);
      if !awaiting || currentHead != runHead {
        receipts := receipts[key := Skipped];
        return true;
      }
      if tables.findings == [] || !tables.Decided() {
        receipts := receipts[key := Deferred];
        return true;
      }
      NotYetAccepted(S(), SetDigest(runId, runHead, tables));
      signals := signals + [AggregateSignal(runId, runHead, tables)];
      receipts := receipts[SetReceipt(SetDigest(runId, runHead, tables)) := AggregateReceipt(tables)];
      return true;
    }
  }
}
