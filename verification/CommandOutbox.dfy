/**
 The start-run outbox: intake allocates a generation and appends a command in one transaction, and
 concurrent dispatchers send commands to the durable workflow, first in first out for each pull
 request.

 A dispatch holds its command's lock from selection to commit. It may stop at any point, also after
 the workflow service accepted the command and before the receipt commits.
 */
module CommandOutbox {
  import opened Options
  import opened RunContracts

  type PullRequest = string

  /** Commands are numbered by their position in the outbox. */
  datatype Command = Command(pullRequest: PullRequest, generation: nat)

  datatype Status = Accepted | SkippedTerminal | SkippedByPolicy

  datatype Receipt = Receipt(command: nat, status: Status)

  /** `runStates[k]` is the state of the run that command `k` starts; `sent` is in order of acceptance. */
  datatype State = State(
    commands: seq<Command>, runStates: seq<RunState>, receipts: seq<Receipt>,
    sending: map<nat, nat>, sent: seq<nat>)

  datatype Event =
    | Allocate(pullRequest: PullRequest)
    | Select(dispatcher: nat, command: nat)
    | Skip(dispatcher: nat, policyAdmits: bool)
    | Send(dispatcher: nat, policyAdmits: bool)
    | Commit(dispatcher: nat)
    | Crash(dispatcher: nat)
    | RunChanges(command: nat, state: RunState)

  // ---------------------------------------------------------------- the transactions

  function MaxGeneration(commands: seq<Command>, pullRequest: PullRequest): nat {
    if commands == [] then 0
    else
      var last := commands[|commands| - 1];
      var before := MaxGeneration(commands[..|commands| - 1], pullRequest);
      if last.pullRequest == pullRequest && last.generation > before then last.generation else before
  }

  function Allocated(s: State, pullRequest: PullRequest): State {
    s.(commands := s.commands + [Command(pullRequest, MaxGeneration(s.commands, pullRequest) + 1)],
       runStates := s.runStates + [Queued])
  }

  predicate Receipted(receipts: seq<Receipt>, k: nat) {
    exists i :: 0 <= i < |receipts| && receipts[i].command == k
  }

  predicate EarlierReceipted(commands: seq<Command>, receipts: seq<Receipt>, k: nat)
    requires k < |commands|
  {
    forall j :: 0 <= j < k && commands[j].pullRequest == commands[k].pullRequest ==> Receipted(receipts, j)
  }

  /** Without a receipt, and the oldest such command of its pull request. */
  predicate Eligible(commands: seq<Command>, receipts: seq<Receipt>, k: nat) {
    k < |commands| && !Receipted(receipts, k) && EarlierReceipted(commands, receipts, k)
  }

  /** `ON CONFLICT DO NOTHING` on the receipt's key. */
  function WithReceipt(receipts: seq<Receipt>, receipt: Receipt): seq<Receipt> {
    if Receipted(receipts, receipt.command) then receipts else receipts + [receipt]
  }

  /** A command is skipped for its own run and the policy; newer generations play no part. */
  predicate MustSkip(s: State, k: nat, policyAdmits: bool)
    requires k < |s.runStates|
  {
    s.runStates[k] in TERMINAL_RUN_STATES || !policyAdmits
  }

  /** A terminal run is skipped; a run that policy does not admit is skipped and cancelled if still queued. */
  function Skipped(s: State, d: nat, policyAdmits: bool): State
    requires d in s.sending && s.sending[d] < |s.runStates|
  {
    var k := s.sending[d];
    if s.runStates[k] in TERMINAL_RUN_STATES then
      s.(receipts := WithReceipt(s.receipts, Receipt(k, SkippedTerminal)), sending := s.sending - {d})
    else if !policyAdmits then
      s.(receipts := WithReceipt(s.receipts, Receipt(k, SkippedByPolicy)), sending := s.sending - {d},
         runStates := if s.runStates[k] == Queued then s.runStates[k := Cancelled] else s.runStates)
    else s
  }

  function Step(s: State, e: Event): State {
    match e
    case Allocate(pullRequest) => Allocated(s, pullRequest)
    case Select(d, k) =>
      if d !in s.sending && Eligible(s.commands, s.receipts, k) && k !in s.sending.Values
      then s.(sending := s.sending[d := k])
      else s
    case Skip(d, policyAdmits) =>
      if d in s.sending && s.sending[d] < |s.runStates| then Skipped(s, d, policyAdmits) else s
    case Send(d, policyAdmits) =>
      if d in s.sending && s.sending[d] < |s.runStates| && !MustSkip(s, s.sending[d], policyAdmits)
      then s.(sent := s.sent + [s.sending[d]])
      else s
    case Commit(d) =>
      if d in s.sending && s.sending[d] in s.sent
      then s.(receipts := WithReceipt(s.receipts, Receipt(s.sending[d], Accepted)), sending := s.sending - {d})
      else s
    case Crash(d) => s.(sending := s.sending - {d})
    // a dispatcher holds the lock of its command's run
    case RunChanges(k, state) =>
      if k < |s.runStates| && k !in s.sending.Values then s.(runStates := s.runStates[k := state]) else s
  }

  function Exec(s: State, events: seq<Event>): State {
    if events == [] then s else Step(Exec(s, events[..|events| - 1]), events[|events| - 1])
  }

  const EMPTY := State([], [], [], map[], [])

  // ---------------------------------------------------------------- invariant

  function CountOf(commands: seq<Command>, pullRequest: PullRequest): nat {
    if commands == [] then 0
    else CountOf(commands[..|commands| - 1], pullRequest)
         + (if commands[|commands| - 1].pullRequest == pullRequest then 1 else 0)
  }

  /** The generations of a pull request are 1, 2, 3, ... in command order. */
  ghost predicate Numbered(commands: seq<Command>) {
    forall k :: 0 <= k < |commands| ==> commands[k].generation == CountOf(commands[..k], commands[k].pullRequest) + 1
  }

  ghost predicate ReceiptsOk(commands: seq<Command>, receipts: seq<Receipt>) {
    && (forall i :: 0 <= i < |receipts| ==> receipts[i].command < |commands|)
    && (forall i, j :: 0 <= i < j < |receipts| ==> receipts[i].command != receipts[j].command)
    && (forall k :: 0 <= k < |commands| && Receipted(receipts, k) ==> EarlierReceipted(commands, receipts, k))
  }

  ghost predicate SendingOk(s: State) {
    && (forall d :: d in s.sending ==> Eligible(s.commands, s.receipts, s.sending[d]))
    && (forall d, e :: d in s.sending && e in s.sending && d != e ==> s.sending[d] != s.sending[e])
  }

  ghost predicate SentOk(commands: seq<Command>, receipts: seq<Receipt>, sent: seq<nat>) {
    && (forall i :: 0 <= i < |sent| ==> sent[i] < |commands| && EarlierReceipted(commands, receipts, sent[i]))
    && (forall i, j :: 0 <= i < j < |sent| && commands[sent[i]].pullRequest == commands[sent[j]].pullRequest ==>
          sent[i] <= sent[j])
  }

  ghost predicate Inv(s: State) {
    && |s.runStates| == |s.commands|
    && Numbered(s.commands)
    && ReceiptsOk(s.commands, s.receipts)
    && SendingOk(s)
    && SentOk(s.commands, s.receipts, s.sent)
  }

  lemma {:induction false} MaxIsCount(commands: seq<Command>, pullRequest: PullRequest)
    requires Numbered(commands)
    ensures MaxGeneration(commands, pullRequest) == CountOf(commands, pullRequest)
  {
    if commands == [] {
    } else {
      var front := commands[..|commands| - 1];
      forall k | 0 <= k < |front|
        ensures front[k].generation == CountOf(front[..k], front[k].pullRequest) + 1
      {
        assert front[..k] == commands[..k];
      }
      MaxIsCount(front, pullRequest);
    }
  }

  lemma InvAllocate(s: State, pullRequest: PullRequest)
    requires Inv(s)
    ensures Inv(Step(s, Allocate(pullRequest)))
  {
    var t := Step(s, Allocate(pullRequest));
    var n := |s.commands|;
    MaxIsCount(s.commands, pullRequest);
    forall k | 0 <= k < |t.commands|
      ensures t.commands[k].generation == CountOf(t.commands[..k], t.commands[k].pullRequest) + 1
    {
      assert t.commands[..k] == s.commands[..k];
      assert s.commands[..n] == s.commands;
    }
    AllocateKeepsOrder(s, t.commands);
  }

  lemma AllocateKeepsOrder(s: State, commands: seq<Command>)
    requires Inv(s) && |commands| == |s.commands| + 1 && commands[..|s.commands|] == s.commands
    ensures ReceiptsOk(commands, s.receipts) && SentOk(commands, s.receipts, s.sent) && SendingOk(s.(commands := commands))
  {
    hide Numbered, MaxGeneration;
    assert forall k :: 0 <= k < |s.commands| ==> commands[k] == s.commands[k];
    assert forall k :: 0 <= k < |s.commands| ==>
      (EarlierReceipted(commands, s.receipts, k) <==> EarlierReceipted(s.commands, s.receipts, k));
    assert !Receipted(s.receipts, |s.commands|);
  }

  /** Giving the command being sent its receipt. */
  lemma InvReceipt(s: State, d: nat, status: Status)
    requires Inv(s) && d in s.sending
    ensures var receipts := WithReceipt(s.receipts, Receipt(s.sending[d], status));
            && receipts == s.receipts + [Receipt(s.sending[d], status)]
            && Inv(s.(receipts := receipts, sending := s.sending - {d}))
  {
    hide Numbered;
    var k := s.sending[d];
    var receipts := s.receipts + [Receipt(k, status)];
    assert Eligible(s.commands, s.receipts, k);
    forall j: nat
      ensures Receipted(receipts, j) <==> Receipted(s.receipts, j) || j == k
    {
      assert receipts[|s.receipts|].command == k;
      if Receipted(s.receipts, j) {
        var i :| 0 <= i < |s.receipts| && s.receipts[i].command == j;
        assert receipts[i].command == j;
      }
    }
    forall j | 0 <= j < |s.commands| && EarlierReceipted(s.commands, s.receipts, j)
      ensures EarlierReceipted(s.commands, receipts, j)
    {
    }
    forall i, j | 0 <= i < j < |receipts|
      ensures receipts[i].command != receipts[j].command
    {
      if j == |s.receipts| {
        assert Receipted(s.receipts, s.receipts[i].command);
      }
    }
  }

  lemma InvSend(s: State, d: nat, policyAdmits: bool)
    requires Inv(s) && d in s.sending
    ensures Inv(Step(s, Send(d, policyAdmits)))
  {
    hide Numbered, ReceiptsOk;
    var k := s.sending[d];
    assert Eligible(s.commands, s.receipts, k) by { SendingIsEligible(s, d); }
    forall i | 0 <= i < |s.sent| && s.commands[s.sent[i]].pullRequest == s.commands[k].pullRequest
      ensures s.sent[i] <= k
    {
      // a later command of the same pull request was only sent once this one had its receipt
      assert EarlierReceipted(s.commands, s.receipts, s.sent[i]);
    }
  }

  lemma SendingIsEligible(s: State, d: nat)
    requires SendingOk(s) && d in s.sending
    ensures Eligible(s.commands, s.receipts, s.sending[d])
  {
  }

  lemma InvStep(s: State, e: Event)
    requires Inv(s)
    ensures Inv(Step(s, e))
  {
    hide Numbered, ReceiptsOk, SentOk, Allocated, MaxGeneration, WithReceipt, Receipted, EarlierReceipted;
    match e {
      case Allocate(pullRequest) => InvAllocate(s, pullRequest);
      case Send(d, policyAdmits) => if d in s.sending { InvSend(s, d, policyAdmits); }
      case Commit(d) => if d in s.sending { InvReceipt(s, d, Accepted); }
      case Skip(d, _) =>
        if d in s.sending {
          InvReceipt(s, d, SkippedTerminal);
          InvReceipt(s, d, SkippedByPolicy);
        }
      case Select(d, k) =>
      case Crash(d) =>
      case RunChanges(k, state) =>
    }
  }

  lemma {:induction false} InvExec(events: seq<Event>)
    ensures Inv(Exec(EMPTY, events))
  {
    if events == [] {
      assert Inv(EMPTY);
    } else {
      hide Step, Inv;
      InvExec(events[..|events| - 1]);
      InvStep(Exec(EMPTY, events[..|events| - 1]), events[|events| - 1]);
    }
  }

  // ---------------------------------------------------------------- main results, over every run

  /** Each pull request's receipted commands are a prefix of its commands, with one receipt each. */
  lemma ReceiptedIsPrefix(events: seq<Event>, j: nat, k: nat)
    requires var s := Exec(EMPTY, events);
             j < k < |s.commands| && s.commands[j].pullRequest == s.commands[k].pullRequest && Receipted(s.receipts, k)
    ensures var s := Exec(EMPTY, events);
            && Receipted(s.receipts, j)
            && forall a, b :: 0 <= a < b < |s.receipts| ==> s.receipts[a].command != s.receipts[b].command
  {
    InvExec(events);
    hide Exec;
  }

  lemma {:induction false} CountGrows(commands: seq<Command>, pullRequest: PullRequest, j: nat, k: nat)
    requires j < k <= |commands| && commands[j].pullRequest == pullRequest
    ensures CountOf(commands[..j], pullRequest) < CountOf(commands[..k], pullRequest)
  {
    assert commands[..k][..k - 1] == commands[..k - 1];
    if k == j + 1 {
    } else {
      CountGrows(commands, pullRequest, j, k - 1);
    }
  }

  /** The generations accepted by the workflow service never decrease for a pull request. */
  lemma SentGenerationsNeverDecrease(events: seq<Event>, i: nat, j: nat)
    requires i < j < |Exec(EMPTY, events).sent|
    ensures var s := Exec(EMPTY, events);
            && s.sent[i] < |s.commands| && s.sent[j] < |s.commands|
            && (s.commands[s.sent[i]].pullRequest == s.commands[s.sent[j]].pullRequest ==>
                  s.commands[s.sent[i]].generation <= s.commands[s.sent[j]].generation)
  {
    InvExec(events);
    hide Exec;
    var s := Exec(EMPTY, events);
    if s.commands[s.sent[i]].pullRequest == s.commands[s.sent[j]].pullRequest && s.sent[i] < s.sent[j] {
      CountGrows(s.commands, s.commands[s.sent[i]].pullRequest, s.sent[i], s.sent[j]);
    }
  }

  lemma {:induction false} CountMeans(commands: seq<Command>, pullRequest: PullRequest)
    ensures CountOf(commands, pullRequest) ==
            multiset(seq(|commands|, i requires 0 <= i < |commands| => commands[i].pullRequest))[pullRequest]
  {
    var all := seq(|commands|, i requires 0 <= i < |commands| => commands[i].pullRequest);
    if commands == [] {
    } else {
      var front := commands[..|commands| - 1];
      CountMeans(front, pullRequest);
      assert all == seq(|front|, i requires 0 <= i < |front| => front[i].pullRequest) + [commands[|front|].pullRequest];
    }
  }

  /**
   The generations of a pull request are 1, 2, 3, ... in command order, from either allocator: one more
   than there are earlier commands of that pull request, so a later command always has a greater one.
   */
  lemma GenerationsCountUp(events: seq<Event>, k: nat)
    requires k < |Exec(EMPTY, events).commands|
    ensures var commands := Exec(EMPTY, events).commands;
            && commands[k].generation ==
               1 + multiset(seq(k, i requires 0 <= i < k => commands[i].pullRequest))[commands[k].pullRequest]
            && forall j :: 0 <= j < k && commands[j].pullRequest == commands[k].pullRequest ==>
                 commands[j].generation < commands[k].generation
  {
    InvExec(events);
    hide Exec;
    var commands := Exec(EMPTY, events).commands;
    CountMeans(commands[..k], commands[k].pullRequest);
    assert seq(k, i requires 0 <= i < k => commands[..k][i].pullRequest)
        == seq(k, i requires 0 <= i < k => commands[i].pullRequest);
    forall j | 0 <= j < k && commands[j].pullRequest == commands[k].pullRequest
      ensures commands[j].generation < commands[k].generation
    {
      CountGrows(commands, commands[k].pullRequest, j, k);
    }
  }

  /** The outbox never gets stuck: a command without a receipt makes some command of its pull request eligible. */
  lemma {:induction false} OldestIsEligible(commands: seq<Command>, receipts: seq<Receipt>, k: nat) returns (first: nat)
    requires k < |commands| && !Receipted(receipts, k)
    ensures first <= k && commands[first].pullRequest == commands[k].pullRequest && Eligible(commands, receipts, first)
  {
    first := k;
    if j :| 0 <= j < k && commands[j].pullRequest == commands[k].pullRequest && !Receipted(receipts, j) {
      first := OldestIsEligible(commands, receipts, j);
    }
  }

  /**
   Whatever has happened and however many newer generations exist, a selected command is skipped exactly
   when its own run is over or policy refuses it, and can be sent exactly otherwise. Skipping receipts it
   with the reason, and refusing it cancels its run exactly if that is still queued.
   */
  lemma SkippedIff(events: seq<Event>, d: nat, policyAdmits: bool)
    requires d in Exec(EMPTY, events).sending
    ensures var s := Exec(EMPTY, events);
            var k, t := s.sending[d], Step(s, Skip(d, policyAdmits));
            && k < |s.runStates|
            && var over := s.runStates[k] in {Published, Rejected, Failed, Cancelled};
               && (t.receipts == if over then s.receipts + [Receipt(k, SkippedTerminal)]
                                 else if !policyAdmits then s.receipts + [Receipt(k, SkippedByPolicy)]
                                 else s.receipts)
               && t.runStates == (if !policyAdmits && s.runStates[k] == Queued then s.runStates[k := Cancelled] else s.runStates)
               && t.sent == s.sent && t.commands == s.commands
               && Step(s, Send(d, policyAdmits)).sent == if over || !policyAdmits then s.sent else s.sent + [k]
  {
    InvExec(events);
    hide Exec, Numbered, ReceiptsOk, SentOk, Step, EarlierReceipted;
    SendingIsEligible(Exec(EMPTY, events), d);
    HeldIsDecided(Exec(EMPTY, events), d, policyAdmits);
  }

  lemma HeldIsDecided(s: State, d: nat, policyAdmits: bool)
    requires d in s.sending && s.sending[d] < |s.runStates| && !Receipted(s.receipts, s.sending[d])
    ensures var k, t := s.sending[d], Step(s, Skip(d, policyAdmits));
            var over := s.runStates[k] in {Published, Rejected, Failed, Cancelled};
            && (t.receipts == if over then s.receipts + [Receipt(k, SkippedTerminal)]
                              else if !policyAdmits then s.receipts + [Receipt(k, SkippedByPolicy)]
                              else s.receipts)
            && t.runStates == (if !policyAdmits && s.runStates[k] == Queued then s.runStates[k := Cancelled] else s.runStates)
            && t.sent == s.sent && t.commands == s.commands
            && Step(s, Send(d, policyAdmits)).sent == if over || !policyAdmits then s.sent else s.sent + [k]
  {
    hide Receipted;
  }

  /** One dispatch left alone receipts an eligible command, sent or skipped as its run and the policy say. */
  lemma DispatchCompletes(events: seq<Event>, d: nat, k: nat, policyAdmits: bool)
    requires var s := Exec(EMPTY, events);
             Eligible(s.commands, s.receipts, k) && d !in s.sending && k !in s.sending.Values
    ensures var s := Exec(EMPTY, events);
            var t := Exec(EMPTY, events + [Select(d, k)] + [Skip(d, policyAdmits)] + [Send(d, policyAdmits)] + [Commit(d)]);
            && k < |s.runStates|
            && var status := if s.runStates[k] in {Published, Rejected, Failed, Cancelled} then SkippedTerminal
                             else if policyAdmits then Accepted else SkippedByPolicy;
               && t.receipts == s.receipts + [Receipt(k, status)]
               && t.sent == s.sent + (if status == Accepted then [k] else [])
               && t.commands == s.commands && d !in t.sending
  {
    InvExec(events);
    ExecOne(events, Select(d, k));
    ExecOne(events + [Select(d, k)], Skip(d, policyAdmits));
    ExecOne(events + [Select(d, k)] + [Skip(d, policyAdmits)], Send(d, policyAdmits));
    ExecOne(events + [Select(d, k)] + [Skip(d, policyAdmits)] + [Send(d, policyAdmits)], Commit(d));
    hide Exec, Numbered, ReceiptsOk, SentOk, EarlierReceipted;
  }

  lemma ExecOne(events: seq<Event>, e: Event)
    ensures Exec(EMPTY, events + [e]) == Step(Exec(EMPTY, events), e)
  {
    assert (events + [e])[..|events|] == events;
  }

  /** A concrete run: generation 2 exists, and generation 1 is still selected, sent and receipted as accepted. */
  lemma SupersededIsStillSent(pullRequest: PullRequest)
    ensures var s := Exec(EMPTY, [Allocate(pullRequest), Allocate(pullRequest), Select(0, 0), Send(0, true), Commit(0)]);
            && s.commands == [Command(pullRequest, 1), Command(pullRequest, 2)]
            && s.sent == [0] && s.receipts == [Receipt(0, Accepted)]
  {
    var one := Allocated(EMPTY, pullRequest);
    assert one.commands == [Command(pullRequest, 1)] && one.runStates == [Queued];
    assert one.commands[..0] == [];
    var two := Allocated(one, pullRequest);
    assert two.commands[..1] == one.commands;
    assert two.commands == [Command(pullRequest, 1), Command(pullRequest, 2)] && two.runStates == [Queued, Queued];
    assert Eligible(two.commands, two.receipts, 0);
    var events: seq<Event> := [Allocate(pullRequest), Allocate(pullRequest)];
    ExecOne([], Allocate(pullRequest));
    ExecOne([Allocate(pullRequest)], Allocate(pullRequest));
    assert [] + [Allocate(pullRequest)] == [Allocate(pullRequest)];
    assert [Allocate(pullRequest)] + [Allocate(pullRequest)] == events;
    ExecOne(events, Select(0, 0));
    ExecOne(events + [Select(0, 0)], Send(0, true));
    ExecOne(events + [Select(0, 0)] + [Send(0, true)], Commit(0));
    assert events + [Select(0, 0)] + [Send(0, true)] + [Commit(0)]
        == [Allocate(pullRequest), Allocate(pullRequest), Select(0, 0), Send(0, true), Commit(0)];
  }

  // ---------------------------------------------------------------- one uninterrupted transaction

  /** The outbox tables, changed in place by intake and by one dispatch at a time. */
  class Outbox {
    var commands: seq<Command>
    var runStates: seq<RunState>
    var receipts: seq<Receipt>
    var sent: seq<nat>

    constructor ()
      ensures S() == EMPTY
    {
      commands, runStates, receipts, sent := [], [], [], [];
    }

    ghost function S(): State
      reads this
    {
      State(commands, runStates, receipts, map[], sent)
    }

    /** `COALESCE(MAX(generation), 0) + 1` over the pull request's runs, then the run and its command. */
    method CreateRun(pullRequest: PullRequest) returns (generation: nat)
      modifies this`commands, this`runStates
      ensures S() == Allocated(old(S()), pullRequest)
      ensures generation == MaxGeneration(old(commands), pullRequest) + 1
    {
      var newest := 0;
      for i := 0 to |commands|
        invariant newest == MaxGeneration(commands[..i], pullRequest)
      {
        assert commands[..i + 1][..i] == commands[..i];
        if commands[i].pullRequest == pullRequest && commands[i].generation > newest {
          newest := commands[i].generation;
        }
      }
      assert commands[..|commands|] == commands;
      generation := newest + 1;
      commands := commands + [Command(pullRequest, generation)];
      runStates := runStates + [Queued];
    }

    /** The oldest eligible command is skipped, or sent and receipted; nothing else changes. */
    method DispatchNext(policyAdmits: bool) returns (handled: Option<nat>, status: Status)
      requires |runStates| == |commands|
      modifies this`runStates, this`receipts, this`sent
      ensures handled.None? ==> S() == old(S()) && forall k: nat :: !Eligible(commands, receipts, k)
      ensures handled.Some? ==>
                && Eligible(commands, old(receipts), handled.value)
                && (forall k :: 0 <= k < handled.value ==> !Eligible(commands, old(receipts), k))
                && receipts == old(receipts) + [Receipt(handled.value, status)]
                && status == (if old(runStates)[handled.value] in TERMINAL_RUN_STATES then SkippedTerminal
                              else if policyAdmits then Accepted else SkippedByPolicy)
                && sent == old(sent) + (if status == Accepted then [handled.value] else [])
                && runStates == if !policyAdmits && old(runStates)[handled.value] == Queued
                                then old(runStates)[handled.value := Cancelled] else old(runStates)
    {
      status := Accepted;
      for k := 0 to |commands|
        invariant S() == old(S()) && status == Accepted
        invariant forall i :: 0 <= i < k ==> !Eligible(commands, receipts, i)
      {
        if Eligible(commands, receipts, k) {
          if runStates[k] in TERMINAL_RUN_STATES {
            status := SkippedTerminal;
          } else if !policyAdmits {
            if runStates[k] == Queued {
              runStates := runStates[k := Cancelled];
            }
            status := SkippedByPolicy;
          } else {
            sent := sent + [k];
          }
          receipts := receipts + [Receipt(k, status)];
          return Some(k), status;
        }
      }
      handled := None;
    }
  }
}
