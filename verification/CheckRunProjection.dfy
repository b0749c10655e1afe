/**
 Projection of review runs onto one remote Check Run per pull request head.

 Attempts for one head are serialized by a claim that is given up when the attempt ends or dies; a
 provider request takes effect before that or never. Each event is one transaction, one provider
 request or the death of an attempt.
 */
module CheckRunProjection {
  import opened Options

  type RunId = string

  datatype Status = Queued | InProgress | Completed {
    function Rank(): nat {
      match this
      case Queued => 0
      case InProgress => 1
      case Completed => 2
    }
  }

  datatype Conclusion = Success | Failure | ActionRequired | CheckCancelled | TimedOut

  datatype Request = Request(run: RunId, generation: nat, status: Status, conclusion: Option<Conclusion>) {
    predicate Valid() {
      generation >= 1 && (status.Completed? <==> conclusion.Some?)
    }
  }

  datatype Row = Row(run: RunId, remoteId: Option<nat>, status: Status, conclusion: Option<Conclusion>)

  /** A remote check of this App with this head's external id. */
  datatype Check = Check(id: nat, status: Status, conclusion: Option<Conclusion>)

  datatype Prepared = Rejected | Skip | Apply(row: Row)

  // ---------------------------------------------------------------- the transactions

  /** `runs` gives the generation of every stored run; the row's own generation is its run's. */
  function PrepareOutcome(runs: map<RunId, nat>, row: Option<Row>, request: Request): Prepared {
    if request.run !in runs || runs[request.run] != request.generation then Rejected
    else if row.None? then
      if request.status == Queued then Apply(Row(request.run, None, Queued, None)) else Rejected
    else if row.value.run !in runs then Rejected
    else
      var current := runs[row.value.run];
      if request.generation < current then Skip
      else if request.generation > current then
        if request.status == Queued then Apply(row.value) else Rejected
      else if row.value.run != request.run then Rejected
      else if row.value.remoteId.Some? && row.value.status == request.status && row.value.conclusion == request.conclusion
      then Skip
      else if request.status.Rank() < row.value.status.Rank() then Skip
      else Apply(row.value)
  }

  /** `_record` writes only the row of the same run, or a queued state of a newer generation. */
  predicate RecordMatches(runs: map<RunId, nat>, row: Row, request: Request) {
    && request.run in runs && runs[request.run] == request.generation && row.run in runs
    && (row.run == request.run || (request.status == Queued && runs[row.run] < request.generation))
  }

  function Recorded(request: Request, id: nat): Row {
    Row(request.run, Some(id), request.status, request.conclusion)
  }

  function Find(checks: seq<Check>): Option<Option<nat>> {
    if |checks| > 1 then None else Some(if checks == [] then None else Some(checks[0].id))
  }

  function Updated(checks: seq<Check>, id: nat, request: Request): seq<Check> {
    seq(|checks|, i requires 0 <= i < |checks| =>
      if checks[i].id == id then Check(id, request.status, request.conclusion) else checks[i])
  }

  // ---------------------------------------------------------------- interleaved attempts

  datatype Pc = Claimed | Searching | Creating | Updating(id: nat) | Recording(id: nat)

  datatype Attempt = Attempt(request: Request, pc: Pc)

  /** `attempts` has at most one entry: whoever holds the claim. */
  datatype State = State(
    runs: map<RunId, nat>, row: Option<Row>, checks: seq<Check>, nextId: nat, holder: Option<Attempt>)

  datatype Event =
    | StoreRun(run: RunId, generation: nat)
    | Begin(request: Request)
    | Prepare
    | FindCheck
    | CreateCheck
    | UpdateCheck
    | Record
    | Die

  function MoveTo(s: State, pc: Pc): State
    requires s.holder.Some?
  {
    s.(holder := Some(s.holder.value.(pc := pc)))
  }

  function Step(s: State, e: Event): State {
    if e.StoreRun? then
      if e.run in s.runs || e.generation in s.runs.Values then s else s.(runs := s.runs[e.run := e.generation])
    else if e.Begin? then
      if s.holder.None? && e.request.Valid() then s.(holder := Some(Attempt(e.request, Claimed))) else s
    else if s.holder.None? then s
    else
      var request, pc := s.holder.value.request, s.holder.value.pc;
      match e
      case Prepare =>
        if !pc.Claimed? then s
        else (
          match PrepareOutcome(s.runs, s.row, request)
          case Apply(row) =>
            MoveTo(s.(row := Some(row)), if row.remoteId.Some? then Updating(row.remoteId.value) else Searching)
          case _ => s.(holder := None))
      case FindCheck =>
        if !pc.Searching? then s
        else (
          match Find(s.checks)
          case None => s.(holder := None)
          case Some(found) => MoveTo(s, if found.Some? then Updating(found.value) else Creating))
      case CreateCheck =>
        if !pc.Creating? then s
        else MoveTo(s.(checks := s.checks + [Check(s.nextId, request.status, request.conclusion)], nextId := s.nextId + 1),
                    Updating(s.nextId))
      case UpdateCheck =>
        if !pc.Updating? then s else MoveTo(s.(checks := Updated(s.checks, pc.id, request)), Recording(pc.id))
      case Record =>
        if !pc.Recording? then s
        else if s.row.Some? && RecordMatches(s.runs, s.row.value, request)
        then s.(row := Some(Recorded(request, pc.id)), holder := None)
        else s.(holder := None)
      case Die => s.(holder := None)
  }

  function Exec(s: State, events: seq<Event>): State {
    if events == [] then s else Step(Exec(s, events[..|events| - 1]), events[|events| - 1])
  }

  const EMPTY := State(map[], None, [], 1, None)

  // ---------------------------------------------------------------- invariant

  /** The request may still be written over the row: newer and queued, or the same run and no lower rank. */
  ghost predicate Admitted(s: State, request: Request) {
    && s.row.Some? && request.Valid()
    && request.run in s.runs && s.runs[request.run] == request.generation
    && (if s.row.value.run == request.run then request.status.Rank() >= s.row.value.status.Rank()
        else request.status == Queued && s.row.value.run in s.runs && s.runs[s.row.value.run] < request.generation)
  }

  ghost predicate RowOk(s: State) {
    && (forall a, b :: a in s.runs && b in s.runs && a != b ==> s.runs[a] != s.runs[b])
    && |s.checks| <= 1
    && (s.checks != [] ==> s.row.Some?)
    && (s.row.Some? ==> s.row.value.run in s.runs)
    && (s.row.Some? && s.row.value.remoteId.Some? ==> s.checks != [] && s.checks[0].id == s.row.value.remoteId.value)
  }

  ghost predicate PcOk(s: State, request: Request, pc: Pc) {
    match pc
    case Claimed => request.Valid()
    case Searching => Admitted(s, request) && s.row.value.remoteId.None?
    case Creating => Admitted(s, request) && s.row.value.remoteId.None? && s.checks == []
    case Updating(id) => Admitted(s, request) && s.checks != [] && s.checks[0].id == id
    case Recording(id) =>
      && Admitted(s, request) && s.checks == [Check(id, request.status, request.conclusion)]
  }

  ghost predicate Inv(s: State) {
    RowOk(s) && (s.holder.Some? ==> PcOk(s, s.holder.value.request, s.holder.value.pc))
  }

  lemma InvStep(s: State, e: Event)
    requires Inv(s)
    ensures Inv(Step(s, e))
  {
    hide Recorded;
    if e.Record? && s.holder.Some? && s.holder.value.pc.Recording? {
      InvRecord(s);
    }
  }

  lemma InvRecord(s: State)
    requires Inv(s) && s.holder.Some? && s.holder.value.pc.Recording?
    ensures Inv(Step(s, Record))
    ensures RecordMatches(s.runs, s.row.value, s.holder.value.request)
  {
  }

  lemma {:induction false} InvExec(events: seq<Event>)
    ensures Inv(Exec(EMPTY, events))
  {
    if events == [] {
      assert Inv(EMPTY);
    } else {
      hide Step, Inv;
      InvExec(events[..|events| - 1]);
      InvStep(Exec(EMPTY, events[..|events| - 1]), events[|events| - 1]);
    }
  }

  // ---------------------------------------------------------------- main results, over every run

  /** At most one remote check exists for the head, and a stored remote id is its id. */
  lemma AtMostOneCheck(events: seq<Event>)
    ensures var s := Exec(EMPTY, events);
            && |s.checks| <= 1
            && (s.row.Some? && s.row.value.remoteId.Some? ==>
                  |s.checks| == 1 && s.checks[0].id == s.row.value.remoteId.value)
  {
    InvExec(events);
    hide Exec;
  }

  /** Later in (generation, rank of status) order, with a remote id that never changes once set. */
  ghost predicate NotBefore(earlier: State, later: State) {
    earlier.row.Some? ==>
      && later.row.Some? && earlier.row.value.run in earlier.runs && later.row.value.run in later.runs
      && (earlier.row.value.remoteId.Some? ==> later.row.value.remoteId == earlier.row.value.remoteId)
      && (|| earlier.runs[earlier.row.value.run] < later.runs[later.row.value.run]
          || (earlier.runs[earlier.row.value.run] == later.runs[later.row.value.run]
              && earlier.row.value.status.Rank() <= later.row.value.status.Rank()))
  }

  lemma StepGoesForward(s: State, e: Event)
    requires Inv(s)
    ensures NotBefore(s, Step(s, e))
  {
    if e.Record? && s.holder.Some? && s.holder.value.pc.Recording? {
      InvRecord(s);
    }
  }

  /** The recorded generation and status never go back, whatever attempts interleave or die. */
  lemma {:induction false} RowNeverGoesBack(events: seq<Event>, n: nat)
    requires n <= |events|
    ensures NotBefore(Exec(EMPTY, events[..n]), Exec(EMPTY, events))
    decreases |events|
  {
    hide Step;
    if n == |events| {
      InvExec(events);
      assert events[..n] == events;
    } else {
      var front := events[..|events| - 1];
      assert front[..n] == events[..n];
      RowNeverGoesBack(front, n);
      InvExec(front);
      StepGoesForward(Exec(EMPTY, front), events[|events| - 1]);
    }
  }

  /** A request older than the recorded generation writes nothing remotely. */
  lemma StaleRequestWritesNothing(events: seq<Event>, e: Event)
    requires var s := Exec(EMPTY, events);
             && s.row.Some? && s.holder.Some? && s.row.value.run in s.runs
             && s.holder.value.request.generation < s.runs[s.row.value.run]
    ensures Step(Exec(EMPTY, events), e).checks == Exec(EMPTY, events).checks
  {
    InvExec(events);
    hide Exec;
  }

  /** The record always finds its row, and then row and remote check agree on the requested state. */
  lemma RecordAgrees(events: seq<Event>)
    requires var s := Exec(EMPTY, events); s.holder.Some? && s.holder.value.pc.Recording?
    ensures var s, t := Exec(EMPTY, events), Step(Exec(EMPTY, events), Record);
            var request := s.holder.value.request;
            && t.row.Some? && t.row.value.remoteId.Some? && t.row.value.run == request.run && t.checks == s.checks
            && t.checks == [Check(t.row.value.remoteId.value, request.status, request.conclusion)]
            && t.row.value.status == request.status && t.row.value.conclusion == request.conclusion
  {
    InvExec(events);
    InvRecord(Exec(EMPTY, events));
    hide Exec;
  }

  // ---------------------------------------------------------------- when a request is applied

  /** The request's status does not fall behind the stored one. */
  predicate NoLowerStatus(stored: Status, requested: Status) {
    match stored
    case Queued => true
    case InProgress => requested != Queued
    case Completed => requested == Completed
  }

  /**
   A request is applied exactly when its run is stored with its generation and it starts the row or a
   newer generation queued, or continues the row's own run with no lower status and something new; it
   is skipped exactly when it is older, lower or already applied, and otherwise refused.
   */
  lemma PreparedIff(runs: map<RunId, nat>, row: Option<Row>, request: Request)
    ensures var p := PrepareOutcome(runs, row, request);
            var known := request.run in runs && runs[request.run] == request.generation;
            && (row.None? ==>
                  && (p == Apply(Row(request.run, None, Queued, None)) <==> known && request.status == Queued)
                  && (p == Rejected <==> !(known && request.status == Queued)))
            && (row.Some? && row.value.run in runs ==>
                  var r, current := row.value, runs[row.value.run];
                  var applied := r.remoteId.Some? && r.status == request.status && r.conclusion == request.conclusion;
                  var newer := request.generation > current && request.status == Queued;
                  var same := request.generation == current && r.run == request.run;
                  var behind := applied || !NoLowerStatus(r.status, request.status);
                  && (p.Apply? <==> known && (newer || (same && !behind)))
                  && (p.Apply? ==> p.row == r)
                  && (p == Skip <==> known && (request.generation < current || (same && behind))))
  {
  }

  lemma {:induction false} ExecAppend(s: State, events: seq<Event>, more: seq<Event>)
    ensures Exec(s, events + more) == Exec(Exec(s, events), more)
  {
    if more == [] {
      assert events + more == events;
    } else {
      hide Step;
      var all := events + more;
      assert all[..|all| - 1] == events + more[..|more| - 1];
      ExecAppend(s, events, more[..|more| - 1]);
    }
  }

  lemma ExecOne(s: State, events: seq<Event>, e: Event)
    ensures Exec(s, events + [e]) == Step(Exec(s, events), e)
  {
    hide Step;
    assert (events + [e])[..|events|] == events;
  }

  /** One attempt that nothing stops; a step its state does not call for does nothing. */
  function CallOf(request: Request): seq<Event> {
    [Begin(request), Prepare, FindCheck, CreateCheck, UpdateCheck, Record]
  }

  lemma CallSteps(s: State, request: Request)
    ensures Exec(s, CallOf(request)) ==
            Step(Step(Step(Step(Step(Step(s, Begin(request)), Prepare), FindCheck), CreateCheck), UpdateCheck), Record)
  {
    hide Step;
    assert [Begin(request)] == [] + [Begin(request)];
    ExecOne(s, [], Begin(request));
    assert [Begin(request), Prepare] == [Begin(request)] + [Prepare];
    ExecOne(s, [Begin(request)], Prepare);
    assert [Begin(request), Prepare, FindCheck] == [Begin(request), Prepare] + [FindCheck];
    ExecOne(s, [Begin(request), Prepare], FindCheck);
    assert [Begin(request), Prepare, FindCheck, CreateCheck] == [Begin(request), Prepare, FindCheck] + [CreateCheck];
    ExecOne(s, [Begin(request), Prepare, FindCheck], CreateCheck);
    assert [Begin(request), Prepare, FindCheck, CreateCheck, UpdateCheck]
        == [Begin(request), Prepare, FindCheck, CreateCheck] + [UpdateCheck];
    ExecOne(s, [Begin(request), Prepare, FindCheck, CreateCheck], UpdateCheck);
    assert CallOf(request) == [Begin(request), Prepare, FindCheck, CreateCheck, UpdateCheck] + [Record];
    ExecOne(s, [Begin(request), Prepare, FindCheck, CreateCheck, UpdateCheck], Record);
  }

  /** The row names the one remote check, and both show the requested state. */
  ghost predicate Shows(s: State, request: Request) {
    && s.holder.None? && |s.checks| == 1
    && s.row == Some(Row(request.run, Some(s.checks[0].id), request.status, request.conclusion))
    && s.checks[0].status == request.status && s.checks[0].conclusion == request.conclusion
  }

  /** The remote check an applying attempt is about to update, and the checks there then are. */
  lemma ReachesUpdate(s: State, request: Request)
    requires Inv(s) && s.holder.None? && request.Valid() && PrepareOutcome(s.runs, s.row, request).Apply?
    ensures var t := Step(Step(Step(Step(s, Begin(request)), Prepare), FindCheck), CreateCheck);
            && Inv(t) && t.runs == s.runs && t.holder.Some? && t.holder.value.request == request && t.holder.value.pc.Updating?
            && (s.checks != [] ==> t.checks == s.checks)
  {
    var s1 := Step(s, Begin(request));
    InvStep(s, Begin(request));
    hide Inv;
    InvStep(s1, Prepare);
    InvStep(Step(s1, Prepare), FindCheck);
    InvStep(Step(Step(s1, Prepare), FindCheck), CreateCheck);
    SearchEnds(Step(s1, Prepare));
  }

  lemma SearchEnds(s: State)
    requires Inv(s) && s.holder.Some? && (s.holder.value.pc.Searching? || s.holder.value.pc.Updating?)
    ensures var t := Step(Step(s, FindCheck), CreateCheck);
            && t.holder.Some? && t.holder.value.request == s.holder.value.request && t.holder.value.pc.Updating?
            && t.runs == s.runs && (s.checks != [] ==> t.checks == s.checks)
  {
  }

  lemma UpdateEnds(s: State, request: Request)
    requires Inv(s) && s.holder.Some? && s.holder.value.request == request && s.holder.value.pc.Updating?
    ensures var t := Step(Step(s, UpdateCheck), Record);
            Shows(t, request) && t.runs == s.runs && t.checks[0].id == s.checks[0].id
  {
    hide Updated;
    InvStep(s, UpdateCheck);
    InvRecord(Step(s, UpdateCheck));
    UpdateKeepsId(s.checks, s.holder.value.pc.id, request);
  }

  lemma UpdateKeepsId(checks: seq<Check>, id: nat, request: Request)
    ensures |Updated(checks, id, request)| == |checks|
    ensures forall i :: 0 <= i < |checks| ==> Updated(checks, id, request)[i].id == checks[i].id
  {
  }

  /** From any reachable idle state, an attempt that applies and is not stopped shows what it requests. */
  lemma CallShows(events: seq<Event>, request: Request)
    requires Exec(EMPTY, events).holder.None? && request.Valid()
    requires PrepareOutcome(Exec(EMPTY, events).runs, Exec(EMPTY, events).row, request).Apply?
    ensures var s, t := Exec(EMPTY, events), Exec(EMPTY, events + CallOf(request));
            Shows(t, request) && t.runs == s.runs && (s.checks != [] ==> t.checks[0].id == s.checks[0].id)
  {
    InvExec(events);
    ExecAppend(EMPTY, events, CallOf(request));
    hide Exec, Step, Inv, PrepareOutcome, CallOf, Shows;
    var s := Exec(EMPTY, events);
    CallSteps(s, request);
    ReachesUpdate(s, request);
    UpdateEnds(Step(Step(Step(Step(s, Begin(request)), Prepare), FindCheck), CreateCheck), request);
  }

  /** A run's three requests, one after the other. */
  function LifeOf(run: RunId, generation: nat, conclusion: Conclusion): seq<Event> {
    CallOf(Request(run, generation, Queued, None)) + CallOf(Request(run, generation, InProgress, None))
    + CallOf(Request(run, generation, Completed, Some(conclusion)))
  }

  /** A run newer than everything projected before ends, through its three requests, as one completed check. */
  lemma RunIsProjected(events: seq<Event>, run: RunId, generation: nat, conclusion: Conclusion)
    requires var s := Exec(EMPTY, events);
             && s.holder.None? && generation >= 1 && run in s.runs && s.runs[run] == generation
             && (s.row.Some? ==> s.row.value.run in s.runs && s.runs[s.row.value.run] < generation)
    ensures var t := Exec(EMPTY, events + LifeOf(run, generation, conclusion));
            Shows(t, Request(run, generation, Completed, Some(conclusion)))
  {
    hide Exec, CallOf;
    var queued := Request(run, generation, Queued, None);
    var running := Request(run, generation, InProgress, None);
    var completed := Request(run, generation, Completed, Some(conclusion));
    var first, second := events + CallOf(queued), events + CallOf(queued) + CallOf(running);
    assert events + LifeOf(run, generation, conclusion) == second + CallOf(completed);
    CallShows(events, queued);
    CallShows(first, running);
    CallShows(second, completed);
  }

  /** Whoever has prepared would still be let through. */
  ghost predicate StillApplies(s: State) {
    s.holder.Some? && !s.holder.value.pc.Claimed? ==> PrepareOutcome(s.runs, s.row, s.holder.value.request).Apply?
  }

  lemma StillAppliesStep(s: State, e: Event)
    requires Inv(s) && StillApplies(s)
    ensures StillApplies(Step(s, e))
  {
    hide Find, Updated;
  }

  lemma {:induction false} StillAppliesExec(events: seq<Event>)
    ensures StillApplies(Exec(EMPTY, events))
  {
    if events == [] {
    } else {
      hide Step, Inv, StillApplies;
      InvExec(events[..|events| - 1]);
      StillAppliesExec(events[..|events| - 1]);
      StillAppliesStep(Exec(EMPTY, events[..|events| - 1]), events[|events| - 1]);
    }
  }

  /** An attempt that dies anywhere after it prepared is made good by repeating its request; no second check appears. */
  lemma RetryShows(events: seq<Event>)
    requires Exec(EMPTY, events).holder.Some? && !Exec(EMPTY, events).holder.value.pc.Claimed?
    ensures var s := Exec(EMPTY, events);
            var t := Exec(EMPTY, events + [Die] + CallOf(s.holder.value.request));
            Shows(t, s.holder.value.request) && (s.checks != [] ==> t.checks[0].id == s.checks[0].id)
  {
    InvExec(events);
    StillAppliesExec(events);
    ExecOne(EMPTY, events, Die);
    hide Exec, CallOf, PrepareOutcome, Shows;
    var s := Exec(EMPTY, events);
    assert s.holder.value.request.Valid();
    CallShows(events + [Die], s.holder.value.request);
  }

  // ---------------------------------------------------------------- one uninterrupted call

  datatype CallResult = CallDone | CallRejected

  /** Row and remote checks of one head, changed in place by one call. */
  class GitHubCheckRunOperation {
    var runs: map<RunId, nat>
    var row: Option<Row>
    var checks: seq<Check>
    var nextId: nat

    constructor ()
      ensures S() == EMPTY
    {
      runs, row, checks, nextId := map[], None, [], 1;
    }

    ghost function S(): State
      reads this
    {
      State(runs, row, checks, nextId, None)
    }

    method PrepareCheck(request: Request) returns (prepared: Prepared)
      modifies this`row
      ensures prepared == PrepareOutcome(runs, old(row), request)
      ensures row == if prepared.Apply? then Some(prepared.row) else old(row)
    {
      if request.run !in runs || runs[request.run] != request.generation {
        return Rejected;
      }
      if row.None? {
        if request.status != Queued {
          return Rejected;
        }
        row := Some(Row(request.run, None, Queued, None));
        return Apply(row.value);
      }
      if row.value.run !in runs {
        return Rejected;
      }
      var currentGeneration := runs[row.value.run];
      if request.generation < currentGeneration {
        return Skip;
      }
      if request.generation > currentGeneration {
        if request.status != Queued {
          return Rejected;
        }
      } else if row.value.run != request.run {
        return Rejected;
      } else if (row.value.remoteId.Some? && row.value.status == request.status && row.value.conclusion == request.conclusion)
             || request.status.Rank() < row.value.status.Rank() {
        return Skip;
      }
      return Apply(row.value);
    }

    method UpdateRemote(id: nat, request: Request)
      modifies this`checks
      ensures checks == Updated(old(checks), id, request)
    {
      checks := seq(|checks|, i requires 0 <= i < |checks| reads this`checks =>
        if checks[i].id == id then Check(id, request.status, request.conclusion) else checks[i]);
    }

    /**
     The call skips stale and already applied requests; otherwise it leaves exactly one remote check in
     the requested state and the row naming it. An existing check is found or known, never duplicated.
     */
    method Call(request: Request) returns (r: CallResult)
      requires Inv(S()) && request.Valid()
      modifies this`row, this`checks, this`nextId
      ensures Inv(S())
      ensures match PrepareOutcome(runs, old(row), request)
              case Rejected => r == CallRejected && S() == old(S())
              case Skip => r == CallDone && S() == old(S())
              case Apply(_) =>
                && r == CallDone && row.Some? && row.value.remoteId.Some?
                && row == Some(Recorded(request, row.value.remoteId.value))
                && checks == [Check(row.value.remoteId.value, request.status, request.conclusion)]
                && (old(checks) != [] ==> checks[0].id == old(checks)[0].id)
    {
      var prepared := PrepareCheck(request);
      if prepared.Rejected? {
        return CallRejected;
      }
      if prepared.Skip? {
        return CallDone;
      }
      var id;
      if row.value.remoteId.Some? {
        id := row.value.remoteId.value;
      } else if |checks| > 0 {
        id := checks[0].id;
      } else {
        id := nextId;
        nextId := nextId + 1;
        checks := checks + [Check(id, request.status, request.conclusion)];
      }
      UpdateRemote(id, request);
      row := Some(Row(request.run, Some(id), request.status, request.conclusion));
      return CallDone;
    }
  }
}
