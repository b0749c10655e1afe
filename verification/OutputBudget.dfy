/**
 Two readers of one process sharing an output budget, woken in any order.

 Each event is what runs between two awaits: a write or exit of the process, one turn of a reader, or
 one turn of the task that waits for the process, the limit and the timeout.
 */
module OutputBudget {
  type Byte = bv8

  const CHUNK: nat := 65536

  datatype Side = Stdout | Stderr

  datatype Pc = Looping | Reading(size: nat) | Probing | Done

  /** `produced` is all the process wrote so far and `read` how much of it the reader has taken. */
  datatype Stream = Stream(produced: seq<Byte>, closed: bool, read: nat, kept: seq<Byte>, pc: Pc)

  datatype Main = Waiting | Killing(timedOut: bool) | Draining | Finished(timedOut: bool, exceeded: bool)

  datatype State = State(
    limit: nat, out: Stream, err: Stream, remaining: nat, limitReached: bool, exited: bool, main: Main) {
    function At(side: Side): Stream {
      if side.Stdout? then out else err
    }

    function With(side: Side, stream: Stream): State {
      if side.Stdout? then this.(out := stream) else this.(err := stream)
    }
  }

  datatype Event =
    | Write(side: Side, bytes: seq<Byte>)
    | Close(side: Side)
    | Exit
    | Turn(side: Side)
    | Arrive(side: Side, count: nat)
    | Timeout
    | LimitWake
    | ExitWake
    | Collect

  // ---------------------------------------------------------------- one turn of a reader

  /** What a reader shares and keeps: the budget, the overflow event and its own bytes. */
  datatype Budget = Budget(remaining: nat, limitReached: bool, kept: seq<Byte>)

  function Smaller(a: nat, b: nat): nat {
    if a < b then a else b
  }

  /** A chunk that no longer fits is cut to what remains and raises the overflow event. */
  function Accepted(b: Budget, chunk: seq<Byte>): Budget {
    if |chunk| > b.remaining then Budget(0, true, b.kept + chunk[..b.remaining])
    else Budget(b.remaining - |chunk|, b.limitReached, b.kept + chunk)
  }

  function Flatten(chunks: seq<seq<Byte>>): seq<Byte> {
    if chunks == [] then [] else Flatten(chunks[..|chunks| - 1]) + chunks[|chunks| - 1]
  }

  /** The budget and chunk lists that both readers change. */
  class Capture {
    var remaining: nat
    var limitReached: bool
    var stdoutChunks: seq<seq<Byte>>
    var stderrChunks: seq<seq<Byte>>

    constructor (outputLimitBytes: nat)
      ensures remaining == outputLimitBytes && !limitReached && stdoutChunks == stderrChunks == []
    {
      remaining, limitReached, stdoutChunks, stderrChunks := outputLimitBytes, false, [], [];
    }

    ghost function B(side: Side): Budget
      reads this
    {
      Budget(remaining, limitReached, Flatten(if side.Stdout? then stdoutChunks else stderrChunks))
    }

    /** How much the reader asks for next; none once the budget is used up. */
    method NextRead() returns (size: nat)
      ensures size == Smaller(CHUNK, remaining)
    {
      if remaining > 0 {
        return if CHUNK < remaining then CHUNK else remaining;
      }
      return 0;
    }

    /** Handles a chunk that arrived; the other stream may have used the budget meanwhile. */
    method Accept(side: Side, chunk: seq<Byte>) returns (finished: bool)
      modifies this
      ensures B(side) == Accepted(old(B(side)), chunk)
      ensures B(if side.Stdout? then Stderr else Stdout).kept == old(B(if side.Stdout? then Stderr else Stdout).kept)
      ensures finished <==> |chunk| > old(remaining)
    {
      if |chunk| > remaining {
        Append(side, chunk[..remaining]);
        remaining := 0;
        limitReached := true;
        return true;
      }
      Append(side, chunk);
      remaining := remaining - |chunk|;
      return false;
    }

    method Append(side: Side, chunk: seq<Byte>)
      modifies this`stdoutChunks, this`stderrChunks
      ensures B(side) == old(B(side)).(kept := old(B(side)).kept + chunk)
      ensures B(if side.Stdout? then Stderr else Stdout) == old(B(if side.Stdout? then Stderr else Stdout))
    {
      if side.Stdout? {
        stdoutChunks := stdoutChunks + [chunk];
        assert stdoutChunks[..|stdoutChunks| - 1] == old(stdoutChunks);
      } else {
        stderrChunks := stderrChunks + [chunk];
        assert stderrChunks[..|stderrChunks| - 1] == old(stderrChunks);
      }
    }
  }

  /** The bytes a read of `size` can return: 1 to `size` available ones, or none at the end of the stream. */
  predicate CanArrive(stream: Stream, size: nat, count: nat) {
    && count <= size && stream.read + count <= |stream.produced|
    && (count == 0 ==> stream.closed && stream.read == |stream.produced|)
  }

  function Arrived(s: State, side: Side, count: nat): State
    requires s.At(side).read + count <= |s.At(side).produced|
  {
    var stream := s.At(side);
    if count == 0 then s.With(side, stream.(pc := Done))
    else
      var chunk := stream.produced[stream.read..stream.read + count];
      var b := Accepted(Budget(s.remaining, s.limitReached, stream.kept), chunk);
      var next := stream.(read := stream.read + count, kept := b.kept, pc := if count > s.remaining then Done else Looping);
      s.With(side, next).(remaining := b.remaining, limitReached := b.limitReached)
  }

  function Probed(s: State, side: Side, count: nat): State {
    var stream := s.At(side);
    var t := s.With(side, stream.(read := stream.read + count, pc := Done));
    if count > 0 then t.(limitReached := true) else t
  }

  predicate Readable(s: State, side: Side, count: nat) {
    && !s.main.Finished?
    && match s.At(side).pc
       case Reading(size) => CanArrive(s.At(side), size, count)
       case Probing => CanArrive(s.At(side), 1, count)
       case _ => false
  }

  function Step(s: State, e: Event): State {
    match e
    case Write(side, bytes) =>
      if s.At(side).closed then s else s.With(side, s.At(side).(produced := s.At(side).produced + bytes))
    case Close(side) => s.With(side, s.At(side).(closed := true))
    case Exit => s.(exited := true)
    case Turn(side) =>
      if s.main.Finished? || !s.At(side).pc.Looping? then s
      else s.With(side, s.At(side).(pc := if s.remaining > 0 then Reading(Smaller(CHUNK, s.remaining)) else Probing))
    case Arrive(side, count) =>
      if !Readable(s, side, count) then s
      else if s.At(side).pc.Reading? then Arrived(s, side, count)
      else Probed(s, side, count)
    case Timeout => if s.main.Waiting? then s.(main := Killing(true)) else s
    case LimitWake => if s.main.Waiting? && s.limitReached && !s.exited then s.(main := Killing(false)) else s
    case ExitWake => if s.main.Waiting? && s.exited then s.(main := Draining) else s
    case Collect =>
      if s.main.Killing? && s.exited then s.(main := Finished(s.main.timedOut, !s.main.timedOut))
      else if s.main.Draining? && s.out.pc.Done? && s.err.pc.Done? then s.(main := Finished(false, s.limitReached))
      else s
  }

  function Exec(s: State, events: seq<Event>): State {
    if events == [] then s else Step(Exec(s, events[..|events| - 1]), events[|events| - 1])
  }

  const EMPTY := Stream([], false, 0, [], Looping)

  function Init(limit: nat): State {
    State(limit, EMPTY, EMPTY, limit, false, false, Waiting)
  }

  // ---------------------------------------------------------------- the invariant

  ghost predicate StreamOk(stream: Stream, limitReached: bool) {
    && stream.read <= |stream.produced| && stream.kept <= stream.produced && |stream.kept| <= stream.read
    && (!limitReached ==> stream.read == |stream.kept|)
    && (stream.pc.Done? && !limitReached ==> stream.closed && stream.read == |stream.produced|)
    && (stream.pc.Reading? ==> stream.pc.size >= 1)
  }

  ghost predicate Inv(s: State) {
    && |s.out.kept| + |s.err.kept| + s.remaining == s.limit
    && StreamOk(s.out, s.limitReached) && StreamOk(s.err, s.limitReached)
    && (s.limitReached ==> s.remaining == 0 && s.out.read + s.err.read > s.limit)
    && (s.out.pc.Probing? || s.err.pc.Probing? ==> s.remaining == 0)
    && (s.main.Killing? && !s.main.timedOut ==> s.limitReached)
    && (s.main.Finished? && !s.main.timedOut ==>
          (s.main.exceeded <==> s.limitReached) && (!s.limitReached ==> s.out.pc.Done? && s.err.pc.Done?))
    && (s.main.Finished? && s.main.timedOut ==> !s.main.exceeded)
  }

  lemma ChunkKept(stream: Stream, remaining: nat, limitReached: bool, count: nat)
    requires StreamOk(stream, limitReached) && stream.read + count <= |stream.produced|
    requires limitReached ==> remaining == 0
    ensures var b := Accepted(Budget(remaining, limitReached, stream.kept), stream.produced[stream.read..stream.read + count]);
            && b.kept <= stream.produced && |stream.kept| <= |b.kept| <= stream.read + count
            && |b.kept| + b.remaining == |stream.kept| + remaining
            && (b.limitReached <==> limitReached || count > remaining)
            && (b.limitReached ==> b.remaining == 0)
            && (!b.limitReached ==> |b.kept| == stream.read + count)
  {
    var chunk := stream.produced[stream.read..stream.read + count];
    if limitReached {
      assert chunk[..0] == [] && stream.kept + [] == stream.kept;
    } else {
      assert stream.kept == stream.produced[..stream.read];
      var n := Smaller(remaining, count);
      assert stream.kept + chunk[..n] == stream.produced[..stream.read + n];
      assert chunk[..count] == chunk;
    }
  }

  lemma InvArrived(s: State, side: Side, count: nat)
    requires Inv(s) && Readable(s, side, count) && s.At(side).pc.Reading?
    ensures Inv(Arrived(s, side, count))
  {
    hide Accepted;
    ChunkKept(s.At(side), s.remaining, s.limitReached, count);
  }

  lemma InvProbed(s: State, side: Side, count: nat)
    requires Inv(s) && Readable(s, side, count) && s.At(side).pc.Probing?
    ensures Inv(Probed(s, side, count))
  {
  }

  lemma InvWrite(s: State, side: Side, bytes: seq<Byte>)
    requires Inv(s)
    ensures Inv(Step(s, Write(side, bytes)))
  {
    hide Arrived, Probed;
  }

  lemma InvTask(s: State, e: Event)
    requires Inv(s) && (e.Timeout? || e.LimitWake? || e.ExitWake? || e.Collect?)
    ensures Inv(Step(s, e))
  {
    hide Arrived, Probed, StreamOk;
  }

  lemma InvStep(s: State, e: Event)
    requires Inv(s)
    ensures Inv(Step(s, e))
  {
    hide Arrived, Probed, Readable;
    match e {
      case Arrive(side, count) =>
        hide Inv;
        if Readable(s, side, count) {
          if s.At(side).pc.Reading? {
            InvArrived(s, side, count);
          } else {
            assert s.At(side).pc.Probing? by { ProbingOrReading(s, side, count); }
            InvProbed(s, side, count);
          }
        }
      case Write(side, bytes) => InvWrite(s, side, bytes);
      case Turn(side) =>
      case Close(side) =>
      case Exit =>
      case _ => InvTask(s, e);
    }
  }

  lemma ProbingOrReading(s: State, side: Side, count: nat)
    requires Readable(s, side, count)
    ensures s.At(side).pc.Reading? || s.At(side).pc.Probing?
  {
  }

  lemma {:induction false} InvExec(limit: nat, events: seq<Event>)
    ensures Inv(Exec(Init(limit), events))
    ensures Exec(Init(limit), events).limit == limit
  {
    if events == [] {
    } else {
      hide Inv, Arrived, Probed, Readable;
      InvExec(limit, events[..|events| - 1]);
      InvStep(Exec(Init(limit), events[..|events| - 1]), events[|events| - 1]);
    }
  }

  // ---------------------------------------------------------------- main results, over every interleaving

  /** Nothing kept is invented or lost from the budget, and each kept part is a prefix of its stream. */
  lemma BudgetIsConserved(limit: nat, events: seq<Event>)
    ensures var s := Exec(Init(limit), events);
            && |s.out.kept| + |s.err.kept| + s.remaining == limit
            && s.out.kept <= s.out.produced && s.err.kept <= s.err.produced
  {
    InvExec(limit, events);
  }

  /**
   When the run ends without a timeout, overflow is reported exactly when the process produced more
   than the limit, and then exactly the limit was kept; otherwise both streams were kept whole.
   */
  lemma OverflowIsExact(limit: nat, events: seq<Event>)
    requires var s := Exec(Init(limit), events); s.main.Finished? && !s.main.timedOut
    ensures var s := Exec(Init(limit), events);
            && (s.main.exceeded <==> |s.out.produced| + |s.err.produced| > limit)
            && (s.main.exceeded ==> |s.out.kept| + |s.err.kept| == limit)
            && (!s.main.exceeded ==> s.out.kept == s.out.produced && s.err.kept == s.err.produced)
  {
    InvExec(limit, events);
  }

  /**
   Overflow is reported truly exactly when the run did not time out or nothing overflowed: a timed-out
   run never reports it.
   */
  lemma ReportIsTrueIff(limit: nat, events: seq<Event>)
    requires Exec(Init(limit), events).main.Finished?
    ensures var s := Exec(Init(limit), events);
            var overflowed := |s.out.produced| + |s.err.produced| > limit;
            (s.main.exceeded <==> overflowed) <==> !s.main.timedOut || !overflowed
  {
    InvExec(limit, events);
    if !Exec(Init(limit), events).main.timedOut {
      OverflowIsExact(limit, events);
    }
  }

  lemma ExecOne(s: State, events: seq<Event>, e: Event)
    ensures Exec(s, events + [e]) == Step(Exec(s, events), e)
  {
    assert (events + [e])[..|events|] == events;
  }

  lemma {:induction false} ExecAppend(s: State, events: seq<Event>, more: seq<Event>)
    ensures Exec(s, events + more) == Exec(Exec(s, events), more)
  {
    if more == [] {
      assert events + more == events;
    } else {
      hide Step;
      var all := events + more;
      assert all[..|all| - 1] == events + more[..|more| - 1];
      ExecAppend(s, events, more[..|more| - 1]);
    }
  }

  function Other(side: Side): Side {
    if side.Stdout? then Stderr else Stdout
  }

  /** What the turns of one reader leave alone. */
  predicate OnlyReads(s: State, t: State, side: Side) {
    && t.main == s.main && t.exited == s.exited && t.limit == s.limit && t.At(Other(side)) == s.At(Other(side))
    && t.At(side).closed == s.At(side).closed && t.At(side).produced == s.At(side).produced
  }

  /** How far a reader is from its end. */
  function Left(stream: Stream): nat
    requires stream.read <= |stream.produced|
  {
    2 * (|stream.produced| - stream.read) + if stream.pc.Looping? then 2 else if stream.pc.Done? then 0 else 1
  }

  lemma TurnGoesOn(s: State, side: Side)
    requires Inv(s) && s.At(side).pc.Looping? && !s.main.Finished?
    ensures var t := Step(s, Turn(side));
            && s.At(side).read == t.At(side).read <= |t.At(side).produced| && OnlyReads(s, t, side)
            && Left(t.At(side)) < Left(s.At(side))
  {
  }

  lemma ArrivalGoesOn(s: State, side: Side, count: nat)
    requires Inv(s) && Readable(s, side, count)
    ensures var t := Step(s, Arrive(side, count));
            t.At(side).read <= |t.At(side).produced| && OnlyReads(s, t, side) && Left(t.At(side)) < Left(s.At(side))
  {
    hide Accepted;
  }

  lemma SomethingArrives(s: State, side: Side) returns (count: nat)
    requires Inv(s) && s.At(side).closed && !s.main.Finished? && (s.At(side).pc.Reading? || s.At(side).pc.Probing?)
    ensures Readable(s, side, count)
  {
    var stream := s.At(side);
    count := Smaller(|stream.produced| - stream.read, if stream.pc.Reading? then stream.pc.size else 1);
  }

  /** A reader that is not done always has a next turn, and it brings the end nearer. */
  lemma ReaderGoesOn(s: State, side: Side) returns (e: Event)
    requires Inv(s) && s.At(side).closed && !s.At(side).pc.Done? && !s.main.Finished?
    ensures var t := Step(s, e);
            && Inv(t) && OnlyReads(s, t, side)
            && s.At(side).read <= |s.At(side).produced| && t.At(side).read <= |t.At(side).produced|
            && Left(t.At(side)) < Left(s.At(side))
  {
    hide Step, Inv, OnlyReads, Left, Readable;
    ReadWithin(s, side);
    if s.At(side).pc.Looping? {
      e := Turn(side);
      TurnGoesOn(s, side);
    } else {
      var count := SomethingArrives(s, side);
      e := Arrive(side, count);
      ArrivalGoesOn(s, side, count);
    }
    InvStep(s, e);
  }

  /** Left alone with a closed stream, a reader gets to its end. */
  lemma {:induction false} ReaderEnds(s: State, side: Side) returns (events: seq<Event>)
    requires Inv(s) && s.At(side).closed && !s.main.Finished?
    ensures var t := Exec(s, events); Inv(t) && OnlyReads(s, t, side) && t.At(side).pc.Done?
    decreases Left(s.At(side))
  {
    if s.At(side).pc.Done? {
      events := [];
    } else {
      hide Step, Inv;
      assert s.At(side).read <= |s.At(side).produced| by { ReadWithin(s, side); }
      var e := ReaderGoesOn(s, side);
      var rest := ReaderEnds(Step(s, e), side);
      events := [e] + rest;
      ExecAppend(s, [e], rest);
      ExecOne(s, [], e);
      assert [] + [e] == [e] && Exec(s, []) == s;
    }
  }

  lemma ReadWithin(s: State, side: Side)
    requires Inv(s)
    ensures s.At(side).read <= |s.At(side).produced|
  {
  }

  /**
   From any moment of any run at which the process is gone, its streams are closed and nothing was
   decided yet, the readers and the waiting task can finish, and then report overflow truly.
   */
  lemma CollectionFinishes(limit: nat, events: seq<Event>) returns (more: seq<Event>)
    requires var s := Exec(Init(limit), events); s.main.Waiting? && s.exited && s.out.closed && s.err.closed
    ensures var s, t := Exec(Init(limit), events), Exec(Init(limit), events + more);
            && t.main.Finished? && !t.main.timedOut
            && t.out.produced == s.out.produced && t.err.produced == s.err.produced
            && (t.main.exceeded <==> |s.out.produced| + |s.err.produced| > limit)
  {
    InvExec(limit, events);
    hide Exec, Inv, Step;
    var s := Exec(Init(limit), events);
    var first := ReaderEnds(s, Stdout);
    var s1 := Exec(s, first);
    var second := ReaderEnds(s1, Stderr);
    var s2 := Exec(s1, second);
    TaskFinishes(s2);
    more := first + second + [ExitWake] + [Collect];
    ExecOne(s, first + second, ExitWake);
    ExecOne(s, first + second + [ExitWake], Collect);
    ExecAppend(s, first, second);
    ExecAppend(Init(limit), events, more);
    OverflowIsExact(limit, events + more);
  }

  lemma TaskFinishes(s: State)
    requires s.main.Waiting? && s.exited && s.out.pc.Done? && s.err.pc.Done?
    ensures var t := Step(Step(s, ExitWake), Collect);
            t.main == Finished(false, s.limitReached) && t.out == s.out && t.err == s.err
  {
  }

  /** A concrete run: two bytes under a limit of one, then a timeout, and no overflow is reported. */
  lemma TimeoutHidesOverflow()
    ensures var s := Exec(Init(1), [Write(Stdout, [0, 0]), Timeout, Exit, Collect]);
            && s.main == Finished(true, false)
            && |s.out.produced| + |s.err.produced| == 2 > s.limit
  {
    var wrote: seq<Event> := [Write(Stdout, [0, 0])];
    assert [] + wrote == wrote;
    ExecOne(Init(1), [], Write(Stdout, [0, 0]));
    ExecOne(Init(1), wrote, Timeout);
    ExecOne(Init(1), wrote + [Timeout], Exit);
    ExecOne(Init(1), wrote + [Timeout] + [Exit], Collect);
    assert wrote + [Timeout] + [Exit] + [Collect] == [Write(Stdout, [0, 0]), Timeout, Exit, Collect];
  }
}
