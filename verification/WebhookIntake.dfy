/**
 Intake of pull request webhooks that arrive late, twice and out of order, for one pull request.

 A SHA is a number that orders like its forty hexadecimal digits. Each arrival is one transaction.
 */
module WebhookIntake {
  import opened Options

  type Sha = nat

  datatype Action = Opened | Reopened | Synchronize | Closed

  datatype Delivery = Delivery(
    id: string, action: Action, updatedAt: int, base: Sha, head: Sha, before: Option<Sha>, after: Option<Sha>) {
    /** Payloads that are refused before anything is stored do not satisfy this. */
    predicate Valid() {
      action.Synchronize? ==> before.Some? && after == Some(head)
    }

    predicate Opens() {
      !action.Closed?
    }

    /** Orders deliveries by time; at the same time open beats closed. */
    function Key(): int {
      2 * updatedAt + if Opens() then 1 else 0
    }
  }

  datatype PullRequest = PullRequest(base: Sha, head: Sha, isOpen: bool, updatedAt: Option<int>) {
    function Key(): int
      requires updatedAt.Some?
    {
      2 * updatedAt.value + if isOpen then 1 else 0
    }
  }

  datatype Tables = Tables(deliveries: set<Delivery>, pr: Option<PullRequest>)

  // ---------------------------------------------------------------- the head of a commit chain

  type Path = seq<Sha>

  const MAX_DEPTH: nat := 100

  /** The pushes recorded for the pull request at one time, as (before, after) pairs. */
  function Edges(deliveries: set<Delivery>, time: int): set<(Sha, Sha)> {
    set d | d in deliveries && d.action.Synchronize? && d.updatedAt == time && d.before.Some? && d.after.Some? ::
      (d.before.value, d.after.value)
  }

  /** One round of the recursive query: every path by every edge that reaches a new commit. */
  function Extend(layer: set<Path>, edges: set<(Sha, Sha)>): set<Path> {
    set p, e | p in layer && e in edges && p != [] && e.0 == p[|p| - 1] && e.1 !in p :: p + [e.1]
  }

  function Deepest(layer: set<Path>, edges: set<(Sha, Sha)>, rounds: nat): set<Path>
    decreases rounds
  {
    if rounds == 0 || Extend(layer, edges) == {} then layer else Deepest(Extend(layer, edges), edges, rounds - 1)
  }

  function Ends(layer: set<Path>): set<Sha> {
    set p | p in layer && p != [] :: p[|p| - 1]
  }

  lemma MaximumExists(s: set<nat>)
    requires s != {}
    ensures exists m :: m in s && forall x :: x in s ==> x <= m
  {
    var y :| y in s;
    if s == {y} {
    } else {
      MaximumExists(s - {y});
      var m :| m in s - {y} && forall x :: x in s - {y} ==> x <= m;
      assert forall x :: x in s ==> x == y || x in s - {y};
      assert (if m < y then y else m) in s;
    }
  }

  function Maximum(s: set<nat>): (m: nat)
    requires s != {}
    ensures m in s && forall x :: x in s ==> x <= m
  {
    MaximumExists(s);
    var m :| m in s && forall x :: x in s ==> x <= m;
    m
  }

  lemma DeepestHasEnds(layer: set<Path>, edges: set<(Sha, Sha)>, rounds: nat)
    requires Ends(layer) != {}
    ensures Ends(Deepest(layer, edges, rounds)) != {}
    decreases rounds
  {
    if rounds > 0 && Extend(layer, edges) != {} {
      var p :| p in Extend(layer, edges);
      assert p[|p| - 1] in Ends(Extend(layer, edges));
      DeepestHasEnds(Extend(layer, edges), edges, rounds - 1);
    }
  }

  lemma StartHasEnd(from: Sha)
    ensures Ends({[from]}) == {from}
  {
    assert [from] in {[from]};
    assert forall p :: p in {[from]} ==> p[|p| - 1] == from;
    assert from in Ends({[from]}) by {
      var p := [from];
      assert p in {[from]} && p != [] && p[|p| - 1] == from;
    }
  }

  function Resolve(edges: set<(Sha, Sha)>, from: Sha): Sha {
    StartHasEnd(from);
    DeepestHasEnds({[from]}, edges, MAX_DEPTH);
    Maximum(Ends(Deepest({[from]}, edges, MAX_DEPTH)))
  }

  function ResolvedHead(deliveries: set<Delivery>, d: Delivery): Sha {
    if d.action.Synchronize? && d.after.Some? then Resolve(Edges(deliveries, d.updatedAt), d.after.value) else d.head
  }

  // ---------------------------------------------------------------- the transaction

  /** The condition of the conflicting upsert. */
  predicate Replaces(row: PullRequest, d: Delivery, head: Sha) {
    || row.updatedAt.None?
    || row.updatedAt.value < d.updatedAt
    || (row.updatedAt.value == d.updatedAt && !row.isOpen && d.Opens())
    || (d.action.Synchronize? && row.updatedAt.value == d.updatedAt && row.isOpen && row.head != head)
  }

  function Upserted(pr: Option<PullRequest>, d: Delivery, head: Sha): Option<PullRequest> {
    if pr.None? || Replaces(pr.value, d, head) then Some(PullRequest(d.base, head, d.Opens(), Some(d.updatedAt))) else pr
  }

  predicate Fresh(deliveries: set<Delivery>, d: Delivery) {
    d.Valid() && forall x :: x in deliveries ==> x.id != d.id
  }

  /** A delivery of an unknown repository is remembered but does not touch the pull request. */
  function Receive(t: Tables, d: Delivery, known: bool): Tables {
    if !Fresh(t.deliveries, d) then t
    else
      var deliveries := t.deliveries + {d};
      Tables(deliveries, if known then Upserted(t.pr, d, ResolvedHead(deliveries, d)) else t.pr)
  }

  /** The intake tables, changed in place. */
  class Intake {
    var deliveries: set<Delivery>
    var pr: Option<PullRequest>

    constructor ()
      ensures T() == Tables({}, None)
    {
      deliveries, pr := {}, None;
    }

    ghost function T(): Tables
      reads this
    {
      Tables(deliveries, pr)
    }

    /** Follows the stored pushes round by round, never visiting a commit twice on a path. */
    method ResolveHeadSha(d: Delivery) returns (head: Sha)
      requires d.Valid()
      ensures head == ResolvedHead(deliveries, d)
      ensures d.action != Synchronize ==> head == d.head
      ensures d.action == Synchronize ==> head == Resolve(Edges(deliveries, d.updatedAt), d.head)
    {
      if d.action != Synchronize {
        return d.head;
      }
      var edges := Edges(deliveries, d.updatedAt);
      var chain, depth := {[d.after.value]}, 0;
      StartHasEnd(d.after.value);
      while depth < MAX_DEPTH && Extend(chain, edges) != {}
        invariant depth <= MAX_DEPTH && Ends(chain) != {}
        invariant Deepest(chain, edges, MAX_DEPTH - depth) == Deepest({[d.after.value]}, edges, MAX_DEPTH)
      {
        DeepestHasEnds(chain, edges, 1);
        chain, depth := Extend(chain, edges), depth + 1;
      }
      return Maximum(Ends(chain));
    }

    method UpsertPullRequest(d: Delivery, head: Sha) returns (current: bool)
      modifies this`pr
      ensures pr == Upserted(old(pr), d, head)
      ensures current <==> old(pr).None? || Replaces(old(pr).value, d, head)
    {
      var row := PullRequest(d.base, head, d.Opens(), Some(d.updatedAt));
      if pr.None? {
        pr := Some(row);
        return true;
      }
      if Replaces(pr.value, d, head) {
        pr := Some(row);
        return true;
      }
      return false;
    }

    method ReceiveWebhook(d: Delivery, known: bool) returns (duplicate: bool)
      requires d.Valid()
      modifies this
      ensures T() == Receive(old(T()), d, known)
      ensures duplicate <==> exists x :: x in old(deliveries) && x.id == d.id
      ensures !duplicate && known && d.action != Synchronize && (old(pr).Some? ==> old(pr).value.updatedAt.None?) ==>
                pr == Some(PullRequest(d.base, d.head, d.action != Closed, Some(d.updatedAt)))
    {
      duplicate := exists x :: x in deliveries && x.id == d.id;
      if duplicate {
        return;
      }
      deliveries := deliveries + {d};
      if !known {
        return;
      }
      var head := ResolveHeadSha(d);
      var current := UpsertPullRequest(d, head);
    }
  }

  // ---------------------------------------------------------------- resolution, declaratively

  predicate IsPath(p: Path, from: Sha, edges: set<(Sha, Sha)>) {
    && p != [] && p[0] == from
    && (forall i :: 0 <= i < |p| - 1 ==> (p[i], p[i + 1]) in edges)
    && (forall i, j :: 0 <= i < j < |p| ==> p[i] != p[j])
  }

  function Layer(from: Sha, edges: set<(Sha, Sha)>, depth: nat): set<Path> {
    if depth == 0 then {[from]} else Extend(Layer(from, edges, depth - 1), edges)
  }

  lemma InExtend(layer: set<Path>, edges: set<(Sha, Sha)>, p: Path)
    ensures p in Extend(layer, edges) <==>
            |p| >= 2 && p[..|p| - 1] in layer && (p[|p| - 2], p[|p| - 1]) in edges && p[|p| - 1] !in p[..|p| - 1]
  {
    if p in Extend(layer, edges) {
      var q, e :| q in layer && e in edges && q != [] && e.0 == q[|q| - 1] && e.1 !in q && p == q + [e.1];
      assert p[..|p| - 1] == q && e == (p[|p| - 2], p[|p| - 1]);
    }
    if |p| >= 2 {
      var e := (p[|p| - 2], p[|p| - 1]);
      assert p == p[..|p| - 1] + [e.1];
    }
  }

  lemma LastStep(p: Path, from: Sha, edges: set<(Sha, Sha)>)
    requires |p| >= 2
    ensures IsPath(p, from, edges) <==>
            IsPath(p[..|p| - 1], from, edges) && (p[|p| - 2], p[|p| - 1]) in edges && p[|p| - 1] !in p[..|p| - 1]
  {
    var n := |p| - 1;
    if IsPath(p, from, edges) {
      assert (p[n - 1], p[n - 1 + 1]) in edges;
    }
    if IsPath(p[..n], from, edges) && (p[n - 1], p[n]) in edges && p[n] !in p[..n] {
      forall i | 0 <= i < n
        ensures (p[i], p[i + 1]) in edges
      {
        if i + 1 < n {
          assert (p[..n][i], p[..n][i + 1]) in edges;
        }
      }
      forall i, j | 0 <= i < j <= n
        ensures p[i] != p[j]
      {
        assert p[..n][i] == p[i];
      }
    }
  }

  lemma {:induction false} LayerIsPaths(from: Sha, edges: set<(Sha, Sha)>, depth: nat, p: Path)
    ensures p in Layer(from, edges, depth) <==> IsPath(p, from, edges) && |p| == depth + 1
  {
    if depth == 0 {
      assert p == [from] <==> |p| == 1 && p[0] == from;
    } else {
      hide IsPath, Extend;
      InExtend(Layer(from, edges, depth - 1), edges, p);
      if |p| >= 2 {
        LastStep(p, from, edges);
        LayerIsPaths(from, edges, depth - 1, p[..|p| - 1]);
      }
    }
  }

  lemma {:induction false} DeepestIsALayer(from: Sha, edges: set<(Sha, Sha)>, depth: nat, rounds: nat) returns (last: nat)
    requires Layer(from, edges, depth) != {}
    ensures depth <= last <= depth + rounds
    ensures Deepest(Layer(from, edges, depth), edges, rounds) == Layer(from, edges, last) != {}
    ensures last == depth + rounds || Layer(from, edges, last + 1) == {}
    decreases rounds
  {
    hide Extend;
    if rounds == 0 || Extend(Layer(from, edges, depth), edges) == {} {
      last := depth;
    } else {
      assert Layer(from, edges, depth + 1) == Extend(Layer(from, edges, depth), edges);
      last := DeepestIsALayer(from, edges, depth + 1, rounds - 1);
    }
  }

  lemma ShorterPaths(from: Sha, edges: set<(Sha, Sha)>, depth: nat, p: Path)
    requires IsPath(p, from, edges) && depth < |p|
    ensures IsPath(p[..depth + 1], from, edges)
    ensures p[..depth + 1] in Layer(from, edges, depth)
  {
    hide Layer;
    LayerIsPaths(from, edges, depth, p[..depth + 1]);
  }

  /**
   The query answers the end of a longest walk over distinct commits from `from`, taking at most a
   hundred pushes, and the greatest end when several walks are longest.
   */
  lemma ResolveIsLongest(edges: set<(Sha, Sha)>, from: Sha) returns (best: Path)
    ensures IsPath(best, from, edges) && best[|best| - 1] == Resolve(edges, from) && |best| <= MAX_DEPTH + 1
    ensures forall p :: IsPath(p, from, edges) && |p| <= MAX_DEPTH + 1 ==> |p| <= |best|
    ensures forall p :: IsPath(p, from, edges) && |p| == |best| ==> p[|p| - 1] <= Resolve(edges, from)
  {
    hide Extend, Deepest, IsPath;
    var start := {[from]};
    assert Layer(from, edges, 0) == start && [from] in start;
    var last := DeepestIsALayer(from, edges, 0, MAX_DEPTH);
    var layer := Deepest(start, edges, MAX_DEPTH);
    assert Resolve(edges, from) in Ends(layer) by {
      StartHasEnd(from);
      DeepestHasEnds(start, edges, MAX_DEPTH);
    }
    best :| best in layer && best != [] && best[|best| - 1] == Resolve(edges, from);
    LayerIsPaths(from, edges, last, best);
    forall p | IsPath(p, from, edges)
      ensures |p| <= MAX_DEPTH + 1 ==> |p| <= |best|
      ensures |p| == |best| ==> p[|p| - 1] <= Resolve(edges, from)
    {
      if |best| < |p| <= MAX_DEPTH + 1 {
        ShorterPaths(from, edges, last + 1, p);
      }
      if |p| == |best| {
        LayerIsPaths(from, edges, last, p);
        assert p[|p| - 1] in Ends(layer);
      }
    }
  }

  // ---------------------------------------------------------------- runs of arrivals

  datatype Arrival = Arrival(delivery: Delivery, known: bool)

  /** `applied` remembers the stored deliveries that reached the upsert. */
  datatype State = State(tables: Tables, applied: set<Delivery>)

  function Step(s: State, a: Arrival): State {
    State(Receive(s.tables, a.delivery, a.known),
          if Fresh(s.tables.deliveries, a.delivery) && a.known then s.applied + {a.delivery} else s.applied)
  }

  function Exec(s: State, arrivals: seq<Arrival>): State {
    if arrivals == [] then s else Step(Exec(s, arrivals[..|arrivals| - 1]), arrivals[|arrivals| - 1])
  }

  /** Nothing received yet; the pull request may already have a row. */
  predicate Init(s: State) {
    s.tables.deliveries == {} && s.applied == {}
  }

  ghost predicate HasKey(pr: Option<PullRequest>, key: int) {
    pr.Some? && pr.value.updatedAt.Some? && pr.value.Key() == key
  }

  /** The stored register is the greatest of the row it began with and the applied deliveries. */
  ghost predicate IsMaximum(before: Option<PullRequest>, applied: set<Delivery>, pr: Option<PullRequest>) {
    && (applied == {} ==> pr == before)
    && (applied != {} ==> pr.Some? && pr.value.updatedAt.Some?)
    && (forall d :: d in applied ==> d.Key() <= pr.value.Key())
    && (before.Some? && before.value.updatedAt.Some? ==>
          pr.Some? && pr.value.updatedAt.Some? && before.value.Key() <= pr.value.Key())
    && (applied != {} ==> HasKey(before, pr.value.Key()) || exists d :: d in applied && d.Key() == pr.value.Key())
  }

  lemma UpsertKeepsMaximum(before: Option<PullRequest>, applied: set<Delivery>, pr: Option<PullRequest>, d: Delivery, head: Sha)
    requires IsMaximum(before, applied, pr)
    ensures IsMaximum(before, applied + {d}, Upserted(pr, d, head))
  {
    var after := Upserted(pr, d, head);
    assert d in applied + {d};
    if after.value.Key() != d.Key() {
      assert after == pr;
      if !HasKey(before, pr.value.Key()) && applied != {} {
        var x :| x in applied && x.Key() == pr.value.Key();
        assert x in applied + {d};
      }
    }
  }

  /** Whatever the order and repetition, the stored time and state are those of the greatest delivery. */
  lemma {:induction false} RegisterIsMaximum(s: State, arrivals: seq<Arrival>)
    requires Init(s)
    ensures IsMaximum(s.tables.pr, Exec(s, arrivals).applied, Exec(s, arrivals).tables.pr)
  {
    if arrivals == [] {
    } else {
      var front, a := arrivals[..|arrivals| - 1], arrivals[|arrivals| - 1];
      RegisterIsMaximum(s, front);
      var t := Exec(s, front);
      if Fresh(t.tables.deliveries, a.delivery) && a.known {
        hide IsMaximum, ResolvedHead, Upserted;
        UpsertKeepsMaximum(s.tables.pr, t.applied, t.tables.pr, a.delivery,
                           ResolvedHead(t.tables.deliveries + {a.delivery}, a.delivery));
      }
    }
  }

  /**
   The register spelled out: the stored time is the greatest of the applied deliveries and the first row,
   and the pull request is open exactly when something of that time opened it or kept it open.
   */
  lemma RegisterByTime(s: State, arrivals: seq<Arrival>)
    requires Init(s) && Exec(s, arrivals).applied != {}
    ensures var before, applied, pr := s.tables.pr, Exec(s, arrivals).applied, Exec(s, arrivals).tables.pr;
            && pr.Some? && pr.value.updatedAt.Some?
            && var time := pr.value.updatedAt.value;
               && (forall d :: d in applied ==> d.updatedAt <= time)
               && (before.Some? && before.value.updatedAt.Some? ==> before.value.updatedAt.value <= time)
               && ((exists d :: d in applied && d.updatedAt == time) || (before.Some? && before.value.updatedAt == Some(time)))
               && (pr.value.isOpen <==>
                     || (exists d :: d in applied && d.updatedAt == time && d.action != Closed)
                     || (before.Some? && before.value.updatedAt == Some(time) && before.value.isOpen))
  {
    RegisterIsMaximum(s, arrivals);
    hide Exec;
    MaximumByTime(s.tables.pr, Exec(s, arrivals).applied, Exec(s, arrivals).tables.pr);
  }

  lemma MaximumByTime(before: Option<PullRequest>, applied: set<Delivery>, pr: Option<PullRequest>)
    requires IsMaximum(before, applied, pr) && applied != {}
    ensures pr.Some? && pr.value.updatedAt.Some?
    ensures var time := pr.value.updatedAt.value;
            && (forall d :: d in applied ==> d.updatedAt <= time)
            && (before.Some? && before.value.updatedAt.Some? ==> before.value.updatedAt.value <= time)
            && ((exists d :: d in applied && d.updatedAt == time) || (before.Some? && before.value.updatedAt == Some(time)))
            && (pr.value.isOpen <==>
                  || (exists d :: d in applied && d.updatedAt == time && d.action != Closed)
                  || (before.Some? && before.value.updatedAt == Some(time) && before.value.isOpen))
  {
    var time := pr.value.updatedAt.value;
    forall d | d in applied
      ensures d.updatedAt <= time && (d.updatedAt == time && d.action != Closed ==> pr.value.isOpen)
    {
      assert d.Key() <= pr.value.Key();
    }
    if !HasKey(before, pr.value.Key()) {
      var d :| d in applied && d.Key() == pr.value.Key();
      assert d.updatedAt == time && (d.action != Closed <==> pr.value.isOpen);
    }
  }

  lemma EdgesArePushes(deliveries: set<Delivery>, time: int, from: Sha, to: Sha)
    ensures (from, to) in Edges(deliveries, time) <==> exists d :: d in deliveries && IsPushOf(d, time, from, to)
  {
  }

  // ---------------------------------------------------------------- where the stored row comes from

  /** What a new delivery of a known repository leaves: the row it replaces by its own, or the row as it was. */
  lemma ReceivedByAction(t: Tables, d: Delivery)
    requires Fresh(t.deliveries, d)
    ensures Receive(t, d, false) == Tables(t.deliveries + {d}, t.pr)
    ensures Receive(t, d, true).deliveries == t.deliveries + {d}
    ensures d.action != Synchronize ==>
              Receive(t, d, true).pr ==
              if || t.pr.None? || t.pr.value.updatedAt.None? || t.pr.value.updatedAt.value < d.updatedAt
                 || (t.pr.value.updatedAt.value == d.updatedAt && !t.pr.value.isOpen && d.action != Closed)
              then Some(PullRequest(d.base, d.head, d.action != Closed, Some(d.updatedAt)))
              else t.pr
    ensures d.action == Synchronize ==>
              var head := Resolve(Edges(t.deliveries + {d}, d.updatedAt), d.head);
              Receive(t, d, true).pr ==
              if || t.pr.None? || t.pr.value.updatedAt.None? || t.pr.value.updatedAt.value < d.updatedAt
                 || (t.pr.value.updatedAt.value == d.updatedAt && (!t.pr.value.isOpen || t.pr.value.head != head))
              then Some(PullRequest(d.base, head, true, Some(d.updatedAt)))
              else t.pr
  {
    hide Resolve, Edges;
  }

  /** Arrival `i` carries a valid payload whose id no earlier valid payload carried, of a known repository. */
  predicate IsApplied(arrivals: seq<Arrival>, i: nat) {
    && i < |arrivals| && arrivals[i].known && arrivals[i].delivery.Valid()
    && forall m :: 0 <= m < i && arrivals[m].delivery.id == arrivals[i].delivery.id ==> !arrivals[m].delivery.Valid()
  }

  /** Some arrival up to `i` is a push at that time from one commit to the other. */
  predicate WasPushed(arrivals: seq<Arrival>, i: nat, time: int, from: Sha, to: Sha) {
    exists m :: 0 <= m <= i && m < |arrivals| && IsPushOf(arrivals[m].delivery, time, from, to)
  }

  predicate IsPushOf(d: Delivery, time: int, from: Sha, to: Sha) {
    d.action == Synchronize && d.updatedAt == time && d.before == Some(from) && d.after == Some(to)
  }

  /** A walk over at most a hundred pushes of that time that arrived up to `i`. */
  predicate IsWalk(arrivals: seq<Arrival>, i: nat, time: int, p: Path) {
    && 1 <= |p| <= 101
    && forall x :: 0 <= x < |p| - 1 ==> WasPushed(arrivals, i, time, p[x], p[x + 1])
  }

  ghost predicate HeadFrom(arrivals: seq<Arrival>, i: nat, head: Sha)
    requires i < |arrivals|
  {
    var d := arrivals[i].delivery;
    if d.action == Synchronize
    then exists p: Path :: IsWalk(arrivals, i, d.updatedAt, p) && p[0] == d.head && p[|p| - 1] == head
    else head == d.head
  }

  /** The row is what arrival `i` stored. */
  ghost predicate RowFrom(pr: Option<PullRequest>, arrivals: seq<Arrival>, i: nat) {
    && IsApplied(arrivals, i) && pr.Some?
    && var d := arrivals[i].delivery;
       && pr.value.base == d.base && pr.value.isOpen == (d.action != Closed) && pr.value.updatedAt == Some(d.updatedAt)
       && HeadFrom(arrivals, i, pr.value.head)
  }

  lemma {:induction false} StoredByArrival(s: State, arrivals: seq<Arrival>, x: Delivery)
    requires Init(s)
    ensures x in Exec(s, arrivals).tables.deliveries ==>
              exists m :: 0 <= m < |arrivals| && arrivals[m].delivery == x && x.Valid()
  {
    if arrivals == [] {
    } else if x in Exec(s, arrivals).tables.deliveries {
      hide Upserted, ResolvedHead;
      var front := arrivals[..|arrivals| - 1];
      StoredByArrival(s, front, x);
      if x in Exec(s, front).tables.deliveries {
        var m :| 0 <= m < |front| && front[m].delivery == x && x.Valid();
        assert arrivals[m].delivery == x;
      }
    }
  }

  /** A valid payload that arrived is stored, itself or one with its id. */
  lemma {:induction false} ArrivedIsStored(s: State, arrivals: seq<Arrival>, m: nat)
    requires Init(s) && m < |arrivals| && arrivals[m].delivery.Valid()
    ensures exists x :: x in Exec(s, arrivals).tables.deliveries && x.id == arrivals[m].delivery.id
  {
    hide Upserted, ResolvedHead;
    var front := arrivals[..|arrivals| - 1];
    if m < |front| {
      ArrivedIsStored(s, front, m);
      var x :| x in Exec(s, front).tables.deliveries && x.id == front[m].delivery.id;
      assert x in Exec(s, arrivals).tables.deliveries;
    } else {
      var t := Exec(s, front).tables.deliveries;
      if Fresh(t, arrivals[m].delivery) {
        assert arrivals[m].delivery in Exec(s, arrivals).tables.deliveries;
      }
    }
  }

  lemma AppliedNow(s: State, arrivals: seq<Arrival>, a: Arrival)
    requires Init(s) && Fresh(Exec(s, arrivals).tables.deliveries, a.delivery) && a.known
    ensures IsApplied(arrivals + [a], |arrivals|)
  {
    hide Exec;
    forall m: nat | m < |arrivals| && arrivals[m].delivery.id == a.delivery.id
      ensures !arrivals[m].delivery.Valid()
    {
      if arrivals[m].delivery.Valid() {
        ArrivedIsStored(s, arrivals, m);
      }
    }
  }

  /** `applied` collects exactly the new valid payloads of the known repository. */
  lemma {:induction false} AppliedAreTheNew(s: State, arrivals: seq<Arrival>, d: Delivery)
    requires Init(s)
    ensures d in Exec(s, arrivals).applied <==> exists i: nat :: IsApplied(arrivals, i) && arrivals[i].delivery == d
  {
    if arrivals == [] {
    } else {
      hide Receive, Fresh, Init, IsApplied;
      var front, a := arrivals[..|arrivals| - 1], arrivals[|arrivals| - 1];
      assert arrivals == front + [a];
      AppliedAreTheNew(s, front, d);
      AppliedExtends(front, a);
      if Fresh(Exec(s, front).tables.deliveries, a.delivery) && a.known {
        AppliedNow(s, front, a);
      } else {
        NotAppliedNow(s, front, a);
      }
      if i: nat :| IsApplied(front, i) && front[i].delivery == d {
        assert arrivals[i].delivery == d;
      }
    }
  }

  lemma AppliedExtends(arrivals: seq<Arrival>, a: Arrival)
    ensures forall i: nat :: IsApplied(arrivals + [a], i) ==> i <= |arrivals|
    ensures forall i: nat :: i < |arrivals| ==> (IsApplied(arrivals + [a], i) <==> IsApplied(arrivals, i))
    ensures forall i: nat :: IsApplied(arrivals, i) ==> i < |arrivals|
  {
    var all := arrivals + [a];
    assert forall m :: 0 <= m < |arrivals| ==> all[m] == arrivals[m];
    forall i: nat | i < |arrivals|
      ensures IsApplied(all, i) <==> IsApplied(arrivals, i)
    {
      if IsApplied(all, i) {
        forall m | 0 <= m < i && arrivals[m].delivery.id == arrivals[i].delivery.id
          ensures !arrivals[m].delivery.Valid()
        {
          assert all[m] == arrivals[m];
        }
      }
    }
  }

  lemma NotAppliedNow(s: State, arrivals: seq<Arrival>, a: Arrival)
    requires Init(s) && !(Fresh(Exec(s, arrivals).tables.deliveries, a.delivery) && a.known)
    ensures !IsApplied(arrivals + [a], |arrivals|)
  {
    hide Exec;
    if a.known && a.delivery.Valid() {
      var x :| x in Exec(s, arrivals).tables.deliveries && x.id == a.delivery.id;
      StoredByArrival(s, arrivals, x);
      var m :| 0 <= m < |arrivals| && arrivals[m].delivery == x && x.Valid();
      assert (arrivals + [a])[m].delivery == x;
    }
  }

  lemma EdgeWasPushed(s: State, arrivals: seq<Arrival>, a: Arrival, time: int, from: Sha, to: Sha)
    requires Init(s)
    requires (from, to) in Edges(Exec(s, arrivals).tables.deliveries + {a.delivery}, time)
    ensures WasPushed(arrivals + [a], |arrivals|, time, from, to)
  {
    hide Exec;
    var d :| d in Exec(s, arrivals).tables.deliveries + {a.delivery} && IsPushOf(d, time, from, to);
    if d == a.delivery {
      assert IsPushOf((arrivals + [a])[|arrivals|].delivery, time, from, to);
    } else {
      StoredByArrival(s, arrivals, d);
      var m :| 0 <= m < |arrivals| && arrivals[m].delivery == d;
      assert IsPushOf((arrivals + [a])[m].delivery, time, from, to);
    }
  }

  lemma HeadNow(s: State, arrivals: seq<Arrival>, a: Arrival)
    requires Init(s) && a.delivery.Valid()
    ensures HeadFrom(arrivals + [a], |arrivals|, ResolvedHead(Exec(s, arrivals).tables.deliveries + {a.delivery}, a.delivery))
  {
    hide Exec, Edges, Resolve, WasPushed;
    var d := a.delivery;
    if d.action == Synchronize {
      var edges := Edges(Exec(s, arrivals).tables.deliveries + {d}, d.updatedAt);
      var p := ResolveIsLongest(edges, d.head);
      forall x | 0 <= x < |p| - 1
        ensures WasPushed(arrivals + [a], |arrivals|, d.updatedAt, p[x], p[x + 1])
      {
        EdgeWasPushed(s, arrivals, a, d.updatedAt, p[x], p[x + 1]);
      }
      assert IsWalk(arrivals + [a], |arrivals|, d.updatedAt, p);
    }
  }

  lemma WalkStays(arrivals: seq<Arrival>, a: Arrival, i: nat, time: int, p: Path)
    requires i < |arrivals| && IsWalk(arrivals, i, time, p)
    ensures IsWalk(arrivals + [a], i, time, p)
  {
    forall x | 0 <= x < |p| - 1
      ensures WasPushed(arrivals + [a], i, time, p[x], p[x + 1])
    {
      var m :| 0 <= m <= i && IsPushOf(arrivals[m].delivery, time, p[x], p[x + 1]);
      assert IsPushOf((arrivals + [a])[m].delivery, time, p[x], p[x + 1]);
    }
  }

  lemma RowStays(pr: Option<PullRequest>, arrivals: seq<Arrival>, a: Arrival, i: nat)
    requires RowFrom(pr, arrivals, i)
    ensures RowFrom(pr, arrivals + [a], i)
  {
    hide WasPushed;
    var d := arrivals[i].delivery;
    if d.action == Synchronize {
      var p: Path :| IsWalk(arrivals, i, d.updatedAt, p) && p[0] == d.head && p[|p| - 1] == pr.value.head;
      WalkStays(arrivals, a, i, d.updatedAt, p);
    }
  }

  /**
   Over every run, the stored row is the one it began with or has base, openness and time of one new
   delivery. Its head is that delivery's head, unless that delivery is a push: then it is where a walk of
   pushes that had arrived by then leads from the pushed head.
   */
  lemma {:induction false} RowComesFromDelivery(s: State, arrivals: seq<Arrival>)
    requires Init(s)
    ensures || Exec(s, arrivals).tables.pr == s.tables.pr
            || exists i: nat :: RowFrom(Exec(s, arrivals).tables.pr, arrivals, i)
  {
    if arrivals == [] {
    } else {
      hide ResolvedHead, RowFrom, Init, Fresh;
      var front, a := arrivals[..|arrivals| - 1], arrivals[|arrivals| - 1];
      assert arrivals == front + [a];
      RowComesFromDelivery(s, front);
      if Exec(s, arrivals).tables.pr != Exec(s, front).tables.pr {
        StoresItsRow(s, front, a);
        assert RowFrom(Exec(s, arrivals).tables.pr, arrivals, |front|);
      } else if Exec(s, front).tables.pr != s.tables.pr {
        var i: nat :| RowFrom(Exec(s, front).tables.pr, front, i);
        RowStays(Exec(s, front).tables.pr, front, a, i);
      }
    }
  }

  lemma StoresItsRow(s: State, front: seq<Arrival>, a: Arrival)
    requires Init(s) && Step(Exec(s, front), a).tables.pr != Exec(s, front).tables.pr
    ensures RowFrom(Step(Exec(s, front), a).tables.pr, front + [a], |front|)
  {
    hide ResolvedHead, Exec, IsApplied, HeadFrom, Init;
    AppliedNow(s, front, a);
    HeadNow(s, front, a);
  }

  /** Redeliveries repeat their payload, payloads are valid, and the repository is known throughout. */
  ghost predicate Consistent(arrivals: seq<Arrival>) {
    && (forall i :: 0 <= i < |arrivals| ==> arrivals[i].known && arrivals[i].delivery.Valid())
    && (forall i, j :: 0 <= i < |arrivals| && 0 <= j < |arrivals| && arrivals[i].delivery.id == arrivals[j].delivery.id ==>
          arrivals[i].delivery == arrivals[j].delivery)
  }

  function Deliveries(arrivals: seq<Arrival>): set<Delivery> {
    set a | a in arrivals :: a.delivery
  }

  lemma {:induction false} AppliedIsArrived(s: State, arrivals: seq<Arrival>)
    requires Init(s) && Consistent(arrivals)
    ensures Exec(s, arrivals).applied == Exec(s, arrivals).tables.deliveries == Deliveries(arrivals)
  {
    if arrivals == [] {
    } else {
      var front, a := arrivals[..|arrivals| - 1], arrivals[|arrivals| - 1];
      AppliedIsArrived(s, front);
      assert forall x :: x in arrivals <==> x in front || x == a;
      assert Deliveries(arrivals) == Deliveries(front) + {a.delivery};
      if !Fresh(Deliveries(front), a.delivery) {
        var x :| x in Deliveries(front) && x.id == a.delivery.id;
        assert x == a.delivery;
      }
    }
  }

  lemma SameKey(before: Option<PullRequest>, applied: set<Delivery>, p: Option<PullRequest>, q: Option<PullRequest>)
    requires IsMaximum(before, applied, p) && IsMaximum(before, applied, q) && applied != {}
    ensures p.Some? && q.Some?
    ensures p.value.updatedAt == q.value.updatedAt && p.value.isOpen == q.value.isOpen
  {
    assert p.value.Key() <= q.value.Key();
    assert q.value.Key() <= p.value.Key();
  }

  /** Arrival order does not matter: the same deliveries leave the same time and state. */
  lemma RegisterConverges(s: State, xs: seq<Arrival>, ys: seq<Arrival>)
    requires Init(s) && Consistent(xs) && Consistent(ys) && Deliveries(xs) == Deliveries(ys) != {}
    ensures var p, q := Exec(s, xs).tables.pr, Exec(s, ys).tables.pr;
            && p.Some? && q.Some?
            && p.value.updatedAt == q.value.updatedAt && p.value.isOpen == q.value.isOpen
  {
    AppliedIsArrived(s, xs);
    AppliedIsArrived(s, ys);
    RegisterIsMaximum(s, xs);
    RegisterIsMaximum(s, ys);
    hide Exec, Deliveries, Consistent, IsMaximum;
    var p, q := Exec(s, xs).tables.pr, Exec(s, ys).tables.pr;
    SameKey(s.tables.pr, Deliveries(xs), p, q);
  }

  // ---------------------------------------------------------------- pushes of one time that form a chain

  predicate Distinct(chain: seq<Sha>) {
    forall i, j :: 0 <= i < j < |chain| ==> chain[i] != chain[j]
  }

  function Edge(chain: seq<Sha>, i: nat): (Sha, Sha)
    requires i + 1 < |chain|
  {
    (chain[i], chain[i + 1])
  }

  function ChainEdges(chain: seq<Sha>): set<(Sha, Sha)> {
    set i | 0 <= i < |chain| - 1 :: Edge(chain, i)
  }

  function Min(a: int, b: int): int {
    if a < b then a else b
  }

  lemma ExtendChain(chain: seq<Sha>, j: nat, m: nat)
    requires Distinct(chain) && j <= m < |chain|
    ensures Extend({chain[j..m + 1]}, ChainEdges(chain)) == if m + 1 < |chain| then {chain[j..m + 2]} else {}
  {
    var p, edges := chain[j..m + 1], ChainEdges(chain);
    assert p != [] && p[|p| - 1] == chain[m];
    forall e | e in edges && e.0 == chain[m]
      ensures m + 1 < |chain| && e.1 == chain[m + 1] && p + [e.1] == chain[j..m + 2]
    {
      var i :| 0 <= i < |chain| - 1 && e == Edge(chain, i);
      assert i == m;
    }
    if m + 1 < |chain| {
      var e := Edge(chain, m);
      assert e in edges && e.1 !in p;
      assert p in {p} && p + [e.1] == chain[j..m + 2];
      assert chain[j..m + 2] in Extend({p}, edges);
    }
  }

  lemma {:induction false} DeepestOnChain(chain: seq<Sha>, j: nat, m: nat, rounds: nat)
    requires Distinct(chain) && j <= m < |chain|
    ensures Deepest({chain[j..m + 1]}, ChainEdges(chain), rounds) == {chain[j..Min(|chain|, m + 1 + rounds)]}
    decreases rounds
  {
    hide Extend, ChainEdges;
    ExtendChain(chain, j, m);
    if rounds > 0 && m + 1 < |chain| {
      assert chain[j..m + 2] in {chain[j..m + 2]};
      DeepestOnChain(chain, j, m + 1, rounds - 1);
    }
  }

  lemma ResolveOnChain(chain: seq<Sha>, j: nat)
    requires Distinct(chain) && j < |chain|
    ensures Resolve(ChainEdges(chain), chain[j]) == chain[Min(|chain| - 1, j + MAX_DEPTH)]
  {
    hide Extend, Deepest, ChainEdges;
    assert chain[j..j + 1] == [chain[j]];
    DeepestOnChain(chain, j, j, MAX_DEPTH);
    var p := chain[j..Min(|chain|, j + 1 + MAX_DEPTH)];
    assert p in {p} && p[|p| - 1] == chain[Min(|chain| - 1, j + MAX_DEPTH)];
    assert forall x :: x in Ends({p}) ==> x == p[|p| - 1];
    StartHasEnd(chain[j]);
    DeepestHasEnds({[chain[j]]}, ChainEdges(chain), MAX_DEPTH);
  }

  /** A push recorded at time `time` that no redelivery guard drops. */
  predicate Pushes(s: State, a: Arrival, time: int) {
    Fresh(s.tables.deliveries, a.delivery) && a.known && a.delivery.action.Synchronize? && a.delivery.updatedAt == time
  }

  predicate NotAfter(pr: Option<PullRequest>, time: int) {
    pr.Some? && pr.value.updatedAt.Some? ==> pr.value.updatedAt.value <= time
  }

  lemma {:induction false} ExecNotAfter(s: State, arrivals: seq<Arrival>, time: int)
    requires NotAfter(s.tables.pr, time)
    requires forall a :: a in arrivals && a.known ==> a.delivery.updatedAt <= time
    ensures NotAfter(Exec(s, arrivals).tables.pr, time)
  {
    if arrivals == [] {
    } else {
      hide ResolvedHead;
      ExecNotAfter(s, arrivals[..|arrivals| - 1], time);
    }
  }

  /** The last push of the greatest time decides the head; nothing else of that time or older moves it. */
  lemma {:induction false} HeadIsKept(s: State, arrivals: seq<Arrival>, time: int, head: Sha)
    requires s.tables.pr.Some? && s.tables.pr.value.updatedAt == Some(time) && s.tables.pr.value.isOpen
    requires s.tables.pr.value.head == head
    requires forall a :: a in arrivals && a.known ==> a.delivery.updatedAt <= time
    requires forall i :: 0 <= i < |arrivals| ==> !Pushes(Exec(s, arrivals[..i]), arrivals[i], time)
    ensures Exec(s, arrivals).tables.pr == s.tables.pr
  {
    if arrivals == [] {
    } else {
      hide ResolvedHead;
      var front := arrivals[..|arrivals| - 1];
      assert forall i :: 0 <= i < |front| ==> front[..i] == arrivals[..i];
      HeadIsKept(s, front, time, head);
      assert !Pushes(Exec(s, front), arrivals[|front|], time);
    }
  }

  lemma {:induction false} ExecAppend(s: State, xs: seq<Arrival>, ys: seq<Arrival>)
    ensures Exec(s, xs + ys) == Exec(Exec(s, xs), ys)
  {
    if ys == [] {
      assert xs + ys == xs;
    } else {
      assert (xs + ys)[..|xs + ys| - 1] == xs + ys[..|ys| - 1];
      ExecAppend(s, xs, ys[..|ys| - 1]);
    }
  }

  lemma RunSplits(s: State, front: seq<Arrival>, last: Arrival, back: seq<Arrival>)
    ensures Exec(s, front + [last] + back) == Exec(Step(Exec(s, front), last), back)
  {
    assert (front + [last])[..|front|] == front;
    assert Exec(s, front + [last]) == Step(Exec(s, front), last);
    ExecAppend(s, front + [last], back);
  }

  /**
   The stored head is a hundred pushes past `chain[j]` or the end of the chain, and so it is the end
   exactly when no more than a hundred pushes lie beyond `chain[j]`.
   */
  predicate HeadReaches(pr: Option<PullRequest>, chain: seq<Sha>, j: nat, time: int)
    requires j < |chain|
  {
    && pr.Some? && pr.value.isOpen && pr.value.updatedAt == Some(time)
    && pr.value.head == chain[Min(|chain| - 1, j + MAX_DEPTH)]
    && (pr.value.head == chain[|chain| - 1] <==> |chain| - 1 - j <= MAX_DEPTH)
  }

  lemma ReachIsExact(pr: Option<PullRequest>, chain: seq<Sha>, j: nat, time: int)
    requires Distinct(chain) && j < |chain|
    requires pr.Some? && pr.value.isOpen && pr.value.updatedAt == Some(time)
    requires pr.value.head == chain[Min(|chain| - 1, j + MAX_DEPTH)]
    ensures HeadReaches(pr, chain, j, time)
  {
  }

  /** The last push of the greatest time, with the whole chain recorded. */
  lemma LastPushDecides(before: State, last: Arrival, chain: seq<Sha>, k: nat, time: int)
    requires NotAfter(before.tables.pr, time) && Distinct(chain) && k + 1 < |chain|
    requires Pushes(before, last, time) && last.delivery.after == Some(chain[k + 1])
    requires Edges(Step(before, last).tables.deliveries, time) == ChainEdges(chain)
    ensures HeadReaches(Step(before, last).tables.pr, chain, k + 1, time)
  {
    hide Edges, Resolve, ChainEdges, Distinct, HeadReaches;
    ResolveOnChain(chain, k + 1);
    assert last.delivery.Valid();
    ReachIsExact(Step(before, last).tables.pr, chain, k + 1, time);
  }

  lemma FromTheMiddle(before: State, last: Arrival, back: seq<Arrival>, chain: seq<Sha>, k: nat, time: int)
    requires NotAfter(before.tables.pr, time) && Distinct(chain) && k + 1 < |chain|
    requires forall a :: a in back && a.known ==> a.delivery.updatedAt <= time
    requires Pushes(before, last, time) && last.delivery.after == Some(chain[k + 1])
    requires Edges(Step(before, last).tables.deliveries, time) == ChainEdges(chain)
    requires forall i :: 0 <= i < |back| ==> !Pushes(Exec(Step(before, last), back[..i]), back[i], time)
    ensures HeadReaches(Exec(Step(before, last), back).tables.pr, chain, k + 1, time)
  {
    hide Edges, ChainEdges, Distinct, Step, Exec, Pushes, NotAfter;
    LastPushDecides(before, last, chain, k, time);
    HeadIsKept(Step(before, last), back, time, chain[Min(|chain| - 1, k + 1 + MAX_DEPTH)]);
  }

  /**
   Pushes of the greatest time that form a chain of distinct commits, arriving in any order among any
   other deliveries: the head reaches as far as the last of them to arrive, `chain[k + 1]`, allows.
   */
  lemma ChainConverges(s: State, front: seq<Arrival>, last: Arrival, back: seq<Arrival>, chain: seq<Sha>, k: nat, time: int)
    requires Init(s) && NotAfter(s.tables.pr, time) && Distinct(chain) && k + 1 < |chain|
    requires forall a :: (a in front || a in back) && a.known ==> a.delivery.updatedAt <= time
    requires Pushes(Exec(s, front), last, time) && last.delivery.after == Some(chain[k + 1])
    requires Edges(Step(Exec(s, front), last).tables.deliveries, time) == ChainEdges(chain)
    requires forall i :: 0 <= i < |back| ==> !Pushes(Exec(Step(Exec(s, front), last), back[..i]), back[i], time)
    ensures HeadReaches(Exec(s, front + [last] + back).tables.pr, chain, k + 1, time)
  {
    hide Edges, ChainEdges, Distinct, Step, Exec, Pushes, NotAfter, HeadReaches;
    ExecNotAfter(s, front, time);
    FromTheMiddle(Exec(s, front), last, back, chain, k, time);
    RunSplits(s, front, last, back);
  }

  /** A push of `chain[k]` to `chain[k + 1]` at the given time. */
  predicate IsPush(a: Arrival, chain: seq<Sha>, k: nat, time: int)
    requires k + 1 < |chain|
  {
    && a.known && a.delivery.Valid() && a.delivery.action.Synchronize? && a.delivery.updatedAt == time
    && (a.delivery.before, a.delivery.after) == (Some(chain[k]), Some(chain[k + 1]))
  }

  predicate IsSomePush(a: Arrival, chain: seq<Sha>, time: int) {
    exists k :: 0 <= k < |chain| - 1 && IsPush(a, chain, k, time)
  }

  predicate Arrived(arrivals: seq<Arrival>, chain: seq<Sha>, k: nat, time: int)
    requires k + 1 < |chain|
  {
    exists i :: 0 <= i < |arrivals| && IsPush(arrivals[i], chain, k, time)
  }

  /** All pushes of the chain and only those, each delivery new, in any order. */
  ghost predicate ArrivesAs(arrivals: seq<Arrival>, chain: seq<Sha>, time: int) {
    && |chain| >= 2 && Distinct(chain)
    && (forall i :: 0 <= i < |arrivals| ==> IsSomePush(arrivals[i], chain, time))
    && (forall k :: 0 <= k < |chain| - 1 ==> Arrived(arrivals, chain, k, time))
    && (forall i, j :: 0 <= i < j < |arrivals| ==> arrivals[i].delivery.id != arrivals[j].delivery.id)
  }

  lemma EdgesOfChain(arrivals: seq<Arrival>, chain: seq<Sha>, time: int)
    requires ArrivesAs(arrivals, chain, time)
    ensures Edges(Deliveries(arrivals), time) == ChainEdges(chain)
  {
    forall e | e in Edges(Deliveries(arrivals), time)
      ensures e in ChainEdges(chain)
    {
      var a :| a in arrivals && e == (a.delivery.before.value, a.delivery.after.value);
      assert IsSomePush(a, chain, time);
      var k :| 0 <= k < |chain| - 1 && IsPush(a, chain, k, time);
      assert e == Edge(chain, k);
    }
    forall e | e in ChainEdges(chain)
      ensures e in Edges(Deliveries(arrivals), time)
    {
      var k :| 0 <= k < |chain| - 1 && e == Edge(chain, k);
      assert Arrived(arrivals, chain, k, time);
      var i :| 0 <= i < |arrivals| && IsPush(arrivals[i], chain, k, time);
      assert arrivals[i].delivery in Deliveries(arrivals);
    }
  }

  /** Every permutation of a chain's pushes: the last arrival decides how far the head gets. */
  lemma PermutationConverges(s: State, arrivals: seq<Arrival>, chain: seq<Sha>, k: nat, time: int)
    requires Init(s) && NotAfter(s.tables.pr, time) && ArrivesAs(arrivals, chain, time)
    requires arrivals != [] && k + 1 < |chain| && IsPush(arrivals[|arrivals| - 1], chain, k, time)
    ensures HeadReaches(Exec(s, arrivals).tables.pr, chain, k + 1, time)
  {
    var front, last := arrivals[..|arrivals| - 1], arrivals[|arrivals| - 1];
    assert arrivals == front + [last] && front + [last] + [] == arrivals;
    assert Exec(s, arrivals) == Step(Exec(s, front), last);
    ConsistentArrivals(arrivals, chain, time);
    EdgesOfChain(arrivals, chain, time);
    hide Exec, Step, Edges, ChainEdges, Pushes, Consistent, ArrivesAs, IsPush, Distinct, HeadReaches, Deliveries;
    AppliedIsArrived(s, front);
    AppliedIsArrived(s, arrivals);
    LastIsNew(Exec(s, front), arrivals, chain, k, time);
    ArrivalTimes(arrivals, chain, time);
    ChainIsDistinct(arrivals, chain, time);
    LastReaches(last, chain, k, time);
    ChainConverges(s, front, last, [], chain, k, time);
  }

  lemma ConsistentArrivals(arrivals: seq<Arrival>, chain: seq<Sha>, time: int)
    requires ArrivesAs(arrivals, chain, time)
    ensures Consistent(arrivals) && (arrivals != [] ==> Consistent(arrivals[..|arrivals| - 1]))
  {
    forall i | 0 <= i < |arrivals|
      ensures arrivals[i].known && arrivals[i].delivery.Valid()
    {
      assert IsSomePush(arrivals[i], chain, time);
    }
  }

  lemma LastIsNew(before: State, arrivals: seq<Arrival>, chain: seq<Sha>, k: nat, time: int)
    requires ArrivesAs(arrivals, chain, time) && arrivals != [] && k + 1 < |chain|
    requires IsPush(arrivals[|arrivals| - 1], chain, k, time)
    requires before.tables.deliveries == Deliveries(arrivals[..|arrivals| - 1])
    ensures Pushes(before, arrivals[|arrivals| - 1], time)
  {
    forall x | x in before.tables.deliveries
      ensures x.id != arrivals[|arrivals| - 1].delivery.id
    {
      var a :| a in arrivals[..|arrivals| - 1] && a.delivery == x;
      var i :| 0 <= i < |arrivals| - 1 && arrivals[i] == a;
    }
  }

  lemma ArrivalTimes(arrivals: seq<Arrival>, chain: seq<Sha>, time: int)
    requires ArrivesAs(arrivals, chain, time)
    ensures forall a :: a in arrivals ==> a.delivery.updatedAt == time
  {
    forall i | 0 <= i < |arrivals|
      ensures arrivals[i].delivery.updatedAt == time
    {
      assert IsSomePush(arrivals[i], chain, time);
    }
  }

  lemma ChainIsDistinct(arrivals: seq<Arrival>, chain: seq<Sha>, time: int)
    requires ArrivesAs(arrivals, chain, time)
    ensures Distinct(chain)
  {
  }

  lemma LastReaches(last: Arrival, chain: seq<Sha>, k: nat, time: int)
    requires k + 1 < |chain| && IsPush(last, chain, k, time)
    ensures last.delivery.after == Some(chain[k + 1])
  {
  }

  function PushFrom(i: nat): Arrival {
    Arrival(Delivery(seq(i, _ => 'x'), Synchronize, 0, 0, i + 1, Some(i), Some(i + 1)), true)
  }

  /** The pushes from commit 1, 2, ... 101 and then, late, the one from commit 0. */
  function FirstPushLast(): (arrivals: seq<Arrival>)
    ensures |arrivals| == 102 && arrivals[101] == PushFrom(0)
    ensures forall i :: 0 <= i < 101 ==> arrivals[i] == PushFrom(i + 1)
  {
    seq(102, i requires 0 <= i => if i < 101 then PushFrom(i + 1) else PushFrom(0))
  }

  lemma FirstPushLastArrives(chain: seq<Sha>)
    requires chain == seq(103, i => i)
    ensures ArrivesAs(FirstPushLast(), chain, 0)
  {
    var arrivals := FirstPushLast();
    forall k: nat | k < 102
      ensures Arrived(arrivals, chain, k, 0)
    {
      var i := if k == 0 then 101 else k - 1;
      assert IsPush(arrivals[i], chain, k, 0);
    }
    forall i | 0 <= i < |arrivals|
      ensures IsSomePush(arrivals[i], chain, 0)
    {
      var k := if i < 101 then i + 1 else 0;
      assert IsPush(arrivals[i], chain, k, 0);
    }
    forall i, j | 0 <= i < j < |arrivals|
      ensures arrivals[i].delivery.id != arrivals[j].delivery.id
    {
      assert |arrivals[i].delivery.id| != |arrivals[j].delivery.id|;
    }
  }

  /** A chain of 102 pushes whose first push arrives last: the head stops one commit short of 102. */
  lemma LongChainStopsShort(s: State)
    requires s == State(Tables({}, None), {})
    ensures Exec(s, FirstPushLast()).tables.pr.Some? && Exec(s, FirstPushLast()).tables.pr.value.head == 101
  {
    var chain := seq(103, i => i);
    FirstPushLastArrives(chain);
    hide Exec, ArrivesAs;
    PermutationConverges(s, FirstPushLast(), chain, 0, 0);
  }
}
