/**
 Repository access under compare-and-set reconciliation racing with revoking lifecycle deliveries.

 A reconciliation reads its installation's revision in one transaction, fetches the inventory without
 any, and applies it in another; deliveries and other reconciliations may commit in between.
 */
module InstallationInventory {
  import opened Options

  type InstallationId = nat
  type RepositoryId = nat

  datatype InstallationState = Pending | Active | Suspended | Deleted

  datatype Access = AccessPending | AccessActive | AccessRemoved

  datatype Installation = Installation(state: InstallationState, revision: nat)

  datatype Repository = Repository(installation: Option<InstallationId>, access: Access)

  datatype Snapshot = Snapshot(installation: InstallationId, state: InstallationState, repositories: seq<RepositoryId>)

  datatype Action = Created | Removal | Suspend | Unsuspend | NewPermissions | RepositoriesChanged

  datatype Delivery = Delivery(id: string, installation: InstallationId, action: Action, removed: seq<RepositoryId>)

  datatype Tables = Tables(
    installations: map<InstallationId, Installation>, repositories: map<RepositoryId, Repository>, deliveries: set<string>)

  // ---------------------------------------------------------------- the transactions

  /** The row that `lock_installation` makes sure exists. */
  function Locked(installations: map<InstallationId, Installation>, i: InstallationId): map<InstallationId, Installation> {
    if i in installations then installations else installations[i := Installation(Pending, 0)]
  }

  /** The state a delivery forces; only deletion and suspension do. */
  function ForcedState(action: Action): Option<InstallationState> {
    match action
    case Removal => Some(Deleted)
    case Suspend => Some(Suspended)
    case _ => None
  }

  /** Which repositories of its installation a delivery revokes. */
  predicate Revokes(d: Delivery, r: RepositoryId) {
    ForcedState(d.action).Some? || r in d.removed
  }

  function AfterDelivery(repositories: map<RepositoryId, Repository>, d: Delivery): map<RepositoryId, Repository> {
    map r | r in repositories ::
      if repositories[r].installation == Some(d.installation) && Revokes(d, r)
      then repositories[r].(access := AccessRemoved)
      else repositories[r]
  }

  /** A repeated delivery id changes nothing; a new one bumps the revision and can only take access away. */
  function Deliver(t: Tables, d: Delivery): Tables {
    var installations := Locked(t.installations, d.installation);
    if d.id in t.deliveries then t.(installations := installations)
    else
      var row := installations[d.installation];
      var state := if ForcedState(d.action).Some? then ForcedState(d.action).value else row.state;
      Tables(installations[d.installation := Installation(state, row.revision + 1)],
             AfterDelivery(t.repositories, d), t.deliveries + {d.id})
  }

  function Listed(snapshot: Snapshot): seq<RepositoryId> {
    if snapshot.state == Active then snapshot.repositories else []
  }

  /** What the listed repositories become, and what the installation's other repositories become. */
  function AfterSnapshot(
    repositories: map<RepositoryId, Repository>, i: InstallationId, listed: seq<RepositoryId>): map<RepositoryId, Repository>
  {
    map r | r in repositories.Keys + (set x | x in listed) ::
      if r in listed then Repository(Some(i), AccessActive)
      else if repositories[r].installation in {None, Some(i)} && repositories[r].access != AccessRemoved
      then Repository(Some(i), AccessRemoved)
      else repositories[r]
  }

  /** The compare-and-set: nothing happens unless the revision is still the one that was read. */
  function ApplySnapshot(t: Tables, snapshot: Snapshot, revision: nat): Tables {
    var i := snapshot.installation;
    var installations := Locked(t.installations, i);
    if installations[i].revision != revision then t.(installations := installations)
    else t.(installations := installations[i := Installation(snapshot.state, revision + 1)],
            repositories := AfterSnapshot(t.repositories, i, Listed(snapshot)))
  }

  predicate Admitted(t: Tables, i: InstallationId, r: RepositoryId) {
    && i in t.installations && t.installations[i].state == Active
    && r in t.repositories && t.repositories[r] == Repository(Some(i), AccessActive)
  }

  /** The inventory tables, changed in place. */
  class InventoryStore {
    var installations: map<InstallationId, Installation>
    var repositories: map<RepositoryId, Repository>
    var deliveries: set<string>

    constructor ()
      ensures T() == Tables(map[], map[], {})
    {
      installations, repositories, deliveries := map[], map[], {};
    }

    ghost function T(): Tables
      reads this
    {
      Tables(installations, repositories, deliveries)
    }

    method LockInstallation(i: InstallationId)
      modifies this`installations
      ensures installations == Locked(old(installations), i) && i in installations
    {
      if i !in installations {
        installations := installations[i := Installation(Pending, 0)];
      }
    }

    method UpsertListed(i: InstallationId, listed: seq<RepositoryId>)
      modifies this`repositories
      ensures repositories.Keys == old(repositories).Keys + (set x | x in listed)
      ensures forall r :: r in repositories ==>
                repositories[r] == if r in listed then Repository(Some(i), AccessActive) else old(repositories)[r]
    {
      for k := 0 to |listed|
        invariant repositories.Keys == old(repositories).Keys + (set x | x in listed[..k])
        invariant forall r :: r in repositories ==>
                    repositories[r] == if r in listed[..k] then Repository(Some(i), AccessActive) else old(repositories)[r]
      {
        assert listed[..k + 1] == listed[..k] + [listed[k]];
        repositories := repositories[listed[k] := Repository(Some(i), AccessActive)];
      }
      assert listed[..|listed|] == listed;
    }

    /** Upserts the listed repositories one by one, then removes the installation's others. */
    method Apply(snapshot: Snapshot, revision: nat) returns (applied: bool)
      modifies this`installations, this`repositories
      ensures T() == ApplySnapshot(old(T()), snapshot, revision)
      ensures applied <==> Locked(old(installations), snapshot.installation)[snapshot.installation].revision == revision
    {
      var i := snapshot.installation;
      LockInstallation(i);
      if installations[i].revision != revision {
        return false;
      }
      installations := installations[i := Installation(snapshot.state, revision + 1)];
      var listed := if snapshot.state == Active then snapshot.repositories else [];
      UpsertListed(i, listed);
      repositories := map r | r in repositories ::
        if repositories[r].installation in {None, Some(i)} && repositories[r].access != AccessRemoved && r !in listed
        then Repository(Some(i), AccessRemoved)
        else repositories[r];
      assert repositories == AfterSnapshot(old(repositories), i, listed);
      applied := true;
    }

    method ReceiveLifecycle(d: Delivery) returns (duplicate: bool)
      modifies this`installations, this`repositories, this`deliveries
      ensures T() == Deliver(old(T()), d)
      ensures duplicate <==> d.id in old(deliveries)
      ensures !duplicate ==>
                && d.installation in installations
                && (d.action == Removal ==> installations[d.installation].state == Deleted)
                && (d.action == Suspend ==> installations[d.installation].state == Suspended)
                && forall r :: r in repositories && repositories[r].installation == Some(d.installation) ==>
                     (d.action in {Removal, Suspend} || r in d.removed ==> repositories[r].access == AccessRemoved)
    {
      LockInstallation(d.installation);
      if d.id in deliveries {
        return true;
      }
      deliveries := deliveries + {d.id};
      var forced := ForcedState(d.action);
      var row := installations[d.installation];
      installations := installations[d.installation :=
        Installation(if forced.Some? then forced.value else row.state, row.revision + 1)];
      ghost var before := repositories;
      if d.removed != [] || forced.Some? {
        repositories := map r | r in repositories ::
          if repositories[r].installation == Some(d.installation) && (forced.Some? || r in d.removed)
          then repositories[r].(access := AccessRemoved)
          else repositories[r];
      }
      assert repositories == AfterDelivery(before, d);
      return false;
    }
  }

  // ---------------------------------------------------------------- interleaved reconciliations

  /** A reconciliation that has read its revision, at time `at`, and not yet applied its snapshot. */
  datatype Read = Read(installation: InstallationId, revision: nat, at: nat)

  /**
   Times are numbers of steps taken. `deliveredAt`, `forcedAt` and `removedAt` remember the last
   committed delivery of an installation, the last one that suspended or deleted it, and the last one
   that removed a repository from it; `readFor` remembers when the reconciliation that last granted a
   repository had read its revision.
   */
  datatype State = State(
    tables: Tables, pending: map<nat, Read>, clock: nat,
    deliveredAt: map<InstallationId, nat>, forcedAt: map<InstallationId, nat>,
    removedAt: map<(InstallationId, RepositoryId), nat>, readFor: map<RepositoryId, nat>)

  datatype Event =
    | ReadRevision(reconciler: nat, installation: InstallationId)
    | ApplyInventory(reconciler: nat, snapshot: Snapshot)
    | Abandon(reconciler: nat)
    | Receive(delivery: Delivery)

  /** Whether the reconciler's compare-and-set succeeds. */
  predicate Applies(s: State, e: Event) {
    && e.ApplyInventory? && e.reconciler in s.pending
    && e.snapshot.installation == s.pending[e.reconciler].installation
    && Locked(s.tables.installations, e.snapshot.installation)[e.snapshot.installation].revision
       == s.pending[e.reconciler].revision
  }

  function StepTables(s: State, e: Event): Tables {
    match e
    case ReadRevision(_, i) => s.tables.(installations := Locked(s.tables.installations, i))
    case ApplyInventory(k, snapshot) =>
      // a snapshot of another installation is refused
      if k in s.pending && snapshot.installation == s.pending[k].installation
      then ApplySnapshot(s.tables, snapshot, s.pending[k].revision)
      else s.tables
    case Abandon(_) => s.tables
    case Receive(d) => Deliver(s.tables, d)
  }

  function Step(s: State, e: Event): State {
    var now := s.clock + 1;
    var t := s.(tables := StepTables(s, e), clock := now);
    match e
    case ReadRevision(k, i) =>
      t.(pending := s.pending[k := Read(i, Locked(s.tables.installations, i)[i].revision, now)])
    case ApplyInventory(k, snapshot) =>
      var done := t.(pending := s.pending - {k});
      if Applies(s, e) then
        done.(readFor := map r | r in s.readFor.Keys + (set x | x in Listed(snapshot)) ::
                if r in Listed(snapshot) then s.pending[k].at else s.readFor[r])
      else done
    case Abandon(k) => t.(pending := s.pending - {k})
    case Receive(d) =>
      if d.id in s.tables.deliveries then t
      else
        t.(deliveredAt := s.deliveredAt[d.installation := now],
           forcedAt := if ForcedState(d.action).Some? then s.forcedAt[d.installation := now] else s.forcedAt,
           removedAt := AfterRemoval(s.removedAt, d, now))
  }

  function AfterRemoval(times: map<(InstallationId, RepositoryId), nat>, d: Delivery, now: nat)
    : map<(InstallationId, RepositoryId), nat>
  {
    map p | p in times.Keys + (set r | r in d.removed :: (d.installation, r)) ::
      if p.0 == d.installation && p.1 in d.removed then now else times[p]
  }

  function Exec(s: State, events: seq<Event>): State {
    if events == [] then s else Step(Exec(s, events[..|events| - 1]), events[|events| - 1])
  }

  /** Repositories may be known, but none is active before the first reconciliation. */
  ghost predicate Init(s: State) {
    && s.tables.installations == map[] && s.tables.deliveries == {}
    && (forall r :: r in s.tables.repositories ==> s.tables.repositories[r].access != AccessActive)
    && s.pending == map[] && s.clock == 0 && s.deliveredAt == map[] && s.forcedAt == map[]
    && s.removedAt == map[] && s.readFor == map[]
  }

  function TimeOf<K(==)>(times: map<K, nat>, key: K): nat {
    if key in times then times[key] else 0
  }

  /** When the installation was last suspended or deleted, or the repository last removed from it. */
  function RevokedAt(s: State, i: InstallationId, r: RepositoryId): nat {
    var forced, removed := TimeOf(s.forcedAt, i), TimeOf(s.removedAt, (i, r));
    if forced < removed then removed else forced
  }

  function Revision(t: Tables, i: InstallationId): nat {
    if i in t.installations then t.installations[i].revision else 0
  }

  ghost predicate ReadsOk(s: State) {
    forall k :: k in s.pending ==>
      && s.pending[k].at <= s.clock
      && s.pending[k].revision <= Revision(s.tables, s.pending[k].installation)
      && (s.pending[k].revision == Revision(s.tables, s.pending[k].installation) ==>
            TimeOf(s.deliveredAt, s.pending[k].installation) < s.pending[k].at)
  }

  ghost predicate TimesOk(s: State) {
    && (forall i :: i in s.deliveredAt ==> s.deliveredAt[i] <= s.clock)
    && (forall i :: i in s.forcedAt ==> s.forcedAt[i] <= TimeOf(s.deliveredAt, i))
    && (forall p :: p in s.removedAt ==> s.removedAt[p] <= TimeOf(s.deliveredAt, p.0))
  }

  /** Active access was granted by a reconciliation that read after the last revocation. */
  ghost predicate GrantsOk(s: State) {
    forall r :: r in s.tables.repositories && s.tables.repositories[r].access == AccessActive ==>
      && s.tables.repositories[r].installation.Some?
      && r in s.readFor
      && RevokedAt(s, s.tables.repositories[r].installation.value, r) < s.readFor[r]
  }

  ghost predicate Inv(s: State) {
    ReadsOk(s) && TimesOk(s) && GrantsOk(s)
  }

  /** What a delivery does to revisions and to the time of the last delivery. */
  lemma DeliveryBumps(s: State, d: Delivery, i: InstallationId)
    ensures var t := Step(s, Receive(d));
            var isNew := d.id !in s.tables.deliveries && i == d.installation;
            && Revision(t.tables, i) == Revision(s.tables, i) + (if isNew then 1 else 0)
            && TimeOf(t.deliveredAt, i) == (if isNew then s.clock + 1 else TimeOf(s.deliveredAt, i))
            && t.pending == s.pending && t.clock == s.clock + 1
  {
    hide AfterDelivery, AfterRemoval;
  }

  lemma ReceiveReadsOk(s: State, d: Delivery)
    requires Inv(s)
    ensures ReadsOk(Step(s, Receive(d)))
  {
    hide Step, GrantsOk, TimesOk;
    var t := Step(s, Receive(d));
    DeliveryBumps(s, d, d.installation);
    forall k | k in t.pending
      ensures t.pending[k].at <= t.clock
      ensures t.pending[k].revision <= Revision(t.tables, t.pending[k].installation)
      ensures t.pending[k].revision == Revision(t.tables, t.pending[k].installation) ==>
                TimeOf(t.deliveredAt, t.pending[k].installation) < t.pending[k].at
    {
      DeliveryBumps(s, d, s.pending[k].installation);
    }
  }

  lemma RemovalTimes(times: map<(InstallationId, RepositoryId), nat>, d: Delivery, now: nat, i: InstallationId, r: RepositoryId)
    ensures TimeOf(AfterRemoval(times, d, now), (i, r)) ==
            if i == d.installation && r in d.removed then now else TimeOf(times, (i, r))
  {
  }

  /** What a delivery does to the times of revocation. */
  lemma DeliveryRevokes(s: State, d: Delivery, i: InstallationId, r: RepositoryId)
    ensures var t := Step(s, Receive(d));
            var isNew := d.id !in s.tables.deliveries && i == d.installation;
            && TimeOf(t.forcedAt, i) == (if isNew && ForcedState(d.action).Some? then s.clock + 1 else TimeOf(s.forcedAt, i))
            && TimeOf(t.removedAt, (i, r)) == (if isNew && r in d.removed then s.clock + 1 else TimeOf(s.removedAt, (i, r)))
  {
    hide Deliver, AfterRemoval;
    RemovalTimes(s.removedAt, d, s.clock + 1, i, r);
  }

  /** The same bounds for every key, recorded or not. */
  lemma TimesMean(s: State)
    ensures TimesOk(s) <==>
            && (forall i :: TimeOf(s.deliveredAt, i) <= s.clock && TimeOf(s.forcedAt, i) <= TimeOf(s.deliveredAt, i))
            && (forall i, r :: TimeOf(s.removedAt, (i, r)) <= TimeOf(s.deliveredAt, i))
  {
    if forall i :: TimeOf(s.deliveredAt, i) <= s.clock && TimeOf(s.forcedAt, i) <= TimeOf(s.deliveredAt, i) {
      if forall i, r :: TimeOf(s.removedAt, (i, r)) <= TimeOf(s.deliveredAt, i) {
        forall p | p in s.removedAt
          ensures s.removedAt[p] <= TimeOf(s.deliveredAt, p.0)
        {
          assert p == (p.0, p.1) && TimeOf(s.removedAt, (p.0, p.1)) <= TimeOf(s.deliveredAt, p.0);
        }
        assert forall i :: i in s.deliveredAt ==> s.deliveredAt[i] == TimeOf(s.deliveredAt, i);
        assert forall i :: i in s.forcedAt ==> s.forcedAt[i] == TimeOf(s.forcedAt, i);
      }
    }
  }

  lemma ReceiveTimesOk(s: State, d: Delivery)
    requires Inv(s)
    ensures TimesOk(Step(s, Receive(d)))
  {
    hide Step, TimesOk, GrantsOk, ReadsOk, TimeOf;
    var t := Step(s, Receive(d));
    TimesMean(s);
    TimesMean(t);
    forall i
      ensures TimeOf(t.deliveredAt, i) <= t.clock && TimeOf(t.forcedAt, i) <= TimeOf(t.deliveredAt, i)
    {
      DeliveryBumps(s, d, i);
      DeliveryRevokes(s, d, i, 0);
    }
    forall i, r
      ensures TimeOf(t.removedAt, (i, r)) <= TimeOf(t.deliveredAt, i)
    {
      DeliveryBumps(s, d, i);
      DeliveryRevokes(s, d, i, r);
    }
  }

  lemma ReceiveGrantsOk(s: State, d: Delivery)
    requires Inv(s)
    ensures GrantsOk(Step(s, Receive(d)))
  {
    hide ReadsOk, AfterRemoval;
    var t := Step(s, Receive(d));
    if d.id !in s.tables.deliveries {
      forall r | r in t.tables.repositories && t.tables.repositories[r].access == AccessActive
        ensures t.tables.repositories[r].installation.Some? && r in t.readFor
             && RevokedAt(t, t.tables.repositories[r].installation.value, r) < t.readFor[r]
      {
        assert s.tables.repositories[r] == t.tables.repositories[r];
        var i := s.tables.repositories[r].installation.value;
        RemovalTimes(s.removedAt, d, t.clock, i, r);
        assert RevokedAt(t, i, r) == RevokedAt(s, i, r);
      }
    }
  }

  lemma InvReceive(s: State, d: Delivery)
    requires Inv(s)
    ensures Inv(Step(s, Receive(d)))
  {
    hide Step, ReadsOk, TimesOk, GrantsOk;
    ReceiveReadsOk(s, d);
    ReceiveTimesOk(s, d);
    ReceiveGrantsOk(s, d);
  }

  lemma ApplyReadsOk(s: State, k: nat, snapshot: Snapshot)
    requires Inv(s)
    ensures ReadsOk(Step(s, ApplyInventory(k, snapshot)))
  {
    hide AfterSnapshot, GrantsOk, TimesOk;
  }

  /** A repository that an applied inventory grants. */
  lemma ListedIsFresh(s: State, k: nat, snapshot: Snapshot, r: RepositoryId)
    requires Inv(s) && Applies(s, ApplyInventory(k, snapshot))
    ensures RevokedAt(s, snapshot.installation, r) < s.pending[k].at
  {
    hide GrantsOk;
    var read := s.pending[k];
    assert read.revision == Revision(s.tables, read.installation);
    TimesMean(s);
    assert TimeOf(s.removedAt, (read.installation, r)) <= TimeOf(s.deliveredAt, read.installation) < read.at;
  }

  lemma ApplyGrantsOk(s: State, k: nat, snapshot: Snapshot)
    requires Inv(s)
    ensures GrantsOk(Step(s, ApplyInventory(k, snapshot)))
  {
    hide ReadsOk, TimesOk, TimeOf, Listed;
    var e := ApplyInventory(k, snapshot);
    var t := Step(s, e);
    if Applies(s, e) {
      forall r | r in t.tables.repositories && t.tables.repositories[r].access == AccessActive
        ensures t.tables.repositories[r].installation.Some? && r in t.readFor
             && RevokedAt(t, t.tables.repositories[r].installation.value, r) < t.readFor[r]
      {
        if r in Listed(snapshot) {
          ListedIsFresh(s, k, snapshot, r);
        } else {
          assert s.tables.repositories[r] == t.tables.repositories[r];
        }
      }
    }
  }

  lemma InvApply(s: State, k: nat, snapshot: Snapshot)
    requires Inv(s)
    ensures Inv(Step(s, ApplyInventory(k, snapshot)))
  {
    hide AfterSnapshot, ApplySnapshot, ReadsOk, GrantsOk;
    ApplyReadsOk(s, k, snapshot);
    ApplyGrantsOk(s, k, snapshot);
  }

  lemma InvStep(s: State, e: Event)
    requires Inv(s)
    ensures Inv(Step(s, e))
  {
    match e {
      case Receive(d) => InvReceive(s, d);
      case ApplyInventory(k, snapshot) => InvApply(s, k, snapshot);
      case ReadRevision(k, i) => InvRead(s, k, i);
      case Abandon(k) =>
    }
  }

  lemma InvRead(s: State, k: nat, i: InstallationId)
    requires Inv(s)
    ensures Inv(Step(s, ReadRevision(k, i)))
  {
  }

  lemma {:induction false} InvExec(s: State, events: seq<Event>)
    requires Init(s)
    ensures Inv(Exec(s, events))
  {
    if events == [] {
      assert Inv(s);
    } else {
      hide Step, Inv;
      InvExec(s, events[..|events| - 1]);
      InvStep(Exec(s, events[..|events| - 1]), events[|events| - 1]);
    }
  }

  // ---------------------------------------------------------------- main results, over every run

  /** Event `n` is the first delivery with its id, of this installation, and takes the repository away. */
  predicate IsRevocation(events: seq<Event>, n: nat, i: InstallationId, r: RepositoryId) {
    && n < |events| && events[n].Receive? && events[n].delivery.installation == i
    && (forall m :: 0 <= m < n && events[m].Receive? ==> events[m].delivery.id != events[n].delivery.id)
    && (events[n].delivery.action in {Removal, Suspend} || r in events[n].delivery.removed)
  }

  /** Event `k` applies an active inventory listing the repository, by the reconciler that read at event `j`. */
  predicate IsGrant(events: seq<Event>, j: nat, k: nat, i: InstallationId, r: RepositoryId) {
    && j < k < |events| && events[j].ReadRevision? && events[j].installation == i
    && events[k].ApplyInventory? && events[k].reconciler == events[j].reconciler
    && events[k].snapshot.installation == i && events[k].snapshot.state == Active && r in events[k].snapshot.repositories
  }

  ghost predicate IsGranted(events: seq<Event>, j: nat, i: InstallationId, r: RepositoryId) {
    exists k: nat :: IsGrant(events, j, k, i, r)
  }

  lemma {:induction false} ClockCounts(s: State, events: seq<Event>)
    requires Init(s)
    ensures Exec(s, events).clock == |events|
  {
    if events == [] {
    } else {
      hide Step;
      ClockCounts(s, events[..|events| - 1]);
      ClockStep(Exec(s, events[..|events| - 1]), events[|events| - 1]);
    }
  }

  lemma ClockStep(s: State, e: Event)
    ensures Step(s, e).clock == s.clock + 1
  {
    hide StepTables, AfterRemoval, Applies;
  }

  lemma {:induction false} DeliveredByEvent(s: State, events: seq<Event>, id: string)
    requires Init(s) && id in Exec(s, events).tables.deliveries
    ensures exists m :: 0 <= m < |events| && events[m].Receive? && events[m].delivery.id == id
  {
    if events == [] {
      assert false;
    } else {
      hide Step;
      var front, e := events[..|events| - 1], events[|events| - 1];
      DeliveredStep(Exec(s, front), e, id);
      if id in Exec(s, front).tables.deliveries {
        DeliveredByEvent(s, front, id);
        var m :| 0 <= m < |front| && front[m].Receive? && front[m].delivery.id == id;
        assert events[m].Receive? && events[m].delivery.id == id;
      } else {
        assert events[|events| - 1].Receive? && events[|events| - 1].delivery.id == id;
      }
    }
  }

  lemma DeliveredStep(s: State, e: Event, id: string)
    requires id in Step(s, e).tables.deliveries
    ensures id in s.tables.deliveries || (e.Receive? && e.delivery.id == id)
  {
    hide AfterDelivery, AfterSnapshot, AfterRemoval, Locked;
  }

  /** Times of revocation only grow. */
  lemma RevokedAtGrows(s: State, e: Event, i: InstallationId, r: RepositoryId)
    requires TimesOk(s)
    ensures RevokedAt(s, i, r) <= RevokedAt(Step(s, e), i, r)
  {
    hide StepTables, AfterRemoval, Applies, Listed, TimesOk, TimeOf;
    TimesMean(s);
    match e {
      case Receive(d) => DeliveryRevokes(s, d, i, r);
      case _ =>
    }
  }

  lemma RevocationTime(s: State, d: Delivery, r: RepositoryId)
    requires TimesOk(s)
    requires d.id !in s.tables.deliveries && (d.action in {Removal, Suspend} || r in d.removed)
    ensures RevokedAt(Step(s, Receive(d)), d.installation, r) == s.clock + 1
  {
    hide Deliver, AfterDelivery, AfterRemoval;
    RemovalTimes(s.removedAt, d, s.clock + 1, d.installation, r);
  }

  lemma {:induction false} RevocationIsTimed(s: State, events: seq<Event>, n: nat, i: InstallationId, r: RepositoryId)
    requires Init(s) && IsRevocation(events, n, i, r)
    ensures n < RevokedAt(Exec(s, events), i, r)
  {
    hide Step, ReadsOk, GrantsOk, TimesOk, RevokedAt;
    var front, e := events[..|events| - 1], events[|events| - 1];
    InvExec(s, front);
    ClockCounts(s, front);
    if n < |front| {
      assert IsRevocation(front, n, i, r);
      RevocationIsTimed(s, front, n, i, r);
      RevokedAtGrows(Exec(s, front), e, i, r);
    } else {
      if e.delivery.id in Exec(s, front).tables.deliveries {
        DeliveredByEvent(s, front, e.delivery.id);
      }
      RevocationTime(Exec(s, front), e.delivery, r);
    }
  }

  /** A pending reconciliation remembers the event of its read. */
  predicate PendingFrom(s: State, events: seq<Event>, k: nat) {
    k in s.pending ==>
      && 1 <= s.pending[k].at <= |events|
      && events[s.pending[k].at - 1] == ReadRevision(k, s.pending[k].installation)
  }

  lemma {:induction false} PendingWasRead(s: State, events: seq<Event>, k: nat)
    requires Init(s)
    ensures PendingFrom(Exec(s, events), events, k)
  {
    if events == [] {
    } else {
      hide Step;
      var front := events[..|events| - 1];
      PendingWasRead(s, front, k);
      ClockCounts(s, front);
      PendingStep(Exec(s, front), events[|events| - 1], k);
    }
  }

  lemma PendingStep(s: State, e: Event, k: nat)
    ensures var t := Step(s, e);
            k in t.pending ==>
              || (k in s.pending && t.pending[k] == s.pending[k])
              || (t.pending[k].at == s.clock + 1 && e == ReadRevision(k, t.pending[k].installation))
  {
    hide StepTables, AfterRemoval, Applies, Locked, Listed;
  }

  /** An active repository was granted by events of the run, the read at the time `readFor` remembers. */
  ghost predicate GrantedFrom(s: State, events: seq<Event>, r: RepositoryId) {
    r in s.tables.repositories && s.tables.repositories[r].access == AccessActive ==>
      && s.tables.repositories[r].installation.Some? && r in s.readFor && s.readFor[r] >= 1
      && IsGranted(events, s.readFor[r] - 1, s.tables.repositories[r].installation.value, r)
  }

  lemma GrantStays(events: seq<Event>, e: Event, j: nat, i: InstallationId, r: RepositoryId)
    requires IsGranted(events, j, i, r)
    ensures IsGranted(events + [e], j, i, r)
  {
    var k: nat :| IsGrant(events, j, k, i, r);
    assert IsGrant(events + [e], j, k, i, r);
  }

  predicate GrantsNow(s: State, e: Event, r: RepositoryId) {
    e.ApplyInventory? && e.reconciler in s.pending && Applies(s, e) && r in Listed(e.snapshot)
  }

  /** A repository that is active after a step was granted by it, or was active already. */
  lemma ActiveStep(s: State, e: Event, r: RepositoryId)
    requires r in Step(s, e).tables.repositories && Step(s, e).tables.repositories[r].access == AccessActive
    ensures var t := Step(s, e);
            || (GrantsNow(s, e, r) && t.tables.repositories[r] == Repository(Some(e.snapshot.installation), AccessActive)
                && r in t.readFor && t.readFor[r] == s.pending[e.reconciler].at)
            || (r in s.tables.repositories && t.tables.repositories[r] == s.tables.repositories[r]
                && (r in s.readFor ==> r in t.readFor && t.readFor[r] == s.readFor[r]))
  {
    hide AfterRemoval, Listed, Deliver, ApplySnapshot, Applies;
    match e {
      case Receive(d) => DeliveriesOnlyRevoke(s.tables, d, r);
      case ApplyInventory(k, snapshot) => ActiveAfterApply(s, k, snapshot, r);
      case _ =>
    }
  }

  lemma ActiveAfterApply(s: State, k: nat, snapshot: Snapshot, r: RepositoryId)
    requires var t := Step(s, ApplyInventory(k, snapshot));
             r in t.tables.repositories && t.tables.repositories[r].access == AccessActive
    ensures var t := Step(s, ApplyInventory(k, snapshot));
            || (GrantsNow(s, ApplyInventory(k, snapshot), r)
                && t.tables.repositories[r] == Repository(Some(snapshot.installation), AccessActive)
                && r in t.readFor && t.readFor[r] == s.pending[k].at)
            || (r in s.tables.repositories && t.tables.repositories[r] == s.tables.repositories[r]
                && (r in s.readFor ==> r in t.readFor && t.readFor[r] == s.readFor[r]))
  {
    hide Listed;
  }

  lemma GrantedStep(s: State, events: seq<Event>, e: Event, r: RepositoryId)
    requires GrantedFrom(s, events, r)
    requires e.ApplyInventory? ==> PendingFrom(s, events, e.reconciler)
    ensures GrantedFrom(Step(s, e), events + [e], r)
  {
    hide Step, IsGranted, Applies, Listed;
    var t := Step(s, e);
    if r in t.tables.repositories && t.tables.repositories[r].access == AccessActive {
      ActiveStep(s, e, r);
      if GrantsNow(s, e, r) && t.tables.repositories[r] == Repository(Some(e.snapshot.installation), AccessActive)
         && r in t.readFor && t.readFor[r] == s.pending[e.reconciler].at {
        NewGrant(s, events, e, r);
      } else {
        GrantStays(events, e, s.readFor[r] - 1, s.tables.repositories[r].installation.value, r);
      }
    }
  }

  lemma NewGrant(s: State, events: seq<Event>, e: Event, r: RepositoryId)
    requires GrantsNow(s, e, r) && PendingFrom(s, events, e.reconciler)
    ensures s.pending[e.reconciler].at >= 1
    ensures IsGranted(events + [e], s.pending[e.reconciler].at - 1, e.snapshot.installation, r)
  {
    hide Locked;
    assert IsGrant(events + [e], s.pending[e.reconciler].at - 1, |events|, e.snapshot.installation, r);
  }

  lemma {:induction false} ActiveWasGranted(s: State, events: seq<Event>, r: RepositoryId)
    requires Init(s)
    ensures GrantedFrom(Exec(s, events), events, r)
  {
    if events == [] {
    } else {
      hide Step, GrantedFrom, PendingFrom;
      var front, e := events[..|events| - 1], events[|events| - 1];
      ActiveWasGranted(s, front, r);
      ClockCounts(s, front);
      if e.ApplyInventory? {
        PendingWasRead(s, front, e.reconciler);
      }
      GrantedStep(Exec(s, front), front, e, r);
      assert events == front + [e];
    }
  }

  /** No delivery that takes the repository away from the installation lies after event `j`. */
  predicate NotRevokedSince(events: seq<Event>, j: nat, i: InstallationId, r: RepositoryId) {
    forall n :: j < n < |events| ==> !IsRevocation(events, n, i, r)
  }

  /**
   A stale inventory never grants access again: an active repository was listed by an active inventory
   whose reconciler had read its revision, and since that read no new delivery removed the repository
   from, suspended or deleted its installation.
   */
  lemma ActiveWasReadAfterRevocation(s: State, events: seq<Event>, r: RepositoryId)
    requires Init(s)
    requires r in Exec(s, events).tables.repositories && Exec(s, events).tables.repositories[r].access == AccessActive
    ensures var repository := Exec(s, events).tables.repositories[r];
            && repository.installation.Some?
            && exists j: nat, k: nat ::
                 IsGrant(events, j, k, repository.installation.value, r)
                 && NotRevokedSince(events, j, repository.installation.value, r)
  {
    hide Exec, RevokedAt, ReadsOk, TimesOk;
    var t := Exec(s, events);
    InvExec(s, events);
    ActiveWasGranted(s, events, r);
    var i := t.tables.repositories[r].installation.value;
    var j: nat := t.readFor[r] - 1;
    forall n | j < n < |events|
      ensures !IsRevocation(events, n, i, r)
    {
      if IsRevocation(events, n, i, r) {
        RevocationIsTimed(s, events, n, i, r);
      }
    }
    var k: nat :| IsGrant(events, j, k, i, r);
    assert NotRevokedSince(events, j, i, r);
  }

  /** What a new delivery leaves: the state it forces, the next revision, and access taken where it says so. */
  lemma DeliveryByAction(t: Tables, d: Delivery, r: RepositoryId)
    requires d.id !in t.deliveries
    ensures var u := Deliver(t, d);
            var before := if d.installation in t.installations then t.installations[d.installation] else Installation(Pending, 0);
            && d.installation in u.installations && u.installations[d.installation].revision == before.revision + 1
            && u.installations[d.installation].state
               == (match d.action case Removal => Deleted case Suspend => Suspended case _ => before.state)
            && (forall i :: i in t.installations && i != d.installation ==>
                  i in u.installations && u.installations[i] == t.installations[i])
            && (r in u.repositories <==> r in t.repositories)
            && (r in t.repositories ==>
                  u.repositories[r] ==
                  if t.repositories[r].installation == Some(d.installation)
                     && (d.action in {Removal, Suspend} || r in d.removed)
                  then Repository(Some(d.installation), AccessRemoved) else t.repositories[r])
            && u.deliveries == t.deliveries + {d.id}
  {
  }

  /** A revoking delivery takes effect in its own transaction: the repository is no longer admitted. */
  lemma RevocationIsImmediate(s: State, events: seq<Event>, d: Delivery, r: RepositoryId)
    requires Init(s)
    requires forall m :: 0 <= m < |events| && events[m].Receive? ==> events[m].delivery.id != d.id
    requires d.action in {Removal, Suspend} || r in d.removed
    ensures var before, t := Exec(s, events).tables, Exec(s, events + [Receive(d)]).tables;
            && !Admitted(t, d.installation, r)
            && (d.action == Removal ==> t.installations[d.installation].state == Deleted)
            && (d.action == Suspend ==> t.installations[d.installation].state == Suspended)
            && (r in before.repositories && before.repositories[r].installation == Some(d.installation) ==>
                  r in t.repositories && t.repositories[r].access == AccessRemoved)
  {
    hide Exec, Deliver;
    if d.id in Exec(s, events).tables.deliveries {
      DeliveredByEvent(s, events, d.id);
    }
    ExecOne(s, events, Receive(d));
    DeliveryByAction(Exec(s, events).tables, d, r);
  }

  lemma ExecOne(s: State, events: seq<Event>, e: Event)
    ensures Exec(s, events + [e]) == Step(Exec(s, events), e)
  {
    assert (events + [e])[..|events|] == events;
  }

  /** An inventory that is applied decides access completely: admitted means listed in an active snapshot. */
  lemma AppliedInventoryDecides(t: Tables, snapshot: Snapshot, revision: nat, r: RepositoryId)
    requires Locked(t.installations, snapshot.installation)[snapshot.installation].revision == revision
    ensures Admitted(ApplySnapshot(t, snapshot, revision), snapshot.installation, r) <==>
            snapshot.state == Active && r in snapshot.repositories
  {
    var after := ApplySnapshot(t, snapshot, revision);
    if snapshot.state == Active && r in snapshot.repositories {
      assert r in after.repositories;
    }
  }

  /** What an inventory leaves, row by row; with a stale revision it leaves every stored row alone. */
  lemma InventoryByRow(t: Tables, snapshot: Snapshot, revision: nat, r: RepositoryId)
    ensures var u, i := ApplySnapshot(t, snapshot, revision), snapshot.installation;
            && u.deliveries == t.deliveries
            && (forall other :: other in t.installations && other != i ==>
                  other in u.installations && u.installations[other] == t.installations[other])
            && (if Revision(t, i) != revision then
                  && u.repositories == t.repositories
                  && (i in t.installations ==> i in u.installations && u.installations[i] == t.installations[i])
                else
                  && i in u.installations && u.installations[i] == Installation(snapshot.state, revision + 1)
                  && (snapshot.state == Active && r in snapshot.repositories ==>
                        r in u.repositories && u.repositories[r] == Repository(Some(i), AccessActive))
                  && (!(snapshot.state == Active && r in snapshot.repositories) ==>
                        && (r in u.repositories <==> r in t.repositories)
                        && (r in t.repositories ==>
                              if (t.repositories[r].installation.None? || t.repositories[r].installation == Some(i))
                                 && t.repositories[r].access != AccessRemoved
                              then u.repositories[r] == Repository(Some(i), AccessRemoved)
                              else u.repositories[r] == t.repositories[r])))
  {
  }

  /** A reconciliation that nothing comes between succeeds: exactly what its active inventory lists is admitted. */
  lemma UndisturbedReconciliation(s: State, k: nat, snapshot: Snapshot, r: RepositoryId)
    ensures var t := Step(Step(s, ReadRevision(k, snapshot.installation)), ApplyInventory(k, snapshot));
            && k !in t.pending
            && (Admitted(t.tables, snapshot.installation, r) <==> snapshot.state == Active && r in snapshot.repositories)
  {
    hide AfterSnapshot, Admitted;
    var t := Step(s, ReadRevision(k, snapshot.installation));
    AppliedInventoryDecides(t.tables, snapshot, t.pending[k].revision, r);
  }

  /** Deliveries never grant access. */
  lemma DeliveriesOnlyRevoke(t: Tables, d: Delivery, r: RepositoryId)
    ensures r in Deliver(t, d).repositories && Deliver(t, d).repositories[r].access == AccessActive ==>
              r in t.repositories && t.repositories[r] == Deliver(t, d).repositories[r]
  {
  }

  lemma DeliveredStays(s: State, e: Event, id: string)
    requires id in s.tables.deliveries || (e.Receive? && e.delivery.id == id)
    ensures id in Step(s, e).tables.deliveries
  {
    hide AfterDelivery, AfterSnapshot, AfterRemoval;
  }

  lemma {:induction false} DeliveredForever(s: State, events: seq<Event>, j: nat, id: string)
    requires j < |events| && events[j].Receive? && events[j].delivery.id == id
    ensures id in Exec(s, events).tables.deliveries
  {
    hide Step;
    var front, e := events[..|events| - 1], events[|events| - 1];
    if j < |front| {
      DeliveredForever(s, front, j, id);
    }
    DeliveredStays(Exec(s, front), e, id);
  }

  /** A delivery repeated at any later moment, whatever came between, changes no stored row. */
  lemma DuplicateChangesNothing(s: State, events: seq<Event>, j: nat, d: Delivery)
    requires j < |events| && events[j].Receive? && events[j].delivery.id == d.id
    ensures var before, after := Exec(s, events), Step(Exec(s, events), Receive(d));
            && after.tables.repositories == before.tables.repositories
            && after.tables.deliveries == before.tables.deliveries
            && (forall i :: i in before.tables.installations ==>
                  i in after.tables.installations && after.tables.installations[i] == before.tables.installations[i])
            && (forall i, r :: RevokedAt(after, i, r) == RevokedAt(before, i, r))
  {
    DeliveredForever(s, events, j, d.id);
    hide Exec, AfterDelivery, AfterRemoval;
  }
}
