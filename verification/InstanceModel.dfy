/**
 The controlled world of the local instance controller: the repository's records, the runtime's
 resources, and the atomic acts that change them. An act is enabled only where the lifecycle allows
 it, so a run of enabled acts is everything a correct controller, its callers, its crashes and its
 runtime may do together.
 */
module InstanceModel {
  import opened Common
  import opened Identifiers

  type Id = string
  type Time = int

  const MAX_NAME_LENGTH := 128
  const MAX_ID_LENGTH := 128
  const ZERO_TIME: Time := 0

  datatype LifecycleState = Creating | Stopped | Starting | Running | Stopping | Removing | Failed

  datatype Workload = Shell | Unknown

  datatype Spec = Spec(name: string, workload: Workload)

  datatype Instance = Instance(spec: Spec, state: LifecycleState, createdAt: Time, updatedAt: Time)

  /** A runtime resource; `ours` marks one that the controller's own driver call created. */
  datatype Resource = Resource(spec: Spec, running: bool, ours: bool)

  datatype World = World(repository: map<Id, Instance>, runtime: map<Id, Resource>)

  predicate CanTransition(s: LifecycleState, next: LifecycleState) {
    match s
    case Creating => next == Stopped || next == Failed
    case Stopped => next == Starting || next == Removing
    case Starting => next == Running || next == Stopped || next == Failed
    case Running => next == Stopping || next == Failed
    case Stopping => next == Stopped || next == Running || next == Failed
    case Failed => next == Starting || next == Removing
    case Removing => false
  }

  /** A lifecycle edge, or one of the two that only reconciliation takes. */
  predicate Edge(s: LifecycleState, next: LifecycleState) {
    CanTransition(s, next) || (s == Stopped && (next == Running || next == Failed))
  }

  predicate ValidId(id: Id) {
    0 < |id| <= MAX_ID_LENGTH && forall c :: c in id ==> IsAlnum(c) || c == '.' || c == '_' || c == '-'
  }

  predicate ValidSpec(s: Spec) {
    && 0 < |s.name| <= MAX_NAME_LENGTH && !IsSpace(s.name[0]) && !IsSpace(s.name[|s.name| - 1])
    && s.workload == Shell
  }

  function Rec(w: World, id: Id): Option<Instance> {
    if id in w.repository then Some(w.repository[id]) else None
  }

  function Res(w: World, id: Id): Option<Resource> {
    if id in w.runtime then Some(w.runtime[id]) else None
  }

  predicate Ours(w: World, id: Id) {
    id in w.runtime && w.runtime[id].ours
  }

  predicate InState(w: World, id: Id, s: LifecycleState) {
    id in w.repository && w.repository[id].state == s
  }

  datatype Act =
    | Insert(id: Id, instance: Instance, adopted: bool)
    | Persist(id: Id, instance: Instance)
    | Delete(id: Id)
    | DriverCreate(id: Id, resource: Resource)
    | DriverSwitch(id: Id, running: bool)
    | DriverRemove(id: Id)
    | Drift(id: Id, now: Option<Resource>) // the runtime changes by itself

  predicate Enabled(quota: nat, w: World, a: Act) {
    match a
    case Insert(id, inst, adopted) =>
      && id !in w.repository && ValidId(id) && ValidSpec(inst.spec) && inst.updatedAt == inst.createdAt
      && (if adopted then inst.state == Starting else inst.state == Creating && |w.repository| < quota)
    case Persist(id, inst) =>
      && id in w.repository
      && var was := w.repository[id];
        && inst.spec == was.spec && inst.createdAt == was.createdAt <= inst.updatedAt && was.updatedAt <= inst.updatedAt
        && Edge(was.state, inst.state)
    case Delete(id) => InState(w, id, Removing) && !Ours(w, id)
    case DriverCreate(id, r) => InState(w, id, Creating) && id !in w.runtime && r.spec == w.repository[id].spec
    case DriverSwitch(id, running) => InState(w, id, if running then Starting else Stopping) && id in w.runtime
    case DriverRemove(id) => InState(w, id, Removing)
    case Drift(id, now) => now.Some? && now.value.ours ==> Ours(w, id)
  }

  function Effect(w: World, a: Act): World {
    match a
    case Insert(id, inst, _) => w.(repository := w.repository[id := inst])
    case Persist(id, inst) => w.(repository := w.repository[id := inst])
    case Delete(id) => w.(repository := w.repository - {id})
    case DriverCreate(id, r) => w.(runtime := w.runtime[id := r])
    case DriverSwitch(id, running) =>
      if id in w.runtime then w.(runtime := w.runtime[id := w.runtime[id].(running := running)]) else w
    case DriverRemove(id) => w.(runtime := w.runtime - {id})
    case Drift(id, now) => w.(runtime := if now.Some? then w.runtime[id := now.value] else w.runtime - {id})
  }

  /** An enabled act leads from world `k` of the run to the next. */
  ghost predicate Reaches(quota: nat, run: seq<World>, k: nat) {
    k + 1 < |run| && exists a :: Enabled(quota, run[k], a) && run[k + 1] == Effect(run[k], a)
  }

  /** Every world between two acts, hence every world a crash can leave behind. */
  ghost predicate IsRun(quota: nat, run: seq<World>) {
    forall k: nat :: k < |run| - 1 ==> Reaches(quota, run, k)
  }

  /** The record says what the resource does. */
  predicate Agrees(inst: Instance, res: Option<Resource>) {
    match inst.state
    case Stopped => res.Some? && !res.value.running
    case Running => res.Some? && res.value.running
    case Failed => true
    case _ => false
  }

  predicate CalmAt(rec: Option<Instance>, res: Option<Resource>) {
    && (res.Some? ==> rec.Some? && rec.value.spec == res.value.spec)
    && (rec.Some? ==> Agrees(rec.value, res))
  }

  /** Nothing for recovery to do. */
  ghost predicate Calm(w: World) {
    forall id :: CalmAt(Rec(w, id), Res(w, id))
  }

  /** No operation in progress. */
  predicate AtRest(s: LifecycleState) {
    s == Stopped || s == Running || s == Failed
  }
}

/** What holds in every run, whichever callers, crashes and lost replies it contains. */
module InstanceRuns {
  import opened Common
  import opened InstanceModel

  ghost predicate OursRecorded(w: World) {
    forall id :: Ours(w, id) ==> id in w.repository
  }

  ghost predicate TimesOrdered(w: World) {
    forall id :: id in w.repository ==> w.repository[id].createdAt <= w.repository[id].updatedAt
  }

  /** The act between world `k` and the next. */
  ghost function ActAt(quota: nat, run: seq<World>, k: nat): (a: Act)
    requires IsRun(quota, run) && k + 1 < |run|
    ensures Enabled(quota, run[k], a) && run[k + 1] == Effect(run[k], a)
  {
    assert Reaches(quota, run, k);
    var a :| Enabled(quota, run[k], a) && run[k + 1] == Effect(run[k], a);
    a
  }

  lemma OursStep(quota: nat, w: World, a: Act)
    requires Enabled(quota, w, a) && OursRecorded(w)
    ensures OursRecorded(Effect(w, a))
  {
    var w' := Effect(w, a);
    forall id | Ours(w', id)
      ensures id in w'.repository
    {
      assert Ours(w, id) || (a.DriverCreate? && a.id == id);
    }
  }

  lemma TimesStep(quota: nat, w: World, a: Act)
    requires Enabled(quota, w, a) && TimesOrdered(w)
    ensures TimesOrdered(Effect(w, a))
  {
  }

  /** No crash point leaves a resource of ours without a record. */
  lemma {:induction false} RunKeepsOursRecorded(quota: nat, run: seq<World>, k: nat)
    requires IsRun(quota, run) && k < |run| && OursRecorded(run[0])
    ensures OursRecorded(run[k])
  {
    if k > 0 {
      RunKeepsOursRecorded(quota, run, k - 1);
      OursStep(quota, run[k - 1], ActAt(quota, run, k - 1));
    }
  }

  lemma {:induction false} RunKeepsTimesOrdered(quota: nat, run: seq<World>, k: nat)
    requires IsRun(quota, run) && k < |run| && TimesOrdered(run[0])
    ensures TimesOrdered(run[k])
  {
    if k > 0 {
      RunKeepsTimesOrdered(quota, run, k - 1);
      TimesStep(quota, run[k - 1], ActAt(quota, run, k - 1));
    }
  }

  /** The lifetime of one record: it is present from `i` to `j`. */
  ghost predicate Lives(run: seq<World>, id: Id, i: nat, j: nat) {
    i <= j < |run| && forall k :: i <= k <= j ==> id in run[k].repository
  }

  /** A persisted change is a lifecycle edge or one of the two reconcile exceptions, and keeps the
      record's identity. */
  lemma PersistedEdge(quota: nat, run: seq<World>, id: Id, k: nat)
    requires IsRun(quota, run) && Lives(run, id, k, k + 1)
    ensures var was, now := run[k].repository[id], run[k + 1].repository[id];
            now == was ||
            (now.spec == was.spec && now.createdAt == was.createdAt && was.updatedAt <= now.updatedAt &&
             (CanTransition(was.state, now.state) || (was.state == Stopped && now.state in {Running, Failed})))
  {
    var a := ActAt(quota, run, k);
    assert a.id != id || a.Persist? || run[k + 1].repository == run[k].repository;
  }

  /** Over a record's whole lifetime its identity is fixed and its update time never decreases; once
      removing it never changes again. */
  lemma {:induction false} RecordHistory(quota: nat, run: seq<World>, id: Id, i: nat, j: nat)
    requires IsRun(quota, run) && Lives(run, id, i, j)
    ensures var was, now := run[i].repository[id], run[j].repository[id];
            && now.spec == was.spec && now.createdAt == was.createdAt && was.updatedAt <= now.updatedAt
            && (was.state == Removing ==> now == was)
    decreases j - i
  {
    if i < j {
      RecordHistory(quota, run, id, i, j - 1);
      PersistedEdge(quota, run, id, j - 1);
    }
  }

  /** A record disappears only while removing, when no resource of ours is left behind. */
  lemma GoneOnlyAfterRemoval(quota: nat, run: seq<World>, id: Id, k: nat)
    requires IsRun(quota, run) && k + 1 < |run| && id in run[k].repository && id !in run[k + 1].repository
    ensures run[k].repository[id].state == Removing && !Ours(run[k], id) && !Ours(run[k + 1], id)
  {
    var a := ActAt(quota, run, k);
    assert a == Delete(id);
  }

  /** A resource of ours appears only behind a record that is already persisted as creating. */
  lemma RecordedBeforeCreated(quota: nat, run: seq<World>, id: Id, k: nat)
    requires IsRun(quota, run) && k + 1 < |run| && !Ours(run[k], id) && Ours(run[k + 1], id)
    ensures InState(run[k], id, Creating)
  {
    var a := ActAt(quota, run, k);
    assert a.DriverCreate? && a.id == id;
  }

  /** Once removing, a record can only disappear: at any later point it is unchanged, or it has been
      deleted in between. */
  lemma {:induction false} RemovingOnlyDisappears(quota: nat, run: seq<World>, id: Id, i: nat, j: nat)
    requires IsRun(quota, run) && i <= j < |run| && InState(run[i], id, Removing)
    ensures Rec(run[j], id) == Rec(run[i], id) || exists k :: i < k <= j && id !in run[k].repository
    decreases j - i
  {
    if i < j {
      RemovingOnlyDisappears(quota, run, id, i, j - 1);
      if Rec(run[j - 1], id) == Rec(run[i], id) && id in run[j].repository {
        PersistedEdge(quota, run, id, j - 1);
      }
    }
  }

  lemma CountStep(quota: nat, w: World, a: Act)
    requires Enabled(quota, w, a)
    ensures |Effect(w, a).repository| <= |w.repository| + (if a.Insert? then 1 else 0)
    ensures a.Insert? && !a.adopted ==> |Effect(w, a).repository| <= quota
  {
    var w' := Effect(w, a);
    match a {
      case Insert(id, inst, _) =>
        assert w'.repository.Keys == w.repository.Keys + {id};
      case Persist(id, inst) =>
        assert w'.repository.Keys == w.repository.Keys;
      case Delete(id) =>
        CardSubset(w'.repository.Keys, w.repository.Keys);
      case _ =>
    }
  }

  /** While nothing is adopted the record count stays within the quota. */
  lemma {:induction false} QuotaKept(quota: nat, run: seq<World>, k: nat)
    requires IsRun(quota, run) && k < |run| && |run[0].repository| <= quota
    requires forall i: nat :: i < k ==> !Adopts(run, i)
    ensures |run[k].repository| <= quota
  {
    if k > 0 {
      QuotaKept(quota, run, k - 1);
      assert !Adopts(run, k - 1);
      CountStep(quota, run[k - 1], ActAt(quota, run, k - 1));
    }
  }

  /** World `i` adopts a resource: a record appears already starting. */
  ghost predicate Adopts(run: seq<World>, i: nat) {
    i + 1 < |run| && exists id :: id !in run[i].repository && InState(run[i + 1], id, Starting)
  }
}
