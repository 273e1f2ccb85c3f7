/**
 The controller itself. Every port call may first let the rest of the world move (Yield), and a
 driver call may take effect and still report an error. The trail keeps every world the run passes
 through; that it stays a run means each write and each driver effect was enabled when it happened.
 */
module InstanceService {
  import opened Common
  import opened InstanceModel
  import opened InstanceRuns

  datatype Error = Ok | InvalidSpec | NotFound | InvalidTransition | LimitExceeded | InvalidRuntime | Mismatch | PortFailed

  /** A driver's answer to Inspect; an unusable one fails validation. */
  datatype Observation = Unusable | Missing | Garbled | Seen(running: bool)

  datatype Listed = Listed(id: Id, spec: Spec, createdAt: Time)

  datatype Problem = Conflict(id: Id) | OverQuota(id: Id) | AdoptFailed(id: Id) | RecoverFailed(id: Id)

  datatype Outcome = Aborted(error: Error) | Finished(problems: seq<Problem>)

  function Max(a: Time, b: Time): Time {
    if a < b then b else a
  }

  /** Nothing but `id` differs in the repository. */
  ghost predicate RecordsKept(before: World, after: World, id: Id) {
    forall k :: k != id ==> Rec(after, k) == Rec(before, k)
  }

  ghost predicate ResourcesKept(before: World, after: World, id: Id) {
    forall k :: k != id ==> Res(after, k) == Res(before, k)
  }

  /** What a visit leaves: a failed one no more than the record's identity; a successful one no
      removing record, and any other record at rest. */
  predicate Visited(was: Option<Instance>, now: Option<Instance>, failed: bool) {
    && (now.Some? ==> was.Some? && now.value.spec == was.value.spec)
    && (failed ||
        (was.Some? && if was.value.state == Removing then now == None else now.Some? && AtRest(now.value.state)))
  }

  /** What a visit leaves when the runtime stands still: the removed resource is gone, any other is as
      before and its record agrees with it, and a record that agreed is as before. */
  predicate VisitedStill(was: Option<Instance>, res: Option<Resource>,
                         now: Option<Instance>, res': Option<Resource>, failed: bool) {
    if was.Some? && was.value.state == Removing then failed || res' == None
    else
      && res' == res
      && (failed || (now.Some? && Agrees(now.value, res')))
      && (was.Some? && Agrees(was.value, res) ==> now == was)
  }

  predicate Complained(id: Id, problems: seq<Problem>) {
    Conflict(id) in problems || OverQuota(id) in problems || AdoptFailed(id) in problems
  }

  /** A listed resource has a matching record or is complained about. */
  predicate Answered(r: Listed, known: map<Id, Spec>, problems: seq<Problem>) {
    (r.id in known && known[r.id] == r.spec) || Complained(r.id, problems)
  }

  /** Where the first pass stands: old records are untouched, the known ones are on record, and any
      other new record belongs to a failed adoption. */
  ghost predicate Adopting(start: World, w: World, known: map<Id, Spec>, problems: seq<Problem>) {
    forall k :: AdoptingAt(start, w, known, problems, k)
  }

  /** `ids` are the known identifiers, each once. */
  ghost predicate Lists(ids: seq<Id>, known: map<Id, Spec>) {
    Distinct(ids) && forall k :: k in ids <==> k in known
  }

  function Recorded(w: World): map<Id, Spec> {
    map k | k in w.repository :: w.repository[k].spec
  }

  lemma RecordedLists(w: World, ids: seq<Id>)
    requires Distinct(ids) && forall k :: k in ids <==> k in w.repository
    ensures Lists(ids, Recorded(w)) && |Recorded(w)| == |w.repository|
  {
    assert Recorded(w).Keys == w.repository.Keys;
  }

  lemma RecordedAdopts(w: World, first: World)
    requires w.repository == first.repository
    ensures Adopting(w, w, Recorded(first), [])
  {
  }

  lemma ListsGrows(ids: seq<Id>, known: map<Id, Spec>, id: Id, spec: Spec)
    requires Lists(ids, known) && id !in known
    ensures Lists(ids + [id], known[id := spec])
  {
  }

  /** The driver's listing: true of every entry, and complete. */
  ghost predicate ListsRuntime(w: World, listed: seq<Listed>) {
    && (forall r :: r in listed ==> r.id in w.runtime && w.runtime[r.id].spec == r.spec)
    && (forall k :: k in w.runtime ==> exists r :: r in listed && r.id == k)
  }

  /** Every record was visited: recovered then, or its own failure reported. */
  ghost predicate EachVisited(ids: seq<Id>, visits: seq<(World, World)>, problems: seq<Problem>) {
    |visits| == |ids| && forall n :: 0 <= n < |ids| ==>
      Visited(Rec(visits[n].0, ids[n]), Rec(visits[n].1, ids[n]), RecoverFailed(ids[n]) in problems)
  }

  /** All these worlds were passed through. */
  ghost predicate OnTrail(visits: seq<(World, World)>, trail: seq<World>) {
    forall n :: 0 <= n < |visits| ==> visits[n].0 in trail && visits[n].1 in trail
  }

  lemma OnTrailGrows(visits: seq<(World, World)>, trail: seq<World>, visit: (World, World), trail': seq<World>)
    requires OnTrail(visits, trail) && trail <= trail' && visit.0 in trail' && visit.1 in trail'
    ensures OnTrail(visits + [visit], trail')
  {
    assert forall w :: w in trail ==> w in trail';
  }

  lemma EachVisitedMore(ids: seq<Id>, visits: seq<(World, World)>, problems: seq<Problem>, problems': seq<Problem>)
    requires EachVisited(ids, visits, problems) && forall x :: x in problems ==> x in problems'
    ensures EachVisited(ids, visits, problems')
  {
  }

  lemma EachVisitedGrows(ids: seq<Id>, visits: seq<(World, World)>, problems: seq<Problem>,
                         id: Id, visit: (World, World), problems': seq<Problem>)
    requires EachVisited(ids, visits, problems) && problems <= problems'
    requires Visited(Rec(visit.0, id), Rec(visit.1, id), RecoverFailed(id) in problems')
    ensures EachVisited(ids + [id], visits + [visit], problems')
  {
    assert forall x :: x in problems ==> x in problems';
    EachVisitedMore(ids, visits, problems, problems');
  }

  /** Every record of the start is recovered or its own failure reported. */
  ghost predicate RecoveredAll(start: World, end: World, problems: seq<Problem>) {
    forall k :: k in start.repository ==> Visited(Rec(start, k), Rec(end, k), RecoverFailed(k) in problems)
  }

  /** All at rest, and each listed resource has its record exactly unless that was being removed. */
  ghost predicate RecoveredClean(start: World, end: World, listed: seq<Listed>) {
    && (forall k :: k in end.repository ==> AtRest(end.repository[k].state))
    && (forall r :: r in listed ==> (Matched(end, r) <==> !InState(start, r.id, Removing)))
  }

  /** Failed adoptions that left a record. */
  function Strays(w: World, problems: seq<Problem>): set<Id> {
    set k | k in w.repository && AdoptFailed(k) in problems
  }

  predicate AdoptingAt(start: World, w: World, known: map<Id, Spec>, problems: seq<Problem>, k: Id) {
    && (Rec(start, k).Some? ==> Rec(w, k) == Rec(start, k) && k in known)
    && (k in known ==> Rec(w, k).Some? && Rec(w, k).value.spec == known[k])
    && (Rec(start, k) == None && Rec(w, k).Some? ==> Rec(w, k).value.state != Removing)
    && (Rec(w, k).Some? && k !in known ==> AdoptFailed(k) in problems)
  }

  lemma AdoptingComplains(start: World, w: World, known: map<Id, Spec>, problems: seq<Problem>, problems': seq<Problem>)
    requires problems <= problems'
    ensures Adopting(start, w, known, problems) ==> Adopting(start, w, known, problems')
  {
    forall k | Adopting(start, w, known, problems)
      ensures AdoptingAt(start, w, known, problems', k)
    {
      assert AdoptingAt(start, w, known, problems, k);
    }
  }

  lemma AnsweredGrows(listed: seq<Listed>, known: map<Id, Spec>, problems: seq<Problem>,
                      known': map<Id, Spec>, problems': seq<Problem>)
    requires forall r :: r in listed ==> Answered(r, known, problems)
    requires problems <= problems' && forall k :: k in known ==> k in known' && known'[k] == known[k]
    ensures forall r :: r in listed ==> Answered(r, known', problems')
  {
    assert forall x :: x in problems ==> x in problems';
  }

  lemma AdoptingGrows(start: World, w: World, known: map<Id, Spec>, problems: seq<Problem>,
                      w': World, known': map<Id, Spec>, problems': seq<Problem>, id: Id)
    requires Adopting(start, w, known, problems) && id !in known && RecordsKept(w, w', id)
    requires known' == known || (Rec(w', id).Some? && known' == known[id := Rec(w', id).value.spec])
    requires problems <= problems'
    requires Rec(w, id) == None && Rec(w', id).Some? ==> Rec(w', id).value.state != Removing
    requires Rec(w, id).Some? ==> Rec(w', id) == Rec(w, id)
    requires known' == known ==> AdoptFailed(id) in problems'
    ensures Adopting(start, w', known', problems')
  {
    forall k
      ensures AdoptingAt(start, w', known', problems', k)
    {
      assert AdoptingAt(start, w, known, problems, k);
    }
  }

  /** Where the second pass stands after the records in `done`. */
  ghost predicate Passed(start: World, w: World, done: seq<Id>, problems: seq<Problem>) {
    && (forall k :: k in done ==> Visited(Rec(start, k), Rec(w, k), RecoverFailed(k) in problems))
    && (forall k :: k !in done ==> Rec(w, k) == Rec(start, k))
    && (forall k :: RecoverFailed(k) in problems ==> k in done)
  }

  ghost predicate PassedStill(start: World, w: World, done: seq<Id>, problems: seq<Problem>) {
    && (forall k :: k in done ==>
          VisitedStill(Rec(start, k), Res(start, k), Rec(w, k), Res(w, k), RecoverFailed(k) in problems))
    && (forall k :: k !in done ==> Res(w, k) == Res(start, k))
  }

  lemma PassedGrows(start: World, w: World, w': World, done: seq<Id>, problems: seq<Problem>, problems': seq<Problem>, id: Id)
    requires Passed(start, w, done, problems) && id !in done && RecordsKept(w, w', id)
    requires problems' == problems || problems' == problems + [RecoverFailed(id)]
    requires Visited(Rec(w, id), Rec(w', id), problems' != problems)
    ensures Passed(start, w', done + [id], problems')
  {
  }

  lemma PassedStillGrows(start: World, w: World, w': World, done: seq<Id>, problems: seq<Problem>, problems': seq<Problem>, id: Id)
    requires Passed(start, w, done, problems) && PassedStill(start, w, done, problems) && id !in done
    requires RecordsKept(w, w', id) && ResourcesKept(w, w', id)
    requires problems' == problems || problems' == problems + [RecoverFailed(id)]
    requires VisitedStill(Rec(w, id), Res(w, id), Rec(w', id), Res(w', id), problems' != problems)
    ensures PassedStill(start, w', done + [id], problems')
  {
  }

  ghost predicate SameAt(a: World, b: World, id: Id) {
    Rec(a, id) == Rec(b, id) && Res(a, id) == Res(b, id)
  }

  lemma SameWorld(a: World, b: World)
    requires forall id :: SameAt(a, b, id)
    ensures a == b
  {
    forall id
      ensures id in a.repository <==> id in b.repository
      ensures id in a.repository ==> a.repository[id] == b.repository[id]
      ensures id in a.runtime <==> id in b.runtime
      ensures id in a.runtime ==> a.runtime[id] == b.runtime[id]
    {
      assert SameAt(a, b, id);
    }
    assert a.repository == b.repository && a.runtime == b.runtime;
  }

  predicate Matched(w: World, r: Listed) {
    r.id in w.repository && w.repository[r.id].spec == r.spec
  }

  lemma VisitedInAll(start: World, mid: World, end: World, known: map<Id, Spec>, ids: seq<Id>,
                     problems: seq<Problem>, failures: seq<Problem>)
    requires Adopting(start, mid, known, problems) && Lists(ids, known) && Passed(mid, end, ids, failures)
    ensures RecoveredAll(start, end, problems + failures)
  {
    forall k | k in start.repository
      ensures Visited(Rec(start, k), Rec(end, k), RecoverFailed(k) in problems + failures)
    {
      assert AdoptingAt(start, mid, known, problems, k);
    }
  }

  /** A clean recovery leaves every record at rest, and a listed resource has its matching record
      unless that record was being removed. */
  lemma RecoverClean(start: World, mid: World, end: World, known: map<Id, Spec>, ids: seq<Id>, listed: seq<Listed>)
    requires Adopting(start, mid, known, []) && Lists(ids, known) && Passed(mid, end, ids, [])
    requires forall r :: r in listed ==> Answered(r, known, [])
    ensures RecoveredClean(start, end, listed)
  {
    forall k | k in end.repository
      ensures AtRest(end.repository[k].state)
    {
      assert AdoptingAt(start, mid, known, [], k);
      assert Rec(end, k).Some?;
    }
    forall r | r in listed
      ensures Matched(end, r) <==> !InState(start, r.id, Removing)
    {
      assert AdoptingAt(start, mid, known, [], r.id);
      assert Visited(Rec(mid, r.id), Rec(end, r.id), false);
    }
  }

  /** The quota is exceeded at most by the failed adoptions that left a record. */
  lemma RecoverCount(start: World, mid: World, end: World, known: map<Id, Spec>, ids: seq<Id>,
                     problems: seq<Problem>, failures: seq<Problem>, quota: nat)
    requires Adopting(start, mid, known, problems) && Lists(ids, known) && Passed(mid, end, ids, failures) && |known| <= quota
    ensures |end.repository| <= quota + |Strays(end, problems + failures)|
  {
    var strays := Strays(end, problems + failures);
    forall k | k in end.repository
      ensures k in known.Keys + strays
    {
      assert AdoptingAt(start, mid, known, problems, k);
      assert Rec(end, k).Some?;
    }
    CardSubset(end.repository.Keys, known.Keys + strays);
    assert |known.Keys + strays| <= |known.Keys| + |strays|;
  }

  /** With the runtime standing still a clean recovery leaves nothing to do. */
  lemma RecoverStill(start: World, mid: World, end: World, known: map<Id, Spec>, ids: seq<Id>, listed: seq<Listed>)
    requires Adopting(start, mid, known, []) && Lists(ids, known) && Passed(mid, end, ids, []) && PassedStill(mid, end, ids, [])
    requires forall k :: Res(mid, k) == Res(start, k)
    requires ListsRuntime(start, listed) && forall r :: r in listed ==> Answered(r, known, [])
    ensures Calm(end)
  {
    forall k
      ensures CalmAt(Rec(end, k), Res(end, k))
    {
      assert AdoptingAt(start, mid, known, [], k);
      if k in start.runtime {
        var r :| r in listed && r.id == k;
        assert Answered(r, known, []);
      }
      if k in ids {
        assert Visited(Rec(mid, k), Rec(end, k), false);
        assert VisitedStill(Rec(mid, k), Res(mid, k), Rec(end, k), Res(end, k), false);
      }
    }
  }

  lemma CalmKnows(start: World, listed: seq<Listed>, recorded: map<Id, Spec>, first: seq<Id>)
    requires Calm(start) && Adopting(start, start, recorded, []) && Lists(first, recorded) && ListsRuntime(start, listed)
    ensures forall r :: r in listed ==> r.id in recorded
    ensures forall k :: k in first ==> k in start.repository
  {
    forall r | r in listed
      ensures r.id in recorded
    {
      assert CalmAt(Rec(start, r.id), Res(start, r.id)) && AdoptingAt(start, start, recorded, [], r.id);
    }
    forall k | k in first
      ensures k in start.repository
    {
      assert AdoptingAt(start, start, recorded, [], k);
    }
  }

  /** Where there is nothing to do the visits change nothing, even if some fail. */
  lemma RecoverIdle(start: World, end: World, ids: seq<Id>, failures: seq<Problem>)
    requires Calm(start) && Passed(start, end, ids, failures) && PassedStill(start, end, ids, failures)
    requires forall k :: k in ids ==> k in start.repository
    ensures start == end
  {
    forall k
      ensures SameAt(start, end, k)
    {
      assert CalmAt(Rec(start, k), Res(start, k));
    }
    SameWorld(start, end);
  }

  lemma RunGrows(quota: nat, run: seq<World>, a: Act)
    requires IsRun(quota, run) && run != [] && Enabled(quota, run[|run| - 1], a)
    ensures IsRun(quota, run + [Effect(run[|run| - 1], a)])
  {
    var run' := run + [Effect(run[|run| - 1], a)];
    forall k: nat | k < |run'| - 1
      ensures Reaches(quota, run', k)
    {
      if k < |run| - 1 {
        assert Reaches(quota, run, k);
        assert run'[k] == run[k] && run'[k + 1] == run[k + 1];
      } else {
        assert run'[k] == run[|run| - 1];
      }
    }
  }

  lemma AdoptsGrows(quota: nat, run: seq<World>, a: Act, i: nat)
    requires run != [] && Enabled(quota, run[|run| - 1], a) && Adopts(run + [Effect(run[|run| - 1], a)], i)
    ensures Adopts(run, i) || (i == |run| - 1 && a.Insert? && a.adopted)
  {
    var run' := run + [Effect(run[|run| - 1], a)];
    if i < |run| - 1 {
      assert run'[i] == run[i] && run'[i + 1] == run[i + 1];
    } else {
      assert run'[i] == run[|run| - 1];
    }
  }

  class Controller {
    const quota: nat
    const others: bool // other callers work on other instances meanwhile
    const drift: bool  // the runtime changes by itself
    var world: World
    ghost var trail: seq<World>
    ghost var adoptions: set<nat> // where the trail adopts

    ghost predicate Valid()
      reads this
    {
      && trail != [] && trail[|trail| - 1] == world && IsRun(quota, trail)
      && forall i: nat :: Adopts(trail, i) ==> i in adoptions
    }

    constructor (quota: nat, others: bool, drift: bool, world: World)
      ensures Valid() && this.world == world && trail == [world] && adoptions == {}
      ensures this.quota == quota && this.others == others && this.drift == drift
    {
      this.quota, this.others, this.drift := quota, others, drift;
      this.world := world;
      trail := [world];
      adoptions := {};
    }

    /** Whatever the controller did so far, no world it passed through held an unrecorded resource of
        ours, and without adoption none held more records than the quota. */
    lemma EveryCrashPointIsSafe(k: nat)
      requires Valid() && k < |trail|
      ensures OursRecorded(trail[0]) ==> OursRecorded(trail[k])
      ensures adoptions == {} && |trail[0].repository| <= quota ==> |trail[k].repository| <= quota
    {
      if OursRecorded(trail[0]) {
        RunKeepsOursRecorded(quota, trail, k);
      }
      if adoptions == {} && |trail[0].repository| <= quota {
        QuotaKept(quota, trail, k);
      }
    }

    /** What a caller holding the lock of `id` can rely on between its own steps. */
    ghost predicate Held(before: World, id: Id)
      reads this
    {
      && Rec(world, id) == Rec(before, id)
      && (Ours(world, id) ==> Ours(before, id))
      && (!drift ==> Res(world, id) == Res(before, id))
    }

    /** What happens beyond `id`: nothing in the repository unless others work, nothing at all unless
        the runtime drifts. */
    ghost predicate Local(before: World, id: Id)
      reads this
    {
      && (!others ==> RecordsKept(before, world, id))
      && (!others && !drift ==> ResourcesKept(before, world, id))
    }

    /** One atomic act, which is no adoption. */
    method Do(a: Act)
      requires Valid() && Enabled(quota, world, a) && (a.Insert? ==> !a.adopted)
      modifies `world, `trail
      ensures Valid() && old(trail) <= trail
      ensures world == Effect(old(world), a)
    {
      world := Effect(world, a);
      trail := trail + [world];
      RunGrows(quota, old(trail), a);
      forall i: nat | Adopts(trail, i)
        ensures i in adoptions
      {
        AdoptsGrows(quota, old(trail), a, i);
      }
    }

    method DoAdopt(id: Id, inst: Instance)
      requires Valid() && Enabled(quota, world, Insert(id, inst, true))
      modifies `world, `trail, `adoptions
      ensures Valid() && old(trail) <= trail
      ensures world == Effect(old(world), Insert(id, inst, true))
    {
      world := Effect(world, Insert(id, inst, true));
      trail := trail + [world];
      adoptions := adoptions + {|old(trail)| - 1};
      RunGrows(quota, old(trail), Insert(id, inst, true));
      forall i: nat | Adopts(trail, i)
        ensures i in adoptions
      {
        AdoptsGrows(quota, old(trail), Insert(id, inst, true), i);
      }
    }

    predicate MayIntervene(a: Act, held: Option<Id>, inserts: bool) {
      match a
      case Drift(_, _) => drift
      case Insert(_, _, adopted) => others && inserts && !adopted && held != Some(a.id)
      case _ => others && held != Some(a.id)
    }

    /** The rest of the world moves: other callers on other instances, and the runtime by itself. */
    method Yield(held: Option<Id>, inserts: bool)
      requires Valid()
      modifies `world, `trail
      ensures Valid() && old(trail) <= trail
      ensures held.Some? ==> Held(old(world), held.value)
      ensures !others ==> world.repository == old(world.repository)
      ensures !others && !drift ==> world == old(world)
      ensures !inserts ==> |world.repository| <= |old(world.repository)|
    {
      var acts: seq<Act> := *;
      for n := 0 to |acts|
        invariant Valid() && old(trail) <= trail
        invariant held.Some? ==> Held(old(world), held.value)
        invariant !others ==> world.repository == old(world.repository)
        invariant !others && !drift ==> world == old(world)
        invariant !inserts ==> |world.repository| <= |old(world.repository)|
      {
        if Enabled(quota, world, acts[n]) && MayIntervene(acts[n], held, inserts) {
          CountStep(quota, world, acts[n]);
          Do(acts[n]);
        }
      }
    }

    // -------------------------------------------------------------------------
    // The repository: an error leaves it unchanged.

    method GetRecord(id: Id) returns (err: Error, inst: Option<Instance>)
      requires Valid()
      modifies `world, `trail
      ensures Valid() && old(trail) <= trail
      ensures Held(old(world), id) && Local(old(world), id)
      ensures err == Ok ==> inst.Some? && Rec(world, id) == inst
      ensures err == NotFound ==> id !in world.repository
      ensures err == Ok || err == NotFound || err == PortFailed
    {
      Yield(Some(id), true);
      inst := Rec(world, id);
      var up: bool := *;
      err := if !up then PortFailed else if inst.Some? then Ok else NotFound;
    }

    method UpdateRecord(id: Id, inst: Instance) returns (ok: bool)
      requires Valid() && Enabled(quota, world, Persist(id, inst))
      modifies `world, `trail
      ensures Valid() && old(trail) <= trail && Local(old(world), id)
      ensures ok ==> Rec(world, id) == Some(inst)
      ensures !ok ==> Rec(world, id) == old(Rec(world, id))
      ensures (Ours(world, id) ==> old(Ours(world, id))) && (!drift ==> Res(world, id) == old(Res(world, id)))
    {
      Yield(Some(id), true);
      ok := *;
      if ok {
        assert Rec(world, id).Some?;
        Do(Persist(id, inst));
      }
    }

    method DeleteRecord(id: Id) returns (ok: bool)
      requires Valid() && InState(world, id, Removing) && !Ours(world, id)
      modifies `world, `trail
      ensures Valid() && old(trail) <= trail && Local(old(world), id)
      ensures ok ==> id !in world.repository
      ensures !ok ==> Rec(world, id) == old(Rec(world, id))
      ensures !drift ==> Res(world, id) == old(Res(world, id))
    {
      Yield(Some(id), true);
      ok := *;
      if ok {
        assert Rec(world, id).Some?;
        Do(Delete(id));
      }
    }

    // -------------------------------------------------------------------------
    // The driver: an effect happens before the reply or never, whatever the reply says.

    method DriverInspect(id: Id) returns (o: Observation)
      requires Valid()
      modifies `world, `trail
      ensures Valid() && old(trail) <= trail
      ensures Held(old(world), id) && Local(old(world), id)
      ensures o == Missing ==> Res(world, id) == None
      ensures o.Seen? ==> Res(world, id).Some? && Res(world, id).value.running == o.running
    {
      Yield(Some(id), true);
      var honest: bool, garbled: bool := *, *;
      o := if !honest then (if garbled then Garbled else Unusable)
           else match Res(world, id) case None => Missing case Some(r) => Seen(r.running);
    }

    /** Create, Start and Stop: the act may or may not happen, and the reply may be an error either way. */
    method DriverPerform(a: Act) returns (ok: bool)
      requires Valid() && (a.DriverCreate? || a.DriverSwitch?)
      requires a.DriverCreate? ==> InState(world, a.id, Creating) && a.resource.spec == world.repository[a.id].spec
      requires a.DriverSwitch? ==> InState(world, a.id, if a.running then Starting else Stopping)
      modifies `world, `trail
      ensures Valid() && old(trail) <= trail && Local(old(world), a.id)
      ensures Rec(world, a.id) == old(Rec(world, a.id))
    {
      Yield(Some(a.id), true);
      assert Rec(world, a.id).Some?;
      var happens: bool := *;
      if happens && Enabled(quota, world, a) {
        Do(a);
      }
      ok := *;
    }

    method DriverTeardown(id: Id) returns (ok: bool)
      requires Valid() && InState(world, id, Removing)
      modifies `world, `trail
      ensures Valid() && old(trail) <= trail && Local(old(world), id)
      ensures Rec(world, id) == old(Rec(world, id))
      ensures ok ==> Res(world, id) == None
    {
      Yield(Some(id), true);
      assert Rec(world, id).Some?;
      ok := *;
      var happens: bool := *;
      if ok || happens {
        Do(DriverRemove(id));
      }
    }

    // -------------------------------------------------------------------------
    // Persisting and reconciling. `inst` is the caller's copy of the record it holds the lock of.

    method PersistState(id: Id, inst: Instance, next: LifecycleState) returns (ok: bool, now: Instance)
      requires Valid() && Rec(world, id) == Some(inst) && Edge(inst.state, next)
      modifies `world, `trail
      ensures Valid() && old(trail) <= trail && Local(old(world), id)
      ensures Rec(world, id) == Some(now)
      ensures if ok then now.state == next else now == inst
      ensures now.spec == inst.spec
      ensures (Ours(world, id) ==> old(Ours(world, id))) && (!drift ==> Res(world, id) == old(Res(world, id)))
    {
      var clock: Time := *;
      now := inst.(state := next, updatedAt := Max(Max(clock, inst.createdAt), inst.updatedAt));
      ok := UpdateRecord(id, now);
      if !ok {
        now := inst;
      }
    }

    method Move(id: Id, inst: Instance, next: LifecycleState) returns (err: Error, now: Instance)
      requires Valid() && Rec(world, id) == Some(inst)
      modifies `world, `trail
      ensures Valid() && old(trail) <= trail && Local(old(world), id)
      ensures Rec(world, id) == Some(now)
      ensures err == InvalidTransition <==> !CanTransition(inst.state, next)
      ensures if err == Ok then now.state == next else now == inst
      ensures now.spec == inst.spec
      ensures (Ours(world, id) ==> old(Ours(world, id))) && (!drift ==> Res(world, id) == old(Res(world, id)))
    {
      if !CanTransition(inst.state, next) {
        return InvalidTransition, inst;
      }
      var ok;
      ok, now := PersistState(id, inst, next);
      err := if ok then Ok else PortFailed;
    }

    method Fail(id: Id, inst: Instance) returns (err: Error, now: Instance)
      requires Valid() && Rec(world, id) == Some(inst) && inst.state != Removing
      modifies `world, `trail
      ensures Valid() && old(trail) <= trail && Local(old(world), id)
      ensures Rec(world, id) == Some(now)
      ensures err == Ok || err == PortFailed
      ensures if err == Ok then now.state == Failed else now == inst
      ensures inst.state == Failed ==> now == inst
      ensures now.spec == inst.spec
      ensures (Ours(world, id) ==> old(Ours(world, id))) && (!drift ==> Res(world, id) == old(Res(world, id)))
    {
      if inst.state == Failed {
        return Ok, inst;
      }
      var ok;
      ok, now := PersistState(id, inst, Failed);
      err := if ok then Ok else PortFailed;
    }

    /** Brings the record in line with what the driver sees. */
    method Reconcile(id: Id, inst: Instance) returns (err: Error, now: Instance)
      requires Valid() && Rec(world, id) == Some(inst) && inst.state != Removing
      modifies `world, `trail
      ensures Valid() && old(trail) <= trail && Local(old(world), id)
      ensures Rec(world, id) == Some(now) && now.spec == inst.spec
      ensures if err == Ok then AtRest(now.state) else now == inst
      ensures err != InvalidTransition
      ensures err == Ok && !drift ==> Agrees(now, Res(world, id))
      ensures !drift && Agrees(inst, old(Res(world, id))) ==> now == inst
      ensures (Ours(world, id) ==> old(Ours(world, id))) && (!drift ==> Res(world, id) == old(Res(world, id)))
    {
      var o := DriverInspect(id);
      err, now := Ok, inst;
      match o {
        case Unusable => err := PortFailed;
        case Missing => err, now := Fail(id, inst);
        case Garbled => err := InvalidRuntime;
        case Seen(running) =>
          match inst.state {
            case Creating =>
              if !running {
                err, now := Move(id, inst, Stopped);
              } else {
                err, now := Fail(id, inst);
              }
            case Starting =>
              err, now := Move(id, inst, if running then Running else Stopped);
            case Stopping =>
              err, now := Move(id, inst, if running then Running else Stopped);
            case Stopped =>
              if running {
                var ok;
                ok, now := PersistState(id, inst, Running);
                err := if ok then Ok else PortFailed;
              }
            case Running =>
              if !running {
                err, now := Fail(id, inst);
              }
            case _ =>
          }
      }
    }

    /** The reconciled record; failed and removing ones are returned as they are. */
    method Load(id: Id) returns (err: Error, now: Option<Instance>)
      requires Valid()
      modifies `world, `trail
      ensures Valid() && old(trail) <= trail && Local(old(world), id)
      ensures err != InvalidTransition
      ensures err == Ok ==> now.Some? && Rec(world, id) == now
      ensures err == Ok ==> AtRest(now.value.state) || now.value.state == Removing
      ensures err == Ok && !drift && now.value.state != Removing ==> Agrees(now.value, Res(world, id))
      ensures InState(old(world), id, Removing) ==> Rec(world, id) == old(Rec(world, id))
      ensures Rec(world, id).Some? <==> old(Rec(world, id)).Some?
      ensures Rec(world, id).Some? ==> Rec(world, id).value.spec == old(Rec(world, id)).value.spec
      ensures old(Rec(world, id)).Some? && old(Rec(world, id)).value.state != Removing ==>
                Rec(world, id).Some? && Rec(world, id).value.state != Removing
      ensures !drift && old(Rec(world, id)).Some? && Agrees(old(Rec(world, id)).value, old(Res(world, id))) ==>
                Rec(world, id) == old(Rec(world, id))
      ensures (Ours(world, id) ==> old(Ours(world, id))) && (!drift ==> Res(world, id) == old(Res(world, id)))
    {
      err, now := GetRecord(id);
      if err != Ok {
        return;
      }
      var inst := now.value;
      if inst.state != Removing && inst.state != Failed {
        err, inst := Reconcile(id, inst);
        now := Some(inst);
      }
    }

    // -------------------------------------------------------------------------
    // After a driver call.

    /** Confirms that a successful driver call reached its state before committing it. */
    method FinishOperation(id: Id, inst: Instance, target: LifecycleState) returns (err: Error, now: Instance)
      requires Valid() && Rec(world, id) == Some(inst) && inst.state in {Creating, Starting, Stopping}
      requires target == Stopped || target == Running
      modifies `world, `trail
      ensures Valid() && old(trail) <= trail && Local(old(world), id)
      ensures Rec(world, id) == Some(now) && now.spec == inst.spec
      ensures err == Ok ==> now.state == target && (!drift ==> Agrees(now, Res(world, id)))
    {
      var o := DriverInspect(id);
      now := inst;
      match o {
        case Unusable => err := PortFailed;
        case Garbled => err := InvalidRuntime;
        case Missing =>
          err, now := Fail(id, inst);
          err := NotFound;
        case Seen(running) =>
          if running != (target == Running) {
            err, now := Fail(id, inst);
            err := Mismatch;
          } else {
            err, now := Move(id, inst, target);
            if err != Ok {
              err, now := Reconcile(id, now);
              err := if err == Ok && now.state == target then Ok else PortFailed;
            }
          }
      }
    }

    /** Settles an operation whose driver call reported an error. */
    method RecoverOperation(id: Id, inst: Instance, target: LifecycleState) returns (err: Error, now: Instance)
      requires Valid() && Rec(world, id) == Some(inst) && inst.state in {Creating, Starting, Stopping}
      modifies `world, `trail
      ensures Valid() && old(trail) <= trail && Local(old(world), id)
      ensures Rec(world, id) == Some(now) && now.spec == inst.spec
      ensures err == Ok ==> now.state == target && (!drift ==> Agrees(now, Res(world, id)))
    {
      err, now := Reconcile(id, inst);
      err := if err == Ok && now.state == target then Ok else PortFailed;
    }

    /** What follows every Create, Start and Stop. */
    method Settle(id: Id, inst: Instance, a: Act, target: LifecycleState) returns (err: Error, now: Instance)
      requires Valid() && Rec(world, id) == Some(inst) && a.id == id && (target == Stopped || target == Running)
      requires (a.DriverCreate? && inst.state == Creating && a.resource.spec == inst.spec) ||
               (a.DriverSwitch? && inst.state == if a.running then Starting else Stopping)
      modifies `world, `trail
      ensures Valid() && old(trail) <= trail && Local(old(world), id)
      ensures Rec(world, id) == Some(now) && now.spec == inst.spec
      ensures err == Ok ==> now.state == target && (!drift ==> Agrees(now, Res(world, id)))
    {
      var performed := DriverPerform(a);
      if !performed {
        err, now := RecoverOperation(id, inst, target);
      } else {
        err, now := FinishOperation(id, inst, target);
      }
    }

    // -------------------------------------------------------------------------
    // The operations.

    /** Writes the creating record under the quota; the create lock keeps other creations out. */
    method Reserve(spec: Spec) returns (err: Error, id: Id, inst: Instance)
      requires Valid() && ValidSpec(spec)
      modifies `world, `trail
      ensures Valid() && old(trail) <= trail
      ensures err == Ok ==> Rec(world, id) == Some(inst) && inst.state == Creating && inst.spec == spec
      ensures err == Ok ==> |world.repository| <= quota
      ensures !others && |old(world.repository)| >= quota ==> err != Ok
      ensures !others && err == LimitExceeded ==> |old(world.repository)| >= quota
      ensures err != Ok && !others ==> world.repository == old(world.repository)
      ensures err == Ok && !others ==> id !in old(world.repository) && RecordsKept(old(world), world, id)
    {
      var up: bool, clock: Time := *, *;
      id, inst := *, Instance(spec, Creating, clock, clock);
      Yield(None, false);
      if !up {
        return PortFailed, id, inst;
      }
      var count := |world.repository|;
      if count >= quota {
        return LimitExceeded, id, inst;
      }
      if !ValidId(id) {
        return InvalidSpec, id, inst;
      }
      Yield(None, false);
      up := *;
      if !up || id in world.repository {
        return PortFailed, id, inst;
      }
      CountStep(quota, world, Insert(id, inst, false));
      Do(Insert(id, inst, false));
      err := Ok;
    }

    method Create(spec: Spec) returns (err: Error, id: Id, inst: Option<Instance>)
      requires Valid()
      modifies `world, `trail
      ensures Valid() && old(trail) <= trail
      ensures !ValidSpec(spec) ==> err == InvalidSpec && world == old(world)
      ensures !others && |old(world.repository)| >= quota ==> err != Ok && world.repository == old(world.repository)
      ensures err == Ok ==> inst.Some? && Rec(world, id) == inst && inst.value.spec == spec && inst.value.state == Stopped
      ensures err == Ok && !drift ==> Res(world, id).Some? && !Res(world, id).value.running
      ensures !others ==> RecordsKept(old(world), world, id)
    {
      inst := None;
      if !ValidSpec(spec) {
        id := *;
        return InvalidSpec, id, inst;
      }
      var now: Instance;
      err, id, now := Reserve(spec);
      if err != Ok {
        return;
      }
      var running: bool := *;
      err, now := Settle(id, now, DriverCreate(id, Resource(spec, running, true)), Stopped);
      inst := Some(now);
    }

    /** Start and Stop: persist the intention, call the driver, settle. */
    method Switch(id: Id, running: bool) returns (err: Error, inst: Option<Instance>)
      requires Valid()
      modifies `world, `trail
      ensures Valid() && old(trail) <= trail && Local(old(world), id)
      ensures err == Ok ==> inst.Some? && Rec(world, id) == inst && inst.value.state == if running then Running else Stopped
      ensures err == Ok && !drift ==> Agrees(inst.value, Res(world, id))
      ensures InState(old(world), id, Removing) ==> err != Ok && Rec(world, id) == old(Rec(world, id))
      ensures id !in old(world.repository) ==> err != Ok && id !in world.repository
    {
      err, inst := Load(id);
      if err != Ok {
        return;
      }
      var now;
      err, now := Move(id, inst.value, if running then Starting else Stopping);
      if err != Ok {
        return;
      }
      err, now := Settle(id, now, DriverSwitch(id, running), if running then Running else Stopped);
      inst := Some(now);
    }

    /** Removes the resource and then the record. */
    method Remove(id: Id) returns (err: Error)
      requires Valid()
      modifies `world, `trail
      ensures Valid() && old(trail) <= trail && Local(old(world), id)
      ensures err == Ok ==> id !in world.repository && id in old(world.repository)
      ensures err == Ok && !drift ==> id !in world.runtime
      ensures err == InvalidTransition ==> InState(world, id, Running)
    {
      var loaded;
      err, loaded := Load(id);
      if err != Ok {
        return;
      }
      var inst := loaded.value;
      if inst.state != Removing {
        if inst.state != Stopped && inst.state != Failed {
          return InvalidTransition;
        }
        err, inst := Move(id, inst, Removing);
        if err != Ok {
          return;
        }
      }
      var gone := DriverTeardown(id);
      if !gone {
        return PortFailed;
      }
      var ok := DeleteRecord(id);
      err := if ok then Ok else PortFailed;
    }

    // -------------------------------------------------------------------------
    // Recovery.

    method RecoverInstance(id: Id) returns (err: Error)
      requires Valid()
      modifies `world, `trail
      ensures Valid() && old(trail) <= trail && Local(old(world), id)
      ensures Visited(old(Rec(world, id)), Rec(world, id), err != Ok)
      ensures !drift ==> VisitedStill(old(Rec(world, id)), old(Res(world, id)), Rec(world, id), Res(world, id), err != Ok)
    {
      var got;
      err, got := GetRecord(id);
      if err != Ok {
        return;
      }
      if got.value.state != Removing {
        var loaded;
        err, loaded := Load(id);
        return;
      }
      var gone := DriverTeardown(id);
      if !gone {
        return PortFailed;
      }
      var ok := DeleteRecord(id);
      err := if ok then Ok else PortFailed;
    }

    /** Writes a starting record for an unknown resource and reconciles it. */
    method Adopt(r: Listed) returns (err: Error)
      requires Valid()
      modifies `world, `trail, `adoptions
      ensures Valid() && old(trail) <= trail && Local(old(world), r.id)
      ensures err == Ok ==> Rec(world, r.id).Some? && Rec(world, r.id).value.spec == r.spec
      ensures err == Ok ==> AtRest(Rec(world, r.id).value.state) && r.id !in old(world.repository)
      ensures r.id in old(world.repository) ==> err != Ok && Rec(world, r.id) == old(Rec(world, r.id))
      ensures Rec(world, r.id).Some? && old(Rec(world, r.id)) == None ==> Rec(world, r.id).value.state != Removing
      ensures !drift ==> Res(world, r.id) == old(Res(world, r.id))
    {
      var up: bool, clock: Time := *, *;
      if !ValidId(r.id) || !ValidSpec(r.spec) {
        return InvalidSpec;
      }
      Yield(Some(r.id), true);
      if !up || r.id in world.repository {
        return PortFailed;
      }
      var createdAt := if r.createdAt == ZERO_TIME then clock else r.createdAt;
      var inst := Instance(r.spec, Starting, createdAt, createdAt);
      DoAdopt(r.id, inst);
      err, inst := Reconcile(r.id, inst);
    }

    /** The identifiers on record, in some order. */
    method ListRecords() returns (ok: bool, ids: seq<Id>)
      requires Valid()
      modifies `world, `trail
      ensures Valid() && old(trail) <= trail
      ensures !others ==> world.repository == old(world.repository) && (!drift ==> world == old(world))
      ensures ok ==> Distinct(ids) && |ids| == |world.repository| && forall k :: k in ids <==> k in world.repository
    {
      Yield(None, true);
      ok := *;
      ids := [];
      var left := world.repository.Keys;
      while left != {}
        invariant Distinct(ids) && |ids| + |left| == |world.repository|
        invariant forall k :: k in world.repository <==> k in ids || k in left
        invariant forall k :: k in ids ==> k !in left
        decreases |left|
      {
        var k :| k in left;
        ids, left := ids + [k], left - {k};
      }
    }

    /** The runtime's resources as the driver lists them, in any order and perhaps repeatedly. */
    method DriverList() returns (ok: bool, listed: seq<Listed>)
      requires Valid()
      modifies `world, `trail
      ensures Valid() && old(trail) <= trail
      ensures !others ==> world.repository == old(world.repository) && (!drift ==> world == old(world))
      ensures ok ==> ListsRuntime(world, listed)
    {
      Yield(None, true);
      ok := *;
      listed := *;
      if exists r :: r in listed && !(r.id in world.runtime && world.runtime[r.id].spec == r.spec) {
        ok := false;
      }
      if exists k :: k in world.runtime && forall r :: r in listed ==> r.id != k {
        ok := false;
      }
    }

    /** The first pass: adopts listed resources that have no record, within the quota. */
    method AdoptUnknown(listed: seq<Listed>, recorded: map<Id, Spec>, first: seq<Id>)
      returns (known: map<Id, Spec>, ids: seq<Id>, problems: seq<Problem>)
      requires Valid() && Lists(first, recorded) && |recorded| <= quota
      requires !others ==> Adopting(world, world, recorded, [])
      modifies `world, `trail, `adoptions
      ensures Valid() && old(trail) <= trail
      ensures Lists(ids, known) && recorded.Keys <= known.Keys && |known| <= quota
      ensures forall r :: r in listed ==> Answered(r, known, problems)
      ensures !others ==> Adopting(old(world), world, known, problems)
      ensures !others && !drift ==> forall k :: Res(world, k) == old(Res(world, k))
      ensures !others && !drift && (forall r :: r in listed ==> r.id in recorded) ==> world == old(world) && ids == first
    {
      known, ids, problems := recorded, first, [];
      for n := 0 to |listed|
        invariant Valid() && old(trail) <= trail
        invariant Lists(ids, known) && recorded.Keys <= known.Keys && |known| <= quota
        invariant forall r :: r in listed[..n] ==> Answered(r, known, problems)
        invariant !others ==> Adopting(old(world), world, known, problems)
        invariant !others && !drift ==> forall k :: Res(world, k) == old(Res(world, k))
        invariant !others && !drift && (forall r :: r in listed ==> r.id in recorded) ==> world == old(world) && ids == first && known == recorded
      {
        var r := listed[n];
        assert listed[..n + 1] == listed[..n] + [r];
        ghost var before, known0, problems0 := world, known, problems;
        if r.id in known {
          if known[r.id] != r.spec {
            problems := problems + [Conflict(r.id)];
          }
          AdoptingComplains(old(world), world, known, problems0, problems);
        } else if |known| >= quota {
          problems := problems + [OverQuota(r.id)];
          AdoptingComplains(old(world), world, known, problems0, problems);
        } else {
          var err := Adopt(r);
          if err != Ok {
            problems := problems + [AdoptFailed(r.id)];
          } else {
            ListsGrows(ids, known, r.id, r.spec);
            known, ids := known[r.id := r.spec], ids + [r.id];
          }
          if !others {
            AdoptingGrows(old(world), before, known0, problems0, world, known, problems, r.id);
          }
        }
        AnsweredGrows(listed[..n], known0, problems0, known, problems);
      }
      assert listed[..|listed|] == listed;
    }

    /** The second pass: visits every record, whatever became of the others. `visits` are the worlds
        right before and after each visit. */
    method VisitAll(ids: seq<Id>) returns (problems: seq<Problem>, ghost visits: seq<(World, World)>)
      requires Valid() && Distinct(ids)
      modifies `world, `trail
      ensures Valid() && old(trail) <= trail
      ensures EachVisited(ids, visits, problems) && OnTrail(visits, trail)
      ensures !others ==> Passed(old(world), world, ids, problems)
      ensures !others && !drift ==> PassedStill(old(world), world, ids, problems)
    {
      problems, visits := [], [];
      for n := 0 to |ids|
        invariant Valid() && old(trail) <= trail
        invariant EachVisited(ids[..n], visits, problems) && OnTrail(visits, trail)
        invariant !others ==> Passed(old(world), world, ids[..n], problems)
        invariant !others && !drift ==> PassedStill(old(world), world, ids[..n], problems)
      {
        ghost var before, problems0, trail0 := world, problems, trail;
        var err := RecoverInstance(ids[n]);
        assert before == trail[|trail0| - 1] && world == trail[|trail| - 1];
        OnTrailGrows(visits, trail0, (before, world), trail);
        if err != Ok {
          problems := problems + [RecoverFailed(ids[n])];
        }
        assert ids[..n + 1] == ids[..n] + [ids[n]];
        EachVisitedGrows(ids[..n], visits, problems0, ids[n], (before, world), problems);
        visits := visits + [(before, world)];
        if !others {
          PassedGrows(old(world), before, world, ids[..n], problems0, problems, ids[n]);
          if !drift {
            PassedStillGrows(old(world), before, world, ids[..n], problems0, problems, ids[n]);
          }
        }
      }
      assert ids[..|ids|] == ids;
    }

    /** Both passes, once the records and the resources are listed. */
    method RecoverListed(listed: seq<Listed>, recorded: map<Id, Spec>, first: seq<Id>)
      returns (problems: seq<Problem>, ghost ids: seq<Id>, ghost visits: seq<(World, World)>)
      requires Valid() && Lists(first, recorded) && |recorded| <= quota
      requires !others ==> Adopting(world, world, recorded, []) && ListsRuntime(world, listed)
      modifies `world, `trail, `adoptions
      ensures Valid() && old(trail) <= trail
      ensures EachVisited(ids, visits, problems) && OnTrail(visits, trail) && forall k :: k in first ==> k in ids
      ensures !others ==> RecoveredAll(old(world), world, problems) && |world.repository| <= quota + |Strays(world, problems)|
      ensures !others && problems == [] ==> RecoveredClean(old(world), world, listed)
      ensures !others && !drift && problems == [] ==> Calm(world)
      ensures !others && !drift && Calm(old(world)) ==> world == old(world)
    {
      ghost var start := world;
      var known, all, unadopted := AdoptUnknown(listed, recorded, first);
      ids := all;
      ghost var mid := world;
      var failures;
      failures, visits := VisitAll(all);
      problems := unadopted + failures;
      EachVisitedMore(ids, visits, failures, problems);
      if !others {
        VisitedInAll(start, mid, world, known, ids, unadopted, failures);
        RecoverCount(start, mid, world, known, ids, unadopted, failures, quota);
        if problems == [] {
          RecoverClean(start, mid, world, known, ids, listed);
          if !drift {
            RecoverStill(start, mid, world, known, ids, listed);
          }
        }
        if !drift && Calm(start) {
          CalmKnows(start, listed, recorded, first);
          RecoverIdle(start, world, ids, failures);
        }
      }
    }

    /** Reconciles everything on record after a restart, adopting what the runtime has besides. Every
        record in the listing `first` is visited whatever others do and whatever fails; without other
        callers the outcome is as good as the clauses say. */
    method Recover() returns (o: Outcome, listed: seq<Listed>, ghost first: World, ghost ids: seq<Id>, ghost visits: seq<(World, World)>)
      requires Valid()
      modifies `world, `trail, `adoptions
      ensures Valid() && old(trail) <= trail
      ensures !others ==> first.repository == old(world.repository)
      ensures first in trail
      ensures o.Finished? ==> EachVisited(ids, visits, o.problems) && OnTrail(visits, trail)
      ensures o.Finished? ==> forall k :: k in first.repository ==> k in ids
      ensures |first.repository| > quota ==> o.Aborted?
      ensures !others && o.Aborted? ==> world.repository == old(world.repository)
      ensures !others && o.Finished? ==> RecoveredAll(old(world), world, o.problems)
      ensures !others && o.Finished? ==> |world.repository| <= quota + |Strays(world, o.problems)|
      ensures !others && o == Finished([]) ==> RecoveredClean(old(world), world, listed)
      ensures !others && !drift && o.Finished? ==> ListsRuntime(old(world), listed)
      ensures !others && !drift && o == Finished([]) ==> Calm(world)
      ensures !others && !drift && Calm(old(world)) ==> world == old(world)
    {
      listed, ids, visits := [], [], [];
      var ok, snapshots := ListRecords();
      first := world;
      if !ok {
        return Aborted(PortFailed), listed, first, ids, visits;
      }
      if |snapshots| > quota {
        return Aborted(LimitExceeded), listed, first, ids, visits;
      }
      var recorded := Recorded(world);
      RecordedLists(world, snapshots);
      assert first == trail[|trail| - 1];
      ok, listed := DriverList();
      if !ok {
        return Aborted(PortFailed), listed, first, ids, visits;
      }
      if !others {
        RecordedAdopts(world, first);
      }
      var problems;
      problems, ids, visits := RecoverListed(listed, recorded, snapshots);
      o := Finished(problems);
    }
  }

  /** The case that has no matching record: recovery of a resource whose record is being removed. If
      it reports no problem, the resource was listed and its record is gone. */
  method RecoverRemoving() returns (o: Outcome, listed: seq<Listed>, end: World)
    ensures o == Finished([]) ==> exists r :: r in listed && r.id == "a" && !Matched(end, r)
  {
    var spec := Spec("a", Shell);
    var start := World(map["a" := Instance(spec, Removing, 0, 0)], map["a" := Resource(spec, false, true)]);
    var c := new Controller(1, false, false, start);
    ghost var first, ids, visits;
    o, listed, first, ids, visits := c.Recover();
    end := c.world;
    if o == Finished([]) {
      assert "a" in start.runtime && InState(start, "a", Removing);
    }
  }
}
