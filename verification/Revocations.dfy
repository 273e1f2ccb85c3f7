/**
 MemoryRevocations (gateway/memory_revocation.go): first as a transition system over any
 interleaving of Watch, Revoke, context cancellation and the background cleanup of each watch, then
 its critical sections as methods that update the maps and watches in place.
 */
module Revocations {
  import opened Common

  type Grant = string

  /** Why a watch is over. */
  datatype End = Revoked | ContextCanceled | DeadlineExceeded

  /** Where the background cleanup of a watch stands. */
  datatype Cleanup = Selecting | Woken | Unregistered | Exited

  /** `end` is Some exactly when Done is closed. `context` is the error of the watch's context. */
  datatype Watch = Watch(grant: Grant, context: Option<End>, end: Option<End>, cleanup: Cleanup)

  datatype State = State(revoked: set<Grant>, watchers: map<Grant, set<nat>>, watches: seq<Watch>)

  datatype Act =
    | Open(grant: Grant)
    | Revoke(grant: Grant)
    | Cancel(watch: nat, reason: End)
    | Select(watch: nat)
    | Unregister(watch: nat)
    | Finish(watch: nat)
    | Exit(watch: nat)

  function Registered(st: State, g: Grant): set<nat> {
    if g in st.watchers then st.watchers[g] else {}
  }

  predicate Enabled(st: State, act: Act) {
    match act
    case Open(_) => true
    case Revoke(_) => true
    case Cancel(w, reason) => w < |st.watches| && st.watches[w].context == None && reason != Revoked
    case Select(w) => w < |st.watches| && st.watches[w].cleanup == Selecting && st.watches[w].context.Some?
    case Unregister(w) => w < |st.watches| && st.watches[w].cleanup == Woken
    case Finish(w) => w < |st.watches| && st.watches[w].cleanup == Unregistered && st.watches[w].context.Some?
    case Exit(w) => w < |st.watches| && st.watches[w].cleanup == Selecting && st.watches[w].end.Some?
  }

  /** finish: only the first call has an effect. */
  function Ended(w: Watch, e: End): Watch {
    if w.end.Some? then w else w.(end := Some(e))
  }

  function Without(watchers: map<Grant, set<nat>>, g: Grant, w: nat): map<Grant, set<nat>> {
    if g !in watchers then watchers
    else if watchers[g] - {w} == {} then watchers - {g}
    else watchers[g := watchers[g] - {w}]
  }

  function Step(st: State, act: Act): State
    requires Enabled(st, act)
  {
    match act
    case Open(g) =>
      var w := |st.watches|;
      if g in st.revoked then st.(watches := st.watches + [Watch(g, None, Some(Revoked), Exited)])
      else st.(watches := st.watches + [Watch(g, None, None, Selecting)],
               watchers := st.watchers[g := Registered(st, g) + {w}])
    case Revoke(g) =>
      if g in st.revoked then st
      else State(st.revoked + {g}, st.watchers - {g},
                 seq(|st.watches|, i requires 0 <= i < |st.watches| =>
                   if i in Registered(st, g) then Ended(st.watches[i], Revoked) else st.watches[i]))
    case Cancel(w, reason) => st.(watches := st.watches[w := st.watches[w].(context := Some(reason))])
    case Select(w) => st.(watches := st.watches[w := st.watches[w].(cleanup := Woken)])
    case Unregister(w) =>
      st.(watches := st.watches[w := st.watches[w].(cleanup := Unregistered)],
          watchers := Without(st.watchers, st.watches[w].grant, w))
    case Finish(w) =>
      st.(watches := st.watches[w := Ended(st.watches[w], st.watches[w].context.value).(cleanup := Exited)])
    case Exit(w) => st.(watches := st.watches[w := st.watches[w].(cleanup := Exited)])
  }

  // ---------------------------------------------------------------------------
  // What every step keeps.

  ghost predicate WatchOk(st: State, i: nat)
    requires i < |st.watches|
  {
    var w := st.watches[i];
    // a watch is registered exactly while it is unfinished and its cleanup has not taken it out
    && (i in Registered(st, w.grant) <==> w.end == None && (w.cleanup == Selecting || w.cleanup == Woken))
    // the cleanup goes past its select only with an ended context
    && (w.cleanup == Woken || w.cleanup == Unregistered ==> w.context.Some?)
    && (w.end == None ==> w.cleanup != Exited)
    // every end has its cause
    && (w.end == Some(Revoked) ==> w.grant in st.revoked)
    && (w.end.Some? && w.end != Some(Revoked) ==> w.end == w.context)
    && w.context != Some(Revoked)
  }

  /** The watchers of a grant are a non-empty set of its own watches, and a revoked grant has none. */
  ghost predicate GrantOk(st: State, g: Grant)
    requires g in st.watchers
  {
    && st.watchers[g] != {}
    && g !in st.revoked
    && forall i :: i in st.watchers[g] ==> i < |st.watches| && st.watches[i].grant == g
  }

  ghost predicate Inv(st: State) {
    && (forall g :: g in st.watchers ==> GrantOk(st, g))
    && (forall i: nat :: i < |st.watches| ==> WatchOk(st, i))
  }

  lemma WatchKept(st: State, act: Act, i: nat)
    requires Inv(st) && Enabled(st, act) && i < |Step(st, act).watches|
    ensures WatchOk(Step(st, act), i)
  {
    if i < |st.watches| {
      assert WatchOk(st, i);
    }
  }

  lemma StepInv(st: State, act: Act)
    requires Inv(st) && Enabled(st, act)
    ensures Inv(Step(st, act))
  {
    var st' := Step(st, act);
    forall i: nat | i < |st'.watches| ensures WatchOk(st', i) {
      WatchKept(st, act, i);
    }
    forall g | g in st'.watchers ensures GrantOk(st', g) {
      if g in st.watchers {
        assert GrantOk(st, g);
      }
    }
  }

  ghost predicate Next(st: State, st': State) {
    exists act :: Enabled(st, act) && st' == Step(st, act)
  }

  ghost predicate NextAt(run: seq<State>, i: nat) {
    i + 1 < |run| && Next(run[i], run[i + 1])
  }

  ghost predicate IsRun(run: seq<State>) {
    && |run| > 0
    && run[0] == State({}, map[], [])
    && forall i: nat :: i < |run| - 1 ==> NextAt(run, i)
  }

  lemma {:induction false} RunInv(run: seq<State>, i: nat)
    requires IsRun(run) && i < |run|
    ensures Inv(run[i])
  {
    if i > 0 {
      RunInv(run, i - 1);
      assert NextAt(run, i - 1);
      var act :| Enabled(run[i - 1], act) && run[i] == Step(run[i - 1], act);
      StepInv(run[i - 1], act);
    }
  }

  /** Later states keep revocations, watches, their grants, their context errors and their ends. */
  ghost predicate Later(st: State, st': State) {
    && st.revoked <= st'.revoked
    && |st.watches| <= |st'.watches|
    && forall i :: 0 <= i < |st.watches| ==>
         && st'.watches[i].grant == st.watches[i].grant
         && (st.watches[i].context.Some? ==> st'.watches[i].context == st.watches[i].context)
         && (st.watches[i].end.Some? ==> st'.watches[i].end == st.watches[i].end)
  }

  lemma {:induction false} RunLater(run: seq<State>, i: nat, j: nat)
    requires IsRun(run) && i <= j < |run|
    ensures Later(run[i], run[j])
    decreases j - i
  {
    if i < j {
      RunLater(run, i, j - 1);
      assert NextAt(run, j - 1);
    }
  }

  // ---------------------------------------------------------------------------
  // Theorems over runs.

  /** No revocation is lost: from the moment a grant is revoked, every watch of it, opened before
      or after, is over, unless its own context has ended and its cleanup is about to finish it.
      None of them is registered any more. */
  lemma NoRevocationLost(run: seq<State>, i: nat, j: nat, w: nat)
    requires IsRun(run) && i <= j < |run|
    requires w < |run[j].watches| && run[j].watches[w].grant in run[i].revoked
    ensures run[j].watches[w].end.Some? ||
            (run[j].watches[w].context.Some? && run[j].watches[w].cleanup == Unregistered)
    ensures run[j].watches[w].grant !in run[j].watchers
  {
    RunLater(run, i, j);
    RunInv(run, j);
    assert WatchOk(run[j], w);
  }

  /** A watch opened after the revocation is over at once, with the revocation as its error. */
  lemma WatchAfterRevoke(run: seq<State>, i: nat, j: nat, g: Grant)
    requires IsRun(run) && i < j < |run| && g in run[i].revoked && run[i + 1] == Step(run[i], Open(g))
    ensures |run[i].watches| < |run[j].watches|
    ensures run[j].watches[|run[i].watches|].grant == g
    ensures run[j].watches[|run[i].watches|].end == Some(Revoked)
  {
    RunLater(run, i + 1, j);
  }

  /** Which unfinished watches a revocation ends: exactly those whose cleanup has not yet taken
      them out. The others keep their ended context as their only possible end. */
  lemma RevocationReaches(run: seq<State>, i: nat, j: nat, w: nat)
    requires IsRun(run) && i < j < |run| && w < |run[i].watches| && run[i].watches[w].end == None
    requires run[i].watches[w].grant !in run[i].revoked
    requires run[i + 1] == Step(run[i], Revoke(run[i].watches[w].grant))
    ensures w < |run[j].watches|
    ensures run[j].watches[w].end == Some(Revoked) <==> run[i].watches[w].cleanup != Unregistered
    ensures run[i].watches[w].cleanup == Unregistered ==>
            run[j].watches[w].end == None || run[j].watches[w].end == run[i].watches[w].context
  {
    RunInv(run, i);
    assert WatchOk(run[i], w);
    if run[i].watches[w].cleanup == Unregistered {
      StaysFated(run, i, j, w, run[i].watches[w].context.value);
    } else {
      RunLater(run, i + 1, j);
    }
  }

  /** The watch has ended with `e`, or its cleanup took it out and is about to. */
  predicate Fated(st: State, w: nat, e: End) {
    && w < |st.watches|
    && (st.watches[w].end == Some(e) ||
        (st.watches[w].end == None && st.watches[w].cleanup == Unregistered && st.watches[w].context == Some(e)))
  }

  lemma NextFated(st: State, st': State, w: nat, e: End)
    requires Inv(st) && Next(st, st') && Fated(st, w, e)
    ensures Fated(st', w, e)
  {
    assert WatchOk(st, w);
  }

  lemma {:induction false} StaysFated(run: seq<State>, i: nat, j: nat, w: nat, e: End)
    requires IsRun(run) && i <= j < |run| && Fated(run[i], w, e)
    ensures Fated(run[j], w, e)
    decreases j - i
  {
    if i < j {
      StaysFated(run, i, j - 1, w, e);
      RunInv(run, j - 1);
      assert NextAt(run, j - 1);
      NextFated(run[j - 1], run[j], w, e);
    }
  }

  /** An unfinished watch that is no longer registered has an ended context. */
  lemma UnregisteredMeansCancelled(run: seq<State>, i: nat, w: nat)
    requires IsRun(run) && i < |run| && w < |run[i].watches| && run[i].watches[w].end == None
    ensures w in Registered(run[i], run[i].watches[w].grant) || run[i].watches[w].context.Some?
  {
    RunInv(run, i);
    assert WatchOk(run[i], w);
  }
}

/** The critical sections of MemoryRevocations, updating the maps and the watch objects in place. */
module RevocationObjects {
  import opened Common
  import R = Revocations

  class RevocationWatch {
    var err: Option<R.End>
    var done: bool

    constructor ()
      ensures !done && err == None
    {
      err := None;
      done := false;
    }

    /** once.Do: later calls change nothing. */
    method Finish(e: R.End)
      modifies this
      ensures done
      ensures if old(done) then err == old(err) else err == Some(e)
    {
      if !done {
        err := Some(e);
        done := true;
      }
    }
  }

  class MemoryRevocations {
    var revoked: set<R.Grant>
    var watchers: map<R.Grant, set<RevocationWatch>>

    /** A registered watch is unfinished and belongs to one grant, and a revoked grant has none. */
    ghost predicate Valid()
      reads this, set g, w | g in watchers && w in watchers[g] :: w
    {
      && (forall g :: g in watchers ==> watchers[g] != {} && g !in revoked)
      && (forall g, w :: g in watchers && w in watchers[g] ==> !w.done)
      && (forall g, h :: g in watchers && h in watchers && g != h ==> watchers[g] !! watchers[h])
    }

    function Listening(g: R.Grant): set<RevocationWatch>
      reads this
    {
      if g in watchers then watchers[g] else {}
    }

    constructor ()
      ensures Valid() && revoked == {} && watchers == map[]
    {
      revoked := {};
      watchers := map[];
    }

    method Watch(g: R.Grant) returns (w: RevocationWatch)
      requires Valid()
      modifies this
      ensures Valid() && fresh(w) && revoked == old(revoked)
      ensures g in revoked ==> w.done && w.err == Some(R.Revoked) && watchers == old(watchers)
      ensures g !in revoked ==> !w.done && watchers == old(watchers)[g := old(Listening(g)) + {w}]
    {
      w := new RevocationWatch();
      if g in revoked {
        w.Finish(R.Revoked);
        return;
      }
      watchers := watchers[g := Listening(g) + {w}];
    }

    method Revoke(g: R.Grant)
      requires Valid()
      modifies this, Listening(g)
      ensures Valid() && g in revoked && revoked == old(revoked) + {g}
      ensures watchers == old(watchers) - {g}
      ensures forall w :: w in old(Listening(g)) ==> w.done && w.err == Some(R.Revoked)
    {
      if g in revoked {
        assert g !in watchers;
        return;
      }
      revoked := revoked + {g};
      var all := Listening(g);
      var todo := all;
      while todo != {}
        invariant todo <= all
        invariant revoked == old(revoked) + {g} && watchers == old(watchers)
        invariant forall w :: w in all - todo ==> w.done && w.err == Some(R.Revoked)
        invariant forall w :: w in todo ==> !w.done
        invariant forall h, w :: h in watchers && h != g && w in watchers[h] ==> !w.done
        decreases todo
      {
        var w :| w in todo;
        w.Finish(R.Revoked);
        todo := todo - {w};
      }
      watchers := watchers - {g};
    }

    /** The cleanup's section under the mutex: take the watch out and drop an empty set. */
    method Unregister(g: R.Grant, w: RevocationWatch)
      requires Valid()
      modifies this
      ensures Valid() && revoked == old(revoked)
      ensures Listening(g) == old(Listening(g)) - {w}
      ensures forall h :: h != g ==> Listening(h) == old(Listening(h))
    {
      if g in watchers {
        var rest := watchers[g] - {w};
        watchers := if rest == {} then watchers - {g} else watchers[g := rest];
      }
    }
  }
}
