/**
 The ingress as the code runs it: fields updated in place, and other callers running wherever the
 code waits. While a gate is held the others keep to what OthersRespectGate proves of every step.
 */
module FencedIngressObjects {
  import opened Common
  import opened FencedIngress
  import opened FencedIngressInvariant
  import opened FencedIngressTheorems

  predicate SessionExact(h: Heap, sid: nat)
    requires sid < |h.objects|
  {
    match h.objects[sid].active
    case None => true
    case Some(s) => OnSession(h, s, sid) && !h.streams[s].downstreamClosed
  }

  /** Each listed session is listed under its own key. */
  predicate Keyed(h: Heap) {
    forall key :: key in h.sessions ==> h.sessions[key] < |h.objects| && h.objects[h.sessions[key]].key == key
  }

  /** What the ingress keeps of its memory between any two steps. */
  predicate Sound(h: Heap) {
    && Keyed(h)
    && (forall s :: 0 <= s < |h.streams| ==> StreamExact(h, s))
    && (forall sid :: 0 <= sid < |h.objects| ==> SessionExact(h, sid))
  }

  lemma InvariantIsSound(h: Heap)
    requires StreamsExact(h) && Keyed(h)
    ensures Sound(h)
  {
  }

  lemma SoundIsInvariant(h: Heap)
    requires Sound(h)
    ensures Ranged(h) && StreamsExact(h)
  {
    forall s: nat | s < |h.streams|
      ensures h.streams[s].session < |h.objects|
    {
      assert StreamExact(h, s);
    }
    forall sid, s: nat | 0 <= sid < |h.objects| && h.objects[sid].active == Some(s)
      ensures OnSession(h, s, sid) && !h.streams[s].downstreamClosed
    {
      assert SessionExact(h, sid);
    }
  }

  /** What others may do to the memory while the gate of `held`, if any, is taken. */
  predicate Rely(h: Heap, h': Heap, held: Option<nat>) {
    && Sound(h') && h'.limit == h.limit && Extends(h, h')
    && (held.Some? && held.value < |h.objects| ==> Untouched(h, h', held.value))
  }

  lemma RelyReflexive(h: Heap, held: Option<nat>)
    requires Sound(h)
    ensures Rely(h, h, held)
  {
  }

  lemma RelyTransitive(a: Heap, b: Heap, c: Heap, held: Option<nat>)
    requires Rely(a, b, held) && Rely(b, c, held)
    ensures Rely(a, c, held)
  {
  }

  lemma StepSound(st: State, c: nat, act: Act)
    requires Inv(st) && Enabled(st, c, act)
    ensures Sound(Step(st, c, act).heap)
  {
    StepInv(st, c, act);
    InvariantIsSound(Step(st, c, act).heap);
  }

  /** Every step keeps to Rely. */
  lemma StepRelies(st: State, c: nat, act: Act)
    requires Inv(st) && Enabled(st, c, act)
    ensures Rely(st.heap, Step(st, c, act).heap, None)
  {
    StepSound(st, c, act);
    StepGood(st, c, act);
    LimitFixed(st, c, act);
  }

  /** And it leaves alone a gate that someone else holds. */
  lemma StepReliesGate(st: State, c: nat, act: Act, d: nat, sid: nat)
    requires Inv(st) && Enabled(st, c, act) && d != c
    requires sid < |st.heap.objects| && st.heap.objects[sid].holder == Some(d)
    ensures Rely(st.heap, Step(st, c, act).heap, Some(sid)) && Step(st, c, act).heap.objects[sid].holder == Some(d)
  {
    StepRelies(st, c, act);
    StepGood(st, c, act);
    assert Untouched(st.heap, Step(st, c, act).heap, sid);
  }

  ghost predicate OtherNext(st: State, st': State, d: nat) {
    exists c: nat, act :: c != d && Enabled(st, c, act) && st' == Step(st, c, act)
  }

  lemma OtherNextRelies(st: State, st': State, d: nat, sid: nat)
    requires Inv(st) && OtherNext(st, st', d) && sid < |st.heap.objects| && st.heap.objects[sid].holder == Some(d)
    ensures Rely(st.heap, st'.heap, Some(sid)) && st'.heap.objects[sid].holder == Some(d)
  {
    var c: nat, act :| c != d && Enabled(st, c, act) && st' == Step(st, c, act);
    StepReliesGate(st, c, act, d, sid);
  }

  /** From `i` to `j` the run moves by steps of callers other than `d`. */
  ghost predicate ByOthers(run: seq<State>, i: nat, j: nat, d: nat) {
    forall k: nat :: i <= k < j ==> ByOther(run, k, d)
  }

  ghost predicate ByOther(run: seq<State>, k: nat, d: nat) {
    k + 1 < |run| && OtherNext(run[k], run[k + 1], d)
  }

  lemma OtherRelies(run: seq<State>, i: nat, j: nat, d: nat, sid: nat)
    requires IsRun(run) && ByOthers(run, i, j, d) && i < j < |run|
    requires sid < |run[j - 1].heap.objects| && run[j - 1].heap.objects[sid].holder == Some(d)
    ensures Rely(run[j - 1].heap, run[j].heap, Some(sid)) && run[j].heap.objects[sid].holder == Some(d)
  {
    RunInv(run, j - 1);
    assert ByOther(run, j - 1, d);
    OtherNextRelies(run[j - 1], run[j], d, sid);
  }

  lemma NextRelies(st: State, st': State)
    requires Inv(st) && Next(st, st')
    ensures Rely(st.heap, st'.heap, None)
  {
    var c: nat, act :| Enabled(st, c, act) && st' == Step(st, c, act);
    StepRelies(st, c, act);
  }

  lemma ReliesAt(run: seq<State>, j: nat)
    requires IsRun(run) && 0 < j < |run|
    ensures Rely(run[j - 1].heap, run[j].heap, None)
  {
    RunInv(run, j - 1);
    assert NextAt(run, j - 1);
    NextRelies(run[j - 1], run[j]);
  }

  lemma SoundAt(run: seq<State>, i: nat)
    requires IsRun(run) && i < |run|
    ensures Sound(run[i].heap)
  {
    RunInv(run, i);
    InvariantIsSound(run[i].heap);
  }

  /** While `d` holds the gate of `sid` and does nothing, any number of steps of any others keep to
      Rely and leave the gate with `d`. */
  lemma {:induction false} OthersRespectGate(run: seq<State>, i: nat, j: nat, d: nat, sid: nat)
    requires IsRun(run) && i <= j < |run| && sid < |run[i].heap.objects| && run[i].heap.objects[sid].holder == Some(d)
    requires ByOthers(run, i, j, d)
    ensures Rely(run[i].heap, run[j].heap, Some(sid)) && run[j].heap.objects[sid].holder == Some(d)
    decreases j - i
  {
    if i == j {
      SoundAt(run, i);
      RelyReflexive(run[i].heap, Some(sid));
    } else {
      OthersRespectGate(run, i, j - 1, d, sid);
      OtherRelies(run, i, j, d, sid);
      RelyTransitive(run[i].heap, run[j - 1].heap, run[j].heap, Some(sid));
    }
  }

  /** Without a gate, any number of steps of anyone keep to Rely. */
  lemma {:induction false} OthersKeepMemory(run: seq<State>, i: nat, j: nat)
    requires IsRun(run) && i <= j < |run|
    ensures Rely(run[i].heap, run[j].heap, None)
    decreases j - i
  {
    if i == j {
      SoundAt(run, i);
      RelyReflexive(run[i].heap, None);
    } else {
      OthersKeepMemory(run, i, j - 1);
      ReliesAt(run, j);
      RelyTransitive(run[i].heap, run[j - 1].heap, run[j].heap, None);
    }
  }

  lemma StepGood(st: State, c: nat, act: Act)
    requires Inv(st) && Enabled(st, c, act)
    ensures RespectsOthers(st.heap, Step(st, c, act).heap, c)
  {
    if act.Lock? || act.ReturnGate? {
      GateGood(st, c, act);
    } else if PcOf(st, c).Inside? {
      InsideGood(st, c, act);
    } else {
      OutsideGood(st, c, act);
    }
  }

  lemma LimitFixed(st: State, c: nat, act: Act)
    requires Enabled(st, c, act)
    ensures Step(st, c, act).heap.limit == st.heap.limit
  {
  }

  lemma PublishedRanged(h: Heap, sid: nat, fence: Fence)
    requires Ranged(h) && sid < |h.objects|
    ensures Ranged(Published(h, sid, fence))
  {
  }

  lemma RetainedKeyed(h: Heap, key: SessionKey)
    requires Ranged(h) && Keyed(h)
    ensures Ranged(Retained(h, key).0) && Keyed(Retained(h, key).0)
  {
  }

  datatype Result = Done | Failed(reason: Reason)

  /** What closing reports: the first reason, or whether the upstream confirmed. */
  function Verdict(t: Stream): Result {
    match t.terminal
    case Some(r) => Failed(r)
    case None => if t.downstreamClosed then Done else Failed(Unavailable)
  }

  /** A close leads from the marked memory over the others' steps to its confirmation, if it came. */
  ghost predicate CloseRuns(marked: Heap, at: Heap, end: Heap, s: nat, confirmed: bool)
    requires s < |marked.streams| && Ranged(at) && s < |at.streams|
  {
    if marked.streams[s].downstreamClosed then end == marked && !confirmed
    else Rely(marked, at, Some(marked.streams[s].session)) && end == if confirmed then Confirmed(at, s) else at
  }

  class Ingress {
    const limit: nat
    var sessions: map<SessionKey, nat>
    var objects: seq<Session>
    var streams: seq<Stream>

    ghost function View(): Heap
      reads this
    {
      Heap(limit, sessions, objects, streams)
    }

    ghost predicate Valid()
      reads this
    {
      Ranged(View()) && StreamsExact(View()) && Keyed(View())
    }

    constructor (limit: nat)
      ensures Valid() && View() == Heap(limit, map[], [], [])
    {
      this.limit := limit;
      sessions, objects, streams := map[], [], [];
    }

    /** The other callers run while `c` waits, with the gate of `held` in hand or with none. */
    method Others(c: nat, held: Option<nat>)
      requires Valid() && (held.Some? ==> held.value < |objects| && objects[held.value].holder == Some(c))
      modifies `sessions, `objects, `streams
      ensures Valid() && Rely(old(View()), View(), held)
    {
      InvariantIsSound(View());
      var h: Heap := *;
      if Rely(Heap(limit, sessions, objects, streams), h, held) {
        sessions, objects, streams := h.sessions, h.objects, h.streams;
        SoundIsInvariant(h);
      }
    }

    method RetainState(key: SessionKey) returns (sid: Option<nat>)
      requires Valid()
      modifies `sessions, `objects
      ensures Valid()
      ensures (View(), sid) == Retained(old(View()), key)
    {
      if key !in sessions {
        if |sessions| >= limit {
          return None;
        }
        NewSession(key);
      }
      var i := sessions[key];
      objects := objects[i := objects[i].(refs := objects[i].refs + 1)];
      assert View() == Retained(old(View()), key).0;
      RetainedStreams(old(View()), key);
      RetainedKeyed(old(View()), key);
      sid := Some(i);
    }

    method NewSession(key: SessionKey)
      modifies `sessions, `objects
      ensures objects == old(objects) + [Session(key, 0, None, None)] && sessions == old(sessions)[key := |old(objects)|]
    {
      sessions := sessions[key := |objects|];
      objects := objects + [Session(key, 0, None, None)];
    }

    method ReleaseReference(sid: nat)
      requires Valid() && sid < |objects|
      modifies `sessions, `objects
      ensures Valid() && View() == Released(old(View()), sid)
    {
      Drop(sid);
      ReleasedStreams(old(View()), sid);
    }

    method Drop(sid: nat)
      requires sid < |objects|
      modifies `sessions, `objects
      ensures View() == Released(old(View()), sid)
    {
      if objects[sid].refs > 0 {
        objects := objects[sid := objects[sid].(refs := objects[sid].refs - 1)];
      }
      var key := objects[sid].key;
      if objects[sid].refs == 0 && key in sessions && sessions[key] == sid {
        sessions := sessions - {key};
      }
    }

    /** The upstream confirmed: clear the session and give the stream's reference back once. */
    method NoteClosed(s: nat)
      requires Valid() && s < |streams| && streams[s].closed && !streams[s].downstreamClosed
      modifies `sessions, `objects, `streams
      ensures Valid() && View() == Confirmed(old(View()), s)
    {
      var t := streams[s];
      streams := streams[s := t.(downstreamClosed := true, refReleased := true)];
      if objects[t.session].active == Some(s) {
        objects := objects[t.session := objects[t.session].(active := None)];
      }
      assert objects == old(objects)[t.session := old(objects)[t.session].(
          active := if old(objects)[t.session].active == Some(s) then None else old(objects)[t.session].active)];
      if !t.refReleased {
        Drop(t.session);
      }
      ConfirmedStreams(old(View()), s);
    }

    /** Fixes the first reason and marks the stream closed. */
    method Mark(s: nat, reason: Option<Reason>)
      requires Valid() && s < |streams|
      modifies `streams
      ensures Valid() && View() == Marked(old(View()), s, reason)
    {
      var t := streams[s];
      if t.terminal == None {
        t := t.(terminal := reason);
      }
      if !t.downstreamClosed {
        t := t.(closed := true);
      }
      streams := streams[s := t];
      MarkedStreams(old(View()), s, reason);
    }

    /** Terminates a stream under its gate. `at` is the memory when the upstream's reply came. */
    method CloseLocked(c: nat, s: nat, reason: Option<Reason>) returns (result: Result, ghost at: Heap, ghost confirmed: bool)
      requires Valid() && s < |streams| && objects[streams[s].session].holder == Some(c)
      modifies `sessions, `objects, `streams
      ensures Valid() && s < |streams| && Ranged(at) && s < |at.streams|
      ensures Extends(old(View()), View()) && objects[streams[s].session].holder == Some(c)
      ensures CloseRuns(Marked(old(View()), s, reason), at, View(), s, confirmed)
      ensures result == Verdict(streams[s])
    {
      Mark(s, reason);
      confirmed, at := false, View();
      if !streams[s].downstreamClosed {
        Others(c, Some(streams[s].session));
        at := View();
        var closed: bool := *;
        if closed {
          confirmed := true;
          NoteClosed(s);
        }
      }
      result := Verdict(streams[s]);
    }

    /** Waits for the gate; a caller whose context ends first goes away without it. */
    method LockSession(sid: nat, c: nat) returns (locked: bool)
      requires Valid() && sid < |objects|
      modifies `sessions, `objects, `streams
      ensures Valid() && sid < |objects| && Extends(old(View()), View())
      ensures locked ==> objects[sid].holder == Some(c)
    {
      Others(c, None);
      locked := *;
      if locked && objects[sid].holder == None {
        WithHolderStreams(View(), sid, Some(c));
        objects := objects[sid := objects[sid].(holder := Some(c))];
      } else {
        locked := false;
      }
    }

    method UnlockSession(sid: nat)
      requires Valid() && sid < |objects|
      modifies `objects
      ensures Valid() && View() == WithHolder(old(View()), sid, None)
    {
      WithHolderStreams(View(), sid, None);
      objects := objects[sid := objects[sid].(holder := None)];
    }

    /** What Send does once it holds the gate. `written` is the memory when the frame went downstream. */
    method SendLocked(c: nat, s: nat) returns (result: Result, ghost told: Option<Answer>, ghost written: Option<Heap>)
      requires Valid() && s < |streams| && objects[streams[s].session].holder == Some(c)
      modifies `sessions, `objects, `streams
      ensures Valid() && s < |streams| && streams[s].session == old(streams[s].session)
      ensures objects[streams[s].session].holder == Some(c)
      ensures !Usable(old(View()), s) ==> View() == old(View()) && told == None && result.Failed?
      ensures Usable(old(View()), s) ==> told.Some?
      ensures written.Some? <==> told == Some(Granted(false))
      ensures result == Done ==> written.Some?
      ensures written.Some? ==> Ranged(written.value) && s < |written.value.streams| && Usable(written.value, s)
      ensures result.Failed? && told.Some? ==>
                && streams[s].closed && streams[s].terminal == Some(result.reason)
                && result.reason == if told.value.Denied? then told.value.reason else Unavailable
    {
      told, written := None, None;
      var sid := streams[s].session;
      if streams[s].terminal.Some? {
        return Failed(streams[s].terminal.value), told, written;
      }
      if streams[s].closed || objects[sid].active != Some(s) {
        return Failed(FenceLost), told, written;
      }
      var answer := Ask(c, sid);
      told := Some(answer);
      if answer == Granted(false) {
        var ok;
        written := Some(View());
        ok := CallUpstream(c, sid);
        if ok {
          return Done, told, written;
        }
      }
      var reason := if answer.Denied? then answer.reason else Unavailable;
      GiveUp(c, s, reason);
      result := Failed(reason);
    }

    /** AuthorizeAction: any answer, while others run. */
    method Ask(c: nat, sid: nat) returns (answer: Answer)
      requires Valid() && sid < |objects| && objects[sid].holder == Some(c)
      modifies `sessions, `objects, `streams
      ensures Valid() && Rely(old(View()), View(), Some(sid))
    {
      Others(c, Some(sid));
      answer := *;
    }

    /** A call that reaches the upstream, its Send or its dial: it may fail, while others run. */
    method CallUpstream(c: nat, sid: nat) returns (ok: bool)
      requires Valid() && sid < |objects| && objects[sid].holder == Some(c)
      modifies `sessions, `objects, `streams
      ensures Valid() && Rely(old(View()), View(), Some(sid))
    {
      Others(c, Some(sid));
      ok := *;
    }

    /** closeLocked for a stream that had no terminal error yet. */
    method GiveUp(c: nat, s: nat, reason: Reason)
      requires Valid() && s < |streams| && objects[streams[s].session].holder == Some(c) && Usable(View(), s)
      modifies `sessions, `objects, `streams
      ensures Valid() && s < |streams| && streams[s].session == old(streams[s].session)
      ensures objects[streams[s].session].holder == Some(c)
      ensures streams[s].closed && streams[s].terminal == Some(reason)
    {
      assert StreamExact(View(), s);
      var result, at, confirmed := CloseLocked(c, s, Some(reason));
    }

    /** Open up to the dial: the current stream is replaced only by a newly activated claim and only
        once its upstream is confirmed closed. */
    method MakeRoom(c: nat, sid: nat, fence: Fence, activated: bool) returns (room: bool)
      requires Valid() && sid < |objects| && objects[sid].holder == Some(c)
      modifies `sessions, `objects, `streams
      ensures Valid() && sid < |objects| && objects[sid].holder == Some(c) && Extends(old(View()), View())
      ensures room <==> objects[sid].active == None
      ensures old(objects[sid].active) == None ==> View() == old(View())
      ensures old(objects[sid].active).Some? ==>
                var p := old(objects[sid].active).value;
                if old(streams[p].fence) == fence || !activated then View() == old(View())
                else p < |streams| && streams[p].terminal.Some? && (old(streams[p].terminal).Some? ==> streams[p].terminal == old(streams[p].terminal))
    {
      room := true;
      if objects[sid].active.Some? {
        var previous := objects[sid].active.value;
        if streams[previous].fence == fence || !activated {
          return false;
        }
        var result, at, confirmed := CloseLocked(c, previous, Some(FenceLost));
        room := objects[sid].active != Some(previous);
      }
    }

    /** A frame goes downstream only under the gate, for the active stream that is neither closed nor
        terminated, and a failed attempt terminates the stream. */
    method Send(c: nat, s: nat) returns (result: Result, ghost told: Option<Answer>, ghost written: Option<Heap>)
      requires Valid() && s < |streams|
      modifies `sessions, `objects, `streams
      ensures Valid()
      ensures written.Some? <==> told == Some(Granted(false))
      ensures result == Done ==> written.Some?
      ensures written.Some? ==> Ranged(written.value) && s < |written.value.streams| && Usable(written.value, s)
      ensures written.Some? && result.Failed? ==> s < |streams| && streams[s].closed && streams[s].terminal == Some(result.reason)
    {
      told, written := None, None;
      var sid := streams[s].session;
      var locked := LockSession(sid, c);
      if !locked {
        return Failed(ContextEnded), told, written;
      }
      result, told, written := SendLocked(c, s);
      UnlockSession(sid);
    }

    /** `dialed` is the memory when the upstream was dialed, in session `sid`. */
    method Open(c: nat, key: SessionKey, fence: Fence)
      returns (made: Option<nat>, ghost dialed: Option<Heap>, ghost sid: nat)
      requires Valid()
      modifies `sessions, `objects, `streams
      ensures Valid()
      ensures made.Some? ==> dialed.Some?
      ensures dialed.Some? ==> sid < |dialed.value.objects| && dialed.value.objects[sid].key == key
      ensures made.Some? ==> sid < |objects| && objects[sid].key == key
      ensures dialed.Some? ==> sid < |dialed.value.objects| && dialed.value.objects[sid].active == None &&
                               dialed.value.objects[sid].holder == Some(c)
      ensures made.Some? ==> made.value < |streams| && sid < |objects| &&
                               streams[made.value] == Stream(sid, fence, false, false, None, false) &&
                               objects[sid].active == made && |dialed.value.streams| <= made.value
    {
      made, dialed, sid := None, None, 0;
      var retained := RetainState(key);
      if retained == None {
        return;
      }
      var session := retained.value;
      sid := session;
      var locked := LockSession(session, c);
      if locked {
        made, dialed := OpenLocked(c, session, fence);
        UnlockSession(session);
      }
      if made == None {
        Others(c, None);
        ReleaseReference(session);
      }
    }

    /** What Open does once it holds the gate. */
    method OpenLocked(c: nat, sid: nat, fence: Fence) returns (made: Option<nat>, ghost dialed: Option<Heap>)
      requires Valid() && sid < |objects| && objects[sid].holder == Some(c)
      modifies `sessions, `objects, `streams
      ensures Valid() && sid < |objects| && Extends(old(View()), View())
      ensures dialed.Some? ==> Extends(old(View()), dialed.value)
      ensures made.Some? ==> dialed.Some?
      ensures dialed.Some? ==> sid < |dialed.value.objects| && dialed.value.objects[sid].active == None &&
                               dialed.value.objects[sid].holder == Some(c)
      ensures made.Some? ==> made.value < |streams| && |dialed.value.streams| <= made.value &&
                               streams[made.value] == Stream(sid, fence, false, false, None, false) &&
                               objects[sid].active == made
    {
      made, dialed := None, None;
      var answer := Ask(c, sid);
      if !answer.Granted? {
        return;
      }
      var room := MakeRoom(c, sid, fence, answer.activated);
      if !room {
        return;
      }
      dialed := Some(View());
      var reached := CallUpstream(c, sid);
      if reached {
        made := Publish(sid, fence);
      }
    }

    /** The new stream becomes the active one. */
    method Publish(sid: nat, fence: Fence) returns (made: Option<nat>)
      requires Valid() && sid < |objects| && objects[sid].active == None
      modifies `objects, `streams
      ensures Valid() && View() == Published(old(View()), sid, fence) && made == Some(|old(streams)|)
    {
      PublishedStreams(View(), sid, fence);
      PublishedRanged(View(), sid, fence);
      made := Some(|streams|);
      streams := streams + [Stream(sid, fence, false, false, None, false)];
      objects := objects[sid := objects[sid].(active := made)];
    }
  }
}
