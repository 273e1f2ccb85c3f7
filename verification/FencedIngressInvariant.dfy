/** What every step of the fenced ingress keeps. */
module FencedIngressInvariant {
  import opened Common
  import opened FencedIngress

  predicate Opens(phase: Phase) {
    phase.Authorizing? || phase.Deciding? || phase.Replacing? || phase.Dialing? || phase.Publishing? || phase.Failing?
  }

  /** An Open that has retained `sid` and has neither published nor released yet. */
  predicate Pending(pc: Pc, sid: nat) {
    match pc
    case Idle => false
    case Waiting(i, job) => i == sid && job.OpenJob?
    case Inside(i, phase) => i == sid && Opens(phase)
    case Releasing(i) => i == sid
  }

  function PendingOpens(pcs: map<nat, Pc>, sid: nat): set<nat> {
    set c | c in pcs && Pending(pcs[c], sid)
  }

  function HeldBy(streams: seq<Stream>, sid: nat): set<nat> {
    set s: nat | s < |streams| && streams[s].session == sid && !streams[s].refReleased
  }

  /** `refs` is the number of pending Opens plus the streams that still hold a reference. */
  ghost predicate RefsExact(st: State) {
    forall sid :: 0 <= sid < |st.heap.objects| ==>
      st.heap.objects[sid].refs == |PendingOpens(st.pcs, sid)| + |HeldBy(st.heap.streams, sid)|
  }

  /** A session is in the map exactly while it is referenced, and the map respects its limit. */
  ghost predicate MapExact(h: Heap) {
    && |h.sessions| <= h.limit
    && (forall key :: key in h.sessions ==>
          h.sessions[key] < |h.objects| && h.objects[h.sessions[key]].key == key && h.objects[h.sessions[key]].refs > 0)
    && (forall sid :: 0 <= sid < |h.objects| && h.objects[sid].refs > 0 ==>
          h.objects[sid].key in h.sessions && h.sessions[h.objects[sid].key] == sid)
  }

  predicate StreamExact(h: Heap, s: nat)
    requires s < |h.streams|
  {
    var t := h.streams[s];
    && t.session < |h.objects|
    && t.refReleased == t.downstreamClosed
    && (t.downstreamClosed || t.terminal.Some? ==> t.closed)
    && (!t.downstreamClosed ==> h.objects[t.session].active == Some(s))
  }

  /** A stream is its session's active one exactly until its upstream is confirmed closed. */
  ghost predicate StreamsExact(h: Heap) {
    && (forall s: nat :: s < |h.streams| ==> StreamExact(h, s))
    && (forall sid, s: nat :: 0 <= sid < |h.objects| && h.objects[sid].active == Some(s) ==>
          OnSession(h, s, sid) && !h.streams[s].downstreamClosed)
  }

  /** What a caller inside the gate of `sid` may rely on. */
  ghost predicate Assured(h: Heap, sid: nat, phase: Phase)
    requires PcRanged(h, Inside(sid, phase))
  {
    match phase
    case Dialing(_) => h.objects[sid].active == None
    case Publishing(_) => h.objects[sid].active == None
    case Replacing(_, p) => h.objects[sid].active == Some(p) && h.streams[p].closed && h.streams[p].terminal.Some?
    case Asking(s) => Usable(h, s)
    case Writing(s) => Usable(h, s)
    case Closing(s) => h.streams[s].closed && !h.streams[s].downstreamClosed
    case _ => true
  }

  ghost predicate CallerOk(h: Heap, c: nat, pc: Pc) {
    && PcRanged(h, pc)
    && (pc.Inside? ==> h.objects[pc.sid].holder == Some(c) && Assured(h, pc.sid, pc.phase))
  }

  /** Each gate has one token: in its channel, or with the one caller inside. */
  ghost predicate Settled(st: State) {
    && Ranged(st.heap)
    && (forall c :: c in st.pcs ==> CallerOk(st.heap, c, st.pcs[c]))
    && (forall sid, c: nat :: 0 <= sid < |st.heap.objects| && st.heap.objects[sid].holder == Some(c) ==>
          c in st.pcs && st.pcs[c].Inside? && st.pcs[c].sid == sid)
  }

  ghost predicate Inv(st: State) {
    && Settled(st)
    && RefsExact(st)
    && MapExact(st.heap)
    && StreamsExact(st.heap)
  }

  ghost predicate Init(st: State) {
    st.heap.sessions == map[] && st.heap.objects == [] && st.heap.streams == [] && st.pcs == map[] && st.log == []
  }

  // ---------------------------------------------------------------------------
  // Interference: a caller's step leaves alone whatever another caller's gate guards.

  predicate Extends(h: Heap, h': Heap) {
    && |h.objects| <= |h'.objects|
    && |h.streams| <= |h'.streams|
    && (forall s :: 0 <= s < |h.streams| ==>
         h'.streams[s].session == h.streams[s].session && h'.streams[s].fence == h.streams[s].fence)
    && (forall sid :: 0 <= sid < |h.objects| ==> h'.objects[sid].key == h.objects[sid].key)
  }

  predicate Untouched(h: Heap, h': Heap, sid: nat)
    requires Extends(h, h') && sid < |h.objects|
  {
    && h'.objects[sid].active == h.objects[sid].active
    && h'.objects[sid].holder == h.objects[sid].holder
    && forall s :: 0 <= s < |h.streams| && h.streams[s].session == sid ==> h'.streams[s] == h.streams[s]
  }

  /** Everything inside a gate that someone other than `c` holds is as before. */
  ghost predicate RespectsOthers(h: Heap, h': Heap, c: nat) {
    && Extends(h, h')
    && forall sid, d: nat :: 0 <= sid < |h.objects| && h.objects[sid].holder == Some(d) && d != c ==>
         Untouched(h, h', sid)
  }

  lemma OtherKept(h: Heap, h': Heap, c: nat, d: nat, pc: Pc)
    requires Ranged(h) && RespectsOthers(h, h', c) && d != c
    requires CallerOk(h, d, pc)
    ensures CallerOk(h', d, pc)
  {
    if pc.Inside? {
      assert Untouched(h, h', pc.sid);
    }
  }

  /** Only `c` enters or leaves gates, and it holds exactly the gate its counter says. */
  ghost predicate GatesMoved(h: Heap, h': Heap, c: nat, pc: Pc) {
    forall sid :: 0 <= sid < |h'.objects| && h'.objects[sid].holder.Some? ==>
      if h'.objects[sid].holder == Some(c) then pc.Inside? && pc.sid == sid
      else sid < |h.objects| && h.objects[sid].holder == h'.objects[sid].holder
  }

  lemma Assemble(st: State, c: nat, e: Effect)
    requires Settled(st) && Ranged(e.heap) && RespectsOthers(st.heap, e.heap, c)
    requires CallerOk(e.heap, c, e.pc) && GatesMoved(st.heap, e.heap, c, e.pc)
    ensures Settled(State(e.heap, st.pcs[c := e.pc], st.log + e.traffic))
  {
    forall d | d in st.pcs && d != c
      ensures CallerOk(e.heap, d, st.pcs[d])
    {
      OtherKept(st.heap, e.heap, c, d, st.pcs[d]);
    }
  }

  // ---------------------------------------------------------------------------
  // Reference counting.

  /** Moving one caller changes the pending set by at most that caller. */
  lemma PendingMove(st: State, c: nat, pc: Pc, sid: nat)
    ensures |PendingOpens(st.pcs[c := pc], sid)| ==
            |PendingOpens(st.pcs, sid)|
            - (if Pending(PcOf(st, c), sid) then 1 else 0)
            + (if Pending(pc, sid) then 1 else 0)
  {
    CardMove(PendingOpens(st.pcs, sid), PendingOpens(st.pcs[c := pc], sid), c);
  }

  lemma HeldUpdate(streams: seq<Stream>, s: nat, t: Stream, sid: nat)
    requires s < |streams| && t.session == streams[s].session
    ensures |HeldBy(streams[s := t], sid)| ==
            |HeldBy(streams, sid)|
            - (if streams[s].session == sid && !streams[s].refReleased then 1 else 0)
            + (if t.session == sid && !t.refReleased then 1 else 0)
  {
    CardMove(HeldBy(streams, sid), HeldBy(streams[s := t], sid), s);
  }

  lemma HeldAppend(streams: seq<Stream>, t: Stream, sid: nat)
    ensures |HeldBy(streams + [t], sid)| ==
            |HeldBy(streams, sid)| + (if t.session == sid && !t.refReleased then 1 else 0)
  {
    CardMove(HeldBy(streams, sid), HeldBy(streams + [t], sid), |streams|);
  }

  // ---------------------------------------------------------------------------
  // Each section of the heap touches one session only.

  /** A heap change confined to session `sid` that moves no gate token. */
  ghost predicate Confined(h: Heap, h': Heap, sid: nat) {
    && Ranged(h')
    && Extends(h, h')
    && (forall i :: 0 <= i < |h.objects| && i != sid ==> Untouched(h, h', i))
    && (forall i :: 0 <= i < |h'.objects| ==>
          h'.objects[i].holder == if i < |h.objects| then h.objects[i].holder else None)
  }

  lemma RetainedConfined(h: Heap, key: SessionKey)
    requires Ranged(h)
    ensures Confined(h, Retained(h, key).0, |Retained(h, key).0.objects|)
    ensures Retained(h, key).1.Some? ==> Retained(h, key).1.value < |Retained(h, key).0.objects|
  {
  }

  lemma ReleasedConfined(h: Heap, sid: nat)
    requires Ranged(h) && sid < |h.objects|
    ensures Confined(h, Released(h, sid), |h.objects|)
  {
  }

  lemma MarkedConfined(h: Heap, s: nat, reason: Option<Reason>)
    requires Ranged(h) && s < |h.streams|
    ensures Confined(h, Marked(h, s, reason), h.streams[s].session)
  {
  }

  lemma ConfirmedConfined(h: Heap, s: nat)
    requires Ranged(h) && s < |h.streams|
    ensures Confined(h, Confirmed(h, s), h.streams[s].session)
  {
  }

  lemma PublishedConfined(h: Heap, sid: nat, fence: Fence)
    requires Ranged(h) && sid < |h.objects|
    ensures Confined(h, Published(h, sid, fence), sid)
  {
  }

  /** A confined change by the holder of that session's gate, or to nobody's session, disturbs no one. */
  lemma ConfinedRespects(st: State, c: nat, h': Heap, sid: nat)
    requires Settled(st) && Confined(st.heap, h', sid)
    requires sid < |st.heap.objects| ==> PcOf(st, c).Inside? && PcOf(st, c).sid == sid
    ensures RespectsOthers(st.heap, h', c)
  {
  }

  /** What a step of a caller that stays inside the gate of `sid` does. */
  ghost predicate StaysInside(h: Heap, e: Effect, sid: nat) {
    && Confined(h, e.heap, sid)
    && e.pc.Inside? && e.pc.sid == sid
    && PcRanged(e.heap, e.pc)
    && Assured(e.heap, sid, e.pc.phase)
  }

  ghost predicate MayStand(h: Heap, sid: nat, phase: Phase) {
    Ranged(h) && StreamsExact(h) && PcRanged(h, Inside(sid, phase)) && Assured(h, sid, phase)
  }

  lemma BeginCloseInside(h: Heap, sid: nat, s: nat, reason: Option<Reason>, traffic: seq<Traffic>)
    requires Ranged(h) && StreamsExact(h) && sid < |h.objects| && OnSession(h, s, sid)
    ensures StaysInside(h, BeginClose(h, sid, s, reason, traffic), sid)
  {
    MarkedConfined(h, s, reason);
  }

  lemma DecideInside(h: Heap, sid: nat, fence: Fence, activated: bool)
    requires MayStand(h, sid, Deciding(fence, activated))
    ensures StaysInside(h, Decide(h, sid, fence, activated), sid)
  {
    if h.objects[sid].active.Some? {
      MarkedConfined(h, h.objects[sid].active.value, Some(FenceLost));
    }
  }

  lemma BeginInside(h: Heap, sid: nat, s: nat, use: Use)
    requires MayStand(h, sid, Using(s, use))
    ensures StaysInside(h, Begin(h, sid, s, use), sid)
  {
    BeginCloseInside(h, sid, s, None, []);
  }

  lemma AnsweredInside(h: Heap, sid: nat, phase: Phase, answer: Answer)
    requires MayStand(h, sid, phase) && (phase.Authorizing? || phase.Asking?)
    ensures StaysInside(h, Answered(h, sid, phase, answer), sid)
  {
    if phase.Asking? {
      BeginCloseInside(h, sid, phase.stream, Some(if answer.Denied? then answer.reason else Unavailable), []);
    }
  }

  lemma CloseAnsweredInside(h: Heap, sid: nat, phase: Phase, ok: bool)
    requires MayStand(h, sid, phase) && (phase.Replacing? || phase.Closing?)
    ensures StaysInside(h, CloseAnswered(h, sid, phase, ok), sid)
  {
    if ok {
      ConfirmedConfined(h, if phase.Replacing? then phase.previous else phase.stream);
    }
  }

  lemma StepInside(st: State, c: nat, act: Act)
    requires Settled(st) && StreamsExact(st.heap) && Enabled(st, c, act)
    requires PcOf(st, c).Inside? && !act.ReturnGate?
    ensures StaysInside(st.heap, EffectOf(st, c, act), PcOf(st, c).sid)
  {
    var h, pc := st.heap, PcOf(st, c);
    assert CallerOk(h, c, pc);
    match act {
      case Authorize(answer) => AnsweredInside(h, pc.sid, pc.phase, answer);
      case Inspect =>
        if pc.phase.Deciding? {
          DecideInside(h, pc.sid, pc.phase.fence, pc.phase.activated);
        } else {
          BeginInside(h, pc.sid, pc.phase.stream, pc.phase.use);
        }
      case CloseReply(ok) => CloseAnsweredInside(h, pc.sid, pc.phase, ok);
      case DialReply(_) =>
      case Publish => PublishedConfined(h, pc.sid, pc.phase.fence);
      case WriteReply(ok) => BeginCloseInside(h, pc.sid, pc.phase.stream, Some(Unavailable), [Written(pc.phase.stream)]);
    }
  }

  /** The conditions under which one caller's effect leaves the gates and everyone's assurances right. */
  ghost predicate GoodEffect(h: Heap, c: nat, e: Effect) {
    && Ranged(e.heap)
    && RespectsOthers(h, e.heap, c)
    && CallerOk(e.heap, c, e.pc)
    && GatesMoved(h, e.heap, c, e.pc)
  }

  lemma InsideGood(st: State, c: nat, act: Act)
    requires Settled(st) && StreamsExact(st.heap) && Enabled(st, c, act)
    requires PcOf(st, c).Inside? && !act.ReturnGate?
    ensures GoodEffect(st.heap, c, EffectOf(st, c, act))
  {
    StepInside(st, c, act);
    ConfinedRespects(st, c, EffectOf(st, c, act).heap, PcOf(st, c).sid);
  }

  lemma OutsideGood(st: State, c: nat, act: Act)
    requires Settled(st) && Enabled(st, c, act)
    requires !PcOf(st, c).Inside? && !act.Lock?
    ensures GoodEffect(st.heap, c, EffectOf(st, c, act))
  {
    var h, pc, e := st.heap, PcOf(st, c), EffectOf(st, c, act);
    if act.Retain? {
      RetainedConfined(h, act.key);
      ConfinedRespects(st, c, e.heap, |e.heap.objects|);
    } else if act.Release? {
      ReleasedConfined(h, pc.sid);
      ConfinedRespects(st, c, e.heap, |h.objects|);
    }
  }

  lemma GateGood(st: State, c: nat, act: Act)
    requires Settled(st) && Enabled(st, c, act)
    requires act.Lock? || act.ReturnGate?
    ensures GoodEffect(st.heap, c, EffectOf(st, c, act))
  {
  }

  lemma StepSettled(st: State, c: nat, act: Act)
    requires Settled(st) && StreamsExact(st.heap) && Enabled(st, c, act)
    ensures Settled(Step(st, c, act))
  {
    if act.Lock? || act.ReturnGate? {
      GateGood(st, c, act);
    } else if PcOf(st, c).Inside? {
      InsideGood(st, c, act);
    } else {
      OutsideGood(st, c, act);
    }
    Assemble(st, c, EffectOf(st, c, act));
  }

  // ---------------------------------------------------------------------------
  // Streams, the session map and the counters.

  lemma MarkedStreams(h: Heap, s: nat, reason: Option<Reason>)
    requires StreamsExact(h) && s < |h.streams|
    ensures StreamsExact(Marked(h, s, reason))
  {
    var h' := Marked(h, s, reason);
    forall i: nat | i < |h'.streams| ensures StreamExact(h', i) {
      assert StreamExact(h, i);
    }
  }

  lemma ReleasedStreams(h: Heap, sid: nat)
    requires StreamsExact(h) && sid < |h.objects|
    ensures StreamsExact(Released(h, sid))
  {
    var h' := Released(h, sid);
    forall i: nat | i < |h'.streams| ensures StreamExact(h', i) {
      assert StreamExact(h, i);
    }
  }

  lemma ConfirmedStreams(h: Heap, s: nat)
    requires Ranged(h) && StreamsExact(h) && s < |h.streams| && h.streams[s].closed && !h.streams[s].downstreamClosed
    ensures StreamsExact(Confirmed(h, s))
  {
    var h' := Confirmed(h, s);
    assert StreamExact(h, s);
    forall i: nat | i < |h'.streams| ensures StreamExact(h', i) {
      assert StreamExact(h, i);
    }
  }

  lemma PublishedStreams(h: Heap, sid: nat, fence: Fence)
    requires StreamsExact(h) && sid < |h.objects| && h.objects[sid].active == None
    ensures StreamsExact(Published(h, sid, fence))
  {
    var h' := Published(h, sid, fence);
    forall i: nat | i < |h'.streams| ensures StreamExact(h', i) {
      if i < |h.streams| {
        assert StreamExact(h, i);
      }
    }
  }

  lemma RetainedStreams(h: Heap, key: SessionKey)
    requires Ranged(h) && StreamsExact(h)
    ensures StreamsExact(Retained(h, key).0)
  {
    var h' := Retained(h, key).0;
    forall i: nat | i < |h'.streams| ensures StreamExact(h', i) {
      assert StreamExact(h, i);
    }
  }

  lemma StepStreams(st: State, c: nat, act: Act)
    requires Settled(st) && StreamsExact(st.heap) && Enabled(st, c, act)
    ensures StreamsExact(EffectOf(st, c, act).heap)
  {
    var h, pc, e := st.heap, PcOf(st, c), EffectOf(st, c, act);
    assert CallerOk(h, c, pc);
    match act {
      case Retain(key, _) => RetainedStreams(h, key);
      case Release => ReleasedStreams(h, pc.sid);
      case Publish => PublishedStreams(h, pc.sid, pc.phase.fence);
      case CloseReply(ok) =>
        if ok {
          ConfirmedStreams(h, if pc.phase.Replacing? then pc.phase.previous else pc.phase.stream);
        }
      case Authorize(answer) =>
        if pc.phase.Asking? {
          MarkedStreams(h, pc.phase.stream, Some(if answer.Denied? then answer.reason else Unavailable));
        }
      case Inspect =>
        if pc.phase.Using? {
          MarkedStreams(h, pc.phase.stream, None);
        } else if h.objects[pc.sid].active.Some? {
          MarkedStreams(h, h.objects[pc.sid].active.value, Some(FenceLost));
        }
      case WriteReply(_) => MarkedStreams(h, pc.phase.stream, Some(Unavailable));
      case Lock => WithHolderStreams(h, pc.sid, Some(c));
      case ReturnGate => WithHolderStreams(h, pc.sid, None);
      case _ =>
    }
  }

  lemma WithHolderStreams(h: Heap, sid: nat, holder: Option<nat>)
    requires StreamsExact(h) && sid < |h.objects|
    ensures StreamsExact(WithHolder(h, sid, holder))
  {
    var h' := WithHolder(h, sid, holder);
    forall i: nat | i < |h'.streams| ensures StreamExact(h', i) {
      assert StreamExact(h, i);
    }
  }

  /** At a release the `refs > 0` guard always holds, and the map loses the session with its last reference. */
  lemma ReleasedMap(h: Heap, sid: nat)
    requires MapExact(h) && sid < |h.objects| && h.objects[sid].refs > 0
    ensures MapExact(Released(h, sid))
    ensures Released(h, sid).objects[sid].refs == h.objects[sid].refs - 1
  {
    if h.objects[sid].refs == 1 {
      LastReleasedMap(h, sid);
    }
  }

  lemma LastReleasedMap(h: Heap, sid: nat)
    requires MapExact(h) && sid < |h.objects| && h.objects[sid].refs == 1
    ensures MapExact(Released(h, sid))
  {
    var h' := Released(h, sid);
    CardRemove(h.sessions.Keys, h.objects[sid].key);
    assert h'.sessions.Keys == h.sessions.Keys - {h.objects[sid].key};
  }

  lemma RetainedMap(h: Heap, key: SessionKey)
    requires MapExact(h)
    ensures MapExact(Retained(h, key).0)
  {
    if key in h.sessions {
      RetainedOldMap(h, key);
    } else if |h.sessions| < h.limit {
      RetainedNewMap(h, key);
    }
  }

  lemma RetainedOldMap(h: Heap, key: SessionKey)
    requires MapExact(h) && key in h.sessions
    ensures MapExact(Retained(h, key).0)
  {
  }

  lemma RetainedNewMap(h: Heap, key: SessionKey)
    requires MapExact(h) && key !in h.sessions && |h.sessions| < h.limit
    ensures MapExact(Retained(h, key).0)
  {
    var h' := Retained(h, key).0;
    assert |h'.sessions| == |h.sessions| + 1 by {
      CardInsert(h.sessions.Keys, key);
      assert h'.sessions.Keys == h.sessions.Keys + {key};
    }
  }

  /** Whether the step makes a pending Open of `sid` (+1) or ends one (-1). */
  function PendingDelta(st: State, c: nat, act: Act, sid: nat): int
    requires Enabled(st, c, act)
  {
    if act.Retain? && Retained(st.heap, act.key).1 == Some(sid) then 1
    else if (act.Release? || act.Publish?) && PcOf(st, c).sid == sid then -1
    else 0
  }

  /** Whether the step makes a stream hold `sid` (+1) or lets one go (-1). */
  function HeldDelta(st: State, c: nat, act: Act, sid: nat): int
    requires Enabled(st, c, act)
  {
    if act.Publish? && PcOf(st, c).sid == sid then 1
    else if act == CloseReply(true) && PcOf(st, c).sid == sid then -1
    else 0
  }

  lemma PendingChange(st: State, c: nat, act: Act, sid: nat)
    requires Enabled(st, c, act)
    ensures |PendingOpens(Step(st, c, act).pcs, sid)| == |PendingOpens(st.pcs, sid)| + PendingDelta(st, c, act, sid)
  {
    PendingMove(st, c, EffectOf(st, c, act).pc, sid);
  }

  lemma MarkedHeld(h: Heap, s: nat, reason: Option<Reason>, sid: nat)
    requires s < |h.streams|
    ensures |HeldBy(Marked(h, s, reason).streams, sid)| == |HeldBy(h.streams, sid)|
  {
    HeldUpdate(h.streams, s, Marked(h, s, reason).streams[s], sid);
  }

  lemma ConfirmedHeld(h: Heap, s: nat, sid: nat)
    requires s < |h.streams| && h.streams[s].session < |h.objects| && StreamExact(h, s) && !h.streams[s].downstreamClosed
    ensures |HeldBy(Confirmed(h, s).streams, sid)| == |HeldBy(h.streams, sid)| - (if h.streams[s].session == sid then 1 else 0)
  {
    HeldUpdate(h.streams, s, h.streams[s].(downstreamClosed := true, refReleased := true), sid);
  }

  lemma HeldChange(st: State, c: nat, act: Act, sid: nat)
    requires Settled(st) && StreamsExact(st.heap) && Enabled(st, c, act)
    ensures |HeldBy(EffectOf(st, c, act).heap.streams, sid)| ==
            |HeldBy(st.heap.streams, sid)| + HeldDelta(st, c, act, sid)
  {
    var h, pc, e := st.heap, PcOf(st, c), EffectOf(st, c, act);
    assert CallerOk(h, c, pc);
    match act {
      case Publish => HeldAppend(h.streams, Stream(pc.sid, pc.phase.fence, false, false, None, false), sid);
      case CloseReply(ok) =>
        if ok {
          ConfirmedHeld(h, if pc.phase.Replacing? then pc.phase.previous else pc.phase.stream, sid);
        }
      case Authorize(answer) =>
        if pc.phase.Asking? {
          MarkedHeld(h, pc.phase.stream, Some(if answer.Denied? then answer.reason else Unavailable), sid);
        }
      case Inspect =>
        if pc.phase.Using? {
          MarkedHeld(h, pc.phase.stream, None, sid);
        } else if h.objects[pc.sid].active.Some? {
          MarkedHeld(h, h.objects[pc.sid].active.value, Some(FenceLost), sid);
        }
      case WriteReply(_) => MarkedHeld(h, pc.phase.stream, Some(Unavailable), sid);
      case _ =>
    }
  }

  /** A caller about to release, and a stream about to be confirmed closed, own one of the references. */
  lemma ReferenceOwned(st: State, c: nat, act: Act)
    requires Inv(st) && Enabled(st, c, act)
    requires act.Release? || act == CloseReply(true)
    ensures st.heap.objects[PcOf(st, c).sid].refs > 0
  {
    var h, pc := st.heap, PcOf(st, c);
    assert CallerOk(h, c, pc);
    if act.Release? {
      CardSubset({c}, PendingOpens(st.pcs, pc.sid));
    } else {
      var s := if pc.phase.Replacing? then pc.phase.previous else pc.phase.stream;
      assert StreamExact(h, s);
      CardSubset({s}, HeldBy(h.streams, pc.sid));
    }
  }

  /** The counters and the map as they were. */
  ghost predicate CountsKept(h: Heap, h': Heap) {
    && h'.sessions == h.sessions && h'.limit == h.limit && |h'.objects| == |h.objects|
    && forall i :: 0 <= i < |h.objects| ==>
         h'.objects[i].refs == h.objects[i].refs && h'.objects[i].key == h.objects[i].key
  }

  /** Only retaining, releasing and a confirmed close touch the counters and the map. */
  lemma QuietStep(st: State, c: nat, act: Act)
    requires Enabled(st, c, act)
    requires !act.Retain? && !act.Release? && act != CloseReply(true)
    ensures CountsKept(st.heap, EffectOf(st, c, act).heap)
  {
  }

  lemma QuietMap(h: Heap, h': Heap)
    requires MapExact(h) && CountsKept(h, h')
    ensures MapExact(h')
  {
  }

  lemma ConfirmedRefs(h: Heap, s: nat, sid: nat)
    requires Ranged(h) && s < |h.streams| && sid < |h.objects|
    requires h.objects[h.streams[s].session].refs > 0 && !h.streams[s].refReleased
    ensures |Confirmed(h, s).objects| == |h.objects|
    ensures Confirmed(h, s).objects[sid].refs ==
            h.objects[sid].refs - (if h.streams[s].session == sid then 1 else 0)
  {
  }

  lemma RefsChange(st: State, c: nat, act: Act, sid: nat)
    requires Inv(st) && Enabled(st, c, act) && sid < |st.heap.objects|
    ensures sid < |EffectOf(st, c, act).heap.objects|
    ensures EffectOf(st, c, act).heap.objects[sid].refs ==
            st.heap.objects[sid].refs + PendingDelta(st, c, act, sid) + HeldDelta(st, c, act, sid)
  {
    var h, pc := st.heap, PcOf(st, c);
    if act.Release? {
      ReferenceOwned(st, c, act);
    } else if act == CloseReply(true) {
      ClosedRefsChange(st, c, sid);
    } else if !act.Retain? {
      QuietStep(st, c, act);
    }
  }

  lemma ClosedRefsChange(st: State, c: nat, sid: nat)
    requires Inv(st) && Enabled(st, c, CloseReply(true)) && sid < |st.heap.objects|
    ensures sid < |EffectOf(st, c, CloseReply(true)).heap.objects|
    ensures EffectOf(st, c, CloseReply(true)).heap.objects[sid].refs ==
            st.heap.objects[sid].refs - (if PcOf(st, c).sid == sid then 1 else 0)
  {
    var h, pc := st.heap, PcOf(st, c);
    ReferenceOwned(st, c, CloseReply(true));
    var s := if pc.phase.Replacing? then pc.phase.previous else pc.phase.stream;
    assert CallerOk(h, c, pc) && StreamExact(h, s);
    ConfirmedRefs(h, s, sid);
  }

  lemma RefsAt(st: State, c: nat, act: Act, sid: nat)
    requires Inv(st) && Enabled(st, c, act) && sid < |EffectOf(st, c, act).heap.objects|
    ensures EffectOf(st, c, act).heap.objects[sid].refs ==
            |PendingOpens(Step(st, c, act).pcs, sid)| + |HeldBy(EffectOf(st, c, act).heap.streams, sid)|
  {
    PendingChange(st, c, act, sid);
    HeldChange(st, c, act, sid);
    if sid < |st.heap.objects| {
      RefsChange(st, c, act, sid);
    } else {
      FreshUnreferenced(st, sid);
      if !act.Retain? {
        FewObjects(st, c, act);
      }
    }
  }

  lemma FewObjects(st: State, c: nat, act: Act)
    requires Enabled(st, c, act) && !act.Retain?
    ensures |EffectOf(st, c, act).heap.objects| == |st.heap.objects|
  {
  }

  lemma StepRefs(st: State, c: nat, act: Act)
    requires Inv(st) && Enabled(st, c, act)
    ensures RefsExact(Step(st, c, act))
  {
    forall sid | 0 <= sid < |Step(st, c, act).heap.objects|
      ensures Step(st, c, act).heap.objects[sid].refs ==
              |PendingOpens(Step(st, c, act).pcs, sid)| + |HeldBy(Step(st, c, act).heap.streams, sid)|
    {
      RefsAt(st, c, act, sid);
    }
  }

  lemma FreshUnreferenced(st: State, sid: nat)
    requires Settled(st) && sid >= |st.heap.objects|
    ensures PendingOpens(st.pcs, sid) == {} && HeldBy(st.heap.streams, sid) == {}
  {
    forall c | c in st.pcs ensures !Pending(st.pcs[c], sid) {
      assert CallerOk(st.heap, c, st.pcs[c]);
    }
  }

  lemma StepMap(st: State, c: nat, act: Act)
    requires Inv(st) && Enabled(st, c, act)
    ensures MapExact(EffectOf(st, c, act).heap)
  {
    var h, pc := st.heap, PcOf(st, c);
    if act.Retain? {
      RetainedMap(h, act.key);
    } else if act.Release? {
      ReferenceOwned(st, c, act);
      ReleasedMap(h, pc.sid);
    } else if act == CloseReply(true) {
      ClosedMap(st, c);
    } else {
      QuietStep(st, c, act);
      QuietMap(h, EffectOf(st, c, act).heap);
    }
  }

  lemma ClosedMap(st: State, c: nat)
    requires Inv(st) && Enabled(st, c, CloseReply(true))
    ensures MapExact(EffectOf(st, c, CloseReply(true)).heap)
  {
    var pc := PcOf(st, c);
    ReferenceOwned(st, c, CloseReply(true));
    ConfirmedMap(st.heap, if pc.phase.Replacing? then pc.phase.previous else pc.phase.stream);
  }

  lemma ConfirmedMap(h: Heap, s: nat)
    requires MapExact(h) && s < |h.streams| && h.streams[s].session < |h.objects|
    requires h.objects[h.streams[s].session].refs > 0
    ensures MapExact(Confirmed(h, s))
  {
    var t := h.streams[s];
    var o := h.objects[t.session];
    var h' := h.(
      streams := h.streams[s := t.(downstreamClosed := true, refReleased := true)],
      objects := h.objects[t.session := o.(active := if o.active == Some(s) then None else o.active)]);
    assert MapExact(h');
    ReleasedMap(h', t.session);
  }

  /** Every step of every caller keeps the invariant. */
  lemma StepInv(st: State, c: nat, act: Act)
    requires Inv(st) && Enabled(st, c, act)
    ensures Inv(Step(st, c, act))
  {
    StepSettled(st, c, act);
    StepRefs(st, c, act);
    StepMap(st, c, act);
    StepStreams(st, c, act);
  }
}
