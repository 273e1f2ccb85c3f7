/** What holds over whole runs of the fenced ingress, for any interleaving of any number of callers. */
module FencedIngressTheorems {
  import opened Common
  import opened FencedIngress
  import opened FencedIngressInvariant

  ghost predicate Next(st: State, st': State) {
    exists c: nat, act :: Enabled(st, c, act) && st' == Step(st, c, act)
  }

  ghost predicate NextAt(run: seq<State>, i: nat) {
    i + 1 < |run| && Next(run[i], run[i + 1])
  }

  /** A run from a new ingress under an arbitrary authority, dialer and network. */
  ghost predicate IsRun(run: seq<State>) {
    && |run| > 0
    && Init(run[0])
    && forall i: nat :: i < |run| - 1 ==> NextAt(run, i)
  }

  lemma {:induction false} RunInv(run: seq<State>, i: nat)
    requires IsRun(run) && i < |run|
    ensures Inv(run[i])
  {
    if i == 0 {
      NewInv(run[0]);
    } else {
      RunInv(run, i - 1);
      InvAt(run, i);
    }
  }

  lemma NewInv(st: State)
    requires Init(st)
    ensures Inv(st)
  {
  }

  lemma InvAt(run: seq<State>, i: nat)
    requires IsRun(run) && 0 < i < |run| && Inv(run[i - 1])
    ensures Inv(run[i])
  {
    assert NextAt(run, i - 1);
    NextInv(run[i - 1], run[i]);
  }

  lemma NextInv(st: State, st': State)
    requires Inv(st) && Next(st, st')
    ensures Inv(st')
  {
    var c: nat, act :| Enabled(st, c, act) && st' == Step(st, c, act);
    StepInv(st, c, act);
  }

  // ---------------------------------------------------------------------------
  // One upstream per session.

  /** An upstream that has not been confirmed closed: a stream's, or one a caller is dialing or has
      just dialed. */
  datatype Upstream = OfStream(stream: nat) | OfDial(caller: nat)

  ghost predicate Unconfirmed(st: State, key: SessionKey, u: Upstream)
    requires Ranged(st.heap)
  {
    match u
    case OfStream(s) =>
      s < |st.heap.streams| && !st.heap.streams[s].downstreamClosed &&
      st.heap.objects[st.heap.streams[s].session].key == key
    case OfDial(c) =>
      c in st.pcs && st.pcs[c].Inside? && (st.pcs[c].phase.Dialing? || st.pcs[c].phase.Publishing?) && st.pcs[c].sid < |st.heap.objects| &&
      st.heap.objects[st.pcs[c].sid].key == key
  }

  function SessionOf(st: State, u: Upstream): nat {
    match u
    case OfStream(s) => if s < |st.heap.streams| then st.heap.streams[s].session else 0
    case OfDial(c) => if c in st.pcs && st.pcs[c].Inside? then st.pcs[c].sid else 0
  }

  /** An unconfirmed upstream keeps its session in the map. */
  lemma UnconfirmedIsMapped(st: State, key: SessionKey, u: Upstream)
    requires Inv(st) && Unconfirmed(st, key, u)
    ensures key in st.heap.sessions && st.heap.sessions[key] == SessionOf(st, u)
  {
    match u {
      case OfStream(s) =>
        assert StreamExact(st.heap, s);
        CardSubset({s}, HeldBy(st.heap.streams, st.heap.streams[s].session));
      case OfDial(c) =>
        CardSubset({c}, PendingOpens(st.pcs, st.pcs[c].sid));
    }
  }

  lemma OneUpstream(st: State, key: SessionKey, u: Upstream, v: Upstream)
    requires Inv(st) && Unconfirmed(st, key, u) && Unconfirmed(st, key, v)
    ensures u == v
  {
    UnconfirmedIsMapped(st, key, u);
    UnconfirmedIsMapped(st, key, v);
    match u {
      case OfStream(s) => assert StreamExact(st.heap, s);
      case OfDial(c) => assert CallerOk(st.heap, c, st.pcs[c]);
    }
    match v {
      case OfStream(s) => assert StreamExact(st.heap, s);
      case OfDial(c) => assert CallerOk(st.heap, c, st.pcs[c]);
    }
  }

  /** At every moment of every run each session key has at most one upstream not confirmed closed,
      whatever the authority answers, however closes fail, and although the session object is
      dropped from the map and created again. */
  lemma AtMostOneUpstream(run: seq<State>, i: nat, key: SessionKey)
    requires IsRun(run) && i < |run|
    ensures Ranged(run[i].heap)
    ensures forall u, v :: Unconfirmed(run[i], key, u) && Unconfirmed(run[i], key, v) ==> u == v
  {
    RunInv(run, i);
    forall u, v | Unconfirmed(run[i], key, u) && Unconfirmed(run[i], key, v) ensures u == v {
      OneUpstream(run[i], key, u, v);
    }
  }

  // ---------------------------------------------------------------------------
  // Session accounting.

  /** Over every run: the counters are exact, a session is listed exactly while it is referenced,
      and the number of listed sessions respects the limit. */
  lemma SessionAccounting(run: seq<State>, i: nat)
    requires IsRun(run) && i < |run|
    ensures var h := run[i].heap;
            && (forall sid :: 0 <= sid < |h.objects| ==>
                 h.objects[sid].refs == |PendingOpens(run[i].pcs, sid)| + |HeldBy(h.streams, sid)|)
            && (forall sid :: 0 <= sid < |h.objects| ==>
                 (h.objects[sid].refs > 0 <==>
                  h.objects[sid].key in h.sessions && h.sessions[h.objects[sid].key] == sid))
            && |h.sessions| <= h.limit
  {
    RunInv(run, i);
  }

  /** The guard against an underflowing counter never fires. */
  lemma NoUnderflow(run: seq<State>, i: nat, c: nat, act: Act)
    requires IsRun(run) && i < |run| && Enabled(run[i], c, act)
    requires act.Release? || act == CloseReply(true)
    ensures run[i].heap.objects[PcOf(run[i], c).sid].refs > 0
    ensures Step(run[i], c, act).heap.objects[PcOf(run[i], c).sid].refs ==
            run[i].heap.objects[PcOf(run[i], c).sid].refs - 1
  {
    RunInv(run, i);
    ReferenceOwned(run[i], c, act);
    RefsChange(run[i], c, act, PcOf(run[i], c).sid);
  }

  /** No two callers are inside the gate of one session. */
  lemma GateExclusive(run: seq<State>, i: nat, c: nat, d: nat)
    requires IsRun(run) && i < |run|
    requires PcOf(run[i], c).Inside? && PcOf(run[i], d).Inside? && PcOf(run[i], c).sid == PcOf(run[i], d).sid
    ensures c == d
  {
    RunInv(run, i);
    assert CallerOk(run[i].heap, c, run[i].pcs[c]) && CallerOk(run[i].heap, d, run[i].pcs[d]);
  }

  // ---------------------------------------------------------------------------
  // A terminated stream is silent for ever.

  function Source(t: Traffic): nat {
    match t case Written(s) => s case Received(s) => s
  }

  predicate MoreTerminated(t: Stream, t': Stream) {
    && (t.closed ==> t'.closed)
    && (t.downstreamClosed ==> t'.downstreamClosed)
    && (t.terminal.Some? ==> t'.terminal == t.terminal)
  }

  /** `st'` is a later state: streams only get more terminated, and traffic comes from usable streams. */
  ghost predicate Later(st: State, st': State) {
    && Extends(st.heap, st'.heap)
    && |st.log| <= |st'.log| && st'.log[..|st.log|] == st.log
    && (forall s :: 0 <= s < |st.heap.streams| ==> MoreTerminated(st.heap.streams[s], st'.heap.streams[s]))
    && (forall k :: |st.log| <= k < |st'.log| && Source(st'.log[k]) < |st.heap.streams| ==>
          !st.heap.streams[Source(st'.log[k])].closed)
  }

  lemma LaterTransitive(a: State, b: State, c: State)
    requires Later(a, b) && Later(b, c)
    ensures Later(a, c)
  {
    assert c.log[..|a.log|] == c.log[..|b.log|][..|a.log|];
    forall k | |a.log| <= k < |c.log| && Source(c.log[k]) < |a.heap.streams|
      ensures !a.heap.streams[Source(c.log[k])].closed
    {
      if k < |b.log| {
        assert c.log[k] == c.log[..|b.log|][k];
      }
    }
  }

  lemma StepExtends(st: State, c: nat, act: Act)
    requires Inv(st) && Enabled(st, c, act)
    ensures Extends(st.heap, EffectOf(st, c, act).heap)
  {
    if act.Retain? {
      RetainedConfined(st.heap, act.key);
    } else if act.Release? {
      ReleasedConfined(st.heap, PcOf(st, c).sid);
    } else if PcOf(st, c).Inside? && !act.ReturnGate? {
      StepInside(st, c, act);
    }
  }

  lemma StepLater(st: State, c: nat, act: Act)
    requires Inv(st) && Enabled(st, c, act)
    ensures Later(st, Step(st, c, act))
  {
    StepExtends(st, c, act);
    assert CallerOk(st.heap, c, PcOf(st, c));
    StepTraffic(st, c, act);
    StepTerminates(st, c, act);
  }

  /** Whatever a step sends or hands out belongs to a stream that is active and not terminated. */
  lemma StepTraffic(st: State, c: nat, act: Act)
    requires Settled(st) && Enabled(st, c, act)
    ensures forall t :: t in EffectOf(st, c, act).traffic ==>
      Source(t) < |st.heap.streams| && Usable(st.heap, Source(t))
  {
    var pc := PcOf(st, c);
    assert CallerOk(st.heap, c, pc);
    if act.WriteReply? {
      assert EffectOf(st, c, act).traffic == [Written(pc.phase.stream)];
    } else if act.Inspect? && pc.phase.Using? {
      assert EffectOf(st, c, act).traffic != [] ==> EffectOf(st, c, act).traffic == [Received(pc.phase.stream)];
    } else {
      NoTraffic(st, c, act);
    }
  }

  lemma NoTraffic(st: State, c: nat, act: Act)
    requires Enabled(st, c, act)
    requires !act.WriteReply? && !(act.Inspect? && PcOf(st, c).phase.Using?)
    ensures EffectOf(st, c, act).traffic == []
  {
  }

  lemma StepTerminates(st: State, c: nat, act: Act)
    requires Enabled(st, c, act)
    ensures |st.heap.streams| <= |EffectOf(st, c, act).heap.streams|
    ensures forall s :: 0 <= s < |st.heap.streams| ==>
      MoreTerminated(st.heap.streams[s], EffectOf(st, c, act).heap.streams[s])
  {
    var h, pc := st.heap, PcOf(st, c);
    match act {
      case Authorize(answer) => AnsweredTerminates(h, pc.sid, pc.phase, answer);
      case Inspect =>
        if pc.phase.Using? {
          BeginTerminates(h, pc.sid, pc.phase.stream, pc.phase.use);
        }
      case _ =>
    }
  }

  lemma AnsweredTerminates(h: Heap, sid: nat, phase: Phase, answer: Answer)
    requires phase.Authorizing? || (phase.Asking? && phase.stream < |h.streams|)
    ensures var h' := Answered(h, sid, phase, answer).heap;
            |h.streams| <= |h'.streams| && forall s :: 0 <= s < |h.streams| ==> MoreTerminated(h.streams[s], h'.streams[s])
  {
  }

  lemma BeginTerminates(h: Heap, sid: nat, s: nat, use: Use)
    requires Ranged(h) && OnSession(h, s, sid)
    ensures var h' := Begin(h, sid, s, use).heap;
            |h.streams| <= |h'.streams| && forall i :: 0 <= i < |h.streams| ==> MoreTerminated(h.streams[i], h'.streams[i])
  {
  }

  lemma {:induction false} RunLater(run: seq<State>, i: nat, j: nat)
    requires IsRun(run) && i <= j < |run|
    ensures Later(run[i], run[j])
    decreases j - i
  {
    if i < j {
      RunLater(run, i, j - 1);
      LaterAt(run, j);
      LaterTransitive(run[i], run[j - 1], run[j]);
    }
  }

  lemma LaterAt(run: seq<State>, i: nat)
    requires IsRun(run) && 0 < i < |run|
    ensures Later(run[i - 1], run[i])
  {
    RunInv(run, i - 1);
    assert NextAt(run, i - 1);
    NextLater(run[i - 1], run[i]);
  }

  lemma NextLater(st: State, st': State)
    requires Inv(st) && Next(st, st')
    ensures Later(st, st')
  {
    var c: nat, act :| Enabled(st, c, act) && st' == Step(st, c, act);
    StepLater(st, c, act);
  }

  /** Open's decision marks the stream it replaces. */
  lemma ReplacingMarks(st: State, c: nat, p: nat)
    requires StreamsExact(st.heap) && Enabled(st, c, Inspect) && PcOf(st, c).phase.Deciding? && p < |st.heap.streams|
    requires st.heap.objects[PcOf(st, c).sid].active == Some(p)
    requires PcOf(st, c).phase.activated && st.heap.streams[p].fence != PcOf(st, c).phase.fence
    ensures var st' := Step(st, c, Inspect);
            && p < |st'.heap.streams| && st'.heap.streams[p].closed
            && st'.heap.streams[p].terminal == if st.heap.streams[p].terminal.Some? then st.heap.streams[p].terminal else Some(FenceLost)
  {
    assert StreamExact(st.heap, p);
  }

  /** A closed stream is silent in all later states and keeps its terminal error. */
  lemma ClosedIsSilent(st: State, st': State, p: nat)
    requires Later(st, st') && p < |st.heap.streams| && st.heap.streams[p].closed && st.heap.streams[p].terminal.Some?
    ensures p < |st'.heap.streams| && |st.log| <= |st'.log|
    ensures forall k :: |st.log| <= k < |st'.log| ==> Source(st'.log[k]) != p
    ensures st'.heap.streams[p].terminal == st.heap.streams[p].terminal && st'.heap.streams[p].closed
  {
    assert MoreTerminated(st.heap.streams[p], st'.heap.streams[p]);
  }

  /** Once an Open begins replacing stream `p`, no later state of the run shows another write to
      p's upstream or another frame handed out from it, and p's first terminal error stays. */
  lemma ReplacedStreamIsSilent(run: seq<State>, i: nat, j: nat, c: nat, p: nat)
    requires IsRun(run) && i < j < |run|
    requires Enabled(run[i], c, Inspect) && run[i + 1] == Step(run[i], c, Inspect)
    requires PcOf(run[i], c).phase.Deciding?
    requires run[i].heap.objects[PcOf(run[i], c).sid].active == Some(p)
    requires p < |run[i].heap.streams|
    requires PcOf(run[i], c).phase.activated && run[i].heap.streams[p].fence != PcOf(run[i], c).phase.fence
    ensures p < |run[j].heap.streams|
    ensures |run[i + 1].log| <= |run[j].log|
    ensures forall k :: |run[i + 1].log| <= k < |run[j].log| ==> Source(run[j].log[k]) != p
    ensures run[j].heap.streams[p].terminal ==
            if run[i].heap.streams[p].terminal.Some? then run[i].heap.streams[p].terminal else Some(FenceLost)
    ensures run[j].heap.streams[p].closed
  {
    StreamsExactAt(run, i);
    ReplacingMarks(run[i], c, p);
    SilentFrom(run, i + 1, j, p);
  }

  lemma StreamsExactAt(run: seq<State>, i: nat)
    requires IsRun(run) && i < |run|
    ensures StreamsExact(run[i].heap)
  {
    RunInv(run, i);
  }

  lemma SilentFrom(run: seq<State>, i: nat, j: nat, p: nat)
    requires IsRun(run) && i <= j < |run|
    requires p < |run[i].heap.streams| && run[i].heap.streams[p].closed && run[i].heap.streams[p].terminal.Some?
    ensures p < |run[j].heap.streams| && |run[i].log| <= |run[j].log|
    ensures forall k :: |run[i].log| <= k < |run[j].log| ==> Source(run[j].log[k]) != p
    ensures run[j].heap.streams[p].terminal == run[i].heap.streams[p].terminal && run[j].heap.streams[p].closed
  {
    RunLater(run, i, j);
    ClosedIsSilent(run[i], run[j], p);
  }
}
