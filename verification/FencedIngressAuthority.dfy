/**
 The fenced ingress under an authority that retains a monotone high-water mark per session
 (gateway/port.go, DownstreamFenceAuthority). The mark may also be raised by other ingresses at
 any time; it is never lowered or forgotten. `rank` is the order the authority sees in the opaque
 claims.
 */
module FencedIngressAuthority {
  import opened FencedIngress
  import opened FencedIngressInvariant
  import opened FencedIngressTheorems

  datatype World = World(st: State, marks: map<SessionKey, nat>)

  predicate Covers(marks: map<SessionKey, nat>, key: SessionKey, n: nat) {
    key in marks && marks[key] >= n
  }

  /** What the authority may answer about a claim of rank `n`, and the mark afterwards. */
  predicate Decides(marks: map<SessionKey, nat>, key: SessionKey, n: nat, answer: Answer, marks': map<SessionKey, nat>) {
    match answer
    case Denied(_) => marks' == marks
    case Granted(activated) =>
      if activated then !Covers(marks, key, n) && marks' == marks[key := n]
      else key in marks && marks[key] == n && marks' == marks
  }

  ghost predicate Raised(marks: map<SessionKey, nat>, marks': map<SessionKey, nat>) {
    forall key :: key in marks ==> Covers(marks', key, marks[key])
  }

  /** The claim a caller asks about. */
  function Claim(st: State, c: nat): Fence
    requires PcOf(st, c).Inside? && PcRanged(st.heap, PcOf(st, c))
    requires PcOf(st, c).phase.Authorizing? || PcOf(st, c).phase.Asking?
  {
    var phase := PcOf(st, c).phase;
    if phase.Authorizing? then phase.fence else st.heap.streams[phase.stream].fence
  }

  ghost predicate Moves(rank: Fence -> nat, w: World, w': World, c: nat, act: Act) {
    && Enabled(w.st, c, act)
    && w'.st == Step(w.st, c, act)
    && if act.Authorize?
       then Decides(w.marks, w.st.heap.objects[PcOf(w.st, c).sid].key, rank(Claim(w.st, c)), act.answer, w'.marks)
       else w'.marks == w.marks
  }

  ghost predicate NextWorld(rank: Fence -> nat, w: World, w': World) {
    || (exists c: nat, act :: Moves(rank, w, w', c, act))
    || (w'.st == w.st && Raised(w.marks, w'.marks))
  }

  ghost predicate NextAt(rank: Fence -> nat, run: seq<World>, i: nat) {
    i + 1 < |run| && NextWorld(rank, run[i], run[i + 1])
  }

  ghost predicate IsGuardedRun(rank: Fence -> nat, run: seq<World>) {
    && |run| > 0
    && Init(run[0].st)
    && forall i: nat :: i < |run| - 1 ==> NextAt(rank, run, i)
  }

  function KeyOf(h: Heap, s: nat): SessionKey
    requires s < |h.streams| && h.streams[s].session < |h.objects|
  {
    h.objects[h.streams[s].session].key
  }

  /** The mark covers every claim that was ever let through. */
  ghost predicate StreamsCovered(rank: Fence -> nat, w: World)
    requires Ranged(w.st.heap)
  {
    forall s: nat :: s < |w.st.heap.streams| ==>
      Covers(w.marks, KeyOf(w.st.heap, s), rank(w.st.heap.streams[s].fence))
  }

  predicate Admitted(phase: Phase) {
    phase.Deciding? || phase.Replacing? || phase.Dialing? || phase.Publishing?
  }

  ghost predicate CallerCovered(rank: Fence -> nat, w: World, pc: Pc)
    requires PcRanged(w.st.heap, pc)
  {
    pc.Inside? && Admitted(pc.phase) ==> Covers(w.marks, w.st.heap.objects[pc.sid].key, rank(pc.phase.fence))
  }

  ghost predicate CallersCovered(rank: Fence -> nat, w: World)
    requires Settled(w.st)
  {
    forall c :: c in w.st.pcs ==> CallerCovered(rank, w, w.st.pcs[c])
  }

  /** `s` may follow every write already made on its session key. */
  ghost predicate MayFollow(rank: Fence -> nat, h: Heap, log: seq<Traffic>, s: nat)
    requires Ranged(h) && s < |h.streams|
  {
    forall k :: 0 <= k < |log| && log[k].Written? && log[k].stream < |h.streams| && KeyOf(h, log[k].stream) == KeyOf(h, s) ==>
      rank(h.streams[log[k].stream].fence) <= rank(h.streams[s].fence)
  }

  ghost predicate LogOrdered(rank: Fence -> nat, h: Heap, log: seq<Traffic>)
    requires Ranged(h)
  {
    && (forall k :: 0 <= k < |log| ==> Source(log[k]) < |h.streams|)
    && (forall k :: 0 <= k < |log| && log[k].Written? ==> MayFollow(rank, h, log[..k], log[k].stream))
  }

  ghost predicate WriterFollows(rank: Fence -> nat, h: Heap, log: seq<Traffic>, pc: Pc)
    requires Ranged(h)
  {
    pc.Inside? && pc.phase.Writing? ==>
      pc.phase.stream < |h.streams| && MayFollow(rank, h, log, pc.phase.stream)
  }

  ghost predicate WritersFollow(rank: Fence -> nat, st: State)
    requires Ranged(st.heap)
  {
    forall c :: c in st.pcs ==> WriterFollows(rank, st.heap, st.log, st.pcs[c])
  }

  ghost predicate Guarded(rank: Fence -> nat, w: World) {
    && Inv(w.st)
    && StreamsCovered(rank, w)
    && CallersCovered(rank, w)
    && LogOrdered(rank, w.st.heap, w.st.log)
    && WritersFollow(rank, w.st)
  }

  lemma RaiseGuarded(rank: Fence -> nat, w: World, w': World)
    requires Guarded(rank, w) && w'.st == w.st && Raised(w.marks, w'.marks)
    ensures Guarded(rank, w')
  {
    forall c | c in w.st.pcs ensures CallerCovered(rank, w', w.st.pcs[c]) {
      assert CallerOk(w.st.heap, c, w.st.pcs[c]) && CallerCovered(rank, w, w.st.pcs[c]);
    }
  }

  /** A running stream can never be told that its own claim was activated again. */
  lemma NeverActivatedAgain(rank: Fence -> nat, w: World, w': World, c: nat, act: Act)
    requires Guarded(rank, w) && Moves(rank, w, w', c, act) && act.Authorize? && PcOf(w.st, c).phase.Asking?
    ensures act.answer != Granted(true)
  {
    AskingIsCovered(rank, w, c);
    MovesDecide(rank, w, w', c, act);
  }

  lemma AskingIsCovered(rank: Fence -> nat, w: World, c: nat)
    requires Ranged(w.st.heap) && StreamsCovered(rank, w)
    requires PcOf(w.st, c).Inside? && PcOf(w.st, c).phase.Asking? && PcRanged(w.st.heap, PcOf(w.st, c))
    ensures Covers(w.marks, w.st.heap.objects[PcOf(w.st, c).sid].key, rank(Claim(w.st, c)))
  {
    var s := PcOf(w.st, c).phase.stream;
    assert Covers(w.marks, KeyOf(w.st.heap, s), rank(w.st.heap.streams[s].fence));
  }

  lemma MovesDecide(rank: Fence -> nat, w: World, w': World, c: nat, act: Act)
    requires Moves(rank, w, w', c, act) && act.Authorize?
    ensures PcOf(w.st, c).Inside? && PcRanged(w.st.heap, PcOf(w.st, c))
    ensures Decides(w.marks, w.st.heap.objects[PcOf(w.st, c).sid].key, rank(Claim(w.st, c)), act.answer, w'.marks)
  {
  }

  lemma MovesRaise(rank: Fence -> nat, w: World, w': World, c: nat, act: Act)
    requires Moves(rank, w, w', c, act)
    ensures Raised(w.marks, w'.marks)
  {
  }

  lemma OldStreamCovered(rank: Fence -> nat, w: World, w': World, s: nat)
    requires Ranged(w.st.heap) && Ranged(w'.st.heap) && Extends(w.st.heap, w'.st.heap)
    requires StreamsCovered(rank, w) && Raised(w.marks, w'.marks) && s < |w.st.heap.streams|
    ensures Covers(w'.marks, KeyOf(w'.st.heap, s), rank(w'.st.heap.streams[s].fence))
  {
    assert Covers(w.marks, KeyOf(w.st.heap, s), rank(w.st.heap.streams[s].fence));
  }

  lemma NewStreamCovered(rank: Fence -> nat, w: World, w': World, c: nat)
    requires Settled(w.st) && CallersCovered(rank, w) && Moves(rank, w, w', c, Publish) && Ranged(w'.st.heap)
    ensures var s := |w.st.heap.streams|;
            s < |w'.st.heap.streams| && Covers(w'.marks, KeyOf(w'.st.heap, s), rank(w'.st.heap.streams[s].fence))
  {
    assert CallerOk(w.st.heap, c, PcOf(w.st, c)) && CallerCovered(rank, w, PcOf(w.st, c));
  }

  lemma MovesCoverStreams(rank: Fence -> nat, w: World, w': World, c: nat, act: Act)
    requires Guarded(rank, w) && Moves(rank, w, w', c, act) && Ranged(w'.st.heap)
    ensures StreamsCovered(rank, w')
  {
    MovesRaise(rank, w, w', c, act);
    StepExtends(w.st, c, act);
    OnlyPublishAddsStreams(w.st, c, act);
    forall s: nat | s < |w'.st.heap.streams|
      ensures Covers(w'.marks, KeyOf(w'.st.heap, s), rank(w'.st.heap.streams[s].fence))
    {
      if s < |w.st.heap.streams| {
        OldStreamCovered(rank, w, w', s);
      } else {
        NewStreamCovered(rank, w, w', c);
      }
    }
  }

  lemma OnlyPublishAddsStreams(st: State, c: nat, act: Act)
    requires Enabled(st, c, act)
    ensures |EffectOf(st, c, act).heap.streams| == |st.heap.streams| + (if act.Publish? then 1 else 0)
  {
  }

  /** An Open gets past the authority only with a granted claim, which it keeps. */
  lemma AdmittedFrom(st: State, c: nat, act: Act)
    requires Enabled(st, c, act)
    requires EffectOf(st, c, act).pc.Inside? && Admitted(EffectOf(st, c, act).pc.phase)
    ensures PcOf(st, c).Inside? && PcOf(st, c).sid == EffectOf(st, c, act).pc.sid
    ensures
      || (act.Authorize? && act.answer.Granted? && PcOf(st, c).phase == Authorizing(EffectOf(st, c, act).pc.phase.fence))
      || (!act.Authorize? && Admitted(PcOf(st, c).phase) && PcOf(st, c).phase.fence == EffectOf(st, c, act).pc.phase.fence)
  {
  }

  lemma MoverCovered(rank: Fence -> nat, w: World, w': World, c: nat, act: Act)
    requires Guarded(rank, w) && Moves(rank, w, w', c, act) && Inv(w'.st)
    ensures CallerOk(w'.st.heap, c, w'.st.pcs[c]) && CallerCovered(rank, w', w'.st.pcs[c])
  {
    var e := EffectOf(w.st, c, act);
    assert CallerOk(w'.st.heap, c, w'.st.pcs[c]);
    if e.pc.Inside? && Admitted(e.pc.phase) {
      AdmittedFrom(w.st, c, act);
      StepExtends(w.st, c, act);
      assert CallerOk(w.st.heap, c, PcOf(w.st, c)) && CallerCovered(rank, w, PcOf(w.st, c));
    }
  }

  lemma OtherCovered(rank: Fence -> nat, w: World, w': World, d: nat)
    requires Guarded(rank, w) && Settled(w'.st) && Extends(w.st.heap, w'.st.heap) && Raised(w.marks, w'.marks)
    requires d in w.st.pcs && d in w'.st.pcs && w'.st.pcs[d] == w.st.pcs[d]
    ensures CallerOk(w'.st.heap, d, w'.st.pcs[d]) && CallerCovered(rank, w', w'.st.pcs[d])
  {
    assert CallerOk(w.st.heap, d, w.st.pcs[d]) && CallerCovered(rank, w, w.st.pcs[d]);
  }

  lemma MovesCoverCallers(rank: Fence -> nat, w: World, w': World, c: nat, act: Act)
    requires Guarded(rank, w) && Moves(rank, w, w', c, act) && Inv(w'.st)
    ensures CallersCovered(rank, w')
  {
    MovesRaise(rank, w, w', c, act);
    StepExtends(w.st, c, act);
    forall d | d in w'.st.pcs ensures CallerOk(w'.st.heap, d, w'.st.pcs[d]) && CallerCovered(rank, w', w'.st.pcs[d]) {
      if d == c {
        MoverCovered(rank, w, w', c, act);
      } else {
        OtherCovered(rank, w, w', d);
      }
    }
  }

  // ---------------------------------------------------------------------------
  // The order of the writes.

  /** Old writes keep their stream, key and claim. */
  lemma FollowKept(rank: Fence -> nat, h: Heap, h': Heap, log: seq<Traffic>, s: nat)
    requires Ranged(h) && Ranged(h') && Extends(h, h') && s < |h.streams|
    requires forall k :: 0 <= k < |log| ==> Source(log[k]) < |h.streams|
    requires MayFollow(rank, h, log, s)
    ensures MayFollow(rank, h', log, s)
  {
  }

  lemma OrderKept(rank: Fence -> nat, h: Heap, h': Heap, log: seq<Traffic>)
    requires Ranged(h) && Ranged(h') && Extends(h, h') && LogOrdered(rank, h, log)
    ensures LogOrdered(rank, h', log)
  {
    forall k | 0 <= k < |log| && log[k].Written? ensures MayFollow(rank, h', log[..k], log[k].stream) {
      FollowKept(rank, h, h', log[..k], log[k].stream);
    }
  }

  /** One step adds at most one piece of traffic; a write comes from a caller in the writing phase. */
  lemma StepAdds(st: State, c: nat, act: Act)
    requires Enabled(st, c, act)
    ensures |EffectOf(st, c, act).traffic| <= 1
    ensures forall t :: t in EffectOf(st, c, act).traffic && t.Written? ==>
      PcOf(st, c).Inside? && PcOf(st, c).phase == Writing(t.stream)
  {
  }

  lemma OrderExtended(rank: Fence -> nat, h: Heap, log: seq<Traffic>, t: Traffic)
    requires Ranged(h) && LogOrdered(rank, h, log) && Source(t) < |h.streams|
    requires t.Written? ==> MayFollow(rank, h, log, t.stream)
    ensures LogOrdered(rank, h, log + [t])
  {
    var more := log + [t];
    forall k | 0 <= k < |more| && more[k].Written? ensures MayFollow(rank, h, more[..k], more[k].stream) {
      assert more[..k] == if k < |log| then log[..k] else log;
    }
  }

  lemma MovesOrder(rank: Fence -> nat, w: World, w': World, c: nat, act: Act)
    requires Guarded(rank, w) && Moves(rank, w, w', c, act) && Ranged(w'.st.heap)
    ensures LogOrdered(rank, w'.st.heap, w'.st.log)
  {
    var h, log, e := w.st.heap, w.st.log, EffectOf(w.st, c, act);
    StepAdds(w.st, c, act);
    if e.traffic == [] {
      assert log + e.traffic == log;
    } else {
      var t := e.traffic[0];
      assert e.traffic == [t] && t in e.traffic;
      StepTraffic(w.st, c, act);
      if t.Written? {
        assert WriterFollows(rank, h, log, w.st.pcs[c]);
      }
      OrderExtended(rank, h, log, t);
    }
    StepExtends(w.st, c, act);
    OrderKept(rank, h, e.heap, log + e.traffic);
  }

  /** Two callers cannot be writing on the same session key. */
  lemma OneWriter(st: State, c: nat, d: nat)
    requires Inv(st) && c in st.pcs && d in st.pcs && st.pcs[c].Inside? && st.pcs[d].Inside?
    requires st.pcs[c].phase.Writing? && st.pcs[d].phase.Writing?
    requires CallerOk(st.heap, c, st.pcs[c]) && CallerOk(st.heap, d, st.pcs[d])
    requires KeyOf(st.heap, st.pcs[c].phase.stream) == KeyOf(st.heap, st.pcs[d].phase.stream)
    ensures c == d
  {
    var s, t := st.pcs[c].phase.stream, st.pcs[d].phase.stream;
    UsableIsUnconfirmed(st.heap, s);
    UsableIsUnconfirmed(st.heap, t);
    OneUpstream(st, KeyOf(st.heap, s), OfStream(s), OfStream(t));
  }

  lemma UsableIsUnconfirmed(h: Heap, s: nat)
    requires Ranged(h) && StreamsExact(h) && s < |h.streams| && Usable(h, s)
    ensures !h.streams[s].downstreamClosed
  {
  }

  /** Only the authority's plain approval of a Send makes a caller a writer. */
  lemma BecomesWriter(st: State, c: nat, act: Act)
    requires Enabled(st, c, act)
    requires EffectOf(st, c, act).pc.Inside? && EffectOf(st, c, act).pc.phase.Writing?
    ensures act == Authorize(Granted(false))
    ensures PcOf(st, c) == Inside(EffectOf(st, c, act).pc.sid, Asking(EffectOf(st, c, act).pc.phase.stream))
    ensures EffectOf(st, c, act).heap == st.heap && EffectOf(st, c, act).traffic == []
  {
  }

  /** A claim that equals the mark may follow everything written before. */
  lemma CurrentFollows(rank: Fence -> nat, w: World, s: nat)
    requires Ranged(w.st.heap) && StreamsCovered(rank, w) && LogOrdered(rank, w.st.heap, w.st.log)
    requires s < |w.st.heap.streams|
    requires KeyOf(w.st.heap, s) in w.marks && w.marks[KeyOf(w.st.heap, s)] == rank(w.st.heap.streams[s].fence)
    ensures MayFollow(rank, w.st.heap, w.st.log, s)
  {
  }

  lemma NewWriter(rank: Fence -> nat, w: World, w': World, c: nat, act: Act)
    requires Guarded(rank, w) && Moves(rank, w, w', c, act) && Ranged(w'.st.heap)
    ensures WriterFollows(rank, w'.st.heap, w'.st.log, w'.st.pcs[c])
  {
    var e := EffectOf(w.st, c, act);
    if e.pc.Inside? && e.pc.phase.Writing? {
      BecomesWriter(w.st, c, act);
      MovesDecide(rank, w, w', c, act);
      CurrentFollows(rank, w, e.pc.phase.stream);
      assert w'.st.log == w.st.log;
    }
  }

  /** A write by someone else on another key does not disturb a writer. */
  lemma FollowExtended(rank: Fence -> nat, h: Heap, log: seq<Traffic>, more: seq<Traffic>, s: nat)
    requires Ranged(h) && s < |h.streams| && MayFollow(rank, h, log, s)
    requires forall t :: t in more && t.Written? ==> t.stream < |h.streams| && KeyOf(h, t.stream) != KeyOf(h, s)
    ensures MayFollow(rank, h, log + more, s)
  {
  }

  lemma OtherWrites(st: State, c: nat, act: Act, d: nat)
    requires Inv(st) && Enabled(st, c, act)
    requires d in st.pcs && d != c && st.pcs[d].Inside? && st.pcs[d].phase.Writing?
    ensures st.pcs[d].phase.stream < |st.heap.streams|
    ensures forall t :: t in EffectOf(st, c, act).traffic && t.Written? ==>
      t.stream < |st.heap.streams| && KeyOf(st.heap, t.stream) != KeyOf(st.heap, st.pcs[d].phase.stream)
  {
    StepAdds(st, c, act);
    assert CallerOk(st.heap, d, st.pcs[d]);
    forall t | t in EffectOf(st, c, act).traffic && t.Written?
      ensures t.stream < |st.heap.streams| && KeyOf(st.heap, t.stream) != KeyOf(st.heap, st.pcs[d].phase.stream)
    {
      assert CallerOk(st.heap, c, st.pcs[c]);
      if KeyOf(st.heap, t.stream) == KeyOf(st.heap, st.pcs[d].phase.stream) {
        OneWriter(st, c, d);
      }
    }
  }

  lemma OldWriter(rank: Fence -> nat, w: World, w': World, c: nat, act: Act, d: nat)
    requires Guarded(rank, w) && Moves(rank, w, w', c, act) && Ranged(w'.st.heap)
    requires d in w.st.pcs && d != c
    ensures WriterFollows(rank, w'.st.heap, w'.st.log, w.st.pcs[d])
  {
    var h, pc, e := w.st.heap, w.st.pcs[d], EffectOf(w.st, c, act);
    if pc.Inside? && pc.phase.Writing? {
      assert WriterFollows(rank, h, w.st.log, pc);
      OtherWrites(w.st, c, act, d);
      FollowExtended(rank, h, w.st.log, e.traffic, pc.phase.stream);
      StepExtends(w.st, c, act);
      TrafficRanged(w.st, c, act);
      FollowKept(rank, h, e.heap, w.st.log + e.traffic, pc.phase.stream);
    }
  }

  lemma TrafficRanged(st: State, c: nat, act: Act)
    requires Inv(st) && Enabled(st, c, act)
    requires forall k :: 0 <= k < |st.log| ==> Source(st.log[k]) < |st.heap.streams|
    ensures forall k :: 0 <= k < |st.log + EffectOf(st, c, act).traffic| ==>
      Source((st.log + EffectOf(st, c, act).traffic)[k]) < |st.heap.streams|
  {
    StepTraffic(st, c, act);
    var e := EffectOf(st, c, act);
    forall k | |st.log| <= k < |st.log + e.traffic| ensures Source((st.log + e.traffic)[k]) < |st.heap.streams| {
      assert e.traffic[k - |st.log|] in e.traffic;
    }
  }

  lemma MovesWriters(rank: Fence -> nat, w: World, w': World, c: nat, act: Act)
    requires Guarded(rank, w) && Moves(rank, w, w', c, act) && Ranged(w'.st.heap)
    ensures WritersFollow(rank, w'.st)
  {
    forall d | d in w'.st.pcs
      ensures WriterFollows(rank, w'.st.heap, w'.st.log, w'.st.pcs[d])
    {
      if d == c {
        NewWriter(rank, w, w', c, act);
      } else {
        OldWriter(rank, w, w', c, act, d);
      }
    }
  }

  lemma MovesGuarded(rank: Fence -> nat, w: World, w': World, c: nat, act: Act)
    requires Guarded(rank, w) && Moves(rank, w, w', c, act)
    ensures Guarded(rank, w')
  {
    StepInv(w.st, c, act);
    MovesCoverStreams(rank, w, w', c, act);
    MovesCoverCallers(rank, w, w', c, act);
    MovesOrder(rank, w, w', c, act);
    MovesWriters(rank, w, w', c, act);
  }

  lemma {:induction false} GuardedRun(rank: Fence -> nat, run: seq<World>, i: nat)
    requires IsGuardedRun(rank, run) && i < |run|
    ensures Guarded(rank, run[i])
  {
    if i == 0 {
      NewIsGuarded(rank, run[0]);
    } else {
      GuardedRun(rank, run, i - 1);
      GuardedAt(rank, run, i);
    }
  }

  lemma NewIsGuarded(rank: Fence -> nat, w: World)
    requires Init(w.st)
    ensures Guarded(rank, w)
  {
    NewInv(w.st);
  }

  lemma GuardedAt(rank: Fence -> nat, run: seq<World>, i: nat)
    requires IsGuardedRun(rank, run) && 0 < i < |run| && Guarded(rank, run[i - 1])
    ensures Guarded(rank, run[i])
  {
    assert NextAt(rank, run, i - 1);
    NextGuarded(rank, run[i - 1], run[i]);
  }

  lemma NextGuarded(rank: Fence -> nat, w: World, w': World)
    requires Guarded(rank, w) && NextWorld(rank, w, w')
    ensures Guarded(rank, w')
  {
    if w'.st == w.st && Raised(w.marks, w'.marks) {
      RaiseGuarded(rank, w, w');
    } else {
      var c: nat, act :| Moves(rank, w, w', c, act);
      MovesGuarded(rank, w, w', c, act);
    }
  }

  /** With a monotone authority the claims of the writes reaching one session never decrease,
      across takeovers, reconnects and recreated session objects. */
  lemma WritesNeverDecrease(rank: Fence -> nat, run: seq<World>, i: nat, j: nat, k: nat)
    requires IsGuardedRun(rank, run) && i < |run|
    requires j < k < |run[i].st.log| && run[i].st.log[j].Written? && run[i].st.log[k].Written?
    ensures Ranged(run[i].st.heap)
    ensures run[i].st.log[j].stream < |run[i].st.heap.streams| && run[i].st.log[k].stream < |run[i].st.heap.streams|
    ensures var h, s, t := run[i].st.heap, run[i].st.log[j].stream, run[i].st.log[k].stream;
            KeyOf(h, s) == KeyOf(h, t) ==> rank(h.streams[s].fence) <= rank(h.streams[t].fence)
  {
    GuardedRun(rank, run, i);
    var log := run[i].st.log;
    assert MayFollow(rank, run[i].st.heap, log[..k], log[k].stream);
    assert log[..k][j] == log[j];
  }

  /** Send's "activated again" branch is unreachable under a monotone authority. */
  lemma SendNeverReactivates(rank: Fence -> nat, run: seq<World>, i: nat, w: World, c: nat, act: Act)
    requires IsGuardedRun(rank, run) && i < |run|
    requires Moves(rank, run[i], w, c, act) && act.Authorize? && PcOf(run[i].st, c).phase.Asking?
    ensures act.answer != Granted(true)
  {
    GuardedRun(rank, run, i);
    NeverActivatedAgain(rank, run[i], w, c, act);
  }
}
