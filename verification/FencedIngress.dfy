/**
 The private Browser ingress (gateway/cdpfence/ingress.go) as a transition
 system over any number of concurrent callers.

 A step is one section the code runs without interference: a critical section
 of `Ingress.mu`, taking or returning a session gate, or the reply of one
 external call (authority, dial, downstream close, downstream write). Fields
 guarded by a session gate are read and written only by the caller that holds
 that gate, so they are updated together with the neighbouring section.

 Session and stream objects live in two heaps that only grow; their indices are
 object identities. Dropping a session from `sessions` keeps the object, as the
 garbage collector does while anyone still points at it.
 */
module FencedIngress {
  import opened Common

  datatype SessionKey = SessionKey(tenant: string, sandbox: string, browserSession: string)

  /** The opaque bearer claim; the ingress only compares it for equality. */
  type Fence = string

  /** The bounded errors a stream may keep as its terminal result. */
  datatype Reason = FenceLost | Unavailable | ContextEnded

  /** What the fence authority answers. */
  datatype Answer = Denied(reason: Reason) | Granted(activated: bool)

  /** `holder` is None while the gate token is in the channel. */
  datatype Session = Session(key: SessionKey, refs: int, active: Option<nat>, holder: Option<nat>)

  datatype Stream = Stream(
    session: nat, fence: Fence,
    closed: bool, downstreamClosed: bool, terminal: Option<Reason>, refReleased: bool)

  /** The memory shared by all callers. */
  datatype Heap = Heap(
    limit: nat,
    sessions: map<SessionKey, nat>,
    objects: seq<Session>,
    streams: seq<Stream>)

  datatype Use = SendUse | ReceiveUse(arrived: bool) | CloseUse

  /** What a caller wants the gate for. */
  datatype Job = OpenJob(fence: Fence) | UseJob(stream: nat, use: Use)

  /** How far a caller inside a gate has come. */
  datatype Phase =
    | Authorizing(fence: Fence)
    | Deciding(fence: Fence, activated: bool)
    | Replacing(fence: Fence, previous: nat)
    | Dialing(fence: Fence)
    | Publishing(fence: Fence)
    | Failing
    | Using(stream: nat, use: Use)
    | Asking(stream: nat)
    | Writing(stream: nat)
    | Closing(stream: nat)
    | Leaving

  /** `sid` is the session object the caller keeps a pointer to. */
  datatype Pc =
    | Idle
    | Waiting(sid: nat, job: Job)
    | Inside(sid: nat, phase: Phase)
    | Releasing(sid: nat)

  /** What reached, or came back from, an upstream. */
  datatype Traffic = Written(stream: nat) | Received(stream: nat)

  datatype State = State(heap: Heap, pcs: map<nat, Pc>, log: seq<Traffic>)

  datatype Act =
    | Retain(key: SessionKey, fence: Fence)
    | Call(stream: nat, use: Use)
    | Lock
    | GiveUp
    | Authorize(answer: Answer)
    | Inspect
    | CloseReply(ok: bool)
    | DialReply(ok: bool)
    | Publish
    | WriteReply(ok: bool)
    | ReturnGate
    | Release

  // ---------------------------------------------------------------------------
  // The sections that change shared memory.

  /** retainState: find or create the session and take a reference. */
  function Retained(h: Heap, key: SessionKey): (Heap, Option<nat>)
    requires key in h.sessions ==> h.sessions[key] < |h.objects|
  {
    if key in h.sessions then
      var sid := h.sessions[key];
      (h.(objects := h.objects[sid := h.objects[sid].(refs := h.objects[sid].refs + 1)]), Some(sid))
    else if |h.sessions| >= h.limit then
      (h, None)
    else
      var sid := |h.objects|;
      (h.(sessions := h.sessions[key := sid],
          objects := h.objects + [Session(key, 1, None, None)]), Some(sid))
  }

  /** releaseReference: give a reference back, dropping the session with its last one. */
  function Released(h: Heap, sid: nat): Heap
    requires sid < |h.objects|
  {
    var s := h.objects[sid];
    var refs := if s.refs > 0 then s.refs - 1 else s.refs;
    var h' := h.(objects := h.objects[sid := s.(refs := refs)]);
    if refs == 0 && s.key in h.sessions && h.sessions[s.key] == sid
    then h'.(sessions := h.sessions - {s.key})
    else h'
  }

  /** The start of closeLocked: fix the terminal error and mark the stream closed. */
  function Marked(h: Heap, s: nat, reason: Option<Reason>): Heap
    requires s < |h.streams|
  {
    var t := h.streams[s];
    var terminal := if t.terminal == None then reason else t.terminal;
    h.(streams := h.streams[s := t.(terminal := terminal, closed := t.closed || !t.downstreamClosed)])
  }

  /** The end of closeLocked when the downstream confirmed closure. */
  function Confirmed(h: Heap, s: nat): Heap
    requires s < |h.streams| && h.streams[s].session < |h.objects|
  {
    var t := h.streams[s];
    var o := h.objects[t.session];
    var h' := h.(
      streams := h.streams[s := t.(downstreamClosed := true, refReleased := true)],
      objects := h.objects[t.session := o.(active := if o.active == Some(s) then None else o.active)]);
    if t.refReleased then h' else Released(h', t.session)
  }

  /** The end of a successful Open: publish a new stream as the active one. */
  function Published(h: Heap, sid: nat, fence: Fence): Heap
    requires sid < |h.objects|
  {
    h.(streams := h.streams + [Stream(sid, fence, false, false, None, false)],
       objects := h.objects[sid := h.objects[sid].(active := Some(|h.streams|))])
  }

  function WithHolder(h: Heap, sid: nat, holder: Option<nat>): Heap
    requires sid < |h.objects|
  {
    h.(objects := h.objects[sid := h.objects[sid].(holder := holder)])
  }

  /** Send and Receive act only for a stream that is active and not terminated. */
  predicate Usable(h: Heap, s: nat)
    requires s < |h.streams| && h.streams[s].session < |h.objects|
  {
    h.streams[s].terminal == None && !h.streams[s].closed &&
    h.objects[h.streams[s].session].active == Some(s)
  }

  // ---------------------------------------------------------------------------
  // The steps.

  function PcOf(st: State, c: nat): Pc {
    if c in st.pcs then st.pcs[c] else Idle
  }

  /** The streams and the session a caller points at exist and belong together. */
  predicate PcRanged(h: Heap, pc: Pc) {
    match pc
    case Idle => true
    case Waiting(sid, OpenJob(_)) => sid < |h.objects|
    case Waiting(sid, UseJob(s, _)) => sid < |h.objects| && OnSession(h, s, sid)
    case Inside(sid, phase) =>
      sid < |h.objects| &&
      (match phase
       case Replacing(_, p) => OnSession(h, p, sid)
       case Using(s, _) => OnSession(h, s, sid)
       case Asking(s) => OnSession(h, s, sid)
       case Writing(s) => OnSession(h, s, sid)
       case Closing(s) => OnSession(h, s, sid)
       case _ => true)
    case Releasing(sid) => sid < |h.objects|
  }

  predicate OnSession(h: Heap, s: nat, sid: nat) {
    s < |h.streams| && h.streams[s].session == sid
  }

  ghost predicate Ranged(h: Heap) {
    && (forall s :: 0 <= s < |h.streams| ==> h.streams[s].session < |h.objects|)
    && (forall key :: key in h.sessions ==> h.sessions[key] < |h.objects|)
    && (forall sid, s: nat :: 0 <= sid < |h.objects| && h.objects[sid].active == Some(s) ==> s < |h.streams|)
  }

  ghost predicate Enabled(st: State, c: nat, act: Act) {
    var pc := PcOf(st, c);
    && Ranged(st.heap)
    && PcRanged(st.heap, pc)
    && match act
       case Retain(_, _) => pc.Idle?
       case Call(s, _) => pc.Idle? && s < |st.heap.streams|
       case Lock => pc.Waiting? && st.heap.objects[pc.sid].holder == None
       case GiveUp => pc.Waiting?
       case Authorize(_) => pc.Inside? && (pc.phase.Authorizing? || pc.phase.Asking?)
       case Inspect => pc.Inside? && (pc.phase.Deciding? || pc.phase.Using?)
       case CloseReply(_) => pc.Inside? && (pc.phase.Replacing? || pc.phase.Closing?)
       case DialReply(_) => pc.Inside? && pc.phase.Dialing?
       case Publish => pc.Inside? && pc.phase.Publishing?
       case WriteReply(_) => pc.Inside? && pc.phase.Writing?
       case ReturnGate => pc.Inside? && (pc.phase.Failing? || pc.phase.Leaving?)
       case Release => pc.Releasing?
  }

  /** The effect of one step: new shared memory, new place of the caller, traffic. */
  datatype Effect = Effect(heap: Heap, pc: Pc, traffic: seq<Traffic>)

  /** closeLocked called by Send or Close: mark, then await the downstream unless already closed. */
  function BeginClose(h: Heap, sid: nat, s: nat, reason: Option<Reason>, traffic: seq<Traffic>): Effect
    requires s < |h.streams|
  {
    Effect(Marked(h, s, reason), Inside(sid, if h.streams[s].downstreamClosed then Leaving else Closing(s)), traffic)
  }

  /** Open's decision about the currently active stream. */
  function Decide(h: Heap, sid: nat, fence: Fence, activated: bool): Effect
    requires Ranged(h) && sid < |h.objects|
  {
    match h.objects[sid].active
    case None => Effect(h, Inside(sid, Dialing(fence)), [])
    case Some(p) =>
      if h.streams[p].fence == fence || !activated then Effect(h, Inside(sid, Failing), [])
      else
        Effect(Marked(h, p, Some(FenceLost)),
               Inside(sid, if h.streams[p].downstreamClosed then Failing else Replacing(fence, p)), [])
  }

  /** The first thing Send, Receive and Close do once they hold the gate. */
  function Begin(h: Heap, sid: nat, s: nat, use: Use): Effect
    requires Ranged(h) && OnSession(h, s, sid)
  {
    match use
    case SendUse => Effect(h, Inside(sid, if Usable(h, s) then Asking(s) else Leaving), [])
    case ReceiveUse(arrived) =>
      Effect(h, Inside(sid, Leaving), if arrived && Usable(h, s) then [Received(s)] else [])
    case CloseUse => BeginClose(h, sid, s, None, [])
  }

  /** What the authority's answer leads to. */
  function Answered(h: Heap, sid: nat, phase: Phase, answer: Answer): Effect
    requires phase.Authorizing? || (phase.Asking? && phase.stream < |h.streams|)
  {
    match phase
    case Authorizing(fence) =>
      Effect(h, Inside(sid, if answer.Granted? then Deciding(fence, answer.activated) else Failing), [])
    case Asking(s) =>
      if answer.Denied? then BeginClose(h, sid, s, Some(answer.reason), [])
      else if answer.activated then BeginClose(h, sid, s, Some(Unavailable), [])
      else Effect(h, Inside(sid, Writing(s)), [])
  }

  /** The rest of closeLocked, and of Open when it was replacing a stream. */
  function CloseAnswered(h: Heap, sid: nat, phase: Phase, ok: bool): Effect
    requires Ranged(h) && sid < |h.objects|
    requires (phase.Replacing? && OnSession(h, phase.previous, sid)) || (phase.Closing? && OnSession(h, phase.stream, sid))
  {
    match phase
    case Replacing(fence, p) =>
      var h' := if ok then Confirmed(h, p) else h;
      Effect(h', Inside(sid, if h'.objects[sid].active == Some(p) then Failing else Dialing(fence)), [])
    case Closing(s) => Effect(if ok then Confirmed(h, s) else h, Inside(sid, Leaving), [])
  }

  function EffectOf(st: State, c: nat, act: Act): Effect
    requires Enabled(st, c, act)
  {
    var h, pc := st.heap, PcOf(st, c);
    match act
    case Retain(key, fence) =>
      var (h', sid) := Retained(h, key);
      Effect(h', if sid.Some? then Waiting(sid.value, OpenJob(fence)) else Idle, [])
    case Call(s, use) => Effect(h, Waiting(h.streams[s].session, UseJob(s, use)), [])
    case Lock =>
      Effect(WithHolder(h, pc.sid, Some(c)),
             Inside(pc.sid, if pc.job.OpenJob? then Authorizing(pc.job.fence) else Using(pc.job.stream, pc.job.use)), [])
    case GiveUp => Effect(h, if pc.job.OpenJob? then Releasing(pc.sid) else Idle, [])
    case Authorize(answer) => Answered(h, pc.sid, pc.phase, answer)
    case Inspect =>
      if pc.phase.Deciding? then Decide(h, pc.sid, pc.phase.fence, pc.phase.activated)
      else Begin(h, pc.sid, pc.phase.stream, pc.phase.use)
    case CloseReply(ok) => CloseAnswered(h, pc.sid, pc.phase, ok)
    case DialReply(ok) => Effect(h, Inside(pc.sid, if ok then Publishing(pc.phase.fence) else Failing), [])
    case Publish => Effect(Published(h, pc.sid, pc.phase.fence), Inside(pc.sid, Leaving), [])
    case WriteReply(ok) =>
      var s := pc.phase.stream;
      if ok then Effect(h, Inside(pc.sid, Leaving), [Written(s)])
      else BeginClose(h, pc.sid, s, Some(Unavailable), [Written(s)])
    case ReturnGate => Effect(WithHolder(h, pc.sid, None), if pc.phase.Failing? then Releasing(pc.sid) else Idle, [])
    case Release => Effect(Released(h, pc.sid), Idle, [])
  }

  function Step(st: State, c: nat, act: Act): State
    requires Enabled(st, c, act)
  {
    var e := EffectOf(st, c, act);
    State(e.heap, st.pcs[c := e.pc], st.log + e.traffic)
  }
}
