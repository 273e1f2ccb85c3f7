/**
 What a connection does to the outside, as a trace of events, and a monitor that reads the trace and
 says whether the Gateway's rules were kept.
 */
module GatewayTrace {
  import opened Common
  import opened GatewayVerdict
  import opened GatewayModel

  datatype AuditKind =
    | Authorized | Denied | Connected | Reconnected | BackendClosed | GrantRevoked | GrantExpired | ClientClosed
    | ReconnectFailed | CapacityRejected | CapacityDown | CapacityLost | CapacityReleaseFailed
    | RevocationDownEvent | FenceLostEvent | FenceDownEvent

  /** Resolve and Dial carry the port's reply, Watching the reply and the first look at the watch, and
      Ended everything an attempt observed. */
  datatype Event =
    | Granted(grant: Grant, now: Time)
    | TakeLocal | DropLocal
    | TakeLease | DropLease
    | Watching(failure: Error, missing: bool, sight: Signals)
    | Looked(sight: Signals, operation: Error)
    | Audit(kind: AuditKind, recorded: bool)
    | Resolve(reply: Error)
    | Dial(endpoint: Endpoint, now: Time, reply: Error)
    | Opened
    | CloseBackend
    | CloseClient
    | Take(frame: Frame)
    | Deliver(frame: Frame)
    | Lose(frame: Frame)
    | Return(frame: Frame)
    | Ended(sight: Signals, early: Error, caller: Error, first: TransferResult, second: TransferResult)

  datatype Config = Config(request: Request, fenced: bool, leased: bool, maxReconnects: nat)

  datatype Hold = Free | Held | Released

  /** What the last event saw of the authorities, a reply nobody has looked at yet, the error the
      connection must now return, and whether a second look may still overrule it. */
  datatype View = View(look: Option<Signals>, reply: Option<Error>, due: Option<Error>, owed: bool)

  datatype Monitor = Monitor(
    ok: bool, grant: Option<Grant>, local: Hold, lease: Hold, watching: bool, authorized: bool,
    resolves: nat, dials: nat, open: bool, connected: bool,
    pending: Option<Frame>, taken: seq<Frame>, delivered: seq<Frame>, lost: nat, lostHere: bool,
    clientLeft: bool, view: View)

  const BLANK := View(None, None, None, false)
  const FRESH := Monitor(true, None, Free, Free, false, false, 0, 0, false, false, None, [], [], 0, false, false, BLANK)

  /** Everything that must be in place before a handoff is resolved or a backend dialed. */
  predicate Admitted(cfg: Config, m: Monitor) {
    m.grant.Some? && m.local == Held && (cfg.leased ==> m.lease == Held) && m.watching && m.authorized
  }

  /** The very last event was a look that showed nothing raised. */
  predicate JustClear(v: View) {
    v.look.Some? && Clear(v.look.value) && v.due == None
  }

  /** A watch that could not be opened counts as one that has ended: with the context if that
      explains it, else as an outage. */
  function FailedWatch(failure: Error, context: Error): WatchEnd {
    if context == Err({Canceled}) && IsContext(failure) then SaysCanceled
    else if context == Err({DeadlineExceeded}) && IsContext(failure) then SaysDeadline
    else SaysUnavailable
  }

  function WatchSight(failure: Error, missing: bool, s: Signals): Signals {
    if failure != Nil || missing then s.(watch := Some(FailedWatch(failure, s.context))) else s
  }

  /** After a look at `s` on the reply `operation`. */
  function Sighted(cfg: Config, v: View, s: Signals, operation: Error): View {
    var verdict := Due(s, OperationFence(s, cfg.fenced, operation), Nil);
    View(if operation == Nil then Some(s) else None, None, if verdict != Nil then Some(verdict) else v.due, false)
  }

  function ViewAfter(cfg: Config, v: View, e: Event): View {
    match e
    case Watching(failure, missing, s) => Sighted(cfg, v, WatchSight(failure, missing, s), Nil)
    case Looked(s, operation) => Sighted(cfg, v, s, operation)
    case Resolve(reply) => v.(look := None, reply := Some(reply))
    case Dial(_, _, reply) => v.(look := None, reply := Some(reply))
    case Ended(s, early, caller, first, second) =>
      var fence := TransferFence(cfg.fenced, early, [first, second]);
      View(None, v.reply, Demand(s, fence, caller, first), Overrulable(s, fence, caller))
    case _ => v.(look := None)
  }

  predicate Allowed(cfg: Config, m: Monitor, e: Event) {
    match e
    case Granted(g, now) => m.grant == None && m.view.due == None && ValidGrant(g, now) && g.request == cfg.request
    case TakeLocal => m.grant.Some? && m.local == Free && m.view.due == None
    case DropLocal => m.local == Held && m.lease != Held && !m.open && m.pending == None
    case TakeLease => cfg.leased && m.local == Held && m.lease == Free && m.view.due == None
    case DropLease => m.lease == Held && !m.open && m.pending == None
    case Watching(_, _, _) =>
      && m.local == Held && (cfg.leased ==> m.lease == Held) && !m.watching && !m.connected
      && m.view.due == None && m.view.reply == None
    case Looked(_, operation) =>
      !m.connected && (m.view.due == None || m.view.owed) && operation == if m.view.reply.Some? then m.view.reply.value else Nil
    case Audit(kind, recorded) =>
      && (kind == Authorized ==> m.watching && !m.authorized && JustClear(m.view))
      && (kind == Connected || kind == Reconnected ==>
            m.open && !m.connected && JustClear(m.view) && (kind == Connected <==> m.resolves == 1))
      && (kind == ClientClosed ==> m.view.due == None)
    case Resolve(_) =>
      && Admitted(cfg, m) && JustClear(m.view) && !m.open && !m.connected && m.pending == None
      && m.resolves <= cfg.maxReconnects && (cfg.fenced ==> m.lost == 0)
    case Dial(endpoint, now, _) =>
      && Admitted(cfg, m) && JustClear(m.view) && !m.open && m.dials < m.resolves
      && ValidateEndpoint(endpoint, m.grant.value, now) == Nil
    case Opened => !m.open && m.dials == m.resolves > 0 && !m.connected && m.view.reply.Some? && m.view.due == None
    case CloseBackend => true
    case CloseClient => true
    case Take(_) => m.connected && m.pending == None && !m.lostHere
    case Deliver(f) => m.connected && m.pending == Some(f)
    case Lose(f) => m.connected && m.pending == Some(f)
    case Return(_) => m.connected
    case Ended(_, _, _, _, _) => m.connected && m.pending == None && !m.open && m.view.due == None
  }

  function Updated(cfg: Config, m: Monitor, e: Event): Monitor {
    Monitor(
      m.ok,
      if e.Granted? then Some(e.grant) else m.grant,
      if e.TakeLocal? then Held else if e.DropLocal? then Released else m.local,
      if e.TakeLease? then Held else if e.DropLease? then Released else m.lease,
      m.watching || (e.Watching? && e.failure == Nil && !e.missing),
      m.authorized || e == Audit(Authorized, true),
      if e.Resolve? then m.resolves + 1 else m.resolves,
      if e.Dial? then m.resolves else m.dials,
      e.Opened? || (m.open && !e.CloseBackend?),
      !e.Ended? && (m.connected || e == Audit(Connected, true) || e == Audit(Reconnected, true)),
      if e.Take? then Some(e.frame) else if e.Deliver? || e.Lose? then None else m.pending,
      if e.Take? then m.taken + [e.frame] else m.taken,
      if e.Deliver? then m.delivered + [e.frame] else m.delivered,
      if e.Lose? then m.lost + 1 else m.lost,
      !e.Resolve? && (m.lostHere || e.Lose?),
      m.clientLeft || e == Audit(ClientClosed, true),
      ViewAfter(cfg, m.view, e))
  }

  function Next(cfg: Config, m: Monitor, e: Event): Monitor {
    Updated(cfg, m, e).(ok := m.ok && Allowed(cfg, m, e))
  }

  function Observe(cfg: Config, t: seq<Event>): Monitor {
    if t == [] then FRESH else Next(cfg, Observe(cfg, t[..|t| - 1]), t[|t| - 1])
  }

  /** A trace together with what the monitor makes of it. */
  datatype Journal = Journal(trace: seq<Event>, seen: Monitor)

  ghost predicate Faithful(cfg: Config, j: Journal) {
    j.seen == Observe(cfg, j.trace)
  }

  /** The journal stays what the monitor makes of its trace. */
  ghost predicate Extends(cfg: Config, j: Journal, j': Journal) {
    Faithful(cfg, j) ==> Faithful(cfg, j')
  }

  /** Appending an event. */
  function Log(cfg: Config, j: Journal, e: Event): (j': Journal)
    ensures Extends(cfg, j, j')
    ensures j'.trace == j.trace + [e]
    ensures j'.seen == Next(cfg, j.seen, e)
  {
    assert (j.trace + [e])[..|j.trace|] == j.trace;
    Journal(j.trace + [e], Next(cfg, j.seen, e))
  }

  /** A finished connection that kept the rules and left nothing held, open or undecided. */
  ghost predicate Completed(cfg: Config, t: seq<Event>) {
    var m := Observe(cfg, t);
    m.ok && m.local != Held && m.lease != Held && !m.open && !m.connected && m.pending == None && !m.view.owed
  }
}
