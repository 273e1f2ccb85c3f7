/**
 Gateway.Connect (gateway/application.go) against ports that answer anything. Every method extends
 the trace of what the connection did; the frames the client will ever offer are `client`.
 */
module GatewayRun {
  import opened Common
  import opened GatewayVerdict
  import opened GatewayModel
  import opened GatewayTrace

  datatype Outcome = Finished(err: Error) | Again

  // ---------------------------------------------------------------------------
  // Ports.

  method SomeError() returns (e: Error) {
    e := *;
  }

  method Failure() returns (e: Error)
    ensures e != Nil
  {
    e := *;
    if e == Nil {
      e := Err({});
    }
  }

  /** A context's Err. */
  method ContextError() returns (e: Error)
    ensures OfContext(e)
  {
    e := *;
    if !OfContext(e) {
      e := Nil;
    }
  }

  /** The watch, the clock, and the cause and error of the context, all at one moment. */
  method Sight() returns (s: Signals)
    ensures OfContext(s.context)
  {
    s := *;
    var context := ContextError();
    s := Signals(s.watch, s.expired, s.cause, context);
  }

  /** A later moment. */
  method LaterSight(was: Signals) returns (s: Signals)
    requires OfContext(was.context)
    ensures OfContext(s.context) && Persists(was, s)
  {
    s := Sight();
    s := Signals(if was.watch.Some? then was.watch else s.watch, s.expired,
                 if was.cause != Nil then was.cause else s.cause,
                 if was.context != Nil then was.context else s.context);
  }

  method Coin() returns (b: bool) {
    b := *;
  }

  method Clock() returns (now: Time) {
    now := *;
  }

  /** An event in between keeps what is to be answered. */
  ghost predicate SameDue(v: View, v': View) {
    v'.reply == v.reply && v'.due == v.due && v'.owed == v.owed
  }

  /** Record an audit event that the monitor does not follow. */
  method Note(cfg: Config, j: Journal, kind: AuditKind) returns (j': Journal, ok: bool)
    requires kind != Authorized && kind != Connected && kind != Reconnected && kind != ClientClosed
    ensures Extends(cfg, j, j') && j'.seen == j.seen.(view := j'.seen.view) && SameDue(j.seen.view, j'.seen.view)
  {
    ok := Coin();
    j' := Log(cfg, j, Audit(kind, ok));
  }

  /** client.Close */
  method HangUp(cfg: Config, j: Journal) returns (j': Journal)
    ensures Extends(cfg, j, j') && j'.seen == j.seen.(view := j'.seen.view) && SameDue(j.seen.view, j'.seen.view)
  {
    j' := Log(cfg, j, CloseClient);
  }

  /** backend.Close */
  method Shut(cfg: Config, j: Journal) returns (j': Journal)
    ensures Extends(cfg, j, j') && j'.seen == j.seen.(open := false, view := j'.seen.view) && SameDue(j.seen.view, j'.seen.view)
  {
    j' := Log(cfg, j, CloseBackend);
  }

  /** recordAuthorityTermination and recordBoundaryTermination. */
  method NoteTermination(cfg: Config, j: Journal, err: Error) returns (j': Journal)
    ensures Extends(cfg, j, j') && j'.seen == j.seen.(view := j'.seen.view) && SameDue(j.seen.view, j'.seen.view)
  {
    var ok;
    j' := j;
    if Is(err, FenceLost) {
      j', ok := Note(cfg, j, FenceLostEvent);
    } else if Is(err, DownstreamUnavailable) {
      j', ok := Note(cfg, j, FenceDownEvent);
    } else if Is(err, Revoked) {
      j', ok := Note(cfg, j, GrantRevoked);
    } else if Is(err, Expired) {
      j', ok := Note(cfg, j, GrantExpired);
    } else if Is(err, RevocationUnavailable) {
      j', ok := Note(cfg, j, RevocationDownEvent);
    }
  }

  // ---------------------------------------------------------------------------
  // Looking at the authorities.

  /** Nothing is to be answered yet. */
  ghost predicate Undecided(v: View) {
    v.due == None && !v.owed
  }

  /** After a look: a verdict is due, or the view is undecided. */
  ghost predicate Judged(v: View, err: Error) {
    v.reply == None && !v.owed && v.due == if err == Nil then None else Some(err)
  }

  /** authorityError */
  method CheckAuthorities(cfg: Config, j: Journal) returns (j': Journal, err: Error)
    requires j.seen.ok && !j.seen.connected && Undecided(j.seen.view) && j.seen.view.reply == None
    ensures Extends(cfg, j, j') && j'.seen == j.seen.(view := j'.seen.view)
    ensures Judged(j'.seen.view, err) && (err == Nil ==> JustClear(j'.seen.view))
  {
    var s := Sight();
    LooksFollowOrder(s, cfg.fenced, Nil);
    j' := Log(cfg, j, Looked(s, Nil));
    err := AuthorityError(s);
  }

  /** externalBoundaryError, after a resolve or a dial replied `operation`. */
  method CheckBoundary(cfg: Config, j: Journal, operation: Error) returns (j': Journal, err: Error)
    requires j.seen.ok && !j.seen.connected && Undecided(j.seen.view) && j.seen.view.reply == Some(operation)
    ensures Extends(cfg, j, j') && j'.seen == j.seen.(view := j'.seen.view)
    ensures Judged(j'.seen.view, err) && (err == Nil && operation == Nil ==> JustClear(j'.seen.view))
  {
    var s := Sight();
    LooksFollowOrder(s, cfg.fenced, operation);
    j' := Log(cfg, j, Looked(s, operation));
    err := ExternalBoundaryError(s, cfg.fenced, operation);
  }

  /** capacityContextError, or the first capacity event: only the cause is read. */
  method CheckCapacity(cfg: Config, j: Journal) returns (j': Journal, err: Error)
    requires j.seen.ok && !j.seen.connected && Undecided(j.seen.view) && j.seen.view.reply == None
    ensures Extends(cfg, j, j') && j'.seen == j.seen.(view := j'.seen.view)
    ensures Judged(j'.seen.view, err)
  {
    var cause := SomeError();
    LooksFollowOrder(Signals(None, false, cause, Nil), cfg.fenced, Nil);
    j' := Log(cfg, j, Looked(Signals(None, false, cause, Nil), Nil));
    err := CapacityError(cause);
  }

  // ---------------------------------------------------------------------------
  // One proxied attempt.

  /** An attempt may begin: the backend is open and recorded as connected. */
  ghost predicate Proxying(cfg: Config, m: Monitor) {
    m.ok && m.open && m.connected && m.pending == None && !m.lostHere && Undecided(m.view) && m.view.reply == None
  }

  /** What an attempt may change. */
  ghost predicate SameButFrames(m: Monitor, n: Monitor) {
    && n == m.(open := n.open, pending := n.pending, taken := n.taken, delivered := n.delivered, lost := n.lost,
               lostHere := n.lostHere, view := n.view)
    && SameDue(m.view, n.view)
  }

  /** While the pumps run: what the client-to-backend pump holds, and whether it lost a frame. */
  ghost predicate Pumping(start: Monitor, m: Monitor, holding: Option<Frame>, up: Option<TransferResult>) {
    && m.ok && SameButFrames(start, m) && m.pending == holding
    && m.lost == start.lost + (if m.lostHere then 1 else 0)
    && (m.lostHere <==> up.Some? && up.value.side == BackendSide)
    && (up.Some? && up.value.side == BackendSide ==> up.value.writeFailed)
    && (up.Some? ==> holding == None)
  }

  /** One move of the client-to-backend transfer: receive a frame, or send the one it holds. */
  method PumpUp(cfg: Config, j: Journal, client: seq<Frame>, holding: Option<Frame>, ghost start: Monitor)
    returns (j': Journal, client': seq<Frame>, holding': Option<Frame>, up: Option<TransferResult>)
    requires Proxying(cfg, start) && Pumping(start, j.seen, holding, None)
    ensures Extends(cfg, j, j') && Pumping(start, j'.seen, holding', up) && j'.seen.open == j.seen.open
    ensures up.None? ==> 2 * |client'| + (if holding'.Some? then 1 else 0) < 2 * |client| + (if holding.Some? then 1 else 0)
    ensures |client'| <= |client| && client' == client[|client| - |client'|..]
    ensures j'.seen.taken == j.seen.taken + client[..|client| - |client'|]
  {
    if holding.None? {
      j', client', holding', up := PumpReceive(cfg, j, client, start);
    } else {
      client', holding' := client, None;
      j', up := PumpSend(cfg, j, holding.value, start);
    }
    assert client[..0] == [];
  }

  method PumpReceive(cfg: Config, j: Journal, client: seq<Frame>, ghost start: Monitor)
    returns (j': Journal, client': seq<Frame>, holding: Option<Frame>, up: Option<TransferResult>)
    requires Proxying(cfg, start) && Pumping(start, j.seen, None, None)
    ensures Extends(cfg, j, j') && Pumping(start, j'.seen, holding, up) && j'.seen.open == j.seen.open
    ensures if up.Some? then client' == client && j' == j && holding == None
            else client != [] && client' == client[1..] && holding == Some(client[0]) && j'.seen.taken == j.seen.taken + [client[0]]
  {
    j', client', holding, up := j, client, None, None;
    var fails := Coin();
    if client == [] || fails {
      var e := Failure();
      up := Some(TransferResult(ClientSide, false, e));
    } else {
      j' := Log(cfg, j, Take(client[0]));
      holding, client' := Some(client[0]), client[1..];
    }
  }

  method PumpSend(cfg: Config, j: Journal, frame: Frame, ghost start: Monitor)
    returns (j': Journal, up: Option<TransferResult>)
    requires Proxying(cfg, start) && Pumping(start, j.seen, Some(frame), None)
    ensures Extends(cfg, j, j') && Pumping(start, j'.seen, None, up)
    ensures j'.seen.open == j.seen.open && j'.seen.taken == j.seen.taken
  {
    up := None;
    var fails := Coin();
    if fails {
      var e := Failure();
      j' := Log(cfg, j, Lose(frame));
      up := Some(TransferResult(BackendSide, true, e));
    } else {
      j' := Log(cfg, j, Deliver(frame));
    }
  }

  /** One move of the backend-to-client transfer. */
  method PumpDown(cfg: Config, j: Journal, backend: seq<Frame>)
    returns (j': Journal, backend': seq<Frame>, down: Option<TransferResult>)
    requires j.seen.ok && j.seen.connected
    ensures Extends(cfg, j, j') && j'.seen == j.seen.(view := j'.seen.view) && SameDue(j.seen.view, j'.seen.view)
    ensures down.None? ==> |backend'| < |backend|
    ensures |backend'| <= |backend|
  {
    j', backend', down := j, backend, None;
    var fails := Coin();
    if backend == [] || fails {
      var e := Failure();
      down := Some(TransferResult(BackendSide, false, e));
      return;
    }
    backend' := backend[1..];
    var writeFails := Coin();
    if writeFails {
      var e := Failure();
      down := Some(TransferResult(ClientSide, true, e));
      return;
    }
    j' := Log(cfg, j, Return(backend[0]));
  }

  /** After the select: settle what was observed, close the backend, and the client when an authority
      stopped the attempt. */
  method Wake(cfg: Config, j: Journal, arm: Option<Arm>) returns (j': Journal, g: Glance, revoked: bool, expired: bool)
    ensures Extends(cfg, j, j') && j'.seen == j.seen.(open := false, view := j'.seen.view) && SameDue(j.seen.view, j'.seen.view)
    ensures OfContext(g.context) && revoked == (g.watch == Some(SaysRevoked)) && expired == Observed(arm, g).expired
  {
    var s := Sight();
    var timer := Coin();
    var late := Coin();
    g := Glance(s.watch, timer, late, s.cause, s.context);
    var haveFirst, stopped;
    revoked, expired, haveFirst, stopped := Settle(arm, g);
    j' := Shut(cfg, j);
    if stopped {
      j' := HangUp(cfg, j');
    }
  }

  /** The two transfers of an attempt on their way. */
  datatype Pumps = Pumps(
    journal: Journal, client: seq<Frame>, backend: seq<Frame>, holding: Option<Frame>,
    up: Option<TransferResult>, down: Option<TransferResult>, ended: seq<TransferResult>,
    woken: bool, glance: Glance, revoked: bool, expired: bool)
  {
    function Running(): nat {
      (if up.None? then 1 else 0) + (if down.None? then 1 else 0)
    }

    function Work(): nat {
      2 * |client| + (if holding.Some? then 1 else 0) + |backend|
    }
  }

  ghost predicate PumpsOk(cfg: Config, j: Journal, client: seq<Frame>, p: Pumps) {
    && Extends(cfg, j, p.journal)
    && Pumping(j.seen, p.journal.seen, p.holding, p.up)
    && (p.woken ==> !p.journal.seen.open && OfContext(p.glance.context))
    && (p.woken ==> p.revoked == (p.glance.watch == Some(SaysRevoked)))
    && p.journal.seen.taken + p.client == j.seen.taken + client
    && |p.ended| + p.Running() == 2
    && (p.up.Some? ==> p.up.value in p.ended)
  }

  /** The pumps do not mind what happens to the view and to the backend's being open. */
  lemma PumpingGoesOn(start: Monitor, m: Monitor, m': Monitor, holding: Option<Frame>, up: Option<TransferResult>)
    requires Pumping(start, m, holding, up) && m' == m.(open := m'.open, view := m'.view) && SameDue(m.view, m'.view)
    ensures Pumping(start, m', holding, up)
  {
  }

  method MoveUp(cfg: Config, p: Pumps, ghost j: Journal, ghost client: seq<Frame>) returns (p': Pumps)
    requires Proxying(cfg, j.seen) && PumpsOk(cfg, j, client, p) && p.up.None?
    ensures PumpsOk(cfg, j, client, p')
    ensures p'.Running() < p.Running() || (p'.Running() == p.Running() && p'.Work() < p.Work())
  {
    var journal, rest, holding, up := PumpUp(cfg, p.journal, p.client, p.holding, j.seen);
    assert p.client == p.client[..|p.client| - |rest|] + rest;
    p' := p.(journal := journal, client := rest, holding := holding, up := up,
             ended := if up.Some? then p.ended + [up.value] else p.ended);
  }

  method MoveDown(cfg: Config, p: Pumps, ghost j: Journal, ghost client: seq<Frame>) returns (p': Pumps)
    requires Proxying(cfg, j.seen) && PumpsOk(cfg, j, client, p) && p.down.None?
    ensures PumpsOk(cfg, j, client, p')
    ensures p'.Running() < p.Running() || (p'.Running() == p.Running() && p'.Work() < p.Work())
  {
    var journal, rest, down := PumpDown(cfg, p.journal, p.backend);
    PumpingGoesOn(j.seen, p.journal.seen, journal.seen, p.holding, p.up);
    p' := p.(journal := journal, backend := rest, down := down,
             ended := if down.Some? then p.ended + [down.value] else p.ended);
  }

  /** The select wakes once. */
  method MaybeWake(cfg: Config, p: Pumps, must: bool, ghost j: Journal, ghost client: seq<Frame>) returns (p': Pumps)
    requires PumpsOk(cfg, j, client, p)
    ensures PumpsOk(cfg, j, client, p') && (must ==> p'.woken)
    ensures p'.Running() == p.Running() && p'.Work() == p.Work() && p'.ended == p.ended
  {
    p' := p;
    var now := Coin();
    var arm: Option<Arm> := *;
    if !p.woken && (must || (now && (arm == Some(FromTransfer) ==> p.ended != []))) {
      var journal, g, revoked, expired := Wake(cfg, p.journal, arm);
      PumpingGoesOn(j.seen, p.journal.seen, journal.seen, p.holding, p.up);
      p' := p.(journal := journal, woken := true, glance := g, revoked := revoked, expired := expired);
    }
  }

  /** Both transfers, interleaved in any way, until both have reported. The select may wake at any
      time, at the latest after both results are in. */
  method Proxy(cfg: Config, j: Journal, client: seq<Frame>)
    returns (j': Journal, rest: seq<Frame>, g: Glance, revoked: bool, expired: bool,
             first: TransferResult, second: TransferResult)
    requires Proxying(cfg, j.seen)
    ensures Extends(cfg, j, j')
    ensures var m, m' := j.seen, j'.seen;
            && m'.ok && SameButFrames(m, m') && !m'.open && m'.pending == None
            && m'.lost == m.lost + (if m'.lostHere then 1 else 0)
            && (m'.lostHere ==> (first.side == BackendSide && first.writeFailed) ||
                                (second.side == BackendSide && second.writeFailed))
            && m'.taken + rest == m.taken + client
    ensures OfContext(g.context) && revoked == (g.watch == Some(SaysRevoked))
  {
    var backend: seq<Frame> := *;
    var p := Pumps(j, client, backend, None, None, None, [], false, Glance(None, false, false, Nil, Nil), false, false);
    while p.Running() > 0
      invariant PumpsOk(cfg, j, client, p)
      decreases p.Running(), p.Work()
    {
      var upward := Coin();
      if p.up.None? && (upward || p.down.Some?) {
        p := MoveUp(cfg, p, j, client);
      } else {
        p := MoveDown(cfg, p, j, client);
      }
      p := MaybeWake(cfg, p, false, j, client);
    }
    p := MaybeWake(cfg, p, true, j, client);
    j', rest, first, second := p.journal, p.client, p.ended[0], p.ended[1];
    g, revoked, expired := p.glance, p.revoked, p.expired;
  }

  // ---------------------------------------------------------------------------
  // One round of the reconnect loop.

  /** Ready to resolve: everything is admitted, no backend is open, and `reconnects` rounds are done. */
  ghost predicate Ready(cfg: Config, m: Monitor, reconnects: nat) {
    && m.ok && Admitted(cfg, m) && !m.open && !m.connected && m.pending == None
    && Undecided(m.view) && m.view.reply == None
    && m.resolves == reconnects <= cfg.maxReconnects
    && m.dials <= m.resolves
    && (cfg.fenced ==> m.lost == 0)
  }

  /** The outcome is the verdict that is due, if one is. */
  ghost predicate Answers(v: View, out: Outcome) {
    v.reply == None && !v.owed && (v.due.Some? ==> out == Finished(v.due.value))
  }

  /** waitReconnect: an authority may stop the wait. */
  method Wait(cfg: Config, j: Journal) returns (j': Journal, err: Error)
    requires j.seen.ok && !j.seen.connected && Undecided(j.seen.view) && j.seen.view.reply == None
    ensures Extends(cfg, j, j') && j'.seen == j.seen.(view := j'.seen.view) && Judged(j'.seen.view, err)
  {
    j', err := CheckAuthorities(cfg, j);
    var slept := Coin();
    if err == Nil && slept {
      j', err := CheckAuthorities(cfg, j');
    }
  }

  /** End the connection: record the termination and close the client. */
  method Terminate(cfg: Config, j: Journal, err: Error) returns (j': Journal)
    ensures Extends(cfg, j, j') && j'.seen == j.seen.(view := j'.seen.view) && SameDue(j.seen.view, j'.seen.view)
  {
    j' := NoteTermination(cfg, j, err);
    j' := HangUp(cfg, j');
  }

  /** The end of a round whose backend is gone or never came: stop at the limit, else wait, and stop
      with whatever an authority says meanwhile. */
  method Reconnect(cfg: Config, j: Journal, reconnects: nat, exhausted: Error) returns (j': Journal, out: Outcome)
    requires exhausted != Nil
    requires j.seen.ok && !j.seen.connected && Undecided(j.seen.view) && j.seen.view.reply == None
    ensures out != Finished(Nil)
    ensures Extends(cfg, j, j') && j'.seen == j.seen.(view := j'.seen.view) && Answers(j'.seen.view, out)
    ensures out.Again? <==> reconnects < cfg.maxReconnects && j'.seen.view.due == None
  {
    j' := j;
    if reconnects >= cfg.maxReconnects {
      var ok;
      j', ok := Note(cfg, j', ReconnectFailed);
      j' := HangUp(cfg, j');
      return j', Finished(exhausted);
    }
    var err;
    j', err := Wait(cfg, j');
    if err != Nil {
      j' := Terminate(cfg, j', err);
      return j', Finished(err);
    }
    return j', Again;
  }

  /** contextResult: a capacity loss by now explains an ended context. */
  method ContextResult(fallback: Error) returns (err: Error)
    ensures fallback != Nil ==> err != Nil
    ensures err == fallback || Is(err, CapacityUnavailable)
  {
    var cause := SomeError();
    err := if CapacityError(cause) != Nil then CapacityError(cause) else fallback;
  }

  /** Look, resolve a handoff, look again, check it, and dial it. */
  method Reach(cfg: Config, j: Journal, grant: Grant, reconnects: nat)
    returns (j': Journal, stop: Option<Outcome>)
    requires Ready(cfg, j.seen, reconnects) && j.seen.grant == Some(grant)
    ensures Extends(cfg, j, j')
    ensures j'.seen == j.seen.(resolves := j'.seen.resolves, dials := j'.seen.dials, open := j'.seen.open,
                               lostHere := j'.seen.lostHere, view := j'.seen.view)
    ensures stop.None? ==> j'.seen.open && j'.seen.dials == j'.seen.resolves == reconnects + 1
    ensures stop.None? ==> !j'.seen.lostHere && Undecided(j'.seen.view) && j'.seen.view.reply == None
    ensures stop.Some? ==> !j'.seen.open && Answers(j'.seen.view, stop.value)
    ensures j'.seen.resolves <= reconnects + 1 && stop != Some(Finished(Nil))
    ensures stop == Some(Again) ==> reconnects < cfg.maxReconnects && j'.seen.resolves == reconnects + 1 && j'.seen.dials <= reconnects + 1
  {
    var err;
    j', err := CheckAuthorities(cfg, j);
    if err != Nil {
      j' := Terminate(cfg, j', err);
      return j', Some(Finished(err));
    }
    var now := Clock();
    var endpoint: Endpoint := *;
    var failure := SomeError();
    j' := Log(cfg, j', Resolve(failure));
    j', err := CheckBoundary(cfg, j', failure);
    if err != Nil {
      j' := Terminate(cfg, j', err);
      return j', Some(Finished(err));
    }
    if failure != Nil {
      var out;
      j', out := Unresolved(cfg, j', failure, reconnects);
      return j', Some(out);
    }
    var invalid := ValidateEndpoint(endpoint, grant, now);
    if invalid != Nil {
      j' := HangUp(cfg, j');
      return j', Some(Finished(invalid));
    }
    j', stop := DialEndpoint(cfg, j', endpoint, now, reconnects);
  }

  /** A resolve failed and no authority explains it. */
  method Unresolved(cfg: Config, j: Journal, failure: Error, reconnects: nat) returns (j': Journal, out: Outcome)
    requires j.seen.ok && !j.seen.connected && Undecided(j.seen.view) && j.seen.view.reply == None && failure != Nil
    ensures Extends(cfg, j, j') && j'.seen == j.seen.(view := j'.seen.view) && Answers(j'.seen.view, out)
    ensures out != Finished(Nil) && (out.Again? ==> reconnects < cfg.maxReconnects && j'.seen.view.due == None)
  {
    if IsContext(failure) {
      j' := HangUp(cfg, j);
      var err := ContextResult(failure);
      return j', Finished(err);
    }
    if reconnects == 0 {
      var ok;
      j', ok := Note(cfg, j, ReconnectFailed);
      j' := HangUp(cfg, j');
      return j', Finished(Join(Err({ReferenceUnavailable}), failure));
    }
    j', out := Reconnect(cfg, j, reconnects, Join(Err({ReconnectExhausted}), failure));
  }

  method DialEndpoint(cfg: Config, j: Journal, endpoint: Endpoint, now: Time, reconnects: nat)
    returns (j': Journal, stop: Option<Outcome>)
    requires j.seen.ok && Admitted(cfg, j.seen) && !j.seen.open && j.seen.dials < j.seen.resolves
    requires JustClear(j.seen.view) && !j.seen.view.owed && j.seen.view.reply == None
    requires ValidateEndpoint(endpoint, j.seen.grant.value, now) == Nil && !j.seen.connected
    ensures Extends(cfg, j, j') && j'.seen == j.seen.(dials := j.seen.resolves, open := j'.seen.open, view := j'.seen.view)
    ensures stop.None? <==> j'.seen.open
    ensures stop.None? ==> Undecided(j'.seen.view) && j'.seen.view.reply == None
    ensures stop.Some? ==> Answers(j'.seen.view, stop.value)
    ensures stop != Some(Finished(Nil))
    ensures stop == Some(Again) ==> reconnects < cfg.maxReconnects && j'.seen.view.due == None
  {
    var failure := SomeError();
    var some := Coin();
    j' := PlaceCall(cfg, j, endpoint, now, failure, some);
    var err;
    j', err := CheckBoundary(cfg, j', failure);
    if err != Nil {
      j' := NoteTermination(cfg, j', err);
      j' := CloseSome(cfg, j', some);
      j' := HangUp(cfg, j');
      return j', Some(Finished(err));
    }
    if failure != Nil {
      j' := CloseSome(cfg, j', some);
      var out;
      j', out := Undialed(cfg, j', failure, reconnects);
      return j', Some(out);
    }
    if !some {
      j' := HangUp(cfg, j');
      if cfg.fenced {
        j' := NoteTermination(cfg, j', Err({DownstreamUnavailable}));
        return j', Some(Finished(Err({DownstreamUnavailable})));
      }
      return j', Some(Finished(Err({ReferenceUnavailable})));
    }
    return j', None;
  }

  /** The dial replied `failure`, with a stream or without. */
  method PlaceCall(cfg: Config, j: Journal, endpoint: Endpoint, now: Time, failure: Error, some: bool) returns (j': Journal)
    requires j.seen.ok && Admitted(cfg, j.seen) && !j.seen.open && j.seen.dials < j.seen.resolves && !j.seen.connected
    requires JustClear(j.seen.view) && ValidateEndpoint(endpoint, j.seen.grant.value, now) == Nil
    ensures Extends(cfg, j, j') && j'.seen == j.seen.(dials := j.seen.resolves, open := some, view := j'.seen.view)
    ensures j'.seen.view == j.seen.view.(look := None, reply := Some(failure))
  {
    j' := Log(cfg, j, Dial(endpoint, now, failure));
    if some {
      j' := Log(cfg, j', Opened);
    }
  }

  /** A dial failed and no authority explains it. */
  method Undialed(cfg: Config, j: Journal, failure: Error, reconnects: nat) returns (j': Journal, out: Outcome)
    requires j.seen.ok && !j.seen.connected && Undecided(j.seen.view) && j.seen.view.reply == None && failure != Nil
    ensures Extends(cfg, j, j') && j'.seen == j.seen.(view := j'.seen.view) && Answers(j'.seen.view, out)
    ensures out != Finished(Nil) && (out.Again? ==> reconnects < cfg.maxReconnects && j'.seen.view.due == None)
  {
    if IsContext(failure) {
      j' := HangUp(cfg, j);
      var err := ContextResult(failure);
      return j', Finished(err);
    }
    j', out := Reconnect(cfg, j, reconnects, Join(Err({ReconnectExhausted}), failure));
  }

  /** closeStream: a nil stream is left alone. */
  method CloseSome(cfg: Config, j: Journal, some: bool) returns (j': Journal)
    requires j.seen.open ==> some
    ensures Extends(cfg, j, j') && j'.seen == j.seen.(open := false, view := j'.seen.view) && SameDue(j.seen.view, j'.seen.view)
  {
    j' := j;
    if some {
      j' := Shut(cfg, j);
    }
  }

  /** What a round leaves behind, and what it needs to be repeated. */
  ghost predicate RoundOver(cfg: Config, m: Monitor, m': Monitor, reconnects: nat, out: Outcome) {
    && m'.ok && !m'.open && !m'.connected && m'.pending == None && m'.resolves <= cfg.maxReconnects + 1
    && m'.local == m.local && m'.lease == m.lease && m'.grant == m.grant
    && Answers(m'.view, out)
    && (out.Again? ==> Ready(cfg, m', reconnects + 1))
    && (out == Finished(Nil) ==> m'.clientLeft)
  }

  /** After the dial: look, record the connection, proxy, and act on the verdict. */
  method Serve(cfg: Config, j: Journal, client: seq<Frame>, reconnects: nat)
    returns (j': Journal, rest: seq<Frame>, out: Outcome)
    requires j.seen.ok && Admitted(cfg, j.seen) && j.seen.open && !j.seen.connected && !j.seen.lostHere
    requires Undecided(j.seen.view) && j.seen.view.reply == None
    requires j.seen.pending == None && j.seen.resolves == j.seen.dials == reconnects + 1 <= cfg.maxReconnects + 1
    requires cfg.fenced ==> j.seen.lost == 0
    ensures Extends(cfg, j, j') && RoundOver(cfg, j.seen, j'.seen, reconnects, out)
    ensures j'.seen.taken + rest == j.seen.taken + client
  {
    rest := client;
    var err;
    j', err := CheckAuthorities(cfg, j);
    if err != Nil {
      j' := NoteTermination(cfg, j', err);
      j' := Shut(cfg, j');
      j' := HangUp(cfg, j');
      return j', rest, Finished(err);
    }
    var recorded;
    j', recorded := RecordConnection(cfg, j', reconnects);
    if !recorded {
      j' := Shut(cfg, j');
      j' := HangUp(cfg, j');
      return j', rest, Finished(Err({AuditUnavailable}));
    }
    j', rest, out := Attempt(cfg, j', rest, reconnects);
  }

  method RecordConnection(cfg: Config, j: Journal, reconnects: nat) returns (j': Journal, recorded: bool)
    requires j.seen.ok && j.seen.open && !j.seen.connected && JustClear(j.seen.view) && j.seen.resolves == reconnects + 1
    ensures Extends(cfg, j, j') && j'.seen == j.seen.(connected := recorded, view := j'.seen.view) && SameDue(j.seen.view, j'.seen.view)
  {
    recorded := Coin();
    j' := Log(cfg, j, Audit(if reconnects == 0 then Connected else Reconnected, recorded));
  }

  method Attempt(cfg: Config, j: Journal, client: seq<Frame>, reconnects: nat)
    returns (j': Journal, rest: seq<Frame>, out: Outcome)
    requires Proxying(cfg, j.seen) && Admitted(cfg, j.seen)
    requires j.seen.resolves == j.seen.dials == reconnects + 1 <= cfg.maxReconnects + 1
    requires cfg.fenced ==> j.seen.lost == 0
    ensures Extends(cfg, j, j') && RoundOver(cfg, j.seen, j'.seen, reconnects, out)
    ensures j'.seen.taken + rest == j.seen.taken + client
  {
    var g, revoked, expired, first, second;
    j', rest, g, revoked, expired, first, second := Proxy(cfg, j, client);
    var verdict;
    j', verdict := JudgeAttempt(cfg, j', g, revoked, expired, first, second);
    j' := Shut(cfg, j');
    j', out := Conclude(cfg, j', verdict, reconnects);
  }

  /** What the switch has to answer. */
  ghost predicate Settles(v: View, verdict: Disposition) {
    v.reply == None && !v.owed && verdict != Stop(Nil) && v.due == if verdict.Stop? then Some(verdict.err) else None
  }

  /** The end of proxyAttempt, and the choice of the branch of the switch after it. */
  method JudgeAttempt(cfg: Config, j: Journal, g: Glance, revoked: bool, expired: bool,
                      first: TransferResult, second: TransferResult) returns (j': Journal, verdict: Disposition)
    requires j.seen.ok && j.seen.connected && !j.seen.open && j.seen.pending == None
    requires Undecided(j.seen.view) && j.seen.view.reply == None
    requires OfContext(g.context) && revoked == (g.watch == Some(SaysRevoked))
    ensures Extends(cfg, j, j') && j'.seen == j.seen.(connected := false, view := j'.seen.view)
    ensures Settles(j'.seen.view, verdict)
    ensures cfg.fenced && ((first.side == BackendSide && first.writeFailed) || (second.side == BackendSide && second.writeFailed)) ==>
              verdict.Stop?
  {
    var early := ContextError();
    var caller := ContextError();
    if early != Nil {
      caller := early;
    }
    var again := SomeError();
    var fence := TransferFence(cfg.fenced, early, [first, second]);
    var s := Reread(Signals(g.watch, expired, g.cause, g.context), fence, caller, again);
    var r := Judge(revoked, expired, g, cfg.fenced, early, caller, again, first, second);
    j' := NoteEnd(cfg, j, s, early, caller, first, second);
    j', verdict := Switch(cfg, j', r, s, fence, caller, first);
    if cfg.fenced && ((first.side == BackendSide && first.writeFailed) || (second.side == BackendSide && second.writeFailed)) {
      FailedWriteStopsFenced(s, early, caller, first, second);
    }
  }

  method NoteEnd(cfg: Config, j: Journal, s: Signals, early: Error, caller: Error, first: TransferResult, second: TransferResult)
    returns (j': Journal)
    requires j.seen.ok && j.seen.connected && !j.seen.open && j.seen.pending == None
    requires Undecided(j.seen.view) && j.seen.view.reply == None
    ensures Extends(cfg, j, j') && j'.seen == j.seen.(connected := false, view := j'.seen.view)
    ensures var fence := TransferFence(cfg.fenced, early, [first, second]);
            j'.seen.view == View(None, None, Demand(s, fence, caller, first), Overrulable(s, fence, caller))
  {
    j' := Log(cfg, j, Ended(s, early, caller, first, second));
  }

  /** The switch, whose default branch looks again. */
  method Switch(cfg: Config, j: Journal, r: ProxyResult, s: Signals, ghost fence: FenceView, ghost caller: Error, first: TransferResult)
    returns (j': Journal, verdict: Disposition)
    requires r == Verdict(s, fence, caller, first) && OfContext(caller) && OfContext(s.context)
    requires j.seen.ok && !j.seen.connected
    requires j.seen.view == View(None, None, Demand(s, fence, caller, first), Overrulable(s, fence, caller))
    ensures Extends(cfg, j, j') && j'.seen == j.seen.(view := j'.seen.view)
    ensures Settles(j'.seen.view, verdict) && (verdict.Stop? <==> Demand(s, fence, caller, first).Some?)
  {
    j' := j;
    var now := LaterSight(s);
    SwitchLooksAgain(s, fence, caller, first);
    SwitchMeetsDemand(s, fence, caller, first, now);
    StopsWithError(r, now);
    if LooksAgain(r) {
      j' := LookAgain(cfg, j, now);
    }
    verdict := Dispose(r, now);
  }

  method LookAgain(cfg: Config, j: Journal, now: Signals) returns (j': Journal)
    requires j.seen.ok && !j.seen.connected && j.seen.view.owed && j.seen.view.reply == None
    ensures Extends(cfg, j, j') && j'.seen == j.seen.(view := j'.seen.view)
    ensures var due := Due(now, Quiet, Nil);
            j'.seen.view == View(Some(now), None, if due != Nil then Some(due) else j.seen.view.due, false)
  {
    j' := Log(cfg, j, Looked(now, Nil));
  }

  lemma StopsWithError(r: ProxyResult, now: Signals)
    ensures Dispose(r, now) != Stop(Nil)
  {
  }

  /** The branches of the switch after an attempt. */
  method Conclude(cfg: Config, j: Journal, verdict: Disposition, reconnects: nat) returns (j': Journal, out: Outcome)
    requires j.seen.ok && !j.seen.connected && Settles(j.seen.view, verdict)
    ensures Extends(cfg, j, j') && j'.seen == j.seen.(clientLeft := j'.seen.clientLeft, view := j'.seen.view)
    ensures Answers(j'.seen.view, out)
    ensures out.Again? ==> verdict.BackendLeft? && reconnects < cfg.maxReconnects && j'.seen.view.due == None
    ensures out == Finished(Nil) ==> j'.seen.clientLeft
  {
    match verdict {
      case Stop(err) =>
        j' := Terminate(cfg, j, err);
        out := Finished(err);
      case ClientLeft =>
        var ok := Coin();
        j' := Log(cfg, j, Audit(ClientClosed, ok));
        out := Finished(if ok then Nil else Err({AuditUnavailable}));
      case BackendLeft =>
        var ok;
        j', ok := Note(cfg, j, BackendClosed);
        if !ok {
          j' := HangUp(cfg, j');
          out := Finished(Err({AuditUnavailable}));
        } else {
          j', out := Reconnect(cfg, j', reconnects, Err({ReconnectExhausted}));
        }
    }
  }

  method Round(cfg: Config, j: Journal, grant: Grant, client: seq<Frame>, reconnects: nat)
    returns (j': Journal, rest: seq<Frame>, out: Outcome)
    requires Ready(cfg, j.seen, reconnects) && j.seen.grant == Some(grant)
    ensures Extends(cfg, j, j') && RoundOver(cfg, j.seen, j'.seen, reconnects, out)
    ensures j'.seen.taken + rest == j.seen.taken + client
  {
    var stop;
    j', stop := Reach(cfg, j, grant, reconnects);
    if stop.Some? {
      return j', client, stop.value;
    }
    j', rest, out := Serve(cfg, j', client, reconnects);
  }

  /** What the nested deferred releases see on their way out. */
  ghost predicate Settled(m: Monitor, m': Monitor) {
    m'.ok && !m'.open && !m'.connected && m'.pending == None && m'.local == m.local && m'.lease == m.lease
  }

  /** The reconnect loop. */
  method Rounds(cfg: Config, j: Journal, grant: Grant, client: seq<Frame>)
    returns (j': Journal, rest: seq<Frame>, err: Error)
    requires Ready(cfg, j.seen, 0) && j.seen.grant == Some(grant)
    ensures Extends(cfg, j, j') && Settled(j.seen, j'.seen) && Answers(j'.seen.view, Finished(err))
    ensures j'.seen.taken + rest == j.seen.taken + client
    ensures err == Nil ==> j'.seen.clientLeft
  {
    j', rest := j, client;
    var reconnects := 0;
    while true
      invariant Extends(cfg, j, j') && Ready(cfg, j'.seen, reconnects) && j'.seen.grant == Some(grant)
      invariant j'.seen.local == j.seen.local && j'.seen.lease == j.seen.lease
      invariant j'.seen.taken + rest == j.seen.taken + client
      decreases cfg.maxReconnects - reconnects
    {
      var out;
      j', rest, out := Round(cfg, j', grant, rest, reconnects);
      if out.Finished? {
        return j', rest, out.err;
      }
      reconnects := reconnects + 1;
    }
  }

  // ---------------------------------------------------------------------------
  // Setting up and tearing down.

  /** revocationSetupError */
  function SetupError(s: Signals, failure: Error): Error {
    if s.expired then Err({Expired})
    else if CapacityError(s.cause) != Nil then CapacityError(s.cause)
    else if s.context != Nil && IsContext(failure) then s.context
    else Err({ProxyUnavailable, RevocationUnavailable})
  }

  /** Setup follows the one order too, with the watch that did not open counted as ended. */
  lemma SetupFollowsOrder(s: Signals, failure: Error, missing: bool)
    requires OfContext(s.context) && (failure != Nil || missing)
    ensures SetupError(s, failure) == Due(WatchSight(failure, missing, s), Quiet, Nil) != Nil
  {
  }

  /** Open the revocation watch and look at it. */
  method OpenWatch(cfg: Config, j: Journal) returns (j': Journal, err: Error)
    requires j.seen.ok && j.seen.local == Held && (cfg.leased ==> j.seen.lease == Held) && !j.seen.watching && !j.seen.connected
    requires Undecided(j.seen.view) && j.seen.view.reply == None
    ensures Extends(cfg, j, j') && j'.seen == j.seen.(watching := j'.seen.watching, view := j'.seen.view)
    ensures Judged(j'.seen.view, err) && (err == Nil ==> j'.seen.watching && JustClear(j'.seen.view))
  {
    var failure := SomeError();
    var missing := Coin();
    var s := Sight();
    j' := Log(cfg, j, Watching(failure, missing, s));
    LooksFollowOrder(WatchSight(failure, missing, s), cfg.fenced, Nil);
    if failure != Nil || missing {
      SetupFollowsOrder(s, failure, missing);
      err := SetupError(s, failure);
    } else {
      err := AuthorityError(s);
    }
  }

  method RecordAuthorization(cfg: Config, j: Journal) returns (j': Journal, recorded: bool)
    requires j.seen.ok && j.seen.watching && !j.seen.authorized && JustClear(j.seen.view)
    ensures Extends(cfg, j, j') && j'.seen == j.seen.(authorized := recorded, view := j'.seen.view) && SameDue(j.seen.view, j'.seen.view)
  {
    recorded := Coin();
    j' := Log(cfg, j, Audit(Authorized, recorded));
  }

  /** From the revocation watch on. */
  method Watched(cfg: Config, j: Journal, grant: Grant, client: seq<Frame>)
    returns (j': Journal, rest: seq<Frame>, err: Error)
    requires j.seen == FRESH.(grant := Some(grant), local := Held, lease := j.seen.lease, view := j.seen.view)
    requires Undecided(j.seen.view) && j.seen.view.reply == None
    requires j.seen.lease == if cfg.leased then Held else Free
    ensures Extends(cfg, j, j') && Settled(j.seen, j'.seen) && Answers(j'.seen.view, Finished(err))
    ensures j'.seen.taken + rest == client && (err == Nil ==> j'.seen.clientLeft)
  {
    rest := client;
    j', err := OpenWatch(cfg, j);
    if err != Nil {
      j' := NoteTermination(cfg, j', err);
      return;
    }
    var recorded;
    j', recorded := RecordAuthorization(cfg, j');
    if !recorded {
      return j', rest, Err({AuditUnavailable});
    }
    j', rest, err := Rounds(cfg, j', grant, client);
  }

  /** A failed release of the lease is joined to the error. */
  ghost predicate ReleaseFailed(err: Error, err': Error) {
    exists failed :: failed != Nil && err' == Join(Join(err, Err({CapacityUnavailable})), failed)
  }

  /** `err'` is `err` as it leaves Connect. */
  ghost predicate Reports(cfg: Config, err: Error, err': Error) {
    err' == err || (cfg.leased && !IsFence(err) && ReleaseFailed(err, err'))
  }

  /** finishCapacityLease: release the lease, and report a failed release unless the fence is the news. */
  method FinishLease(cfg: Config, j: Journal, err: Error) returns (j': Journal, err': Error)
    requires j.seen.ok && j.seen.lease == Held && !j.seen.open && j.seen.pending == None && cfg.leased
    ensures Extends(cfg, j, j') && j'.seen == j.seen.(lease := Released, view := j'.seen.view) && SameDue(j.seen.view, j'.seen.view)
    ensures Reports(cfg, err, err') && (err' == Nil ==> err == Nil)
  {
    j' := NoteLoss(cfg, j, err);
    j' := DropTheLease(cfg, j');
    var failed := SomeError();
    err' := AfterRelease(cfg, err, failed);
    if failed != Nil {
      var ok;
      j', ok := Note(cfg, j', CapacityReleaseFailed);
    }
  }

  method NoteLoss(cfg: Config, j: Journal, err: Error) returns (j': Journal)
    ensures Extends(cfg, j, j') && j'.seen == j.seen.(view := j'.seen.view) && SameDue(j.seen.view, j'.seen.view)
  {
    var ok;
    j' := j;
    if Is(err, CapacityLeaseLost) {
      j', ok := Note(cfg, j', CapacityLost);
    } else if Is(err, CapacityUnavailable) {
      j', ok := Note(cfg, j', CapacityDown);
    }
  }

  function AfterRelease(cfg: Config, err: Error, failed: Error): (err': Error)
    ensures cfg.leased ==> Reports(cfg, err, err')
    ensures err' == Nil ==> err == Nil
  {
    if failed != Nil && !IsFence(err) then Join(Join(err, Err({CapacityUnavailable})), failed) else err
  }

  method DropTheLease(cfg: Config, j: Journal) returns (j': Journal)
    requires j.seen.ok && j.seen.lease == Held && !j.seen.open && j.seen.pending == None
    ensures Extends(cfg, j, j') && j'.seen == j.seen.(lease := Released, view := j'.seen.view) && SameDue(j.seen.view, j'.seen.view)
  {
    j' := Log(cfg, j, DropLease);
  }

  /** What is due is reported. */
  ghost predicate Replies(cfg: Config, v: View, err: Error) {
    !v.owed && (v.due.Some? ==> Reports(cfg, v.due.value, err))
  }

  /** With a usable lease in hand. */
  method Leased(cfg: Config, j: Journal, grant: Grant, client: seq<Frame>)
    returns (j': Journal, rest: seq<Frame>, err: Error)
    requires cfg.leased && j.seen == FRESH.(grant := Some(grant), local := Held, lease := Held)
    ensures Extends(cfg, j, j') && Settled(j.seen.(lease := Released), j'.seen) && Replies(cfg, j'.seen.view, err)
    ensures j'.seen.taken + rest == client && (err == Nil ==> j'.seen.clientLeft)
  {
    rest := client;
    j', err := CheckCapacity(cfg, j);
    var claimed := Coin();
    if err != Nil {
    } else if cfg.fenced && !claimed {
      err := Err({DownstreamUnavailable});
      var ok;
      j', ok := Note(cfg, j', FenceDownEvent);
    } else {
      j', err := CheckCapacity(cfg, j');
      if err == Nil {
        j', rest, err := Watched(cfg, j', grant, client);
      }
    }
    j', err := FinishLease(cfg, j', err);
  }

  /** With the local slot in hand. */
  method Local(cfg: Config, j: Journal, grant: Grant, client: seq<Frame>)
    returns (j': Journal, rest: seq<Frame>, err: Error)
    requires j.seen == FRESH.(grant := Some(grant), local := Held)
    ensures Extends(cfg, j, j')
    ensures Settled(j.seen.(lease := j'.seen.lease), j'.seen) && j'.seen.lease != Held && Replies(cfg, j'.seen.view, err)
    ensures j'.seen.taken + rest == client && (err == Nil ==> j'.seen.clientLeft)
  {
    j', rest := j, client;
    if !cfg.leased {
      j', rest, err := Watched(cfg, j', grant, client);
      return;
    }
    var ok;
    err := SomeError();
    if err != Nil {
      if IsContext(err) {
        return;
      }
      if Is(err, CapacityExhausted) {
        j', ok := Note(cfg, j', CapacityRejected);
        return;
      }
      j', ok := Note(cfg, j', CapacityDown);
      err := Join(Err({CapacityUnavailable}), err);
      return;
    }
    var missing := Coin();
    if missing {
      j', ok := Note(cfg, j', CapacityDown);
      return j', rest, Err({CapacityUnavailable});
    }
    j' := Log(cfg, j', TakeLease);
    j', rest, err := Leased(cfg, j', grant, client);
  }

  ghost predicate Done(cfg: Config, m: Monitor, client: seq<Frame>, err: Error) {
    && m.ok && !m.open && !m.connected && m.pending == None && m.local != Held && m.lease != Held
    && m.taken <= client && Replies(cfg, m.view, err)
    && (err == Nil ==> m.clientLeft)
  }

  /** With a valid grant for the request. */
  method WithGrant(cfg: Config, j: Journal, grant: Grant, client: seq<Frame>) returns (j': Journal, err: Error)
    requires j.seen == FRESH.(grant := Some(grant))
    ensures Extends(cfg, j, j') && Done(cfg, j'.seen, client, err)
  {
    var full := Coin();
    if full {
      var ok;
      j', ok := Note(cfg, j, CapacityRejected);
      return j', Err({CapacityExhausted});
    }
    j' := Log(cfg, j, TakeLocal);
    var rest;
    j', rest, err := Local(cfg, j', grant, client);
    j' := Log(cfg, j', DropLocal);
  }

  /** Up to the grant, and then the rest. */
  method ConnectLogged(cfg: Config, client: seq<Frame>, j: Journal) returns (j': Journal, err: Error)
    requires j.seen == FRESH
    ensures Extends(cfg, j, j') && Done(cfg, j'.seen, client, err)
  {
    j' := j;
    if !ValidRequest(cfg.request) {
      return j', Err({InvalidRequest});
    }
    var now := Clock();
    if now == 0 {
      return j', Err({ProxyUnavailable});
    }
    var grant: Grant := *;
    var denied := SomeError();
    if denied != Nil || !ValidGrant(grant, now) || grant.request != cfg.request {
      var ok;
      j', ok := Note(cfg, j', Denied);
      return j', if denied != Nil && IsContext(denied) then denied else Join(Err({Unauthorized}), denied);
    }
    j' := Log(cfg, j', Granted(grant, now));
    j', err := WithGrant(cfg, j', grant, client);
  }

  /** Connect keeps every rule of the monitor and leaves nothing held or open, whatever the ports
      answer; the frames it took are the first ones the client offered; a verdict that became due is
      what it reports; and it reports success only after recording that the client left. */
  method Connect(cfg: Config, client: seq<Frame>) returns (trace: seq<Event>, err: Error)
    ensures Completed(cfg, trace)
    ensures Observe(cfg, trace).taken <= client
    ensures Observe(cfg, trace).view.due.Some? ==> Reports(cfg, Observe(cfg, trace).view.due.value, err)
    ensures err == Nil ==> Audit(ClientClosed, true) in trace
  {
    var j;
    j, err := ConnectLogged(cfg, client, Journal([], FRESH));
    trace := j.trace;
    if err == Nil {
      LeftWasRecorded(cfg, trace);
    }
  }

  lemma LeftStep(cfg: Config, m: Monitor, e: Event)
    requires Updated(cfg, m, e).clientLeft && !m.clientLeft
    ensures e == Audit(ClientClosed, true)
  {
  }

  lemma {:induction false} LeftWasRecorded(cfg: Config, t: seq<Event>)
    requires Observe(cfg, t).clientLeft
    ensures Audit(ClientClosed, true) in t
  {
    var before := t[..|t| - 1];
    if Observe(cfg, before).clientLeft {
      LeftWasRecorded(cfg, before);
    } else {
      LeftStep(cfg, Observe(cfg, before), t[|t| - 1]);
    }
  }
}
