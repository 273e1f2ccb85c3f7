/** What the monitor's acceptance means for the trace itself. Every trace Connect produces is accepted. */
module GatewayTheorems {
  import opened Common
  import opened GatewayVerdict
  import opened GatewayModel
  import opened GatewayTrace

  ghost predicate Kept(cfg: Config, t: seq<Event>) {
    Observe(cfg, t).ok
  }

  /** Event `i` was allowed and led from one monitor state to the next. */
  ghost predicate StepOk(cfg: Config, t: seq<Event>, ms: seq<Monitor>, i: nat)
    requires i < |t| && |ms| == |t| + 1
  {
    Allowed(cfg, ms[i], t[i]) && ms[i + 1] == Updated(cfg, ms[i], t[i])
  }

  /** The monitor's states before each event and at the end. */
  ghost predicate IsHistory(cfg: Config, t: seq<Event>, ms: seq<Monitor>) {
    |ms| == |t| + 1 && ms[0] == FRESH && forall i: nat :: i < |t| ==> StepOk(cfg, t, ms, i)
  }

  lemma NextOk(cfg: Config, m: Monitor, e: Event)
    requires Next(cfg, m, e).ok
    ensures m.ok && Allowed(cfg, m, e) && Next(cfg, m, e) == Updated(cfg, m, e)
  {
  }

  lemma ObserveSnoc(cfg: Config, t: seq<Event>)
    requires t != []
    ensures Observe(cfg, t) == Next(cfg, Observe(cfg, t[..|t| - 1]), t[|t| - 1])
  {
  }

  lemma HistoryGrows(cfg: Config, t: seq<Event>, e: Event, ms: seq<Monitor>, m: Monitor)
    requires IsHistory(cfg, t, ms) && Allowed(cfg, ms[|t|], e) && m == Updated(cfg, ms[|t|], e)
    ensures IsHistory(cfg, t + [e], ms + [m])
  {
    forall i: nat | i < |t + [e]|
      ensures StepOk(cfg, t + [e], ms + [m], i)
    {
      if i < |t| {
        assert StepOk(cfg, t, ms, i);
      }
    }
  }

  /** A trace that kept the rules at its end kept them at every event. */
  lemma {:induction false} HistoryOf(cfg: Config, t: seq<Event>) returns (ms: seq<Monitor>)
    requires Kept(cfg, t)
    ensures IsHistory(cfg, t, ms) && ms[|t|] == Observe(cfg, t)
  {
    if t == [] {
      ms := [FRESH];
    } else {
      var before, e := t[..|t| - 1], t[|t| - 1];
      ObserveSnoc(cfg, t);
      NextOk(cfg, Observe(cfg, before), e);
      ms := HistoryOf(cfg, before);
      HistoryGrows(cfg, before, e, ms, Observe(cfg, t));
      ms := ms + [Observe(cfg, t)];
      assert before + [e] == t;
    }
  }

  lemma Snoc(t: seq<Event>, n: nat)
    requires 0 < n <= |t|
    ensures t[..n] == t[..n - 1] + [t[n - 1]]
  {
  }

  // ---------------------------------------------------------------------------
  // Nothing is reached before it is admitted.

  ghost predicate GrantSourced(cfg: Config, t: seq<Event>, g: Grant) {
    exists a :: 0 <= a < |t| && t[a].Granted? && t[a].grant == g && ValidGrant(g, t[a].now) && g.request == cfg.request
  }

  ghost predicate HoldSourced(t: seq<Event>, take: Event, drop: Event, h: Hold) {
    && (h == Held ==> take in t && drop !in t)
    && (h == Free ==> take !in t && drop !in t)
  }

  /** A watch was opened. */
  ghost predicate WatchSourced(t: seq<Event>) {
    exists a :: 0 <= a < |t| && t[a].Watching? && t[a].failure == Nil && !t[a].missing
  }

  /** Where each part of the monitor's state comes from. */
  ghost predicate Sourced(cfg: Config, t: seq<Event>, m: Monitor) {
    && (m.grant.Some? ==> GrantSourced(cfg, t, m.grant.value))
    && HoldSourced(t, TakeLocal, DropLocal, m.local)
    && HoldSourced(t, TakeLease, DropLease, m.lease)
    && (m.watching ==> WatchSourced(t))
    && (m.authorized ==> Audit(Authorized, true) in t)
  }

  /** The parts an event leaves alone, and those it sets. */
  lemma AdmissionStep(cfg: Config, m: Monitor, e: Event)
    requires Allowed(cfg, m, e)
    ensures Updated(cfg, m, e).local == (if e == TakeLocal then Held else if e == DropLocal then Released else m.local)
    ensures Updated(cfg, m, e).lease == (if e == TakeLease then Held else if e == DropLease then Released else m.lease)
    ensures e == TakeLocal ==> m.local == Free
    ensures e == DropLocal ==> m.local == Held
    ensures e == TakeLease ==> m.lease == Free && cfg.leased
    ensures e == DropLease ==> m.lease == Held
    ensures Updated(cfg, m, e).watching == (m.watching || (e.Watching? && e.failure == Nil && !e.missing))
    ensures Updated(cfg, m, e).authorized == (e == Audit(Authorized, true) || m.authorized)
  {
  }

  lemma GrantStep(cfg: Config, m: Monitor, e: Event)
    requires Allowed(cfg, m, e)
    ensures if e.Granted? then ValidGrant(e.grant, e.now) && e.grant.request == cfg.request && Updated(cfg, m, e).grant == Some(e.grant)
            else Updated(cfg, m, e).grant == m.grant
  {
  }

  lemma HoldStep(t: seq<Event>, e: Event, take: Event, drop: Event, h: Hold)
    requires HoldSourced(t, take, drop, h) && take != drop && (e == take ==> h == Free)
    ensures HoldSourced(t + [e], take, drop, if e == take then Held else if e == drop then Released else h)
  {
  }

  lemma SourcedStep(cfg: Config, t: seq<Event>, m: Monitor, e: Event)
    requires Sourced(cfg, t, m) && Allowed(cfg, m, e)
    ensures Sourced(cfg, t + [e], Updated(cfg, m, e))
  {
    AdmissionStep(cfg, m, e);
    GrantStep(cfg, m, e);
    HoldStep(t, e, TakeLocal, DropLocal, m.local);
    HoldStep(t, e, TakeLease, DropLease, m.lease);
    var t' := t + [e];
    assert t'[|t|] == e;
    if !e.Granted? && m.grant.Some? {
      var a :| 0 <= a < |t| && t[a].Granted? && t[a].grant == m.grant.value && ValidGrant(m.grant.value, t[a].now);
      assert t'[a] == t[a];
    }
    if m.watching {
      var a :| 0 <= a < |t| && t[a].Watching? && t[a].failure == Nil && !t[a].missing;
      assert t'[a] == t[a];
    }
  }

  lemma {:induction false} SourcedAlways(cfg: Config, t: seq<Event>, ms: seq<Monitor>, n: nat)
    requires IsHistory(cfg, t, ms) && n <= |t|
    ensures Sourced(cfg, t[..n], ms[n])
  {
    if n > 0 {
      SourcedAlways(cfg, t, ms, n - 1);
      assert StepOk(cfg, t, ms, n - 1);
      SourcedStep(cfg, t[..n - 1], ms[n - 1], t[n - 1]);
      Snoc(t, n);
    }
  }

  /** What goes together in the monitor: nothing is reached without a watch, and a connection that
      moves frames has nothing to answer for. */
  ghost predicate Coherent(m: Monitor) {
    && (m.authorized || m.resolves > 0 ==> m.watching)
    && (m.open || m.connected ==> m.resolves > 0)
    && (m.connected ==> m.view.due == None && m.view.reply == None)
    && (m.view.look.Some? ==> m.view.reply == None && !m.connected)
  }

  lemma CoherentStep(cfg: Config, m: Monitor, e: Event)
    requires Coherent(m) && Allowed(cfg, m, e)
    ensures Coherent(Updated(cfg, m, e))
  {
  }

  lemma {:induction false} CoherentAlways(cfg: Config, t: seq<Event>, ms: seq<Monitor>, n: nat)
    requires IsHistory(cfg, t, ms) && n <= |t|
    ensures Coherent(ms[n])
  {
    if n > 0 {
      CoherentAlways(cfg, t, ms, n - 1);
      assert StepOk(cfg, t, ms, n - 1);
      CoherentStep(cfg, ms[n - 1], t[n - 1]);
    }
  }

  /** A resolve, a dial, or the record of a connection, written or not. */
  predicate Reaches(e: Event) {
    e.Resolve? || e.Dial? || (e.Audit? && (e.kind == Connected || e.kind == Reconnected))
  }

  /** A look that showed the watch open, the grant current, the capacity held and the context live. */
  predicate ClearLook(e: Event) {
    e.Looked? && e.operation == Nil && Clear(e.sight)
  }

  lemma LookStep(cfg: Config, m: Monitor, e: Event, r: Event)
    requires Coherent(m) && Allowed(cfg, m, e)
    requires Allowed(cfg, Updated(cfg, m, e), r) && Reaches(r)
    ensures ClearLook(e)
  {
    CoherentStep(cfg, m, e);
  }

  lemma LookBefore(cfg: Config, t: seq<Event>, ms: seq<Monitor>, k: nat)
    requires IsHistory(cfg, t, ms) && k < |t| && Reaches(t[k])
    ensures k > 0 && ClearLook(t[k - 1])
  {
    assert StepOk(cfg, t, ms, k);
    if k > 0 {
      assert StepOk(cfg, t, ms, k - 1);
      CoherentAlways(cfg, t, ms, k - 1);
      LookStep(cfg, ms[k - 1], t[k - 1], t[k]);
    }
  }

  /** The event right before every resolve, every dial and every record of a connection is a look
      that found all authorities clear. */
  lemma LookedRightBefore(cfg: Config, t: seq<Event>, k: nat)
    requires Kept(cfg, t) && k < |t| && Reaches(t[k])
    ensures k > 0 && ClearLook(t[k - 1])
  {
    var ms := HistoryOf(cfg, t);
    LookBefore(cfg, t, ms, k);
  }

  lemma AdmittedAt(cfg: Config, t: seq<Event>, ms: seq<Monitor>, k: nat)
    requires IsHistory(cfg, t, ms) && k < |t| && (t[k].Resolve? || t[k].Dial?)
    ensures ms[k].grant.Some? && ms[k].local == Held && (cfg.leased ==> ms[k].lease == Held) && ms[k].watching && ms[k].authorized
  {
    assert StepOk(cfg, t, ms, k);
  }

  /** Before any handoff is resolved or any backend dialed there was a validated grant for this very
      request, both reservations are held and not yet released, the revocation watch is open and was
      just seen live, with the grant unexpired and the capacity held, and the authorization was
      recorded. */
  lemma AdmittedBeforeReaching(cfg: Config, t: seq<Event>, k: nat)
    requires Kept(cfg, t) && k < |t| && (t[k].Resolve? || t[k].Dial?)
    ensures exists a :: 0 <= a < k && t[a].Granted? && ValidGrant(t[a].grant, t[a].now) && t[a].grant.request == cfg.request
    ensures TakeLocal in t[..k] && DropLocal !in t[..k]
    ensures cfg.leased ==> TakeLease in t[..k] && DropLease !in t[..k]
    ensures k > 0 && WatchSourced(t[..k]) && ClearLook(t[k - 1]) && Audit(Authorized, true) in t[..k]
  {
    var ms := HistoryOf(cfg, t);
    LookBefore(cfg, t, ms, k);
    AdmittedAt(cfg, t, ms, k);
    SourcedAlways(cfg, t, ms, k);
    var a :| 0 <= a < k && t[..k][a].Granted? && ValidGrant(t[..k][a].grant, t[..k][a].now) &&
             t[..k][a].grant.request == cfg.request;
    assert t[a] == t[..k][a];
  }

  /** A backend is dialed only through an endpoint that matches the grant. */
  lemma DialsOnlyGrantedEndpoints(cfg: Config, t: seq<Event>, k: nat)
    requires Kept(cfg, t) && k < |t| && t[k].Dial?
    ensures exists a :: 0 <= a < k && t[a].Granted? && ValidateEndpoint(t[k].endpoint, t[a].grant, t[k].now) == Nil
  {
    var ms := HistoryOf(cfg, t);
    assert StepOk(cfg, t, ms, k);
    SourcedAlways(cfg, t, ms, k);
    var a :| 0 <= a < k && t[..k][a].Granted? && t[..k][a].grant == ms[k].grant.value;
    assert t[a] == t[..k][a];
  }

  // ---------------------------------------------------------------------------
  // What a raised signal leads to.

  /** What may still happen once the connection has its answer. */
  predicate Housekeeping(e: Event) {
    || e.CloseBackend? || e.CloseClient? || e.DropLocal? || e.DropLease?
    || (e.Audit? && e.kind !in {Authorized, Connected, Reconnected, ClientClosed})
  }

  ghost predicate Decided(v: View) {
    v.due.Some? && !v.owed
  }

  lemma DecidedStep(cfg: Config, m: Monitor, e: Event)
    requires Coherent(m) && Decided(m.view) && Allowed(cfg, m, e)
    ensures Housekeeping(e) && Updated(cfg, m, e).view.due == m.view.due && Decided(Updated(cfg, m, e).view)
  {
  }

  lemma {:induction false} DecidedStays(cfg: Config, t: seq<Event>, ms: seq<Monitor>, k: nat, n: nat)
    requires IsHistory(cfg, t, ms) && k <= n <= |t| && Decided(ms[k].view)
    ensures ms[n].view.due == ms[k].view.due && Decided(ms[n].view)
    ensures forall i :: k <= i < n ==> Housekeeping(t[i])
  {
    if k < n {
      DecidedStays(cfg, t, ms, k, n - 1);
      assert StepOk(cfg, t, ms, n - 1);
      CoherentAlways(cfg, t, ms, n - 1);
      DecidedStep(cfg, ms[n - 1], t[n - 1]);
    }
  }

  lemma SightingDecides(cfg: Config, v: View, s: Signals, operation: Error, x: Signal)
    requires Decides(x, s, OperationFence(s, cfg.fenced, operation), Nil)
    ensures Sighted(cfg, v, s, operation).due == Some(Report(x, s, Nil)) && Decided(Sighted(cfg, v, s, operation))
  {
    TopDecides(s, OperationFence(s, cfg.fenced, operation), Nil);
  }

  /** A look that shows a signal ends the connection: its highest signal is the answer, and nothing
      but housekeeping follows. */
  lemma RaisedSignalDecides(cfg: Config, t: seq<Event>, k: nat, x: Signal)
    requires Kept(cfg, t) && k < |t| && t[k].Looked?
    requires Decides(x, t[k].sight, OperationFence(t[k].sight, cfg.fenced, t[k].operation), Nil)
    ensures Observe(cfg, t).view.due == Some(Report(x, t[k].sight, Nil))
    ensures forall i :: k < i < |t| ==> Housekeeping(t[i])
  {
    var ms := HistoryOf(cfg, t);
    assert StepOk(cfg, t, ms, k);
    SightingDecides(cfg, ms[k].view, t[k].sight, t[k].operation, x);
    DecidedStays(cfg, t, ms, k + 1, |t|);
  }

  /** At `j` a look was taken whose verdict, or else `demand`, is the answer. */
  ghost predicate SecondLookAt(cfg: Config, t: seq<Event>, j: nat, demand: Option<Error>) {
    && j < |t| && t[j].Looked? && (forall i :: j < i < |t| ==> Housekeeping(t[i]))
    && Observe(cfg, t).view.due ==
       if Due(t[j].sight, Quiet, Nil) != Nil then Some(Due(t[j].sight, Quiet, Nil)) else demand
  }

  /** A second look is owed to a demand. */
  ghost predicate Owing(v: View) {
    v.owed && v.due.Some? && v.reply == None
  }

  lemma OwedStep(cfg: Config, m: Monitor, e: Event)
    requires Coherent(m) && Owing(m.view) && Allowed(cfg, m, e)
    ensures var v := Updated(cfg, m, e).view;
            if e.Looked? then Decided(v) && v.due == (if Due(e.sight, Quiet, Nil) != Nil then Some(Due(e.sight, Quiet, Nil)) else m.view.due)
            else Owing(v) && v.due == m.view.due
  {
  }

  lemma {:induction false} OwedIsPaid(cfg: Config, t: seq<Event>, ms: seq<Monitor>, k: nat) returns (j: nat)
    requires IsHistory(cfg, t, ms) && ms[|t|] == Observe(cfg, t) && !ms[|t|].view.owed && k <= |t| && Owing(ms[k].view)
    ensures k <= j && SecondLookAt(cfg, t, j, ms[k].view.due)
    decreases |t| - k
  {
    assert StepOk(cfg, t, ms, k);
    CoherentAlways(cfg, t, ms, k);
    OwedStep(cfg, ms[k], t[k]);
    if t[k].Looked? {
      j := k;
      DecidedStays(cfg, t, ms, k + 1, |t|);
    } else {
      j := OwedIsPaid(cfg, t, ms, k + 1);
    }
  }

  lemma EndedView(cfg: Config, t: seq<Event>, ms: seq<Monitor>, k: nat, fence: FenceView)
    requires IsHistory(cfg, t, ms) && k < |t| && t[k].Ended?
    requires fence == TransferFence(cfg.fenced, t[k].early, [t[k].first, t[k].second])
    ensures ms[k + 1].view ==
            View(None, None, Demand(t[k].sight, fence, t[k].caller, t[k].first), Overrulable(t[k].sight, fence, t[k].caller))
  {
    assert StepOk(cfg, t, ms, k);
    CoherentAlways(cfg, t, ms, k);
  }

  lemma OverrulableDemands(s: Signals, fence: FenceView, caller: Error, first: TransferResult)
    ensures Overrulable(s, fence, caller) ==> Demand(s, fence, caller, first).Some?
  {
  }

  /** The same for what an attempt observed: what it demands is the answer, unless the second look it
      owes shows something; and that look is always taken. */
  lemma AttemptDecides(cfg: Config, t: seq<Event>, k: nat, fence: FenceView)
    requires Completed(cfg, t) && k < |t| && t[k].Ended?
    requires fence == TransferFence(cfg.fenced, t[k].early, [t[k].first, t[k].second])
    ensures var demand := Demand(t[k].sight, fence, t[k].caller, t[k].first);
            if Overrulable(t[k].sight, fence, t[k].caller) then exists j: nat :: k < j && SecondLookAt(cfg, t, j, demand)
            else demand.Some? ==> Observe(cfg, t).view.due == demand && forall i :: k < i < |t| ==> Housekeeping(t[i])
  {
    var ms := HistoryOf(cfg, t);
    EndedView(cfg, t, ms, k, fence);
    OverrulableDemands(t[k].sight, fence, t[k].caller, t[k].first);
    if Overrulable(t[k].sight, fence, t[k].caller) {
      var j := OwedIsPaid(cfg, t, ms, k + 1);
    } else if Demand(t[k].sight, fence, t[k].caller, t[k].first).Some? {
      DecidedStays(cfg, t, ms, k + 1, |t|);
    }
  }

  // ---------------------------------------------------------------------------
  // No frame before the backend's own connection record.

  predicate IsConnection(e: Event) {
    e == Audit(Connected, true) || e == Audit(Reconnected, true)
  }

  /** A connection was recorded at `a`, and since then no attempt ended and no new round began. */
  ghost predicate ConnectedSince(t: seq<Event>, a: nat, n: nat) {
    a < n <= |t| && IsConnection(t[a]) && forall i :: a < i < n ==> !t[i].Resolve? && !t[i].Ended?
  }

  lemma ConnectedStep(cfg: Config, m: Monitor, e: Event)
    requires Updated(cfg, m, e).connected && Allowed(cfg, m, e)
    ensures IsConnection(e) || (m.connected && !e.Resolve? && !e.Ended?)
  {
  }

  lemma {:induction false} ConnectedIsRecorded(cfg: Config, t: seq<Event>, ms: seq<Monitor>, n: nat) returns (a: nat)
    requires IsHistory(cfg, t, ms) && n <= |t| && ms[n].connected
    ensures ConnectedSince(t, a, n)
  {
    assert StepOk(cfg, t, ms, n - 1);
    ConnectedStep(cfg, ms[n - 1], t[n - 1]);
    if IsConnection(t[n - 1]) {
      a := n - 1;
    } else {
      a := ConnectedIsRecorded(cfg, t, ms, n - 1);
    }
  }

  lemma FramesOnlyWhenConnected(cfg: Config, t: seq<Event>, k: nat)
    requires Kept(cfg, t) && k < |t| && (t[k].Take? || t[k].Deliver? || t[k].Return?)
    ensures exists a: nat :: ConnectedSince(t, a, k)
  {
    var ms := HistoryOf(cfg, t);
    assert StepOk(cfg, t, ms, k);
    var a := ConnectedIsRecorded(cfg, t, ms, k);
  }

  // ---------------------------------------------------------------------------
  // How often, and what is released.

  function Resolves(t: seq<Event>): nat {
    if t == [] then 0 else Resolves(t[..|t| - 1]) + (if t[|t| - 1].Resolve? then 1 else 0)
  }

  lemma ResolveStep(cfg: Config, m: Monitor, e: Event)
    requires Allowed(cfg, m, e) && m.resolves <= cfg.maxReconnects + 1
    ensures Updated(cfg, m, e).resolves == m.resolves + (if e.Resolve? then 1 else 0) <= cfg.maxReconnects + 1
  {
  }

  lemma {:induction false} ResolvesAgree(cfg: Config, t: seq<Event>, ms: seq<Monitor>, n: nat)
    requires IsHistory(cfg, t, ms) && n <= |t|
    ensures Resolves(t[..n]) == ms[n].resolves <= cfg.maxReconnects + 1
  {
    if n > 0 {
      ResolvesAgree(cfg, t, ms, n - 1);
      assert StepOk(cfg, t, ms, n - 1);
      ResolveStep(cfg, ms[n - 1], t[n - 1]);
      assert t[..n][..n - 1] == t[..n - 1];
    }
  }

  /** A connection resolves at most maxReconnects + 1 times. */
  lemma BoundedResolves(cfg: Config, t: seq<Event>)
    requires Kept(cfg, t)
    ensures Resolves(t) == Observe(cfg, t).resolves <= cfg.maxReconnects + 1
  {
    var ms := HistoryOf(cfg, t);
    ResolvesAgree(cfg, t, ms, |t|);
    assert t[..|t|] == t;
  }

  ghost predicate Counted(t: seq<Event>, take: Event, drop: Event, h: Hold) {
    && multiset(t)[take] == (if h == Free then 0 else 1)
    && multiset(t)[drop] == (if h == Released then 1 else 0)
  }

  lemma CountedStep(t: seq<Event>, take: Event, drop: Event, h: Hold, e: Event)
    requires Counted(t, take, drop, h) && take != drop && (e == take ==> h == Free) && (e == drop ==> h == Held)
    ensures Counted(t + [e], take, drop, if e == take then Held else if e == drop then Released else h)
  {
  }

  lemma {:induction false} CountedAlways(cfg: Config, t: seq<Event>, ms: seq<Monitor>, n: nat)
    requires IsHistory(cfg, t, ms) && n <= |t|
    ensures Counted(t[..n], TakeLocal, DropLocal, ms[n].local)
    ensures Counted(t[..n], TakeLease, DropLease, ms[n].lease)
    ensures !cfg.leased ==> ms[n].lease == Free
  {
    if n > 0 {
      CountedAlways(cfg, t, ms, n - 1);
      assert StepOk(cfg, t, ms, n - 1);
      AdmissionStep(cfg, ms[n - 1], t[n - 1]);
      CountedStep(t[..n - 1], TakeLocal, DropLocal, ms[n - 1].local, t[n - 1]);
      CountedStep(t[..n - 1], TakeLease, DropLease, ms[n - 1].lease, t[n - 1]);
      Snoc(t, n);
    }
  }

  /** On every exit what was reserved was released exactly once, and nothing else was released. */
  lemma ReleasedExactlyOnce(cfg: Config, t: seq<Event>)
    requires Completed(cfg, t)
    ensures multiset(t)[TakeLocal] == multiset(t)[DropLocal] <= 1
    ensures multiset(t)[TakeLease] == multiset(t)[DropLease] <= 1
    ensures !cfg.leased ==> multiset(t)[TakeLease] == 0
  {
    var ms := HistoryOf(cfg, t);
    CountedAlways(cfg, t, ms, |t|);
    assert t[..|t|] == t;
  }

  lemma OpenStep(cfg: Config, m: Monitor, e: Event)
    requires Allowed(cfg, m, e)
    ensures Updated(cfg, m, e).open <==> e.Opened? || (m.open && !e.CloseBackend?)
    ensures e.Opened? ==> !m.open
  {
  }

  /** From `k` up to `n` the backend opened at `k` is still open, or was closed before the next one. */
  ghost predicate ClosedBy(t: seq<Event>, k: nat, n: nat) {
    exists i :: k < i < n <= |t| && t[i].CloseBackend? && forall h :: k < h < i ==> !t[h].Opened?
  }

  lemma {:induction false} OpenOrClosed(cfg: Config, t: seq<Event>, ms: seq<Monitor>, k: nat, n: nat)
    requires IsHistory(cfg, t, ms) && k < n <= |t| && t[k].Opened?
    ensures ClosedBy(t, k, n) || (ms[n].open && forall h :: k < h < n ==> !t[h].Opened?)
  {
    assert StepOk(cfg, t, ms, n - 1);
    OpenStep(cfg, ms[n - 1], t[n - 1]);
    if k < n - 1 {
      OpenOrClosed(cfg, t, ms, k, n - 1);
      if ClosedBy(t, k, n - 1) {
        var i :| k < i < n - 1 && t[i].CloseBackend? && forall h :: k < h < i ==> !t[h].Opened?;
        assert i < n;
      } else if t[n - 1].CloseBackend? {
        assert k < n - 1 < n;
      }
    }
  }

  /** Every backend that was opened is closed, and before the next one is opened. */
  lemma OpenedIsClosed(cfg: Config, t: seq<Event>, k: nat)
    requires Completed(cfg, t) && k < |t| && t[k].Opened?
    ensures ClosedBy(t, k, |t|)
  {
    var ms := HistoryOf(cfg, t);
    OpenOrClosed(cfg, t, ms, k, |t|);
  }

  // ---------------------------------------------------------------------------
  // The frames.

  function Taken(t: seq<Event>): seq<Frame> {
    if t == [] then [] else Taken(t[..|t| - 1]) + (if t[|t| - 1].Take? then [t[|t| - 1].frame] else [])
  }

  function Delivered(t: seq<Event>): seq<Frame> {
    if t == [] then [] else Delivered(t[..|t| - 1]) + (if t[|t| - 1].Deliver? then [t[|t| - 1].frame] else [])
  }

  /** `a` is `b` with some elements left out. */
  ghost predicate Subsequence(a: seq<Frame>, b: seq<Frame>) {
    if b == [] then a == []
    else
      var n := |b| - 1;
      Subsequence(a, b[..n]) || (a != [] && a[|a| - 1] == b[n] && Subsequence(a[..|a| - 1], b[..n]))
  }

  lemma SubsequenceSnoc(a: seq<Frame>, b: seq<Frame>, f: Frame)
    requires Subsequence(a, b)
    ensures Subsequence(a, b + [f]) && Subsequence(a + [f], b + [f])
  {
    assert (b + [f])[..|b|] == b && (a + [f])[..|a|] == a;
  }

  /** The frames whose fate is known. */
  function Fated(m: Monitor): seq<Frame>
    requires m.pending.Some? ==> m.taken != []
  {
    if m.pending.Some? then m.taken[..|m.taken| - 1] else m.taken
  }

  /** At most one frame is lost per round; fenced, a loss is the last thing that happens to a frame. */
  ghost predicate FramesOk(cfg: Config, m: Monitor) {
    && (m.pending.Some? ==> m.taken != [] && m.taken[|m.taken| - 1] == m.pending.value && m.connected && !m.lostHere)
    && |Fated(m)| == |m.delivered| + m.lost
    && Subsequence(m.delivered, Fated(m))
    && m.lost <= m.resolves
    && (m.connected ==> m.resolves > 0) && (m.open ==> m.resolves > 0)
    && (!m.lostHere ==> m.resolves == 0 || m.lost < m.resolves)
    && (cfg.fenced && m.lost == 0 ==> m.delivered == Fated(m))
    && (cfg.fenced && m.lost > 0 ==> m.lost == 1 && m.lostHere && m.taken != [] && m.delivered == m.taken[..|m.taken| - 1])
  }

  lemma TakeStep(cfg: Config, m: Monitor, f: Frame)
    requires FramesOk(cfg, m) && Allowed(cfg, m, Take(f))
    ensures FramesOk(cfg, Updated(cfg, m, Take(f)))
  {
    assert Fated(Updated(cfg, m, Take(f))) == m.taken;
  }

  lemma DeliverStep(cfg: Config, m: Monitor, f: Frame)
    requires FramesOk(cfg, m) && Allowed(cfg, m, Deliver(f))
    ensures FramesOk(cfg, Updated(cfg, m, Deliver(f)))
  {
    SubsequenceSnoc(m.delivered, Fated(m), f);
    assert m.taken == Fated(m) + [f];
  }

  lemma LoseStep(cfg: Config, m: Monitor, f: Frame)
    requires FramesOk(cfg, m) && Allowed(cfg, m, Lose(f))
    ensures FramesOk(cfg, Updated(cfg, m, Lose(f)))
  {
    SubsequenceSnoc(m.delivered, Fated(m), f);
    assert m.taken == Fated(m) + [f];
  }

  lemma OtherStep(cfg: Config, m: Monitor, e: Event)
    requires FramesOk(cfg, m) && Allowed(cfg, m, e) && !(e.Take? || e.Deliver? || e.Lose?)
    ensures FramesOk(cfg, Updated(cfg, m, e))
  {
  }

  lemma FramesStep(cfg: Config, m: Monitor, e: Event)
    requires FramesOk(cfg, m) && Allowed(cfg, m, e)
    ensures FramesOk(cfg, Updated(cfg, m, e))
  {
    if e.Take? {
      TakeStep(cfg, m, e.frame);
    } else if e.Deliver? {
      DeliverStep(cfg, m, e.frame);
    } else if e.Lose? {
      LoseStep(cfg, m, e.frame);
    } else {
      OtherStep(cfg, m, e);
    }
  }

  lemma {:induction false} FramesAlways(cfg: Config, t: seq<Event>, ms: seq<Monitor>, n: nat)
    requires IsHistory(cfg, t, ms) && n <= |t|
    ensures FramesOk(cfg, ms[n])
  {
    if n > 0 {
      FramesAlways(cfg, t, ms, n - 1);
      assert StepOk(cfg, t, ms, n - 1);
      FramesStep(cfg, ms[n - 1], t[n - 1]);
    }
  }

  lemma FilterStep(cfg: Config, m: Monitor, e: Event)
    ensures Updated(cfg, m, e).taken == m.taken + (if e.Take? then [e.frame] else [])
    ensures Updated(cfg, m, e).delivered == m.delivered + (if e.Deliver? then [e.frame] else [])
  {
  }

  lemma {:induction false} FiltersAgree(cfg: Config, t: seq<Event>, ms: seq<Monitor>, n: nat)
    requires IsHistory(cfg, t, ms) && n <= |t|
    ensures ms[n].taken == Taken(t[..n]) && ms[n].delivered == Delivered(t[..n])
  {
    if n > 0 {
      FiltersAgree(cfg, t, ms, n - 1);
      assert StepOk(cfg, t, ms, n - 1);
      FilterStep(cfg, ms[n - 1], t[n - 1]);
      assert t[..n][..n - 1] == t[..n - 1];
    }
  }

  /** A frame lost since the last resolve. */
  lemma {:induction false} StillLost(cfg: Config, t: seq<Event>, ms: seq<Monitor>, i: nat, n: nat)
    requires IsHistory(cfg, t, ms) && i < n <= |t| && t[i].Lose? && forall k :: i < k < n ==> !t[k].Resolve?
    ensures ms[n].lostHere
  {
    assert StepOk(cfg, t, ms, n - 1);
    if i < n - 1 {
      StillLost(cfg, t, ms, i, n - 1);
    }
  }

  /** No round loses two frames. */
  lemma OneLossPerRound(cfg: Config, t: seq<Event>, ms: seq<Monitor>, i: nat, j: nat)
    requires IsHistory(cfg, t, ms) && i < j < |t| && t[i].Lose? && t[j].Lose?
    ensures exists k :: i < k < j && t[k].Resolve?
  {
    assert StepOk(cfg, t, ms, j);
    FramesAlways(cfg, t, ms, j);
    if forall k :: i < k < j ==> !t[k].Resolve? {
      StillLost(cfg, t, ms, i, j);
      assert false;
    }
  }

  /** Over a whole connection with all its reconnects: the backends received the frames taken from
      the client, in order, with at most one missing per round; a fenced connection misses at most
      the very last one. */
  lemma FramesConserved(cfg: Config, t: seq<Event>)
    requires Completed(cfg, t)
    ensures Subsequence(Delivered(t), Taken(t))
    ensures |Taken(t)| - |Delivered(t)| <= Resolves(t) <= cfg.maxReconnects + 1
    ensures forall i, j :: 0 <= i < j < |t| && t[i].Lose? && t[j].Lose? ==> exists k :: i < k < j && t[k].Resolve?
    ensures cfg.fenced ==> Delivered(t) == Taken(t) || (Taken(t) != [] && Delivered(t) == Taken(t)[..|Taken(t)| - 1])
  {
    var ms := HistoryOf(cfg, t);
    FramesAlways(cfg, t, ms, |t|);
    FiltersAgree(cfg, t, ms, |t|);
    BoundedResolves(cfg, t);
    assert t[..|t|] == t;
    forall i, j | 0 <= i < j < |t| && t[i].Lose? && t[j].Lose?
      ensures exists k :: i < k < j && t[k].Resolve?
    {
      OneLossPerRound(cfg, t, ms, i, j);
    }
  }
}
