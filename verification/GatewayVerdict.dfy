/**
 How the Runtime Gateway (gateway/application.go) ranks termination signals that are raised at the
 same time. A Go error is the set of sentinels errors.Is finds in it; errors.Join is union.
 */
module GatewayVerdict {
  import opened Common

  datatype Mark =
    | Revoked | Expired | CapacityUnavailable | CapacityLeaseLost | CapacityExhausted
    | FenceLost | DownstreamUnavailable | RevocationUnavailable | ProxyUnavailable
    | ReferenceUnavailable | StaleReference | ReconnectExhausted | AuditUnavailable | Unauthorized
    | InvalidRequest | Canceled | DeadlineExceeded

  datatype Error = Nil | Err(marks: set<Mark>)

  predicate Is(e: Error, m: Mark) {
    e.Err? && m in e.marks
  }

  function Join(a: Error, b: Error): Error {
    if a.Nil? then b else if b.Nil? then a else Err(a.marks + b.marks)
  }

  predicate IsContext(e: Error) {
    Is(e, Canceled) || Is(e, DeadlineExceeded)
  }

  predicate IsFence(e: Error) {
    Is(e, FenceLost) || Is(e, DownstreamUnavailable)
  }

  /** What Err returns after Done of a revocation watch has closed. */
  datatype WatchEnd = SaysRevoked | SaysCanceled | SaysDeadline | SaysUnavailable | SaysOther

  /** One look at the authorities: the watch (None while Done is open), the grant's expiry,
      context.Cause and Err of the connection's context. */
  datatype Signals = Signals(watch: Option<WatchEnd>, expired: bool, cause: Error, context: Error)

  function RevocationError(watch: Option<WatchEnd>): Error {
    match watch
    case None => Nil
    case Some(SaysRevoked) => Err({Revoked})
    case Some(SaysCanceled) => Err({Canceled})
    case Some(SaysDeadline) => Err({DeadlineExceeded})
    case Some(_) => Err({RevocationUnavailable})
  }

  function CapacityError(cause: Error): Error {
    if Is(cause, CapacityUnavailable) then cause else Nil
  }

  function OutageError(revocation: Error): Error {
    if IsContext(revocation) then revocation
    else Join(Err({ProxyUnavailable, RevocationUnavailable}), revocation)
  }

  function AuthorityError(s: Signals): Error {
    var revocation := RevocationError(s.watch);
    if Is(revocation, Revoked) then Err({Revoked})
    else if s.expired then Err({Expired})
    else if CapacityError(s.cause) != Nil then CapacityError(s.cause)
    else if revocation != Nil then OutageError(revocation)
    else s.context
  }

  function FenceError(e: Error): Error {
    if Is(e, FenceLost) then Err({FenceLost})
    else if Is(e, DownstreamUnavailable) then Err({DownstreamUnavailable})
    else Nil
  }

  /** After an external resolve or dial returned `operation`. */
  function ExternalBoundaryError(s: Signals, fenced: bool, operation: Error): Error {
    var revocation := RevocationError(s.watch);
    if Is(revocation, Revoked) then Err({Revoked})
    else if s.expired then Err({Expired})
    else if CapacityError(s.cause) != Nil then CapacityError(s.cause)
    else if fenced && FenceError(operation) != Nil then FenceError(operation)
    else if fenced && operation != Nil && !(s.context != Nil && IsContext(operation)) then Err({DownstreamUnavailable})
    else if revocation != Nil then OutageError(revocation)
    else s.context
  }

  // ---------------------------------------------------------------------------
  // The one order.

  datatype Signal = IsRevoked | IsExpired | CapacityGone | FenceGone | FenceDown | RevocationDown | ContextOver

  function Rank(x: Signal): nat {
    match x
    case IsRevoked => 0
    case IsExpired => 1
    case CapacityGone => 2
    case FenceGone => 3
    case FenceDown => 4
    case RevocationDown => 5
    case ContextOver => 6
  }

  /** What the downstream fence says about an operation or an attempt. */
  datatype FenceView = Quiet | Lost | Down

  /** A failed external operation of a fenced gateway is a fence failure unless the context explains it. */
  function OperationFence(s: Signals, fenced: bool, operation: Error): FenceView {
    if !fenced || operation == Nil then Quiet
    else if Is(operation, FenceLost) then Lost
    else if !Is(operation, DownstreamUnavailable) && s.context != Nil && IsContext(operation) then Quiet
    else Down
  }

  predicate Raised(x: Signal, s: Signals, fence: FenceView, caller: Error) {
    match x
    case IsRevoked => s.watch == Some(SaysRevoked)
    case IsExpired => s.expired
    case CapacityGone => Is(s.cause, CapacityUnavailable)
    case FenceGone => fence == Lost
    case FenceDown => fence == Down
    case RevocationDown => s.watch.Some? && s.watch != Some(SaysRevoked)
    case ContextOver => caller != Nil || s.context != Nil
  }

  /** `x` is raised and nothing of higher priority is. */
  ghost predicate Decides(x: Signal, s: Signals, fence: FenceView, caller: Error) {
    Raised(x, s, fence, caller) && forall y :: Raised(y, s, fence, caller) ==> Rank(x) <= Rank(y)
  }

  /** The error that reports a signal. */
  function Report(x: Signal, s: Signals, caller: Error): Error {
    match x
    case IsRevoked => Err({Revoked})
    case IsExpired => Err({Expired})
    case CapacityGone => s.cause
    case FenceGone => Err({FenceLost})
    case FenceDown => Err({DownstreamUnavailable})
    case RevocationDown =>
      (match s.watch
       case Some(SaysCanceled) => Err({Canceled})
       case Some(SaysDeadline) => Err({DeadlineExceeded})
       case _ => Err({ProxyUnavailable, RevocationUnavailable}))
    case ContextOver => if caller != Nil then caller else s.context
  }

  /** `verdict` reports the highest-ranked raised signal, and is Nil when none is raised. */
  ghost predicate Ranked(verdict: Error, s: Signals, fence: FenceView, caller: Error) {
    && (forall x :: Decides(x, s, fence, caller) ==> verdict == Report(x, s, caller))
    && ((forall x :: !Raised(x, s, fence, caller)) ==> verdict == Nil)
  }

  /** The first raised signal in order of rank. */
  function Top(s: Signals, fence: FenceView, caller: Error): Option<Signal> {
    if Raised(IsRevoked, s, fence, caller) then Some(IsRevoked)
    else if Raised(IsExpired, s, fence, caller) then Some(IsExpired)
    else if Raised(CapacityGone, s, fence, caller) then Some(CapacityGone)
    else if Raised(FenceGone, s, fence, caller) then Some(FenceGone)
    else if Raised(FenceDown, s, fence, caller) then Some(FenceDown)
    else if Raised(RevocationDown, s, fence, caller) then Some(RevocationDown)
    else if Raised(ContextOver, s, fence, caller) then Some(ContextOver)
    else None
  }

  lemma TopDecides(s: Signals, fence: FenceView, caller: Error)
    ensures forall x :: Decides(x, s, fence, caller) <==> Top(s, fence, caller) == Some(x)
    ensures (forall x :: !Raised(x, s, fence, caller)) <==> Top(s, fence, caller) == None
  {
    var top := Top(s, fence, caller);
    forall y | Raised(y, s, fence, caller) ensures top.Some? && Rank(top.value) <= Rank(y) {
      match y {
        case IsRevoked =>
        case IsExpired =>
        case CapacityGone =>
        case FenceGone =>
        case FenceDown =>
        case RevocationDown =>
        case ContextOver =>
      }
    }
    forall x ensures Decides(x, s, fence, caller) <==> top == Some(x) {
      if top.Some? {
        assert Raised(top.value, s, fence, caller);
      }
    }
  }

  lemma AuthorityRanked(s: Signals)
    ensures Ranked(AuthorityError(s), s, Quiet, Nil)
  {
    TopDecides(s, Quiet, Nil);
  }

  lemma BoundaryRanked(s: Signals, fenced: bool, operation: Error)
    ensures Ranked(ExternalBoundaryError(s, fenced, operation), s, OperationFence(s, fenced, operation), Nil)
  {
    TopDecides(s, OperationFence(s, fenced, operation), Nil);
  }

  /** The reference verdict: the report of the highest raised signal. */
  function Due(s: Signals, fence: FenceView, caller: Error): Error {
    match Top(s, fence, caller)
    case None => Nil
    case Some(x) => Report(x, s, caller)
  }

  /** Nothing is raised: the watch is open, the grant current, the capacity held, the context live. */
  predicate Clear(s: Signals) {
    s.watch == None && !s.expired && !Is(s.cause, CapacityUnavailable) && s.context == Nil
  }

  /** authorityError and externalBoundaryError give the reference verdict, which is Nil exactly for a
      clear look at an operation that the fence does not mind. */
  lemma LooksFollowOrder(s: Signals, fenced: bool, operation: Error)
    ensures AuthorityError(s) == Due(s, Quiet, Nil)
    ensures ExternalBoundaryError(s, fenced, operation) == Due(s, OperationFence(s, fenced, operation), Nil)
    ensures Due(s, OperationFence(s, fenced, operation), Nil) == Nil <==> Clear(s) && OperationFence(s, fenced, operation) == Quiet
  {
    AuthorityRanked(s);
    BoundaryRanked(s, fenced, operation);
    TopDecides(s, Quiet, Nil);
    TopDecides(s, OperationFence(s, fenced, operation), Nil);
  }

  // ---------------------------------------------------------------------------
  // What ends an attempt.

  datatype Side = ClientSide | BackendSide
  datatype TransferResult = TransferResult(side: Side, writeFailed: bool, err: Error)

  /** The caller's own ended context explains a transfer error of the same kind. */
  predicate Excused(caller: Error, e: Error) {
    (Is(caller, Canceled) && Is(e, Canceled)) || (Is(caller, DeadlineExceeded) && Is(e, DeadlineExceeded))
  }

  predicate SaysLost(r: TransferResult) {
    r.side == BackendSide && Is(r.err, FenceLost)
  }

  predicate SaysDown(caller: Error, r: TransferResult) {
    r.side == BackendSide && (Is(r.err, DownstreamUnavailable) || (r.writeFailed && !Excused(caller, r.err)))
  }

  /** What the fence says about an attempt: any backend-side result may bring the news, and a lost
      fence outweighs an unavailable one. */
  function TransferFence(fenced: bool, caller: Error, results: seq<TransferResult>): FenceView {
    if fenced && exists r :: r in results && SaysLost(r) then Lost
    else if fenced && exists r :: r in results && SaysDown(caller, r) then Down
    else Quiet
  }

  function FenceReport(view: FenceView): Error {
    match view
    case Quiet => Nil
    case Lost => Err({FenceLost})
    case Down => Err({DownstreamUnavailable})
  }

  /** downstreamFenceTransferError */
  method FenceTransferError(fenced: bool, caller: Error, results: seq<TransferResult>) returns (e: Error)
    ensures e == FenceReport(TransferFence(fenced, caller, results))
  {
    if !fenced {
      return Nil;
    }
    for i := 0 to |results|
      invariant forall k :: 0 <= k < i ==> !SaysLost(results[k])
    {
      if results[i].side == BackendSide && Is(results[i].err, FenceLost) {
        assert SaysLost(results[i]);
        return Err({FenceLost});
      }
    }
    for i := 0 to |results|
      invariant forall k :: 0 <= k < i ==> !SaysDown(caller, results[k])
    {
      var r := results[i];
      if r.side == BackendSide && (Is(r.err, DownstreamUnavailable) || (r.writeFailed && !Excused(caller, r.err))) {
        assert SaysDown(caller, results[i]);
        return Err({DownstreamUnavailable});
      }
    }
    return Nil;
  }

  /** The select of an attempt; an attempt that begins expired selects nothing. */
  datatype Arm = FromTransfer | FromWatch | FromTimer | FromContext

  /** What is read once the select has fired: the watch, the timer's channel, the clock, the cause and
      the error of the context. */
  datatype Glance = Glance(watch: Option<WatchEnd>, timer: bool, late: bool, cause: Error, context: Error)

  /** What the attempt has observed by then, whichever arm fired. */
  function Observed(arm: Option<Arm>, g: Glance): Signals {
    Signals(g.watch, arm == None || arm == Some(FromTimer) || g.timer || g.late, g.cause, g.context)
  }

  /** The arm that fired only wakes the attempt: what it settles on is what was observed. In
      particular a watch that woke it with an outage is no revocation. `stopped` tells whether the
      client is closed too. */
  method Settle(arm: Option<Arm>, g: Glance) returns (revoked: bool, expired: bool, haveFirst: bool, stopped: bool)
    ensures revoked <==> Raised(IsRevoked, Observed(arm, g), Quiet, Nil)
    ensures expired <==> Raised(IsExpired, Observed(arm, g), Quiet, Nil)
    ensures haveFirst <==> arm == Some(FromTransfer)
    ensures stopped <==> Top(Observed(arm, g), Quiet, Nil).Some? && (haveFirst ==> Top(Observed(arm, g), Quiet, Nil) != Some(ContextOver))
    ensures arm == Some(FromWatch) && g.watch != Some(SaysRevoked) ==> !revoked
  {
    expired := arm == None;
    haveFirst, revoked := false, false;
    if !expired {
      match arm.value {
        case FromTransfer => haveFirst := true;
        case FromWatch => revoked := true;
        case FromTimer => expired := true;
        case FromContext =>
      }
    }
    var revocation := RevocationError(g.watch);
    revoked := Is(revocation, Revoked);
    if !expired && arm.Some? && g.timer {
      expired := true;
    }
    if !expired {
      expired := g.late;
    }
    stopped := revocation != Nil || expired || CapacityError(g.cause) != Nil || (!haveFirst && g.context != Nil);
  }

  datatype ProxyResult = ProxyResult(clientClosed: bool, backendClosed: bool, revoked: bool, expired: bool, err: Error)

  /** The reading of the cause that goes with an ended context is taken again at the end. */
  function Reread(s: Signals, fence: FenceView, caller: Error, again: Error): Signals {
    if Top(s, fence, caller) == Some(ContextOver) && Is(again, CapacityUnavailable) then s.(cause := again) else s
  }

  /** The reference result of an attempt: its deciding signal, or the side that closed first. */
  function Verdict(s: Signals, fence: FenceView, caller: Error, first: TransferResult): ProxyResult {
    var top := Top(s, fence, caller);
    ProxyResult(
      top == None && first.side == ClientSide, top == None && first.side == BackendSide,
      s.watch == Some(SaysRevoked), s.expired,
      if top == None || top == Some(IsRevoked) || top == Some(IsExpired) then first.err else Due(s, fence, caller))
  }

  /** proxyAttempt after both transfers reported: `early` is the caller's context as the fence
      classifier sees it, `caller` the same context later, `again` the second reading of the cause. */
  method Judge(revoked: bool, expired: bool, g: Glance, fenced: bool, early: Error, caller: Error, again: Error,
               first: TransferResult, second: TransferResult) returns (r: ProxyResult)
    requires revoked == (g.watch == Some(SaysRevoked))
    ensures var fence := TransferFence(fenced, early, [first, second]);
            var s := Reread(Signals(g.watch, expired, g.cause, g.context), fence, caller, again);
            r == Verdict(s, fence, caller, first)
  {
    var revocation := RevocationError(g.watch);
    var capacity := CapacityError(g.cause);
    r := ProxyResult(false, false, revoked, expired, first.err);
    if r.revoked || r.expired {
      return;
    }
    if capacity != Nil {
      return r.(err := capacity);
    }
    var fence := FenceTransferError(fenced, early, [first, second]);
    if fence != Nil {
      return r.(err := fence);
    }
    if revocation != Nil {
      return r.(err := if IsContext(revocation) then revocation else Join(Err({ProxyUnavailable, RevocationUnavailable}), revocation));
    }
    r := JudgeQuiet(g, caller, again, first);
  }

  /** The rest, when neither an authority nor the fence has anything to say. */
  method JudgeQuiet(g: Glance, caller: Error, again: Error, first: TransferResult) returns (r: ProxyResult)
    requires g.watch == None && CapacityError(g.cause) == Nil
    ensures r == Verdict(Reread(Signals(None, false, g.cause, g.context), Quiet, caller, again), Quiet, caller, first)
  {
    r := ProxyResult(false, false, false, false, first.err);
    if caller != Nil {
      return r.(err := if CapacityError(again) != Nil then CapacityError(again) else caller);
    }
    if g.context != Nil {
      return r.(err := if CapacityError(again) != Nil then CapacityError(again) else g.context);
    }
    if first.side == ClientSide {
      return r.(clientClosed := true);
    }
    return r.(backendClosed := true);
  }

  function ProxyError(r: ProxyResult): Error {
    if r.revoked then Err({Revoked}) else if r.expired then Err({Expired})
    else if r.clientClosed || r.backendClosed then Nil else r.err
  }

  /** The result of an attempt follows the one order, and apart from telling who left it does not
      depend on which transfer ended first. */
  lemma ProxyRanked(s: Signals, fenced: bool, early: Error, caller: Error, first: TransferResult, second: TransferResult)
    ensures var fence := TransferFence(fenced, early, [first, second]);
            && Ranked(ProxyError(Verdict(s, fence, caller, first)), s, fence, caller)
            && ProxyError(Verdict(s, fence, caller, first)) ==
               ProxyError(Verdict(s, TransferFence(fenced, early, [second, first]), caller, second))
            && ((forall x :: !Raised(x, s, fence, caller)) <==>
                Verdict(s, fence, caller, first).clientClosed || Verdict(s, fence, caller, first).backendClosed)
  {
    assert forall r :: r in [first, second] <==> r in [second, first];
    TopDecides(s, TransferFence(fenced, early, [first, second]), caller);
  }

  // ---------------------------------------------------------------------------
  // From the attempt's result to what Connect returns.

  /** What Connect does after an attempt. */
  datatype Disposition = Stop(err: Error) | ClientLeft | BackendLeft

  /** The default branch of the switch, which looks at the authorities again. */
  predicate LooksAgain(r: ProxyResult) {
    !r.revoked && !r.expired && !IsFence(r.err) && !r.clientClosed && !r.backendClosed
  }

  /** The switch in Connect; `now` is the look the default branch takes. */
  function Dispose(r: ProxyResult, now: Signals): Disposition {
    if r.revoked then Stop(Err({Revoked}))
    else if r.expired then Stop(Err({Expired}))
    else if Is(r.err, FenceLost) then Stop(Err({FenceLost}))
    else if Is(r.err, DownstreamUnavailable) then Stop(Err({DownstreamUnavailable}))
    else if r.clientClosed then ClientLeft
    else if r.backendClosed then BackendLeft
    else if AuthorityError(now) != Nil then Stop(AuthorityError(now))
    else if IsContext(r.err) then Stop(r.err)
    else Stop(Join(Err({ProxyUnavailable}), r.err))
  }

  /** A context reports one of its two sentinels. */
  predicate OfContext(e: Error) {
    e == Nil || e == Err({Canceled}) || e == Err({DeadlineExceeded})
  }

  /** What a look shows stays so: a closed watch, the cause and the error of an ended context. */
  predicate Persists(s: Signals, now: Signals) {
    && (s.watch.Some? ==> now.watch == s.watch)
    && (s.cause != Nil ==> now.cause == s.cause)
    && (s.context != Nil ==> now.context == s.context)
  }

  /** What an attempt asks Connect to return, if anything. */
  function Demand(s: Signals, fence: FenceView, caller: Error, first: TransferResult): Option<Error> {
    match Top(s, fence, caller)
    case None => if IsFence(first.err) then Some(FenceError(first.err)) else None
    case Some(CapacityGone) => Some(if IsFence(s.cause) then FenceError(s.cause) else s.cause)
    case Some(x) => Some(Report(x, s, caller))
  }

  /** The decider ranks below the fence, so a second look may still overrule it. */
  predicate Overrulable(s: Signals, fence: FenceView, caller: Error) {
    var top := Top(s, fence, caller);
    (top == Some(CapacityGone) && !IsFence(s.cause)) || top == Some(RevocationDown) || top == Some(ContextOver)
  }

  lemma SwitchLooksAgain(s: Signals, fence: FenceView, caller: Error, first: TransferResult)
    requires OfContext(caller) && OfContext(s.context)
    ensures LooksAgain(Verdict(s, fence, caller, first)) <==> Overrulable(s, fence, caller)
  {
  }

  lemma FirstLook(s: Signals, fence: FenceView, caller: Error, first: TransferResult, now: Signals)
    requires OfContext(caller) && OfContext(s.context) && !Overrulable(s, fence, caller)
    ensures Dispose(Verdict(s, fence, caller, first), now) ==
            match Demand(s, fence, caller, first)
            case None => if first.side == ClientSide then ClientLeft else BackendLeft
            case Some(e) => Stop(e)
  {
  }

  lemma SecondLook(s: Signals, fence: FenceView, caller: Error, first: TransferResult, now: Signals)
    requires OfContext(caller) && OfContext(s.context) && Persists(s, now) && Overrulable(s, fence, caller)
    ensures Demand(s, fence, caller, first) == Some(Due(s, fence, caller))
    ensures Dispose(Verdict(s, fence, caller, first), now) ==
            Stop(if AuthorityError(now) != Nil then AuthorityError(now) else Due(s, fence, caller))
  {
    SwitchLooksAgain(s, fence, caller, first);
    if AuthorityError(now) == Nil {
      assert Top(s, fence, caller) == Some(ContextOver);
    }
  }

  /** Connect's switch for every later look: what the attempt demands, unless a second look that is
      owed to it shows something; without a demand, the side that closed first. */
  lemma SwitchMeetsDemand(s: Signals, fence: FenceView, caller: Error, first: TransferResult, now: Signals)
    requires OfContext(caller) && OfContext(s.context) && Persists(s, now)
    ensures Dispose(Verdict(s, fence, caller, first), now) ==
            match Demand(s, fence, caller, first)
            case None => if first.side == ClientSide then ClientLeft else BackendLeft
            case Some(e) => Stop(if Overrulable(s, fence, caller) && Due(now, Quiet, Nil) != Nil then Due(now, Quiet, Nil) else e)
  {
    LooksFollowOrder(now, false, Nil);
    if Overrulable(s, fence, caller) {
      SecondLook(s, fence, caller, first, now);
    } else {
      FirstLook(s, fence, caller, first, now);
    }
  }

  /** The second look shows nothing but the error `e` of an ended context. */
  predicate ShowsOnly(now: Signals, e: Error) {
    && now.watch != Some(SaysRevoked) && !now.expired && !Is(now.cause, CapacityUnavailable)
    && match now.watch
       case None => now.context == Nil || now.context == e
       case Some(SaysCanceled) => e == Err({Canceled})
       case Some(SaysDeadline) => e == Err({DeadlineExceeded})
       case Some(_) => false
  }

  /** When the decider of the attempt is what Connect reports, for every later look. A decider that
      ranks no lower than the fence always is, except a capacity loss that carries a fence sentinel;
      a lower one is unless something above it has come up by the second look. */
  lemma SwitchReportsDecider(s: Signals, fence: FenceView, caller: Error, first: TransferResult, now: Signals, x: Signal)
    requires Decides(x, s, fence, caller)
    requires OfContext(caller) && OfContext(s.context) && Persists(s, now)
    ensures Dispose(Verdict(s, fence, caller, first), now) == Stop(Report(x, s, caller)) <==>
            match x
            case IsRevoked => true
            case IsExpired => true
            case FenceGone => true
            case FenceDown => true
            case CapacityGone => !IsFence(s.cause) && now.watch != Some(SaysRevoked) && !now.expired
            case RevocationDown => !now.expired && !Is(now.cause, CapacityUnavailable)
            case ContextOver => ShowsOnly(now, Report(ContextOver, s, caller))
  {
    TopDecides(s, fence, caller);
    SwitchMeetsDemand(s, fence, caller, first, now);
  }

  /** A capacity loss that names the fence is reported as a lost fence. */
  lemma CapacityLossCanHideBehindFence() returns (s: Signals, first: TransferResult)
    ensures Decides(CapacityGone, s, Quiet, Nil) && !IsFence(first.err)
    ensures Dispose(Verdict(s, Quiet, Nil, first), s) == Stop(Err({FenceLost}))
  {
    s := Signals(None, false, Err({CapacityUnavailable, FenceLost}), Err({Canceled}));
    first := TransferResult(ClientSide, false, Nil);
    TopDecides(s, Quiet, Nil);
  }

  /** A cancellation is reported as an expiry that came up between the two looks. */
  lemma ExpiryCanOvertakeContext() returns (s: Signals, now: Signals, first: TransferResult)
    ensures Decides(ContextOver, s, Quiet, Nil) && Persists(s, now)
    ensures Dispose(Verdict(s, Quiet, Nil, first), now) == Stop(Err({Expired}))
  {
    s := Signals(None, false, Nil, Err({Canceled}));
    now := s.(expired := true);
    first := TransferResult(ClientSide, false, Nil);
    TopDecides(s, Quiet, Nil);
  }

  // ---------------------------------------------------------------------------
  // A failed backend write never leads to a redial of a fenced backend.

  /** Either the fence decides, or the caller's context has ended and stays ended. */
  lemma FailedWriteStopsFenced(s: Signals, early: Error, caller: Error, first: TransferResult, second: TransferResult)
    requires early != Nil ==> caller == early
    requires (first.side == BackendSide && first.writeFailed) || (second.side == BackendSide && second.writeFailed)
    ensures Demand(s, TransferFence(true, early, [first, second]), caller, first).Some?
  {
    var r := if first.side == BackendSide && first.writeFailed then first else second;
    assert r in [first, second];
    assert SaysDown(early, r) || Excused(early, r.err);
  }
}
