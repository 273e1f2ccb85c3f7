/** Requests, grants and endpoints of the Runtime Gateway (gateway/model.go, gateway/port.go). */
module GatewayModel {
  import opened Common
  import opened Identifiers
  import opened GatewayVerdict

  /** Instants; zero is Go's zero time. */
  type Time = int

  type Frame = seq<int>

  datatype Request = Request(
    caller: string, tenant: string, sandbox: string, runtimeSession: string, browserSession: string,
    profile: string, reference: string)

  datatype Grant = Grant(id: string, request: Request, generation: int, expiresAt: Time)

  datatype Endpoint = Endpoint(
    reference: string, sandbox: string, runtimeSession: string, browserSession: string, profile: string,
    generation: int, expiresAt: Time, hasDial: bool)

  /** The prefix followed by [A-Za-z0-9][A-Za-z0-9._-]{0,199} */
  predicate IsReference(prefix: string, s: string) {
    && |prefix| < |s| <= |prefix| + 200 && s[..|prefix|] == prefix
    && IsAlnum(s[|prefix|])
    && forall i :: |prefix| <= i < |s| ==> IsAlnum(s[i]) || s[i] in "._-"
  }

  predicate ValidReference(runtimeSession: string, s: string) {
    IsReference(if runtimeSession != "" then "ref:session:" else "ref:browser-session:", s)
  }

  predicate ValidRequest(r: Request) {
    && IsIdentifier(r.caller) && IsIdentifier(r.tenant) && IsIdentifier(r.sandbox) && IsIdentifier(r.profile)
    && (if r.runtimeSession != "" then r.browserSession == "" && IsIdentifier(r.runtimeSession)
        else IsIdentifier(r.browserSession))
    && ValidReference(r.runtimeSession, r.reference)
  }

  predicate ValidGrant(g: Grant, now: Time) {
    now != 0 && IsIdentifier(g.id) && ValidRequest(g.request) && g.generation >= 1 && g.expiresAt != 0 && g.expiresAt > now
  }

  function ValidateEndpoint(e: Endpoint, g: Grant, now: Time): Error {
    if e.reference != g.request.reference || !ValidReference(g.request.runtimeSession, e.reference) then Err({ReferenceUnavailable})
    else if e.sandbox != g.request.sandbox || e.runtimeSession != g.request.runtimeSession ||
            e.browserSession != g.request.browserSession || e.profile != g.request.profile then Err({StaleReference})
    else if e.generation != g.generation then Err({StaleReference})
    else if !e.hasDial then Err({ReferenceUnavailable})
    else if e.expiresAt == 0 || e.expiresAt <= now then Err({Expired})
    else if g.expiresAt > e.expiresAt then Err({StaleReference})
    else Nil
  }

  /** For a grant that was valid when it was given, at `given`, an endpoint passes exactly when it is the
      granted session's own, current at `now`, and outlives the grant, which may be over by now. */
  lemma EndpointAccepted(e: Endpoint, g: Grant, given: Time, now: Time)
    requires ValidGrant(g, given)
    ensures ValidateEndpoint(e, g, now) == Nil <==>
      && e == Endpoint(g.request.reference, g.request.sandbox, g.request.runtimeSession, g.request.browserSession,
                       g.request.profile, g.generation, e.expiresAt, true)
      && now < e.expiresAt && g.expiresAt <= e.expiresAt && e.expiresAt != 0
  {
  }
}
