# Verified models of the sandbox runtime

This project models the stateful and algebraic cores of the sandbox runtime in Dafny and proves what
they are for, over every run and every input:

- **The fenced Browser ingress** (`FencedIngress*.dfy`): a transition system over any number of callers of
  Open, Send, Receive and Close. Each step is one section the code runs undisturbed: a critical section of the
  ingress mutex, taking or returning a session gate, or the reply of one external call. Session and stream
  objects live in heaps that only grow, so deletion and recreation of a session are visible. The same sections
  are also written as a class that updates its fields in place. Wherever its code waits, others run under a rely
  condition that is proved of any number of steps of any other callers, with a gate held and without.
- **The Runtime Gateway connection** (`Gateway*.dfy`): `Connect` with all its nested phases as methods over
  nondeterministic ports. Every effect, every look at the authorities and everything an attempt observed is
  appended to a trace, and a monitor says which trace is in order and, by one independent priority order of the
  termination signals, which error is due. `Connect` is proved to produce only accepted traces and to report what
  is due; the theorems say what acceptance means for the trace itself.
- **The instance controller** (`Instance*.dfy`): acts on the repository and the runtime, runs of enabled acts
  (every world in a run is a possible crash point), and a class whose methods follow the service, with other
  callers and a drifting runtime intervening before every port call. The per-instance lock table is a
  transition system of its own.
- **Capacity and revocation** (`Capacity.dfy`, `Revocations.dfy`): counters and maps changed in place against
  the plain set of live leases or watches.
- **Recording chain and guest signing** (`Recording.dfy`, `GuestSigning.dfy`): injectivity and round trips.
- **Capability advertisement and create admission** (`CapabilityAdvertisement.dfy`, `CreateAdmission.dfy`):
  loop validators shown equal to closed declarative conditions.

Conventions. Clocks are arbitrary integers, with zero for Go's zero time. An error is a set of sentinels:
`errors.Is` is membership and `errors.Join` is union. A port is a method that answers arbitrarily within its
documented contract. Regular expressions are predicates on strings.

Idealisations, all of them assumptions about ports:

- In the ingress a dial that returns an error has left no live upstream (the code closes such a stream on a
  best-effort basis).
- A closed watch, the cause of a context and the error of an ended context stay what they are, and a context's
  error is one of Go's two context sentinels. Clocks are not assumed monotone.
- A `Receive` that returns an error consumed no frame, and a backend write whose error is reported may or may not
  have arrived; the model counts that frame as lost.
- Repository calls are atomic: an error means nothing changed. A driver's effect happens before its reply or
  never. A `NotFound` or a well-formed observation is true at that moment, and `List` is complete.
- Generated instance identifiers are not on record (the repository refuses one that is).
- SHA-256 (section 6.2 of FIPS 180-4), hex encoded, is injective and yields no zero byte. `HexIdeal` gives a
  function with both properties, so the assumption is consistent.
- `memoryRevocationWatch.finish` sets the error and closes the channel as one step: it does both inside one
  `once.Do`; that `Err` may show the error a moment before `Done` closes is not modelled.

Two properties that the sources suggest hold only under a condition, which is proved exactly:

- After a clean `Recover` with no other caller, a listed runtime resource has a matching record if and only if its
  record was not being removed when recovery began (`Controller.Recover`; `RecoverRemoving` recovers such a case).
- The error of the signal that decides an attempt is what the termination switch in `Connect` reports, with two
  families of exceptions. A capacity loss whose cause carries a fence sentinel is reported as that fence verdict.
  A capacity loss, a revocation outage or an ended context can be overtaken by something that has come up by the
  second look the switch takes. `SwitchReportsDecider` gives the exact condition for each signal and every later
  look; `CapacityLossCanHideBehindFence` and `ExpiryCanOvertakeContext` are instances of the exceptions.

Where the weight lies. Some members read a rule back for a whole run or a whole document:
`RecordedBeforeCreated` and `GoneOnlyAfterRemoval` restate guards of the acts, and `AcceptedShapes` a conjunct of
the accepting condition. What makes them hold of the code is that every method of `Controller` performs only
enabled acts, and that `Validate` and `SwitchIsShape` tie the validator to the condition.

The accumulated size of a recording can exceed its nominal maximum by up to one segment less one byte, because
`Append` checks the raw length and stores the redacted one. The bound is proved and attained.

## Model

| member | source | states |
|---|---|---|
| `FencedIngressInvariant.StepInv` | gateway/cdpfence/ingress.go:101-336 | every step of every caller keeps the whole invariant: one token per gate, exact reference counts, exact session map, and a stream is its session's active one exactly until its upstream is confirmed closed |
| `FencedIngressTheorems.RunInv` | gateway/cdpfence/ingress.go:101-336 | the invariant holds at every point of every interleaving |
| `FencedIngressTheorems.AtMostOneUpstream` | gateway/cdpfence/ingress.go:101-166 | at every point of every run a session key has at most one upstream that is not confirmed closed, counting one being dialed and one dialed and not yet published |
| `FencedIngressTheorems.UnconfirmedIsMapped` | gateway/cdpfence/ingress.go:271-336 | an unconfirmed upstream belongs to the session object its key maps to now, so a recreated session never hides an old upstream |
| `FencedIngressTheorems.OneUpstream` | gateway/cdpfence/ingress.go:133-166 | two unconfirmed upstreams of one key are the same one |
| `FencedIngressTheorems.SessionAccounting` | gateway/cdpfence/ingress.go:311-336 | a session's count is its pending Opens plus its streams with unreleased references; it is mapped exactly while the count is positive; the map keeps its limit |
| `FencedIngressTheorems.NoUnderflow` | gateway/cdpfence/ingress.go:292-336 | wherever a reference is given back the count was positive, so the guard never fails and the count drops by exactly one |
| `FencedIngressTheorems.GateExclusive` | gateway/cdpfence/ingress.go:338-350 | two callers inside the same gate are the same caller |
| `FencedIngressTheorems.RunLater` | gateway/cdpfence/ingress.go:209-309 | over any stretch of a run closed stays closed, the first terminal error never changes, and all traffic comes from streams that were not closed at its start |
| `FencedIngressTheorems.ReplacedStreamIsSilent` | gateway/cdpfence/ingress.go:133-148 | once an Open begins replacing a stream that stream never writes or delivers again, whatever the authority answers and whether or not its close succeeds, and its terminal error is fixed |
| `FencedIngressAuthority.GuardedRun` | gateway/port.go:37-48 | with an authority that keeps a monotone high-water mark, every stream and every admitted claim is covered by the mark in every reachable state |
| `FencedIngressAuthority.WritesNeverDecrease` | gateway/cdpfence/ingress.go:209-250 | with such an authority the fences of the downstream writes of one session never decrease |
| `FencedIngressAuthority.SendNeverReactivates` | gateway/cdpfence/ingress.go:233-244 | with such an authority the branch of Send for a claim that was activated again is unreachable in every run |
| `FencedIngressObjects.OthersRespectGate` | gateway/cdpfence/ingress.go:338-350 | while a caller holds a gate and waits, any number of steps of any others leave what the gate guards alone (the active stream, the holder, every stream of that session) and keep the memory sound |
| `FencedIngressObjects.OthersKeepMemory` | gateway/cdpfence/ingress.go:101-336 | without a gate, any number of steps of anyone keep the memory sound and every identity what it is |
| `FencedIngressObjects.Ingress.RetainState` | gateway/cdpfence/ingress.go:311-325 | the in-place update equals the specification's section, keeps the memory sound, and refuses only at the session limit |
| `FencedIngressObjects.Ingress.ReleaseReference` | gateway/cdpfence/ingress.go:327-336 | the in-place update equals the specification's section and keeps the memory sound |
| `FencedIngressObjects.Ingress.CloseLocked` | gateway/cdpfence/ingress.go:271-309 | called under the gate: the stream is marked first, others run during the upstream's close, only a confirmation clears the session and returns the reference, the result is the first reason, and the gate is still held |
| `FencedIngressObjects.Ingress.SendLocked` | gateway/cdpfence/ingress.go:227-250 | called under the gate: an unusable stream changes nothing and asks nobody; a frame goes out exactly on the authority's plain approval and only while the stream is usable; every failure of a usable stream leaves it closed with the reason that answer implies |
| `FencedIngressObjects.Ingress.Send` | gateway/cdpfence/ingress.go:209-250 | success means the frame was written, a write happened exactly on the authority's plain approval and only while the stream was active and unterminated, and a failed write terminates the stream |
| `FencedIngressObjects.Ingress.MakeRoom` | gateway/cdpfence/ingress.go:137-148 | called under the gate: room is reported exactly when no stream is active; a duplicate or unactivated claim changes nothing; a replaced stream has its first reason fixed |
| `FencedIngressObjects.Ingress.Open` | gateway/cdpfence/ingress.go:101-166 | an upstream is dialed only under the gate of the requested key's session with no active stream, and a returned stream is new, clean, of that key and the active one |
| `GatewayVerdict.TopDecides` | gateway/application.go:462-519 | the priority order has exactly one decider whenever any signal is raised |
| `GatewayVerdict.AuthorityRanked` | gateway/application.go:462-487 | `authorityError` reports exactly the highest raised signal of the one order |
| `GatewayVerdict.BoundaryRanked` | gateway/application.go:489-519 | `externalBoundaryError` agrees with that order, fence verdicts of the operation included |
| `GatewayVerdict.LooksFollowOrder` | gateway/application.go:462-519 | both looks give the reference verdict, which is none exactly when the watch is open, the grant current, the capacity held, the context live and the fence quiet |
| `GatewayVerdict.FenceTransferError` | gateway/application.go:746-768 | the loops find a lost fence in any backend-side result before an unavailable one, and excuse only a write failure the caller's own ended context explains |
| `GatewayVerdict.Settle` | gateway/application.go:632-672 | whichever arm of the select fired, the attempt settles on what was observed after it: a watch that woke it with an outage is no revocation, and the client is closed exactly when an authority stopped it, or the context ended before any transfer did |
| `GatewayVerdict.Judge` | gateway/application.go:682-729 | the result of an attempt is the reference result for what was observed, the second reading of the cause included |
| `GatewayVerdict.ProxyRanked` | gateway/application.go:682-729 | the result of an attempt follows the one order, is the same whichever transfer ended first, and names a side that closed exactly when no signal was raised |
| `GatewayVerdict.SwitchReportsDecider` | gateway/application.go:327-376 | for every signal and every later look, exactly when Connect's switch returns the error of the attempt's deciding signal |
| `GatewayVerdict.SwitchMeetsDemand` | gateway/application.go:327-376 | for every later look the switch returns what the attempt demands, or what the second look shows where one is owed; without a demand it goes by the side that closed first |
| `GatewayVerdict.CapacityLossCanHideBehindFence` | gateway/application.go:327-376 | a concrete capacity loss that the switch reports as a lost fence |
| `GatewayVerdict.ExpiryCanOvertakeContext` | gateway/application.go:366-376 | a concrete cancellation that the switch reports as an expiry that came up between its two looks |
| `GatewayVerdict.FailedWriteStopsFenced` | gateway/application.go:746-768 | in fenced mode an attempt with a failed backend write always demands an error, so it is never followed by a redial |
| `GatewayModel.EndpointAccepted` | gateway/application.go:804-826 | for a grant that was valid when given, an endpoint passes exactly when it is the granted session's own, of the granted generation, dialable, current, and outlives the grant, which may itself be over |
| `GatewayRun.Connect` | gateway/application.go:123-378 | for every behaviour of all ports the trace keeps every rule and ends with nothing held, open, pending or undecided; the frames taken are a prefix of the client's; the verdict that became due is what is returned, joined at most with a failed lease release; success means the client's departure was recorded |
| `GatewayRun.Rounds` | gateway/application.go:237-377 | the reconnect loop terminates, keeps the rules, neither takes nor releases a reservation, partitions the client's frames into taken and remaining, and returns the verdict that is due |
| `GatewayRun.Reach` | gateway/application.go:239-318 | one round resolves at most once and only right after a clear look, ends with an open backend and nothing due or with none and the due verdict, and asks for another round only below the reconnect limit |
| `GatewayRun.DialEndpoint` | gateway/application.go:279-318 | a backend stays open exactly when the round goes on, which it does only after a clear look at the dial's reply; otherwise the due verdict is the outcome |
| `GatewayRun.Proxy` | gateway/application.go:625-730 | both transfers terminate, at most one frame is lost and only by a failed backend write, and no frame is in flight afterwards |
| `GatewayRun.PumpUp` | gateway/application.go:778-795 | each turn takes the next client frame in order or settles the one in hand |
| `GatewayRun.Reconnect` | gateway/application.go:581-598 | another round is granted exactly below the limit and when no authority stopped the wait; a signal seen meanwhile is the outcome |
| `GatewayRun.FinishLease` | gateway/application.go:543-564 | the lease is released on the way out, a fence verdict is kept as it is, and any other error is kept or joined with the failed release |
| `GatewayRun.SetupFollowsOrder` | gateway/application.go:448-460 | `revocationSetupError` follows the one order too, with a watch that did not open counted as ended |
| `GatewayRun.OpenWatch` | gateway/application.go:210-226 | setup goes on exactly with an open watch and a clear first look; otherwise its verdict is due |
| `GatewayTheorems.AdmittedBeforeReaching` | gateway/application.go:123-279 | before every resolve and every dial there was a validated grant for this very request, both reservations were held and unreleased, a watch was opened, the event right before was a look that showed the watch open, the grant current and the capacity held, and the authorization was recorded |
| `GatewayTheorems.LookedRightBefore` | gateway/application.go:239-320 | the event right before every resolve, every dial and every record of a connection is a look that found all authorities clear |
| `GatewayTheorems.RaisedSignalDecides` | gateway/application.go:239-318 | a look that shows any signal makes the report of the highest one due for good, and only housekeeping follows it |
| `GatewayTheorems.AttemptDecides` | gateway/application.go:327-376 | what an attempt demands is due for good and only housekeeping follows, unless a second look is owed, which is then always taken and may overrule it |
| `GatewayTheorems.DialsOnlyGrantedEndpoints` | gateway/application.go:275-279 | every dial goes through an endpoint that passed validation against the grant obtained earlier |
| `GatewayTheorems.FramesOnlyWhenConnected` | gateway/application.go:313-325 | every frame taken, delivered or returned follows a recorded Connected or Reconnected event with no end of an attempt and no new round in between |
| `GatewayTheorems.BoundedResolves` | gateway/application.go:237-274 | a connection resolves at most maxReconnects + 1 times |
| `GatewayTheorems.ReleasedExactlyOnce` | gateway/application.go:543-573 | on every exit the local slot and the lease were released exactly as often as taken, at most once, and no lease exists unless configured |
| `GatewayTheorems.OpenedIsClosed` | gateway/application.go:566-573 | every backend that was opened is closed, and before the next one is opened |
| `GatewayTheorems.FramesConserved` | gateway/application.go:681-795 | over a whole connection the backends received the taken frames in order; between any two lost frames there is a new resolve, so at most maxReconnects + 1 are missing; a fenced connection misses at most the very last |
| `InstanceRuns.RunKeepsOursRecorded` | instance/service.go:101-153 | at every crash point of every run each resource the service created has a record |
| `InstanceRuns.RecordedBeforeCreated` | instance/service.go:105-120 | a resource of the service appears only behind a record already persisted as creating |
| `InstanceRuns.GoneOnlyAfterRemoval` | instance/service.go:257-275 | a record disappears only from removing, with no resource of the service left |
| `InstanceRuns.PersistedEdge` | instance/model.go:68-85 | every persisted change is a lifecycle edge or one of the two reconcile exceptions, and keeps the record's identity |
| `InstanceRuns.RecordHistory` | instance/service.go:502-518 | over a record's whole life its spec and creation time are fixed, its update time never decreases, and once removing it never changes |
| `InstanceRuns.RemovingOnlyDisappears` | instance/service.go:338-363 | from removing, a record is later either unchanged or has been deleted in between |
| `InstanceRuns.RunKeepsTimesOrdered` | instance/service.go:502-518 | under any clock no record's update time precedes its creation time |
| `InstanceRuns.QuotaKept` | instance/service.go:122-153 | while nothing is adopted the record count stays within the quota |
| `InstanceService.Controller.EveryCrashPointIsSafe` | instance/service.go:101-153 | every world a controller passed through has no unrecorded resource of the service, and without adoption stays within the quota |
| `InstanceService.Controller.PersistState` | instance/service.go:502-518 | the caller's copy always mirrors the record; a failure changes neither |
| `InstanceService.Controller.Move` | instance/service.go:365-370 | refused exactly when the lifecycle has no such edge |
| `InstanceService.Controller.Reconcile` | instance/service.go:452-493 | success leaves the record at rest and, if the runtime stands still, in agreement with the resource; a record that agrees is not touched |
| `InstanceService.Controller.Load` | instance/service.go:374-385 | a loaded record is at rest or removing, and loading never creates, drops or renames a record |
| `InstanceService.Controller.FinishOperation` | instance/service.go:389-434 | success means the target state is on record and confirmed by the runtime |
| `InstanceService.Controller.RecoverOperation` | instance/service.go:439-450 | after a reported driver error success still means the target is on record and agrees with the runtime |
| `InstanceService.Controller.Reserve` | instance/service.go:122-153 | the creating record is written within the quota even though others run meanwhile; a failure writes nothing |
| `InstanceService.Controller.Create` | instance/service.go:101-120 | an invalid spec changes nothing, a full repository is refused, and success leaves a stopped record with that spec and a stopped resource |
| `InstanceService.Controller.Switch` | instance/service.go:286-336 | Start and Stop persist the intention before the driver acts; success means the state is on record and agrees with the runtime; a removing or missing record is never touched |
| `InstanceService.Controller.Remove` | instance/service.go:338-363 | success means the record is gone and the resource too; refusal for its state means it is running |
| `InstanceService.Controller.RecoverInstance` | instance/service.go:257-275 | a successful visit deletes a removing record with its resource and leaves any other at rest, in agreement with a still runtime |
| `InstanceService.Controller.Adopt` | instance/service.go:231-255 | success means a matching record at rest; a known identifier is refused unchanged |
| `InstanceService.Controller.AdoptUnknown` | instance/service.go:202-222 | every listed resource is known with its spec or complained about, and the known count stays within the quota, whatever others do; without others, old records are untouched and other new records belong to failed adoptions |
| `InstanceService.Controller.VisitAll` | instance/service.go:223-227 | every record is visited whatever became of the others and whatever other callers do, and each is recovered by its visit or its own failure is reported |
| `InstanceService.Controller.Recover` | instance/service.go:183-229 | every record in the listing is visited and recovered or its own failure reported, whatever other callers do; without other callers a clean run leaves all at rest and each listed resource matched exactly unless it was being removed, the count exceeds the quota only by failed adoptions on record, a clean run over a still runtime leaves nothing to do, and then recovery changes nothing |
| `InstanceService.RecoverClean` | instance/service.go:183-275 | the two passes together leave every record at rest and each listed resource matched exactly when its record was not being removed |
| `InstanceService.RecoverCount` | instance/service.go:212-255 | the final count is at most the quota plus the failed adoptions that left a record |
| `InstanceService.RecoverStill` | instance/service.go:183-275 | with a still runtime a clean recovery leaves a world with nothing to do |
| `InstanceService.RecoverIdle` | instance/service.go:257-275 | where there is nothing to do the visits change nothing, even if some fail |
| `InstanceService.RecoverRemoving` | instance/service.go:267-274 | recovers a concrete world with a record being removed: if no problem is reported the resource was listed and ends without a record |
| `InstanceLocks.StepInv` | instance/service.go:554-592 | every step keeps the lock accounting across deletion and recreation of lock objects |
| `InstanceLocks.MutualExclusion` | instance/service.go:554-592 | in every run two holders of locks for the same identifier are the same caller |
| `InstanceLocks.LocksAccounted` | instance/service.go:558-592 | a lock's count is its holders plus its waiters, its one token is in its channel or with its one holder, and it is in the table exactly while used |
| `InstanceLocks.DropsOnlyUnused` | instance/service.go:585-592 | an object leaves the table only when nobody holds or awaits it |
| `Revocations.StepInv` | gateway/memory_revocation.go:44-109 | every step of Watch, Revoke, cancellation and cleanup keeps: registered watches are unfinished, a revoked grant has none |
| `Revocations.NoRevocationLost` | gateway/memory_revocation.go:53-109 | after a revocation every watch of that grant is ended, or is unregistered because its context ended, and none is registered |
| `Revocations.WatchAfterRevoke` | gateway/memory_revocation.go:60-66 | a watch opened after the revocation is closed as revoked for ever |
| `Revocations.RevocationReaches` | gateway/memory_revocation.go:91-109 | an open watch ends as revoked exactly unless cancellation had unregistered it before |
| `Revocations.RunLater` | gateway/memory_revocation.go:35-51 | revocations are permanent and a watch's result never changes once it is done |
| `Revocations.UnregisteredMeansCancelled` | gateway/memory_revocation.go:67-88 | an unfinished watch is registered or its context has ended |
| `RevocationObjects.RevocationWatch.Finish` | gateway/memory_revocation.go:44-51 | only the first result counts |
| `RevocationObjects.MemoryRevocations.Watch` | gateway/memory_revocation.go:53-89 | a watch of a revoked grant is born done, any other is registered, nothing else changes |
| `RevocationObjects.MemoryRevocations.Revoke` | gateway/memory_revocation.go:91-109 | every registered watch of the grant is done as revoked and the grant has no watchers |
| `RevocationObjects.MemoryRevocations.Unregister` | gateway/memory_revocation.go:78-85 | exactly this watch is withdrawn and empty sets are dropped |
| `CapacityBooks.AddedAgrees` | gateway/capacity.go:107-130 | booking a lease keeps the books equal to the set of live leases |
| `CapacityBooks.RemovedAgrees` | gateway/capacity.go:170-195 | releasing a lease keeps them equal, dropping a key exactly when its count reaches zero |
| `CapacityBooks.RefusedExactly` | gateway/capacity.go:121-125 | the limit test fires exactly when one more lease would exceed some limit |
| `CapacityBooks.TotalIsSumOfTenants` | gateway/capacity.go:126-128 | the total is the sum over tenants |
| `CapacityBooks.TenantIsSumOfSessions` | gateway/capacity.go:126-128 | each tenant's count is the sum over its sessions |
| `CapacityBooks.RunAgrees` | gateway/capacity.go:107-195 | over every sequence of acquires and releases the books agree with the live leases and all limits hold |
| `LocalCapacity.LocalConnectionCapacity.Acquire` | gateway/capacity.go:107-130 | each refusal has exactly its cause, a refusal changes nothing, and a grant adds exactly one live lease |
| `LocalCapacity.Lease.Release` | gateway/capacity.go:170-195 | the first release with a live context frees the lease, later ones change nothing |
| `GuestSigning.ValidId` | guestagent/protocol.go:133-145 | the loop accepts exactly the identifiers of the pattern |
| `GuestSigning.UniqueCapabilities` | guestagent/protocol.go:147-159 | the loop accepts exactly the lists of distinct valid names |
| `GuestSigning.SigningBytes` | guestagent/protocol.go:84-95 | bytes are produced exactly for valid requests, and are the signed text |
| `GuestSigning.NonceField` | guestagent/protocol.go:161-164 | a nonce line can be told from what follows it although a nonce may contain CR and LF |
| `GuestSigning.EqualBytesEqualRequests` | guestagent/protocol.go:84-116 | equal signing bytes mean equal nonces, expiry, guest, generation, protocol version and capability set |
| `GuestSigning.SignedDetermines` | guestagent/protocol.go:84-116 | the signing bytes agree if and only if the requests do |
| `RecordingChain.ChainInjective` | product/catalog.go:340-346 | equal chain digests mean equal payload sequences of any length |
| `RecordingChain.Replay` | product/catalog.go:263-290 | the loop returns a sequence exactly when one passes every check, and then that one |
| `RecordingChain.DigestDeterminesReplay` | product/catalog.go:263-290 | two successful replays with one final digest return the same payloads |
| `RecordingChain.RoundTrip` | product/catalog.go:210-290 | the only possible replay of a recording is its redacted payloads, and it succeeds exactly when their total fits |
| `RecordingChain.SizeBound` | product/catalog.go:210-238 | the accumulated size is at most the recording limit plus one segment less one byte |
| `RecordingChain.BoundAttained` | product/catalog.go:210-238 | a recording that Append accepts reaches that bound |
| `RecordingService.Recorder.Append` | product/catalog.go:210-238 | each error has exactly its cause, success appends exactly the redacted payload to the chain, failure changes nothing on record |
| `RecordingService.Recorder.Finalize` | product/catalog.go:240-254 | a finalized recording carries the digest of its whole chain; repeated finalization is harmless |
| `RecordingService.ReplayRecorded` | product/catalog.go:263-290 | append, finalize, replay returns the redacted payloads in order exactly when their total fits |
| `CapabilityAdvertisement.Validate` | provider/capability.go:195-368 | accepts exactly the documents of the declarative condition |
| `CapabilityAdvertisement.CheckCapabilities` | provider/capability.go:203-249 | the scan accepts exactly pairwise disjoint, well-formed capabilities and returns their index and profile set |
| `CapabilityAdvertisement.SwitchIsShape` | provider/capability.go:263-290 | the counting switch holds exactly for the closed list of capability sets |
| `CapabilityAdvertisement.CheckRuntime` | provider/capability.go:317-366 | a runtime profile passes exactly when it is well formed and its profile list is the advertised set without repetition |
| `CapabilityAdvertisement.AcceptedShapes` | provider/capability.go:250-298 | an accepted document advertises nothing or one of the six base sets, optionally with lifecycle control, and terminal control only beside terminal |
| `CapabilityAdvertisement.ProfilesBiject` | provider/capability.go:299-366 | an accepted non-empty document has one runtime profile whose profile list bijects with the advertised profiles, each with one owner |
| `CreateAdmission.Validate` | providerapi/lifecycle_projection.go:388-453 | accepts exactly the requests of the declarative condition |
| `CreateAdmission.CheckRequired` | providerapi/lifecycle_projection.go:427-451 | the loop accepts exactly a repetition-free list of matching requirements for expected profiles |
| `CreateAdmission.MatchIsOwnership` | providerapi/lifecycle_projection.go:421-450 | under an accepted snapshot a requirement matches exactly when an advertised capability owns its profile at that version |
| `CreateAdmission.CoverCount` | providerapi/lifecycle_projection.go:413-436 | comparing lengths decides covering, by pigeonhole |
| `CreateAdmission.AdmissionIsExactCover` | providerapi/lifecycle_projection.go:388-453 | under an accepted snapshot a create request passes exactly when revision and runtime profile match, nothing is optional and the required list is an exact cover of the advertised profiles |

## Left out

- Process wiring, configuration, logging, HTTP and WebSocket adapters, TLS, the web UI, Docker drivers, file locks and the Redis, PostgreSQL and file repositories: they appear only through their port contracts.
- Real time, scheduling fairness and liveness: clocks are arbitrary values and only safety is stated; nothing says that a higher fence eventually gets in after a failed close.
- Frame and byte counters, audit event fields beyond kind and success, and error message text.
- `connectionCapacity.acquire` in gateway/capacity.go:45-76: the same accounting at two levels instead of three.
- `List` and `Inspect` of the instance service: a loop of `Load`, whose contract is proved.
- Other dispatcher loops, transition tables, `product/transfer.go`, `product/development.go`, the pattern redactor and the recording service's Start, Fail and CleanupExpired: they would add easier members or rest on stores that are not modelled.
- Nil checks, context checks before a call begins, and the frame size check of Send: they refuse a call before any modelled state is touched.
- FencedIngressObjects.Ingress.Open: the reference returned after a failure is stated exactly in the transition system (`SessionAccounting`), not in this method, because other callers change the count meanwhile.
- GatewayRun.Connect: the events are those of one connection; concurrency inside it is the interleaving of its two transfers and of its signals, and no other connection is modelled.
- GuestSigning.SigningBytes: the timestamp is any text of digits and the punctuation of RFC 3339 forms, a superset of what Go's time.Parse accepts, so the injectivity proved here covers it.
- InstanceService.Controller.Recover: what is left behind at the end is stated for a recovery without other callers, since others may start an operation on a record already visited; the two clauses about a still runtime also exclude drift.
- InstanceService.Controller.Switch: Start and Stop differ only in their target and are one method with a flag.
- InstanceService.Controller.Create: the failure text kept with a failed record is not modelled.
- RecordingService.Recorder.Append: the store is a record that accepts or refuses a segment; the PostgreSQL catalog's own size check is not modelled.
