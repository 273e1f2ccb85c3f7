/**
 Admission of a create request against a capability snapshot (providerapi/lifecycle_projection.go,
 validateCreateCapabilityRequirements): for every accepted snapshot the loops amount to an exact
 cover of the advertised profiles.
 */
module CreateAdmission {
  import opened Common
  import opened CapabilityAdvertisement

  datatype Requirement = Requirement(id: string, profile: string, version: string)

  datatype SandboxSpec = SandboxSpec(
    revision: string, runtimeProfile: string, required: seq<Requirement>, optionals: seq<Requirement>)

  datatype Snapshot = Snapshot(revision: string, capabilities: seq<Capability>, runtimes: seq<RuntimeProfile>)

  // ---------------------------------------------------------------------------
  // What the code looks up, for any snapshot.

  /** The first runtime profile with this ID. */
  function FirstRuntime(runtimes: seq<RuntimeProfile>, id: string): Option<RuntimeProfile> {
    if runtimes == [] then None
    else if runtimes[0].id == id then Some(runtimes[0])
    else FirstRuntime(runtimes[1..], id)
  }

  /** The map from profiles to capabilities, where a later owner overwrites an earlier one. */
  function Owners(caps: seq<Capability>): map<string, Capability> {
    if caps == [] then map[]
    else
      var c := caps[|caps| - 1];
      Owners(caps[..|caps| - 1]) + map p | p in c.profiles :: c
  }

  predicate Matches(r: Requirement, owners: map<string, Capability>) {
    && r.profile in owners
    && r.id == owners[r.profile].id
    && owners[r.profile].versions.Some?
    && r.version in owners[r.profile].versions.value
  }

  function Wanted(required: seq<Requirement>): set<string> {
    set r | r in required :: r.profile
  }

  ghost predicate NoRepeats(required: seq<Requirement>) {
    forall i, j :: 0 <= i < j < |required| ==> required[i].profile != required[j].profile
  }

  ghost predicate Passes(spec: SandboxSpec, snapshot: Snapshot) {
    if snapshot.capabilities == [] && snapshot.runtimes == [] then spec.required == [] && spec.optionals == []
    else
      var runtime := FirstRuntime(snapshot.runtimes, spec.runtimeProfile);
      && spec.revision == snapshot.revision
      && spec.optionals == []
      && runtime.Some?
      && |spec.required| == |Names(runtime.value.profileIds)|
      && NoRepeats(spec.required)
      && forall i :: 0 <= i < |spec.required| ==>
           spec.required[i].profile in runtime.value.profileIds && Matches(spec.required[i], Owners(snapshot.capabilities))
  }

  // ---------------------------------------------------------------------------
  // The loops.

  method FindRuntime(runtimes: seq<RuntimeProfile>, id: string) returns (found: Option<RuntimeProfile>)
    ensures found == FirstRuntime(runtimes, id)
  {
    for i := 0 to |runtimes|
      invariant FirstRuntime(runtimes, id) == FirstRuntime(runtimes[i..], id)
    {
      if runtimes[i].id == id {
        return Some(runtimes[i]);
      }
      assert runtimes[i..][1..] == runtimes[i + 1..];
    }
    return None;
  }

  method CollectOwners(caps: seq<Capability>) returns (owners: map<string, Capability>)
    ensures owners == Owners(caps)
  {
    owners := map[];
    for i := 0 to |caps|
      invariant owners == Owners(caps[..i])
    {
      owners := TakeOver(owners, caps[i]);
      assert caps[..i + 1][..i] == caps[..i];
    }
    assert caps[..|caps|] == caps;
  }

  /** The inner loop: one capability takes all its profiles. */
  method TakeOver(before: map<string, Capability>, c: Capability) returns (owners: map<string, Capability>)
    ensures owners == before + map p | p in c.profiles :: c
  {
    owners := before;
    for k := 0 to |c.profiles|
      invariant owners == before + map p | p in c.profiles[..k] :: c
    {
      assert c.profiles[..k + 1] == c.profiles[..k] + [c.profiles[k]];
      owners := owners[c.profiles[k] := c];
    }
    assert c.profiles[..|c.profiles|] == c.profiles;
  }

  method HasVersion(versions: Option<seq<string>>, version: string) returns (ok: bool)
    ensures ok <==> versions.Some? && version in versions.value
  {
    if versions.None? {
      return false;
    }
    for i := 0 to |versions.value|
      invariant version !in versions.value[..i]
    {
      if versions.value[i] == version {
        return true;
      }
      assert versions.value[..i + 1] == versions.value[..i] + [versions.value[i]];
    }
    assert versions.value[..|versions.value|] == versions.value;
    return false;
  }

  method CheckRequired(required: seq<Requirement>, expected: set<string>, owners: map<string, Capability>)
    returns (ok: bool)
    ensures ok <==>
      && NoRepeats(required)
      && forall i :: 0 <= i < |required| ==> required[i].profile in expected && Matches(required[i], owners)
  {
    var seen: set<string> := {};
    for i := 0 to |required|
      invariant seen == set j | 0 <= j < i :: required[j].profile
      invariant NoRepeats(required[..i])
      invariant forall j :: 0 <= j < i ==> required[j].profile in expected && Matches(required[j], owners)
    {
      var r := required[i];
      if r.profile !in expected {
        return false;
      }
      if r.profile in seen {
        return false;
      }
      seen := seen + {r.profile};
      if r.profile !in owners || r.id != owners[r.profile].id {
        return false;
      }
      var advertised := HasVersion(owners[r.profile].versions, r.version);
      if !advertised {
        return false;
      }
    }
    assert required[..|required|] == required;
    return true;
  }

  method Validate(spec: SandboxSpec, snapshot: Snapshot) returns (ok: bool)
    ensures ok <==> Passes(spec, snapshot)
  {
    if |snapshot.capabilities| == 0 && |snapshot.runtimes| == 0 {
      return |spec.required| == 0 && |spec.optionals| == 0;
    }
    if spec.revision != snapshot.revision || |spec.optionals| != 0 {
      return false;
    }
    var runtime := FindRuntime(snapshot.runtimes, spec.runtimeProfile);
    if runtime.None? {
      return false;
    }
    var expected := Names(runtime.value.profileIds);
    if |spec.required| != |expected| {
      return false;
    }
    var owners := CollectOwners(snapshot.capabilities);
    ok := CheckRequired(spec.required, expected, owners);
  }

  // ---------------------------------------------------------------------------
  // The exact cover.

  /** One entry for every advertised profile and no other, each naming a capability that owns the
      profile and a version that capability advertises. */
  ghost predicate ExactCover(required: seq<Requirement>, snapshot: Snapshot) {
    && NoRepeats(required)
    && Wanted(required) == Profiles(snapshot.capabilities)
    && forall r :: r in required ==> Advertised(r, snapshot.capabilities)
  }

  ghost predicate Advertised(r: Requirement, caps: seq<Capability>) {
    exists c :: c in caps && r.profile in c.profiles && r.id == c.id && c.versions.Some? && r.version in c.versions.value
  }

  lemma {:induction false} OwnersOwn(caps: seq<Capability>)
    ensures Owners(caps).Keys == Profiles(caps)
    ensures forall p :: p in Owners(caps) ==> Owners(caps)[p] in caps && p in Owners(caps)[p].profiles
  {
    if caps == [] {
      assert Profiles(caps) == {};
    } else {
      var n := |caps| - 1;
      OwnersOwn(caps[..n]);
      PrefixSets(caps, n);
      assert caps[..n + 1] == caps;
    }
  }

  lemma {:induction false} WantedCount(required: seq<Requirement>)
    requires NoRepeats(required)
    ensures |Wanted(required)| == |required|
  {
    if required == [] {
      assert Wanted(required) == {};
    } else {
      var n := |required| - 1;
      assert required == required[..n] + [required[n]];
      WantedCount(required[..n]);
      assert Wanted(required) == Wanted(required[..n]) + {required[n].profile};
      CardInsert(Wanted(required[..n]), required[n].profile);
    }
  }

  /** In an accepted snapshot a requirement matches the lookup exactly when it names an owner. */
  lemma MatchIsOwnership(r: Requirement, snapshot: Snapshot)
    requires Accepted(snapshot.capabilities, snapshot.runtimes) && snapshot.capabilities != []
    ensures Matches(r, Owners(snapshot.capabilities)) <==> Advertised(r, snapshot.capabilities)
  {
    var owners := Owners(snapshot.capabilities);
    OwnersOwn(snapshot.capabilities);
    ProfilesBiject(snapshot.capabilities, snapshot.runtimes, r.profile);
    if c :| c in snapshot.capabilities && r.profile in c.profiles && r.id == c.id &&
            c.versions.Some? && r.version in c.versions.value {
      assert r.profile in Profiles(snapshot.capabilities);
      assert owners[r.profile] == c;
    }
  }

  /** A list without repeats inside a set covers the set exactly when it is as long as the set. */
  lemma CoverCount(required: seq<Requirement>, profiles: set<string>)
    requires NoRepeats(required)
    ensures Wanted(required) == profiles <==> Wanted(required) <= profiles && |required| == |profiles|
  {
    WantedCount(required);
    if Wanted(required) <= profiles {
      CardSubset(Wanted(required), profiles);
    }
  }

  lemma MatchingAdmission(spec: SandboxSpec, snapshot: Snapshot)
    requires Accepted(snapshot.capabilities, snapshot.runtimes) && snapshot.capabilities != []
    requires spec.revision == snapshot.revision && spec.runtimeProfile == snapshot.runtimes[0].id
    ensures Passes(spec, snapshot) <==> spec.optionals == [] && ExactCover(spec.required, snapshot)
  {
    var profiles := Profiles(snapshot.capabilities);
    assert Names(snapshot.runtimes[0].profileIds) == profiles;
    if NoRepeats(spec.required) {
      CoverCount(spec.required, profiles);
      forall r | r in spec.required
        ensures Matches(r, Owners(snapshot.capabilities)) <==> Advertised(r, snapshot.capabilities)
      {
        MatchIsOwnership(r, snapshot);
      }
      assert (forall i :: 0 <= i < |spec.required| ==> spec.required[i].profile in profiles) <==>
             Wanted(spec.required) <= profiles by {
        assert forall i :: 0 <= i < |spec.required| ==> spec.required[i] in spec.required;
      }
    }
  }

  /** For every accepted non-empty snapshot a request passes exactly when it names the snapshot's
      revision and its runtime profile, asks for nothing optional, and its required list is an
      exact cover. */
  lemma AdmissionIsExactCover(spec: SandboxSpec, snapshot: Snapshot)
    requires Accepted(snapshot.capabilities, snapshot.runtimes) && snapshot.capabilities != []
    ensures Passes(spec, snapshot) <==>
      && spec.revision == snapshot.revision
      && spec.runtimeProfile == snapshot.runtimes[0].id
      && spec.optionals == []
      && ExactCover(spec.required, snapshot)
  {
    if spec.revision == snapshot.revision && spec.runtimeProfile == snapshot.runtimes[0].id {
      MatchingAdmission(spec, snapshot);
    } else {
      assert snapshot.runtimes[1..] == [];
      assert FirstRuntime(snapshot.runtimes[1..], spec.runtimeProfile) == None;
    }
  }
}
