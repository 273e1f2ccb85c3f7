/**
 The Provider capability advertisement (provider/capability.go, validateCapabilityAdvertisements):
 the validator's loops against a closed declarative description of the accepted documents.
 */
module CapabilityAdvertisement {
  import opened Common
  import opened Identifiers

  const MAX_CAPABILITIES := 64
  const MAX_CAPABILITY_VERSIONS := 16
  const MAX_CAPABILITY_PROFILES := 64
  const MAX_RUNTIME_PROFILES := 64

  const EXEC := "sandbox.exec"
  const TERMINAL := "sandbox.terminal"
  const CONNECT := "sandbox.terminal-connect"
  const BROWSER := "sandbox.browser"
  const DESKTOP := "sandbox.desktop"
  const LIFECYCLE := "sandbox.lifecycle-control"
  const TERMINAL_CONTROL := "sandbox.terminal-control"

  /** `versions` is None for a nil slice, which the validator tells from an empty one. */
  datatype Capability = Capability(id: string, versions: Option<seq<string>>, profiles: seq<string>)

  datatype RuntimeProfile = RuntimeProfile(
    id: string, isolation: string, className: string, architectures: seq<string>, profileIds: seq<string>)

  // ---------------------------------------------------------------------------
  // Patterns.

  /** ^sandbox\.[a-z0-9-]+$ */
  predicate IsCapabilityId(s: string) {
    |s| > 8 && s[..8] == "sandbox." && forall i :: 8 <= i < |s| ==> 'a' <= s[i] <= 'z' || IsDigit(s[i]) || s[i] == '-'
  }

  predicate Digits(s: string) {
    s != "" && forall i :: 0 <= i < |s| ==> IsDigit(s[i])
  }

  /** ^[0-9]+\.[0-9]+\.[0-9]+$ */
  predicate IsSuiteVersion(s: string) {
    exists i, j :: 0 <= i < j < |s| && s[i] == '.' && s[j] == '.' &&
      Digits(s[..i]) && Digits(s[i + 1..j]) && Digits(s[j + 1..])
  }

  predicate IsKnown(id: string) {
    id in {EXEC, TERMINAL, CONNECT, BROWSER, DESKTOP, LIFECYCLE, TERMINAL_CONTROL}
  }

  predicate IsIsolation(s: string) {
    s in {"container", "hardened-container", "microvm", "virtual-machine", "local-process"}
  }

  predicate IsClassName(s: string) {
    s == "" || exists i :: 0 <= i < |s| && !IsSpace(s[i])
  }

  // ---------------------------------------------------------------------------
  // The description.

  function Names(s: seq<string>): set<string> {
    set x | x in s
  }

  ghost predicate VersionsOk(id: string, versions: seq<string>) {
    && |versions| <= MAX_CAPABILITY_VERSIONS
    && (forall i :: 0 <= i < |versions| ==> IsIdentifier(versions[i]) && (IsKnown(id) ==> IsSuiteVersion(versions[i])))
    && Distinct(versions)
  }

  ghost predicate ProfilesOk(profiles: seq<string>) {
    && |profiles| <= MAX_CAPABILITY_PROFILES
    && (forall i :: 0 <= i < |profiles| ==> IsIdentifier(profiles[i]))
    && Distinct(profiles)
  }

  ghost predicate CapabilityOk(c: Capability) {
    && IsCapabilityId(c.id)
    && c.versions.Some? && VersionsOk(c.id, c.versions.value)
    && ProfilesOk(c.profiles)
    && (IsKnown(c.id) ==> c.versions.value != [] && c.profiles != [])
  }

  function Ids(caps: seq<Capability>): set<string> {
    set c | c in caps :: c.id
  }

  function Profiles(caps: seq<Capability>): set<string> {
    set c, p | c in caps && p in c.profiles :: p
  }

  /** Every capability is well formed, IDs are unique, and no profile has two owners. */
  ghost predicate CapabilitiesOk(caps: seq<Capability>) {
    && (forall i :: 0 <= i < |caps| ==> CapabilityOk(caps[i]))
    && (forall i, j :: 0 <= i < j < |caps| ==> Apart(caps[i], caps[j]))
  }

  predicate Apart(c: Capability, d: Capability) {
    c.id != d.id && Names(c.profiles) !! Names(d.profiles)
  }

  /** The closed set of capability ID sets. */
  ghost predicate Shape(ids: set<string>) {
    && ids - {LIFECYCLE, TERMINAL_CONTROL} in
         {{TERMINAL}, {TERMINAL, CONNECT}, {TERMINAL, EXEC}, {TERMINAL, EXEC, CONNECT}, {BROWSER}, {DESKTOP}}
    && (TERMINAL_CONTROL in ids ==> TERMINAL in ids)
  }

  predicate Exactly(c: Capability, profile: string) {
    c.versions == Some(["1.0.0"]) && c.profiles == [profile]
  }

  /** The capabilities whose version and profile are fixed. */
  ghost predicate FixedParts(byId: map<string, Capability>) {
    && (LIFECYCLE in byId ==> Exactly(byId[LIFECYCLE], "lifecycle-control-v1"))
    && (TERMINAL_CONTROL in byId ==> Exactly(byId[TERMINAL_CONTROL], "terminal-control-v1"))
    && (BROWSER in byId ==> Exactly(byId[BROWSER], "browser-v1"))
    && (DESKTOP in byId ==> Exactly(byId[DESKTOP], "desktop-v1"))
    && (CONNECT in byId ==>
         Exactly(byId[CONNECT], "terminal-connect-v1") && TERMINAL in byId && Exactly(byId[TERMINAL], "terminal-v1"))
  }

  function ById(caps: seq<Capability>): map<string, Capability> {
    if caps == [] then map[] else ById(caps[..|caps| - 1])[caps[|caps| - 1].id := caps[|caps| - 1]]
  }

  predicate OwnProfile(byId: map<string, Capability>, p: RuntimeProfile, owner: string, id: string, first: string) {
    owner in byId ==>
      p.id == id && |p.profileIds| == (if LIFECYCLE in byId then 2 else 1) && p.profileIds[0] == first
  }

  /** The one runtime profile serves exactly the advertised capability profiles, each once. */
  ghost predicate RuntimeOk(p: RuntimeProfile, profiles: set<string>) {
    && IsIdentifier(p.id) && IsIsolation(p.isolation) && IsClassName(p.className)
    && Names(p.architectures) <= {"amd64", "arm64"} && Distinct(p.architectures)
    && |p.profileIds| <= MAX_CAPABILITY_PROFILES
    && Distinct(p.profileIds) && Names(p.profileIds) == profiles
  }

  ghost predicate Accepted(caps: seq<Capability>, runtimes: seq<RuntimeProfile>) {
    && |caps| <= MAX_CAPABILITIES && |runtimes| <= MAX_RUNTIME_PROFILES
    && CapabilitiesOk(caps)
    && if caps == [] then runtimes == [] else
         && Shape(Ids(caps))
         && FixedParts(ById(caps))
         && |runtimes| == 1
         && OwnProfile(ById(caps), runtimes[0], BROWSER, "sandbox-runtime-browser-v1", "browser-v1")
         && OwnProfile(ById(caps), runtimes[0], DESKTOP, "sandbox-runtime-desktop-v1", "desktop-v1")
         && RuntimeOk(runtimes[0], Profiles(caps))
  }

  // ---------------------------------------------------------------------------
  // The loops.

  method CheckVersions(id: string, versions: seq<string>) returns (ok: bool)
    ensures ok <==> VersionsOk(id, versions)
  {
    if |versions| > MAX_CAPABILITY_VERSIONS {
      return false;
    }
    var seen: set<string> := {};
    for i := 0 to |versions|
      invariant seen == Names(versions[..i]) && VersionsOk(id, versions[..i])
    {
      var version := versions[i];
      assert versions[..i + 1] == versions[..i] + [version];
      if !IsIdentifier(version) || (IsKnown(id) && !IsSuiteVersion(version)) {
        return false;
      }
      if version in seen {
        return false;
      }
      seen := seen + {version};
    }
    assert versions[..|versions|] == versions;
    return true;
  }

  method CheckProfiles(profiles: seq<string>, taken: set<string>) returns (ok: bool, all: set<string>)
    ensures ok <==> ProfilesOk(profiles) && Names(profiles) !! taken
    ensures ok ==> all == taken + Names(profiles)
  {
    all := taken;
    if |profiles| > MAX_CAPABILITY_PROFILES {
      return false, all;
    }
    var seen: set<string> := {};
    for i := 0 to |profiles|
      invariant seen == Names(profiles[..i]) && all == taken + seen
      invariant ProfilesOk(profiles[..i]) && seen !! taken
    {
      var profile := profiles[i];
      assert profiles[..i + 1] == profiles[..i] + [profile];
      if !IsIdentifier(profile) {
        return false, all;
      }
      if profile in seen {
        return false, all;
      }
      if profile in all {
        assert profile in taken;
        return false, all;
      }
      seen := seen + {profile};
      all := all + {profile};
    }
    assert profiles[..|profiles|] == profiles;
    return true, all;
  }

  lemma PrefixSets(caps: seq<Capability>, n: nat)
    requires n < |caps|
    ensures Ids(caps[..n + 1]) == Ids(caps[..n]) + {caps[n].id}
    ensures Profiles(caps[..n + 1]) == Profiles(caps[..n]) + Names(caps[n].profiles)
    ensures ById(caps[..n + 1]) == ById(caps[..n])[caps[n].id := caps[n]]
  {
    var a, b := caps[..n], caps[..n + 1];
    assert b == a + [caps[n]] && b[..|b| - 1] == a;
  }

  /** A capability is apart from all of a list exactly when its ID and profiles are new. */
  lemma ApartFromAll(caps: seq<Capability>, c: Capability)
    ensures (forall i :: 0 <= i < |caps| ==> Apart(caps[i], c)) <==>
            c.id !in Ids(caps) && Names(c.profiles) !! Profiles(caps)
  {
    if c.id !in Ids(caps) && Names(c.profiles) !! Profiles(caps) {
      forall i | 0 <= i < |caps| ensures Apart(caps[i], c) {
        assert caps[i] in caps;
        assert Names(caps[i].profiles) <= Profiles(caps);
      }
    }
    if forall i :: 0 <= i < |caps| ==> Apart(caps[i], c) {
      forall d | d in caps ensures Apart(d, c) {
      }
      forall p | p in Profiles(caps) ensures p !in Names(c.profiles) {
        var d :| d in caps && p in d.profiles;
        assert Apart(d, c) && p in Names(d.profiles);
      }
    }
  }

  /** What one more capability must satisfy. */
  lemma PrefixOk(caps: seq<Capability>, n: nat)
    requires n < |caps|
    ensures CapabilitiesOk(caps[..n + 1]) <==>
      && CapabilitiesOk(caps[..n])
      && CapabilityOk(caps[n])
      && caps[n].id !in Ids(caps[..n])
      && Names(caps[n].profiles) !! Profiles(caps[..n])
  {
    var a, b := caps[..n], caps[..n + 1];
    assert b == a + [caps[n]];
    ApartFromAll(a, caps[n]);
    assert forall i :: 0 <= i < n ==> b[i] == a[i];
    assert b[n] == caps[n];
  }

  lemma {:induction false} PrefixFails(caps: seq<Capability>, n: nat)
    requires n <= |caps| && CapabilitiesOk(caps)
    ensures CapabilitiesOk(caps[..n])
    decreases |caps| - n
  {
    if n == |caps| {
      assert caps[..n] == caps;
    } else {
      PrefixFails(caps, n + 1);
      PrefixOk(caps, n);
    }
  }

  /** One round of the first loop. */
  method CheckCapability(c: Capability, byId: map<string, Capability>, taken: set<string>)
    returns (ok: bool, all: set<string>)
    ensures ok <==> CapabilityOk(c) && c.id !in byId && Names(c.profiles) !! taken
    ensures ok ==> all == taken + Names(c.profiles)
  {
    all := taken;
    if !IsCapabilityId(c.id) || c.id in byId || c.versions.None? {
      return false, all;
    }
    ok := CheckVersions(c.id, c.versions.value);
    if !ok {
      return;
    }
    ok, all := CheckProfiles(c.profiles, taken);
    if !ok {
      return;
    }
    ok := !(IsKnown(c.id) && (|c.versions.value| == 0 || |c.profiles| == 0));
  }

  /** What the first loop knows after a prefix. */
  ghost predicate Scanned(caps: seq<Capability>, byId: map<string, Capability>, profiles: set<string>) {
    && CapabilitiesOk(caps)
    && byId == ById(caps) && byId.Keys == Ids(caps) && |byId| == |caps|
    && profiles == Profiles(caps)
  }

  lemma ScanStep(caps: seq<Capability>, n: nat, byId: map<string, Capability>, profiles: set<string>)
    requires n < |caps| && Scanned(caps[..n], byId, profiles)
    requires CapabilityOk(caps[n]) && caps[n].id !in byId && Names(caps[n].profiles) !! profiles
    ensures Scanned(caps[..n + 1], byId[caps[n].id := caps[n]], profiles + Names(caps[n].profiles))
  {
    PrefixOk(caps, n);
    ScanSets(caps[..n], caps[..n + 1], caps, n, byId, profiles);
  }

  /** The index and the profile set of one more capability. */
  lemma ScanSets(before: seq<Capability>, after: seq<Capability>, caps: seq<Capability>, n: nat,
                 byId: map<string, Capability>, profiles: set<string>)
    requires n < |caps| && before == caps[..n] && after == caps[..n + 1] && caps[n].id !in byId
    requires byId == ById(before) && byId.Keys == Ids(before) && |byId| == |before| && profiles == Profiles(before)
    ensures var byId' := byId[caps[n].id := caps[n]];
            && byId' == ById(after) && byId'.Keys == Ids(after) && |byId'| == |after|
            && profiles + Names(caps[n].profiles) == Profiles(after)
  {
    PrefixSets(caps, n);
    CardInsert(byId.Keys, caps[n].id);
    assert byId[caps[n].id := caps[n]].Keys == byId.Keys + {caps[n].id};
  }

  lemma ScanStops(caps: seq<Capability>, n: nat, byId: map<string, Capability>, profiles: set<string>)
    requires n < |caps| && Scanned(caps[..n], byId, profiles)
    requires !(CapabilityOk(caps[n]) && caps[n].id !in byId && Names(caps[n].profiles) !! profiles)
    ensures !CapabilitiesOk(caps)
  {
    PrefixOk(caps, n);
    FailsEarly(caps, n + 1);
  }

  method CheckCapabilities(caps: seq<Capability>)
    returns (ok: bool, byId: map<string, Capability>, profiles: set<string>)
    ensures ok <==> CapabilitiesOk(caps)
    ensures ok ==> Scanned(caps, byId, profiles)
  {
    byId, profiles := map[], {};
    for i := 0 to |caps|
      invariant Scanned(caps[..i], byId, profiles)
    {
      var all;
      ok, all := CheckCapability(caps[i], byId, profiles);
      if !ok {
        ScanStops(caps, i, byId, profiles);
        return;
      }
      ScanStep(caps, i, byId, profiles);
      byId := byId[caps[i].id := caps[i]];
      profiles := all;
    }
    assert caps[..|caps|] == caps;
    ok := true;
  }

  lemma FailsEarly(caps: seq<Capability>, n: nat)
    requires n <= |caps| && !CapabilitiesOk(caps[..n])
    ensures !CapabilitiesOk(caps)
  {
    if CapabilitiesOk(caps) {
      PrefixFails(caps, n);
    }
  }

  // ---------------------------------------------------------------------------
  // The shape switch.

  /** The switch over the number of capabilities that are not controls, as the validator writes it. */
  predicate ShapeSwitch(byId: map<string, Capability>) {
    var base := |byId| - (if LIFECYCLE in byId then 1 else 0) - (if TERMINAL_CONTROL in byId then 1 else 0);
    var exec, terminal, connect := EXEC in byId, TERMINAL in byId, CONNECT in byId;
    var browser, desktop, control := BROWSER in byId, DESKTOP in byId, TERMINAL_CONTROL in byId;
    && (control ==> terminal)
    && (|| ((base == 1 || base == 2) && terminal && !exec && !browser && !desktop && (base == 2) == connect)
        || ((base == 2 || base == 3) && terminal && exec && !browser && !desktop && (base == 3) == connect)
        || (base == 1 && browser && !desktop && !terminal && !connect && !exec && !control)
        || (base == 1 && desktop && !browser && !terminal && !connect && !exec && !control))
  }

  lemma BaseCount(ids: set<string>)
    ensures |ids - {LIFECYCLE, TERMINAL_CONTROL}| ==
            |ids| - (if LIFECYCLE in ids then 1 else 0) - (if TERMINAL_CONTROL in ids then 1 else 0)
  {
    CardRemove(ids, LIFECYCLE);
    CardRemove(ids - {LIFECYCLE}, TERMINAL_CONTROL);
    assert ids - {LIFECYCLE} - {TERMINAL_CONTROL} == ids - {LIFECYCLE, TERMINAL_CONTROL};
  }

  /** A set of the right size that contains all of `part` is `part`. */
  lemma Fills<T>(base: set<T>, part: set<T>)
    requires part <= base
    ensures |base| == |part| <==> base == part
  {
    CardSubset(part, base);
  }

  /** With the size known, membership of five elements decides which of six sets it is. */
  lemma CountingDecides<T>(base: set<T>, t: T, x: T, c: T, b: T, d: T)
    requires t !in {x, c, b, d} && x !in {c, b, d} && c !in {b, d} && b != d
    ensures (|| ((|base| == 1 || |base| == 2) && t in base && x !in base && b !in base && d !in base && (|base| == 2) == (c in base))
             || ((|base| == 2 || |base| == 3) && t in base && x in base && b !in base && d !in base && (|base| == 3) == (c in base))
             || (|base| == 1 && b in base && d !in base && t !in base && c !in base && x !in base)
             || (|base| == 1 && d in base && b !in base && t !in base && c !in base && x !in base)) <==>
            base == {t} || base == {t, c} || base == {t, x} || base == {t, x, c} || base == {b} || base == {d}
  {
    assert |{t, c}| == 2 && |{t, x}| == 2 && |{t, x, c}| == 3;
    if t in base {
      if c in base && x in base {
        Fills(base, {t, x, c});
      } else if c in base {
        Fills(base, {t, c});
      } else if x in base {
        Fills(base, {t, x});
      } else {
        Fills(base, {t});
      }
    } else if b in base {
      Fills(base, {b});
    } else if d in base {
      Fills(base, {d});
    }
  }

  /** Counting is enough: the switch admits exactly the closed set of ID sets. */
  lemma SwitchIsShape(byId: map<string, Capability>)
    ensures ShapeSwitch(byId) <==> Shape(byId.Keys)
  {
    var ids := byId.Keys;
    var base := ids - {LIFECYCLE, TERMINAL_CONTROL};
    BaseCount(ids);
    KnownApart();
    CountingDecides(base, TERMINAL, EXEC, CONNECT, BROWSER, DESKTOP);
  }

  lemma KnownApart()
    ensures TERMINAL !in {EXEC, CONNECT, BROWSER, DESKTOP} && EXEC !in {CONNECT, BROWSER, DESKTOP}
    ensures CONNECT !in {BROWSER, DESKTOP} && BROWSER != DESKTOP
    ensures {TERMINAL, EXEC, CONNECT, BROWSER, DESKTOP} !! {LIFECYCLE, TERMINAL_CONTROL}
  {
    assert |TERMINAL| == 16 && |EXEC| == 12 && |CONNECT| == 24 && |BROWSER| == 15 && |DESKTOP| == 15;
    assert |LIFECYCLE| == 25 && |TERMINAL_CONTROL| == 24;
    assert BROWSER[8] != DESKTOP[8] && CONNECT[20] != TERMINAL_CONTROL[20];
  }

  method CheckShape(byId: map<string, Capability>) returns (ok: bool)
    ensures ok <==> Shape(byId.Keys) && FixedParts(byId)
  {
    SwitchIsShape(byId);
    if LIFECYCLE in byId && !Exactly(byId[LIFECYCLE], "lifecycle-control-v1") {
      return false;
    }
    if TERMINAL_CONTROL in byId &&
       (TERMINAL !in byId || !Exactly(byId[TERMINAL_CONTROL], "terminal-control-v1"))
    {
      return false;
    }
    if !ShapeSwitch(byId) {
      return false;
    }
    if BROWSER in byId && !Exactly(byId[BROWSER], "browser-v1") {
      return false;
    }
    if DESKTOP in byId && !Exactly(byId[DESKTOP], "desktop-v1") {
      return false;
    }
    if CONNECT in byId &&
       (!Exactly(byId[CONNECT], "terminal-connect-v1") || !Exactly(byId[TERMINAL], "terminal-v1"))
    {
      return false;
    }
    return true;
  }

  // ---------------------------------------------------------------------------
  // The runtime profile and the whole validator.

  method CheckArchitectures(architectures: seq<string>) returns (ok: bool)
    ensures ok <==> Names(architectures) <= {"amd64", "arm64"} && Distinct(architectures)
  {
    var seen: set<string> := {};
    for i := 0 to |architectures|
      invariant seen == Names(architectures[..i]) <= {"amd64", "arm64"} && Distinct(architectures[..i])
    {
      var a := architectures[i];
      assert architectures[..i + 1] == architectures[..i] + [a];
      if a != "amd64" && a != "arm64" {
        assert a in Names(architectures);
        return false;
      }
      if a in seen {
        return false;
      }
      seen := seen + {a};
    }
    assert architectures[..|architectures|] == architectures;
    return true;
  }

  /** Every mapped profile is advertised and mapped once. */
  method CheckMapping(profileIds: seq<string>, advertised: set<string>) returns (ok: bool, mapped: set<string>)
    ensures ok <==> Names(profileIds) <= advertised && Distinct(profileIds)
    ensures ok ==> mapped == Names(profileIds)
  {
    mapped := {};
    for i := 0 to |profileIds|
      invariant mapped == Names(profileIds[..i]) <= advertised && Distinct(profileIds[..i])
    {
      var p := profileIds[i];
      assert profileIds[..i + 1] == profileIds[..i] + [p];
      if p !in advertised {
        assert p in Names(profileIds);
        return false, mapped;
      }
      if p in mapped {
        return false, mapped;
      }
      mapped := mapped + {p};
    }
    assert profileIds[..|profileIds|] == profileIds;
    return true, mapped;
  }

  /** Every advertised profile has the runtime profile. */
  method CheckCovered(caps: seq<Capability>, mapped: set<string>) returns (ok: bool)
    ensures ok <==> Profiles(caps) <= mapped
  {
    for i := 0 to |caps|
      invariant forall j :: 0 <= j < i ==> Names(caps[j].profiles) <= mapped
    {
      for k := 0 to |caps[i].profiles|
        invariant forall m :: 0 <= m < k ==> caps[i].profiles[m] in mapped
      {
        if caps[i].profiles[k] !in mapped {
          assert caps[i] in caps && caps[i].profiles[k] in caps[i].profiles;
          assert caps[i].profiles[k] in Profiles(caps);
          return false;
        }
      }
    }
    return true;
  }

  method CheckRuntime(p: RuntimeProfile, caps: seq<Capability>, advertised: set<string>) returns (ok: bool)
    requires advertised == Profiles(caps) && advertised != {}
    ensures ok <==> RuntimeOk(p, advertised)
  {
    if !IsIdentifier(p.id) || !IsIsolation(p.isolation) || !IsClassName(p.className) {
      return false;
    }
    ok := CheckArchitectures(p.architectures);
    if !ok {
      return;
    }
    if |p.profileIds| > MAX_CAPABILITY_PROFILES {
      return false;
    }
    if |p.profileIds| == 0 {
      assert Names(p.profileIds) == {};
      return false;
    }
    var mapped;
    ok, mapped := CheckMapping(p.profileIds, advertised);
    if !ok {
      return;
    }
    ok := CheckCovered(caps, mapped);
  }

  /** The validator accepts exactly the described documents. */
  method Validate(caps: seq<Capability>, runtimes: seq<RuntimeProfile>) returns (ok: bool)
    ensures ok <==> Accepted(caps, runtimes)
  {
    if |caps| > MAX_CAPABILITIES || |runtimes| > MAX_RUNTIME_PROFILES {
      return false;
    }
    var byId, profiles;
    ok, byId, profiles := CheckCapabilities(caps);
    if !ok {
      return;
    }
    if |caps| == 0 {
      return |runtimes| == 0;
    }
    ok := CheckShape(byId);
    if !ok {
      return;
    }
    if |runtimes| != 1 {
      return false;
    }
    if !OwnProfile(byId, runtimes[0], BROWSER, "sandbox-runtime-browser-v1", "browser-v1") ||
       !OwnProfile(byId, runtimes[0], DESKTOP, "sandbox-runtime-desktop-v1", "desktop-v1")
    {
      return false;
    }
    AdvertisesSomething(caps);
    ok := CheckRuntime(runtimes[0], caps, profiles);
  }

  lemma AdvertisesSomething(caps: seq<Capability>)
    requires CapabilitiesOk(caps) && Shape(Ids(caps))
    ensures Profiles(caps) != {}
  {
    var id :| id in Ids(caps) - {LIFECYCLE, TERMINAL_CONTROL} && IsKnown(id);
    var c :| c in caps && c.id == id;
    var i :| 0 <= i < |caps| && caps[i] == c;
    assert CapabilityOk(caps[i]);
    assert c.profiles[0] in c.profiles && c.profiles[0] in Profiles(caps);
  }

  // ---------------------------------------------------------------------------
  // What acceptance means.

  /** The accepted capability ID sets, spelled out. */
  lemma AcceptedShapes(caps: seq<Capability>, runtimes: seq<RuntimeProfile>)
    requires Accepted(caps, runtimes)
    ensures Ids(caps) - {LIFECYCLE, TERMINAL_CONTROL} in
              {{}, {TERMINAL}, {TERMINAL, CONNECT}, {TERMINAL, EXEC}, {TERMINAL, EXEC, CONNECT}, {BROWSER}, {DESKTOP}}
    ensures TERMINAL_CONTROL in Ids(caps) ==> TERMINAL in Ids(caps)
    ensures LIFECYCLE in Ids(caps) ==> Ids(caps) - {LIFECYCLE, TERMINAL_CONTROL} != {}
    ensures |caps| <= 5
  {
    IdCount(caps);
    if caps != [] {
      ShapeSize(Ids(caps));
    } else {
      assert Ids(caps) - {LIFECYCLE, TERMINAL_CONTROL} == {};
    }
  }

  lemma ShapeSize(ids: set<string>)
    requires Shape(ids)
    ensures |ids| <= 5 && ids - {LIFECYCLE, TERMINAL_CONTROL} != {}
  {
    BaseCount(ids);
    ThreeAtMost(ids - {LIFECYCLE, TERMINAL_CONTROL}, TERMINAL, EXEC, CONNECT, BROWSER, DESKTOP);
  }

  lemma ThreeAtMost<T>(base: set<T>, t: T, x: T, c: T, b: T, d: T)
    requires base == {t} || base == {t, c} || base == {t, x} || base == {t, x, c} || base == {b} || base == {d}
    ensures 0 < |base| <= 3
  {
    CardInsert({t}, c);
    CardInsert({t}, x);
    CardInsert({t, x}, c);
    assert {t} + {c} == {t, c} && {t} + {x} == {t, x} && {t, x} + {c} == {t, x, c};
  }

  lemma {:induction false} IdCount(caps: seq<Capability>)
    requires CapabilitiesOk(caps)
    ensures |Ids(caps)| == |caps|
  {
    if caps == [] {
      assert Ids(caps) == {};
    } else {
      var n := |caps| - 1;
      PrefixOk(caps, n);
      PrefixSets(caps, n);
      assert caps[..n + 1] == caps;
      IdCount(caps[..n]);
      CardInsert(Ids(caps[..n]), caps[n].id);
    }
  }

  /** Every advertised profile occurs once in the runtime profile and has one owning capability. */
  lemma ProfilesBiject(caps: seq<Capability>, runtimes: seq<RuntimeProfile>, profile: string)
    requires Accepted(caps, runtimes) && caps != []
    ensures |runtimes| == 1
    ensures profile in Profiles(caps) <==> profile in runtimes[0].profileIds
    ensures forall i, j :: 0 <= i < j < |runtimes[0].profileIds| ==>
              runtimes[0].profileIds[i] != profile || runtimes[0].profileIds[j] != profile
    ensures forall c, d :: c in caps && d in caps && profile in c.profiles && profile in d.profiles ==> c == d
  {
    assert profile in Names(runtimes[0].profileIds) <==> profile in runtimes[0].profileIds;
    forall c, d | c in caps && d in caps && profile in c.profiles && profile in d.profiles ensures c == d {
      var i :| 0 <= i < |caps| && caps[i] == c;
      var j :| 0 <= j < |caps| && caps[j] == d;
      assert profile in Names(caps[i].profiles) && profile in Names(caps[j].profiles);
    }
  }
}
