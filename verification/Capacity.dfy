/**
 LocalConnectionCapacity (gateway/capacity.go). The books a capacity keeps in place (one total, one
 counter per tenant, one per session) are compared with the plain collection of live leases.
 */
module CapacityBooks {
  import opened Common

  datatype SessionKey = SessionKey(tenant: string, sandbox: string, runtimeSession: string, browserSession: string)

  datatype Limits = Limits(total: int, perTenant: int, perSession: int)

  /** A missing counter reads as zero. */
  datatype Books = Books(total: int, byTenant: map<string, int>, bySession: map<SessionKey, int>)

  const MAX_CONNECTION_CAPACITY := 1000

  predicate ValidLimits(l: Limits) {
    && 1 <= l.total <= MAX_CONNECTION_CAPACITY
    && 1 <= l.perTenant <= l.total
    && 1 <= l.perSession <= l.perTenant
  }

  function At<K>(m: map<K, int>, k: K): int {
    if k in m then m[k] else 0
  }

  function Less<K>(m: map<K, int>, k: K): map<K, int> {
    if At(m, k) - 1 == 0 then m - {k} else m[k := At(m, k) - 1]
  }

  predicate Full(b: Books, l: Limits, key: SessionKey) {
    b.total >= l.total || At(b.byTenant, key.tenant) >= l.perTenant || At(b.bySession, key) >= l.perSession
  }

  function Added(b: Books, key: SessionKey): Books {
    Books(b.total + 1, b.byTenant[key.tenant := At(b.byTenant, key.tenant) + 1], b.bySession[key := At(b.bySession, key) + 1])
  }

  function Removed(b: Books, key: SessionKey): Books {
    Books(b.total - 1, Less(b.byTenant, key.tenant), Less(b.bySession, key))
  }

  // ---------------------------------------------------------------------------
  // The plain reading: which leases are live, and for which session.

  function OfTenant<L>(live: map<L, SessionKey>, tenant: string): set<L> {
    set x | x in live && live[x].tenant == tenant
  }

  function OfSession<L>(live: map<L, SessionKey>, key: SessionKey): set<L> {
    set x | x in live && live[x] == key
  }

  /** Every counter is the number of live leases it stands for, and only positive ones are kept. */
  ghost predicate Agrees<L>(b: Books, live: map<L, SessionKey>) {
    && b.total == |live|
    && (forall t :: At(b.byTenant, t) == |OfTenant(live, t)|)
    && (forall t :: t in b.byTenant ==> b.byTenant[t] > 0)
    && (forall key :: At(b.bySession, key) == |OfSession(live, key)|)
    && (forall key :: key in b.bySession ==> b.bySession[key] > 0)
  }

  ghost predicate Within<L>(live: map<L, SessionKey>, l: Limits) {
    && |live| <= l.total
    && (forall t :: |OfTenant(live, t)| <= l.perTenant)
    && (forall key :: |OfSession(live, key)| <= l.perSession)
  }

  lemma AddedAgrees<L>(b: Books, live: map<L, SessionKey>, x: L, key: SessionKey)
    requires Agrees(b, live) && x !in live
    ensures Agrees(Added(b, key), live[x := key])
  {
    var live' := live[x := key];
    forall t ensures At(Added(b, key).byTenant, t) == |OfTenant(live', t)| {
      LiveMore(live, x, key, t, key);
      assert At(b.byTenant, t) == |OfTenant(live, t)|;
    }
    forall k ensures At(Added(b, key).bySession, k) == |OfSession(live', k)| {
      LiveMore(live, x, key, key.tenant, k);
      assert At(b.bySession, k) == |OfSession(live, k)|;
    }
    LiveMore(live, x, key, key.tenant, key);
    assert forall t :: t in b.byTenant ==> b.byTenant[t] > 0;
    assert forall k :: k in b.bySession ==> b.bySession[k] > 0;
  }

  /** What one more lease does to the plain counts. */
  lemma LiveMore<L>(live: map<L, SessionKey>, x: L, key: SessionKey, t: string, k: SessionKey)
    requires x !in live
    ensures |live[x := key]| == |live| + 1
    ensures |OfTenant(live[x := key], t)| == |OfTenant(live, t)| + (if t == key.tenant then 1 else 0)
    ensures |OfSession(live[x := key], k)| == |OfSession(live, k)| + (if k == key then 1 else 0)
  {
    CardMove(live.Keys, live[x := key].Keys, x);
    TenantMove(live, live[x := key], x, t);
    SessionMove(live, live[x := key], x, k);
  }

  /** What one lease fewer does to them. */
  lemma LiveLess<L>(live: map<L, SessionKey>, x: L, t: string, k: SessionKey)
    requires x in live
    ensures |live - {x}| == |live| - 1
    ensures |OfTenant(live - {x}, t)| == |OfTenant(live, t)| - (if t == live[x].tenant then 1 else 0)
    ensures |OfSession(live - {x}, k)| == |OfSession(live, k)| - (if k == live[x] then 1 else 0)
  {
    CardMove(live.Keys, (live - {x}).Keys, x);
    TenantMove(live, live - {x}, x, t);
    SessionMove(live, live - {x}, x, k);
  }

  lemma TenantMove<L>(live: map<L, SessionKey>, live': map<L, SessionKey>, x: L, t: string)
    requires live - {x} == live' - {x}
    ensures |OfTenant(live', t)| ==
            |OfTenant(live, t)| - (if x in OfTenant(live, t) then 1 else 0) + (if x in OfTenant(live', t) then 1 else 0)
  {
    SameElsewhere(live, live', x);
    assert OfTenant(live, t) - {x} == OfTenant(live', t) - {x};
    CardMove(OfTenant(live, t), OfTenant(live', t), x);
  }

  lemma SessionMove<L>(live: map<L, SessionKey>, live': map<L, SessionKey>, x: L, k: SessionKey)
    requires live - {x} == live' - {x}
    ensures |OfSession(live', k)| ==
            |OfSession(live, k)| - (if x in OfSession(live, k) then 1 else 0) + (if x in OfSession(live', k) then 1 else 0)
  {
    SameElsewhere(live, live', x);
    assert OfSession(live, k) - {x} == OfSession(live', k) - {x};
    CardMove(OfSession(live, k), OfSession(live', k), x);
  }

  lemma SameElsewhere<L>(live: map<L, SessionKey>, live': map<L, SessionKey>, x: L)
    requires live - {x} == live' - {x}
    ensures forall y :: y != x ==> (y in live <==> y in live') && (y in live ==> live[y] == live'[y])
  {
    forall y | y != x
      ensures (y in live <==> y in live') && (y in live ==> live[y] == live'[y])
    {
      assert y in live <==> y in live - {x};
      assert y in live' <==> y in live' - {x};
    }
  }

  lemma RemovedAgrees<L>(b: Books, live: map<L, SessionKey>, x: L)
    requires Agrees(b, live) && x in live
    ensures Agrees(Removed(b, live[x]), live - {x})
  {
    var key, live' := live[x], live - {x};
    forall t ensures At(Removed(b, key).byTenant, t) == |OfTenant(live', t)| {
      LiveLess(live, x, t, key);
      assert At(b.byTenant, t) == |OfTenant(live, t)|;
    }
    forall k ensures At(Removed(b, key).bySession, k) == |OfSession(live', k)| {
      LiveLess(live, x, key.tenant, k);
      assert At(b.bySession, k) == |OfSession(live, k)|;
    }
    LiveLess(live, x, key.tenant, key);
    assert forall t :: t in b.byTenant ==> b.byTenant[t] > 0;
    assert forall k :: k in b.bySession ==> b.bySession[k] > 0;
  }

  /** A lease is refused exactly when granting it would break a limit. */
  lemma RefusedExactly<L>(b: Books, live: map<L, SessionKey>, l: Limits, x: L, key: SessionKey)
    requires Agrees(b, live) && Within(live, l) && x !in live
    ensures Full(b, l, key) <==> !Within(live[x := key], l)
  {
    var live' := live[x := key];
    AddedAgrees(b, live, x, key);
    var b' := Added(b, key);
    assert At(b'.byTenant, key.tenant) == |OfTenant(live', key.tenant)|;
    assert At(b'.bySession, key) == |OfSession(live', key)|;
    assert At(b.byTenant, key.tenant) == |OfTenant(live, key.tenant)|;
    assert At(b.bySession, key) == |OfSession(live, key)|;
    if !Full(b, l, key) {
      forall t ensures |OfTenant(live', t)| <= l.perTenant {
        assert At(b'.byTenant, t) == |OfTenant(live', t)| && At(b.byTenant, t) == |OfTenant(live, t)|;
      }
      forall k ensures |OfSession(live', k)| <= l.perSession {
        assert At(b'.bySession, k) == |OfSession(live', k)| && At(b.bySession, k) == |OfSession(live, k)|;
      }
    }
  }

  lemma RemovedWithin<L>(live: map<L, SessionKey>, l: Limits, x: L)
    requires Within(live, l)
    ensures Within(live - {x}, l)
  {
    var live' := live - {x};
    forall t ensures |OfTenant(live', t)| <= l.perTenant {
      CardSubset(OfTenant(live', t), OfTenant(live, t));
    }
    forall key ensures |OfSession(live', key)| <= l.perSession {
      CardSubset(OfSession(live', key), OfSession(live, key));
    }
    CardSubset(live'.Keys, live.Keys);
  }

  // ---------------------------------------------------------------------------
  // The counters add up.

  ghost function SumOver<K>(keys: set<K>, m: map<K, int>): int
    requires keys <= m.Keys
  {
    if keys == {} then 0 else
      var k :| k in keys;
      m[k] + SumOver(keys - {k}, m)
  }

  ghost function Sum<K>(m: map<K, int>): int {
    SumOver(m.Keys, m)
  }

  /** The sum does not depend on the order of summation. */
  lemma {:induction false} SumAny<K>(keys: set<K>, m: map<K, int>, k: K)
    requires keys <= m.Keys && k in keys
    ensures SumOver(keys, m) == m[k] + SumOver(keys - {k}, m)
    decreases keys
  {
    var j :| j in keys && SumOver(keys, m) == m[j] + SumOver(keys - {j}, m);
    if j != k {
      SumAny(keys - {j}, m, k);
      SumAny(keys - {k}, m, j);
      assert keys - {j} - {k} == keys - {k} - {j};
    }
  }

  function Part<L, K(==)>(items: map<L, K>, k: K): set<L> {
    set x | x in items && items[x] == k
  }

  /** Counting the parts of a collection one by one counts the items that lie in them. */
  lemma {:induction false} SumOfParts<L, K>(items: map<L, K>, keys: set<K>, counts: map<K, int>)
    requires keys <= counts.Keys
    requires forall k :: k in keys ==> counts[k] == |Part(items, k)|
    ensures SumOver(keys, counts) == |set x | x in items && items[x] in keys|
    decreases keys
  {
    var all := set x | x in items && items[x] in keys;
    if keys == {} {
      assert all == {};
    } else {
      var k :| k in keys;
      SumAny(keys, counts, k);
      SumOfParts(items, keys - {k}, counts);
      var rest := set x | x in items && items[x] in keys - {k};
      assert all == rest + Part(items, k) && rest !! Part(items, k);
    }
  }

  /** The total is the sum of the tenants' counters. */
  lemma TotalIsSumOfTenants<L>(b: Books, live: map<L, SessionKey>)
    requires Agrees(b, live)
    ensures b.total == Sum(b.byTenant)
  {
    var tenants := map x | x in live :: live[x].tenant;
    forall t | t in b.byTenant ensures b.byTenant[t] == |Part(tenants, t)| {
      assert Part(tenants, t) == OfTenant(live, t);
      assert At(b.byTenant, t) == |OfTenant(live, t)|;
    }
    SumOfParts(tenants, b.byTenant.Keys, b.byTenant);
    forall x | x in tenants ensures tenants[x] in b.byTenant {
      CardSubset({x}, OfTenant(live, tenants[x]));
      assert At(b.byTenant, tenants[x]) == |OfTenant(live, tenants[x])|;
    }
    assert (set x | x in tenants && tenants[x] in b.byTenant.Keys) == live.Keys;
  }

  function SessionsOf(b: Books, tenant: string): map<SessionKey, int> {
    map key | key in b.bySession && key.tenant == tenant :: b.bySession[key]
  }

  /** A tenant's counter is the sum of its sessions' counters. */
  lemma TenantIsSumOfSessions<L>(b: Books, live: map<L, SessionKey>, tenant: string)
    requires Agrees(b, live)
    ensures At(b.byTenant, tenant) == Sum(SessionsOf(b, tenant))
  {
    var counts := SessionsOf(b, tenant);
    forall key | key in counts ensures counts[key] == |Part(live, key)| {
      assert Part(live, key) == OfSession(live, key);
      assert At(b.bySession, key) == |OfSession(live, key)|;
    }
    SumOfParts(live, counts.Keys, counts);
    forall x | x in live && live[x].tenant == tenant ensures live[x] in counts {
      CardSubset({x}, OfSession(live, live[x]));
      assert At(b.bySession, live[x]) == |OfSession(live, live[x])|;
    }
    assert (set x | x in live && live[x] in counts.Keys) == OfTenant(live, tenant);
    assert At(b.byTenant, tenant) == |OfTenant(live, tenant)|;
  }

  // ---------------------------------------------------------------------------
  // Whole runs.

  datatype State = State(books: Books, live: map<nat, SessionKey>, issued: nat)

  datatype Act = Acquire(key: SessionKey) | Release(lease: nat)

  /** Release of a lease that is already released, or was never issued, changes nothing. */
  function Step(st: State, l: Limits, act: Act): State {
    match act
    case Acquire(key) =>
      if Full(st.books, l, key) then st
      else State(Added(st.books, key), st.live[st.issued := key], st.issued + 1)
    case Release(x) =>
      if x !in st.live then st else State(Removed(st.books, st.live[x]), st.live - {x}, st.issued)
  }

  function Run(l: Limits, acts: seq<Act>): State {
    if acts == [] then State(Books(0, map[], map[]), map[], 0)
    else Step(Run(l, acts[..|acts| - 1]), l, acts[|acts| - 1])
  }

  /** After any sequence of acquires and releases, repeated releases included, the books agree with
      the live leases and all three limits hold. */
  lemma {:induction false} RunAgrees(l: Limits, acts: seq<Act>)
    requires ValidLimits(l)
    ensures Agrees(Run(l, acts).books, Run(l, acts).live)
    ensures Within(Run(l, acts).live, l)
    ensures forall x :: x in Run(l, acts).live ==> x < Run(l, acts).issued
  {
    if acts != [] {
      var st, act := Run(l, acts[..|acts| - 1]), acts[|acts| - 1];
      RunAgrees(l, acts[..|acts| - 1]);
      match act {
        case Acquire(key) =>
          RefusedExactly(st.books, st.live, l, st.issued, key);
          AddedAgrees(st.books, st.live, st.issued, key);
        case Release(x) =>
          RemovedWithin(st.live, l, x);
          if x in st.live {
            RemovedAgrees(st.books, st.live, x);
          }
      }
    }
  }
}

/** The objects: a capacity and its leases, updated in place. */
module LocalCapacity {
  import opened Common
  import opened CapacityBooks
  import opened Identifiers

  datatype Subject = Subject(
    tenant: string, sandbox: string, runtimeSession: string, browserSession: string, profile: string, expires: bool)

  predicate ValidSubject(s: Subject) {
    && IsIdentifier(s.tenant) && IsIdentifier(s.sandbox) && IsIdentifier(s.profile) && s.expires
    && (s.runtimeSession != "" ==> IsIdentifier(s.runtimeSession))
    && (s.browserSession != "" ==> IsIdentifier(s.browserSession))
    && (s.runtimeSession != "") != (s.browserSession != "")
  }

  datatype Refusal = ContextEnded | Unavailable | Exhausted

  class Lease {
    const capacity: LocalConnectionCapacity
    const key: SessionKey
    var released: bool

    constructor (capacity: LocalConnectionCapacity, key: SessionKey)
      ensures this.capacity == capacity && this.key == key && !released
    {
      this.capacity := capacity;
      this.key := key;
      this.released := false;
    }

    /** The first successful Release frees the lease; every later one changes nothing. */
    method Release(contextEnded: bool) returns (ok: bool)
      requires capacity.Valid() && (released || this in capacity.live)
      modifies this, capacity
      ensures capacity.Valid()
      ensures ok == !contextEnded
      ensures ok ==> released
      ensures !ok ==> released == old(released)
      ensures capacity.live == if ok && !old(released) then old(capacity.live) - {this} else old(capacity.live)
    {
      if contextEnded {
        return false;
      }
      if released {
        return true;
      }
      RemovedAgrees(capacity.Accounts(), capacity.live, this);
      RemovedWithin(capacity.live, capacity.limits, this);
      capacity.GiveBack(key, this);
      released := true;
      return true;
    }
  }

  class LocalConnectionCapacity {
    const limits: Limits
    var total: int
    var byTenant: map<string, int>
    var bySession: map<SessionKey, int>
    ghost var live: map<Lease, SessionKey>

    function Accounts(): Books
      reads this
    {
      Books(total, byTenant, bySession)
    }

    ghost predicate Valid()
      reads this, live.Keys
    {
      && ValidLimits(limits)
      && Agrees(Accounts(), live)
      && Within(live, limits)
      && forall x :: x in live ==> x.capacity == this && x.key == live[x] && !x.released
    }

    constructor (limits: Limits)
      requires ValidLimits(limits)
      ensures Valid() && live == map[] && this.limits == limits
    {
      this.limits := limits;
      total, byTenant, bySession, live := 0, map[], map[], map[];
    }

    /** The section of Release under the capacity's mutex. */
    method GiveBack(key: SessionKey, ghost x: Lease)
      modifies this
      ensures Accounts() == Removed(old(Accounts()), key) && live == old(live) - {x}
    {
      total := total - 1;
      byTenant := byTenant[key.tenant := At(byTenant, key.tenant) - 1];
      if byTenant[key.tenant] == 0 {
        byTenant := byTenant - {key.tenant};
      }
      bySession := bySession[key := At(bySession, key) - 1];
      if bySession[key] == 0 {
        bySession := bySession - {key};
      }
      live := live - {x};
    }

    method TakeIn(key: SessionKey, ghost x: Lease)
      modifies this
      ensures Accounts() == Added(old(Accounts()), key) && live == old(live)[x := key]
    {
      total := total + 1;
      byTenant := byTenant[key.tenant := At(byTenant, key.tenant) + 1];
      bySession := bySession[key := At(bySession, key) + 1];
      live := live[x := key];
    }

    method Grant(key: SessionKey) returns (x: Lease)
      requires Valid() && !Full(Accounts(), limits, key)
      modifies this
      ensures Valid() && fresh(x) && live == old(live)[x := key]
    {
      x := new Lease(this, key);
      AddedAgrees(Accounts(), live, x, key);
      RefusedExactly(Accounts(), live, limits, x, key);
      TakeIn(key, x);
    }

    /** For a valid subject and a live context a lease is refused exactly when granting it would
        exceed a limit; a refusal changes nothing. */
    method Acquire(contextEnded: bool, subject: Subject) returns (lease: Option<Lease>, why: Option<Refusal>)
      requires Valid()
      modifies this
      ensures Valid()
      ensures lease == None <==> why.Some?
      ensures var key := SessionKey(subject.tenant, subject.sandbox, subject.runtimeSession, subject.browserSession);
              && (why == Some(ContextEnded) <==> contextEnded)
              && (why == Some(Unavailable) <==> !contextEnded && !ValidSubject(subject))
              && (why == Some(Exhausted) <==> !contextEnded && ValidSubject(subject) && old(Full(Accounts(), limits, key)))
              && (lease == None ==> live == old(live) && Accounts() == old(Accounts()))
              && (lease.Some? ==> fresh(lease.value) && live == old(live)[lease.value := key])
    {
      if contextEnded {
        return None, Some(ContextEnded);
      }
      if !ValidSubject(subject) {
        return None, Some(Unavailable);
      }
      var key := SessionKey(subject.tenant, subject.sandbox, subject.runtimeSession, subject.browserSession);
      if total >= limits.total || At(byTenant, subject.tenant) >= limits.perTenant || At(bySession, key) >= limits.perSession {
        return None, Some(Exhausted);
      }
      var x := Grant(key);
      return Some(x), None;
    }
  }
}
