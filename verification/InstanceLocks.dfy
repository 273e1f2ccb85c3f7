/**
 The per-ID lock table of the instance service (instance/service.go, acquire and releaseRef) as a
 transition system over any number of callers. Lock objects are indices into a heap that only
 grows; dropping an entry from the table keeps the object for whoever still points at it.
 */
module InstanceLocks {
  import opened Common

  /** `tokens` is the content of the lock's one-slot channel. */
  datatype Lock = Lock(id: string, refs: int, tokens: nat)

  /** A caller counts as a user of `lock` from taking a reference until giving it back. */
  datatype Pc = Idle | Waiting(lock: nat) | Holding(lock: nat) | Leaving(lock: nat)

  datatype State = State(table: map<string, nat>, locks: seq<Lock>, pcs: map<nat, Pc>)

  /** Enter: the section under locksMu. Take: receive the token. Cancel: the context ended first.
      Return: send the token back, on release or because the context ended meanwhile.
      Drop: releaseRef. */
  datatype Act = Enter(id: string) | Take | Cancel | Return | Drop

  function PcOf(st: State, c: nat): Pc {
    if c in st.pcs then st.pcs[c] else Idle
  }

  predicate Ranged(st: State, c: nat) {
    var pc := PcOf(st, c);
    !pc.Idle? ==> pc.lock < |st.locks|
  }

  predicate Enabled(st: State, c: nat, act: Act) {
    var pc := PcOf(st, c);
    && Ranged(st, c)
    && match act
       case Enter(id) => pc.Idle? && (id in st.table ==> st.table[id] < |st.locks|)
       case Take => pc.Waiting? && st.locks[pc.lock].tokens > 0
       case Cancel => pc.Waiting?
       case Return => pc.Holding?
       case Drop => pc.Leaving?
  }

  function Step(st: State, c: nat, act: Act): State
    requires Enabled(st, c, act)
  {
    var pc := PcOf(st, c);
    match act
    case Enter(id) =>
      if id in st.table then
        var l := st.table[id];
        State(st.table, st.locks[l := st.locks[l].(refs := st.locks[l].refs + 1)], st.pcs[c := Waiting(l)])
      else
        State(st.table[id := |st.locks|], st.locks + [Lock(id, 1, 1)], st.pcs[c := Waiting(|st.locks|)])
    case Take =>
      var l := st.locks[pc.lock];
      State(st.table, st.locks[pc.lock := l.(tokens := l.tokens - 1)], st.pcs[c := Holding(pc.lock)])
    case Cancel => st.(pcs := st.pcs[c := Leaving(pc.lock)])
    case Return =>
      var l := st.locks[pc.lock];
      State(st.table, st.locks[pc.lock := l.(tokens := l.tokens + 1)], st.pcs[c := Leaving(pc.lock)])
    case Drop =>
      var l := st.locks[pc.lock];
      State(if l.refs - 1 == 0 then st.table - {l.id} else st.table,
            st.locks[pc.lock := l.(refs := l.refs - 1)], st.pcs[c := Idle])
  }

  // ---------------------------------------------------------------------------
  // The invariant.

  function Users(pcs: map<nat, Pc>, l: nat): set<nat> {
    set c | c in pcs && !pcs[c].Idle? && pcs[c].lock == l
  }

  function Holders(pcs: map<nat, Pc>, l: nat): set<nat> {
    set c | c in pcs && pcs[c].Holding? && pcs[c].lock == l
  }

  /** The lock's counter and its token are accounted for by the callers that point at it. */
  ghost predicate LockExact(st: State, l: nat)
    requires l < |st.locks|
  {
    && st.locks[l].refs == |Users(st.pcs, l)|
    && st.locks[l].tokens + |Holders(st.pcs, l)| == 1
    && (st.locks[l].refs > 0 <==> st.locks[l].id in st.table && st.table[st.locks[l].id] == l)
  }

  ghost predicate Inv(st: State) {
    && (forall c :: Ranged(st, c))
    && (forall id :: id in st.table ==> st.table[id] < |st.locks| && st.locks[st.table[id]].id == id)
    && (forall l: nat :: l < |st.locks| ==> LockExact(st, l))
  }

  /** Moving one caller changes who uses and who holds a lock by at most that caller. */
  lemma Moved(st: State, c: nat, pc: Pc, l: nat)
    ensures |Users(st.pcs[c := pc], l)| ==
            |Users(st.pcs, l)|
            - (if !PcOf(st, c).Idle? && PcOf(st, c).lock == l then 1 else 0)
            + (if !pc.Idle? && pc.lock == l then 1 else 0)
    ensures |Holders(st.pcs[c := pc], l)| ==
            |Holders(st.pcs, l)|
            - (if PcOf(st, c) == Holding(l) then 1 else 0)
            + (if pc == Holding(l) then 1 else 0)
  {
    CardMove(Users(st.pcs, l), Users(st.pcs[c := pc], l), c);
    CardMove(Holders(st.pcs, l), Holders(st.pcs[c := pc], l), c);
  }

  lemma Unused(st: State, l: nat)
    requires Inv(st) && l >= |st.locks|
    ensures Users(st.pcs, l) == {} && Holders(st.pcs, l) == {}
  {
    forall c | c in st.pcs ensures st.pcs[c].Idle? || st.pcs[c].lock != l {
      assert Ranged(st, c);
    }
  }

  lemma StepExact(st: State, c: nat, act: Act, l: nat)
    requires Inv(st) && Enabled(st, c, act) && l < |Step(st, c, act).locks|
    ensures LockExact(Step(st, c, act), l)
  {
    var st' := Step(st, c, act);
    Moved(st, c, st'.pcs[c], l);
    if l < |st.locks| {
      assert LockExact(st, l);
    } else {
      Unused(st, l);
    }
    if act.Drop? {
      assert LockExact(st, PcOf(st, c).lock);
    }
  }

  lemma StepInv(st: State, c: nat, act: Act)
    requires Inv(st) && Enabled(st, c, act)
    ensures Inv(Step(st, c, act))
  {
    var st' := Step(st, c, act);
    forall l: nat | l < |st'.locks| ensures LockExact(st', l) {
      StepExact(st, c, act, l);
    }
    forall d ensures Ranged(st', d) {
      assert Ranged(st, d);
    }
  }

  // ---------------------------------------------------------------------------
  // Whole runs.

  ghost predicate Next(st: State, st': State) {
    exists c: nat, act :: Enabled(st, c, act) && st' == Step(st, c, act)
  }

  ghost predicate NextAt(run: seq<State>, i: nat) {
    i + 1 < |run| && Next(run[i], run[i + 1])
  }

  ghost predicate IsRun(run: seq<State>) {
    && |run| > 0
    && run[0] == State(map[], [], map[])
    && forall i: nat :: i < |run| - 1 ==> NextAt(run, i)
  }

  lemma {:induction false} RunInv(run: seq<State>, i: nat)
    requires IsRun(run) && i < |run|
    ensures Inv(run[i])
  {
    if i > 0 {
      RunInv(run, i - 1);
      assert NextAt(run, i - 1);
      var c: nat, act :| Enabled(run[i - 1], c, act) && run[i] == Step(run[i - 1], c, act);
      StepInv(run[i - 1], c, act);
    }
  }

  /** No two callers hold the lock of one ID, although lock objects are dropped and made again. */
  lemma MutualExclusion(run: seq<State>, i: nat, c: nat, d: nat)
    requires IsRun(run) && i < |run|
    requires PcOf(run[i], c).Holding? && PcOf(run[i], d).Holding?
    ensures PcOf(run[i], c).lock < |run[i].locks| && PcOf(run[i], d).lock < |run[i].locks|
    ensures run[i].locks[PcOf(run[i], c).lock].id == run[i].locks[PcOf(run[i], d).lock].id ==> c == d
  {
    RunInv(run, i);
    var st := run[i];
    assert Ranged(st, c) && Ranged(st, d);
    var l, m := PcOf(st, c).lock, PcOf(st, d).lock;
    assert LockExact(st, l) && LockExact(st, m);
    if st.locks[l].id == st.locks[m].id {
      CardSubset({c}, Users(st.pcs, l));
      CardSubset({d}, Users(st.pcs, m));
      CardSubset({c, d}, Holders(st.pcs, l));
    }
  }

  /** Every lock's counter is the number of its users, it has exactly one token, and it is in the
      table exactly while it has a user. */
  lemma LocksAccounted(run: seq<State>, i: nat, l: nat)
    requires IsRun(run) && i < |run| && l < |run[i].locks|
    ensures run[i].locks[l].refs == |Users(run[i].pcs, l)|
    ensures run[i].locks[l].tokens + |Holders(run[i].pcs, l)| == 1
    ensures Users(run[i].pcs, l) != {} <==>
            run[i].locks[l].id in run[i].table && run[i].table[run[i].locks[l].id] == l
  {
    RunInv(run, i);
    assert LockExact(run[i], l);
  }

  /** releaseRef deletes by ID, yet it only ever drops the very lock it was given, and only when
      nobody holds it or waits for it. */
  lemma DropsOnlyUnused(run: seq<State>, i: nat, c: nat, id: string)
    requires IsRun(run) && i < |run| && Enabled(run[i], c, Drop)
    requires id in run[i].table && id !in Step(run[i], c, Drop).table
    ensures run[i].table[id] == PcOf(run[i], c).lock
    ensures Users(Step(run[i], c, Drop).pcs, run[i].table[id]) == {}
  {
    RunInv(run, i);
    var l := PcOf(run[i], c).lock;
    assert LockExact(run[i], l);
    StepExact(run[i], c, Drop, l);
  }
}
