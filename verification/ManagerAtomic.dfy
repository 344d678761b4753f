/**
  A manager call whose steps run without interference has the effect that the manager's methods
  promise: the same change to the states of the collected templates and to the pools.
  */
module ManagerAtomic {
  import opened Chains
  import opened Queues
  import opened ManagerMachine
  import opened TemplateLifecycle

  /** The state after some steps one after the other, with nothing in between. */
  function MExec(s: MState, steps: seq<MStep>): (r: Option<MState>)
    decreases |steps|
  {
    if steps == [] then Some(s)
    else
      var r := MDo(s, steps[0]);
      if r.None? then None else MExec(r.value, steps[1..])
  }

  /** Each entry of the collection is a template of its own hash that is not discarded. */
  predicate Live(s: MState) {
    forall h <- s.coll ::
      && s.coll[h] < |s.templates|
      && s.templates[s.coll[h]].hash == h && s.templates[s.coll[h]].state != Discarded
  }

  /** The states of the collected templates. */
  function StatesOf(s: MState): (r: map<Hash, TemplateState>)
    requires Live(s)
  {
    map h | h in s.coll :: s.templates[s.coll[h]].state
  }

  /** No call is in flight and no lock is held. */
  predicate Calm(s: MState) {
    && Live(s) && s.collLock.None? && s.calls == map[]
    && forall i :: 0 <= i < |s.templates| ==> s.templates[i].mutex.None?
  }

  lemma OneStep(s: MState, a: MStep, t: MState)
    requires MDo(s, a) == Some(t)
    ensures MExec(s, [a]) == Some(t)
  {
    assert [a][1..] == [];
    assert MExec(t, []) == Some(t);
  }

  lemma TwoSteps(s: MState, a: MStep, t: MState, b: MStep, u: MState)
    requires MDo(s, a) == Some(t) && MDo(t, b) == Some(u)
    ensures MExec(s, [a, b]) == Some(u)
  {
    assert [a, b][1..] == [b] && [b][1..] == [];
    assert MExec(u, []) == Some(u);
    assert MExec(t, [b]) == Some(u);
  }

  lemma ThreeSteps(s: MState, a: MStep, t: MState, b: MStep, u: MState, c: MStep, v: MState)
    requires MDo(s, a) == Some(t) && MDo(t, b) == Some(u) && MDo(u, c) == Some(v)
    ensures MExec(s, [a, b, c]) == Some(v)
  {
    TwoSteps(t, b, u, c, v);
    assert [a, b, c][1..] == [b, c];
  }

  lemma FreshView(s: MState, t: MState, hash: Hash)
    requires Live(s)
    requires t.templates == s.templates + [Template(hash, Init, None)] && t.coll == s.coll[hash := |s.templates|]
    ensures Live(t) && StatesOf(t) == StatesOf(s)[hash := Init]
  {
  }

  lemma SameView(s: MState, t: MState, x: Template)
    requires Live(s) && t.templates == s.templates + [x] && t.coll == s.coll
    ensures Live(t) && StatesOf(t) == StatesOf(s)
  {
  }

  /** A new call comes and goes without leaving a trace among the calls. */
  lemma Passing(calls: map<nat, Call>, g: nat, a: Call, b: Call)
    requires g !in calls
    ensures calls[g := a] - {g} == calls && calls[g := a][g := b] == calls[g := b]
  {
  }

  // Initialise.

  /** The state while the server creates the database, and while the old pool is removed. */
  function During(s: MState, hash: Hash, call: Call): (r: MState) {
    MState(s.templates + [Template(hash, Init, None)], s.coll[hash := |s.templates|], Some(s.nextCall), s.pools,
           s.calls[s.nextCall := call], s.nextCall + 1, s.history + [Pushed(hash, |s.templates|)])
  }

  lemma Begins(s: MState, hash: Hash)
    requires s.collLock.None? && hash !in s.coll
    ensures MDo(s, BeginInit(hash)) == Some(During(s, hash, InitCreate(hash, |s.templates|)))
  {
  }

  lemma Creates(s: MState, hash: Hash)
    requires s.nextCall !in s.calls
    ensures var tid := |s.templates|;
            MDo(During(s, hash, InitCreate(hash, tid)), CreateReturns(s.nextCall, true))
            == Some(During(s, hash, InitRemove(hash, tid)))
  {
    Passing(s.calls, s.nextCall, InitCreate(hash, |s.templates|), InitRemove(hash, |s.templates|));
  }

  function RolledBack(s: MState, hash: Hash): (r: MState) {
    var x := During(s, hash, DiscardPop(hash));
    x.(coll := s.coll, collLock := None, calls := s.calls, history := x.history + [Removed(hash, |s.templates|)])
  }

  /** The pool is gone and the collection still locked. */
  function Cleared(s: MState, hash: Hash): (r: MState) {
    var x := During(s, hash, InitUnlock(hash, |s.templates|, |s.history| + 1));
    x.(pools := s.pools - {hash}, history := x.history + [PoolsRemoved({hash})])
  }

  function Completed(s: MState, hash: Hash): (r: MState) {
    var x := Cleared(s, hash);
    x.(collLock := None, calls := s.calls, history := x.history + [Initialised(hash, |s.templates|)])
  }

  lemma FailsToCreate(s: MState, hash: Hash)
    requires s.nextCall !in s.calls && hash !in s.coll
    ensures MDo(During(s, hash, InitCreate(hash, |s.templates|)), CreateReturns(s.nextCall, false)) == Some(RolledBack(s, hash))
  {
    var call := InitCreate(hash, |s.templates|);
    Passing(s.calls, s.nextCall, call, call);
    assert s.coll[hash := |s.templates|] - {hash} == s.coll;
  }

  lemma FailsToRemove(s: MState, hash: Hash)
    requires s.nextCall !in s.calls && hash !in s.coll && hash in s.pools
    ensures MDo(During(s, hash, InitRemove(hash, |s.templates|)), RemoveReturns(s.nextCall, false)) == Some(RolledBack(s, hash))
  {
    var call := InitRemove(hash, |s.templates|);
    Passing(s.calls, s.nextCall, call, call);
    assert s.coll[hash := |s.templates|] - {hash} == s.coll;
  }

  lemma Removes(s: MState, hash: Hash, removed: bool)
    requires s.nextCall !in s.calls && (removed || hash !in s.pools)
    ensures MDo(During(s, hash, InitRemove(hash, |s.templates|)), RemoveReturns(s.nextCall, removed)) == Some(Cleared(s, hash))
  {
    var tid := |s.templates|;
    Passing(s.calls, s.nextCall, InitRemove(hash, tid), InitUnlock(hash, tid, |s.history| + 1));
  }

  lemma Completes(s: MState, hash: Hash)
    requires s.nextCall !in s.calls
    ensures MDo(Cleared(s, hash), InitReturns(s.nextCall)) == Some(Completed(s, hash))
  {
    var call := InitUnlock(hash, |s.templates|, |s.history| + 1);
    Passing(s.calls, s.nextCall, call, call);
  }

  /** The steps of an initialisation of a hash, with the server's answers. */
  function InitialiseTrace(s: MState, hash: Hash, created: bool, removed: bool): (r: seq<MStep>) {
    var g := s.nextCall;
    if hash in s.coll then [BeginInit(hash)]
    else if !created then [BeginInit(hash), CreateReturns(g, false)]
    else if hash in s.pools && !removed then [BeginInit(hash), CreateReturns(g, true), RemoveReturns(g, false)]
    else [BeginInit(hash), CreateReturns(g, true)] + [RemoveReturns(g, removed), InitReturns(g)]
  }

  lemma InitialiseFails(s: MState, hash: Hash, created: bool)
    requires s.collLock.None? && s.nextCall !in s.calls && hash !in s.coll && (created ==> hash in s.pools)
    ensures MExec(s, InitialiseTrace(s, hash, created, false)) == Some(RolledBack(s, hash))
  {
    var g, tid := s.nextCall, |s.templates|;
    Begins(s, hash);
    if created {
      Creates(s, hash);
      FailsToRemove(s, hash);
      ThreeSteps(s, BeginInit(hash), During(s, hash, InitCreate(hash, tid)), CreateReturns(g, true),
                 During(s, hash, InitRemove(hash, tid)), RemoveReturns(g, false), RolledBack(s, hash));
    } else {
      FailsToCreate(s, hash);
      TwoSteps(s, BeginInit(hash), During(s, hash, InitCreate(hash, tid)), CreateReturns(g, false), RolledBack(s, hash));
    }
  }

  lemma InitialiseRuns(s: MState, hash: Hash, removed: bool)
    requires s.collLock.None? && s.nextCall !in s.calls && hash !in s.coll && (removed || hash !in s.pools)
    ensures MExec(s, InitialiseTrace(s, hash, true, removed)) == Some(Completed(s, hash))
  {
    var g, tid := s.nextCall, |s.templates|;
    Begins(s, hash);
    Creates(s, hash);
    Removes(s, hash, removed);
    Completes(s, hash);
    var mid := During(s, hash, InitRemove(hash, tid));
    TwoSteps(s, BeginInit(hash), During(s, hash, InitCreate(hash, tid)), CreateReturns(g, true), mid);
    TwoSteps(mid, RemoveReturns(g, removed), Cleared(s, hash), InitReturns(g), Completed(s, hash));
    MExecConcat(s, [BeginInit(hash), CreateReturns(g, true)], [RemoveReturns(g, removed), InitReturns(g)], mid);
  }

  /**
    An initialisation run alone succeeds exactly for an absent hash and a willing server; then the
    hash has an init template and no pool, and otherwise states and pools are as they were.
    */
  lemma AtomicInitialise(s: MState, hash: Hash, created: bool, removed: bool) returns (t: MState)
    requires Calm(s)
    ensures MExec(s, InitialiseTrace(s, hash, created, removed)) == Some(t) && Calm(t)
    ensures var ok := hash !in s.coll && created && (removed || hash !in s.pools);
            && StatesOf(t) == (if ok then StatesOf(s)[hash := Init] else StatesOf(s))
            && t.pools == (if ok then s.pools - {hash} else s.pools)
  {
    if hash in s.coll {
      t := s;
      OneStep(s, BeginInit(hash), s);
    } else if created && (removed || hash !in s.pools) {
      t := Completed(s, hash);
      InitialiseRuns(s, hash, removed);
      FreshView(s, t, hash);
    } else {
      t := RolledBack(s, hash);
      InitialiseFails(s, hash, created);
      SameView(s, t, Template(hash, Init, None));
    }
  }

  // Finalise.

  /** One template's state and lock changed, a pool entry and a call set. */
  function Changed(s: MState, tid: nat, x: Template, pools: map<Hash, nat>, calls: map<nat, Call>, log: seq<MEvent>): (r: MState)
    requires tid < |s.templates|
  {
    MState(s.templates[tid := x], s.coll, s.collLock, pools, calls, s.nextCall + 1, s.history + log)
  }

  lemma OneView(s: MState, t: MState, hash: Hash, x: Template)
    requires Live(s) && hash in s.coll && x.hash == hash && x.state != Discarded
    requires t.templates == s.templates[s.coll[hash] := x] && t.coll == s.coll
    ensures Live(t) && StatesOf(t) == StatesOf(s)[hash := x.state]
  {
  }

  /** The steps of a finalisation. */
  function FinalizeTrace(s: MState, hash: Hash): (r: seq<MStep>)
    requires Live(s)
  {
    var g := s.nextCall;
    if hash !in s.coll then [BeginFinalize(hash)]
    else if s.templates[s.coll[hash]].state != Init then [BeginFinalize(hash), LockTemplate(g)]
    else [BeginFinalize(hash), LockTemplate(g)] + [InstallPool(g), MarkFinalized(g)]
  }

  lemma FinalizeLocks(s: MState, hash: Hash)
    requires s.collLock.None? && hash in s.coll && s.coll[hash] < |s.templates| && s.nextCall !in s.calls
    requires s.templates[s.coll[hash]] == Template(hash, Init, None)
    ensures var g, tid := s.nextCall, s.coll[hash];
            MExec(s, [BeginFinalize(hash), LockTemplate(g)])
            == Some(Changed(s, tid, Template(hash, Init, Some(g)), s.pools, s.calls[g := FinalizePool(tid)], []))
  {
    var g, tid := s.nextCall, s.coll[hash];
    EntersFinalize(s, hash);
    TakesLock(s, hash, tid);
    TwoSteps(s, BeginFinalize(hash), Enter(s, FinalizeLock(tid)), LockTemplate(g),
             Changed(s, tid, Template(hash, Init, Some(g)), s.pools, s.calls[g := FinalizePool(tid)], []));
  }

  lemma EntersFinalize(s: MState, hash: Hash)
    requires s.collLock.None? && hash in s.coll
    ensures MDo(s, BeginFinalize(hash)) == Some(Enter(s, FinalizeLock(s.coll[hash])))
  {
  }

  lemma TakesLock(s: MState, hash: Hash, tid: nat)
    requires tid < |s.templates| && s.nextCall !in s.calls && s.templates[tid] == Template(hash, Init, None)
    ensures MDo(Enter(s, FinalizeLock(tid)), LockTemplate(s.nextCall))
         == Some(Changed(s, tid, Template(hash, Init, Some(s.nextCall)), s.pools, s.calls[s.nextCall := FinalizePool(tid)], []))
  {
    Passing(s.calls, s.nextCall, FinalizeLock(tid), FinalizePool(tid));
    assert s.history + [] == s.history;
  }

  lemma FinalizeEnds(s: MState, hash: Hash, tid: nat)
    requires tid < |s.templates| && s.nextCall !in s.calls
    ensures var g := s.nextCall;
            MExec(Changed(s, tid, Template(hash, Init, Some(g)), s.pools, s.calls[g := FinalizePool(tid)], []),
                  [InstallPool(g), MarkFinalized(g)])
            == Some(Changed(s, tid, Template(hash, Finalized, None), s.pools[hash := tid], s.calls,
                            [PoolInstalled(tid), Finalised(tid)]))
  {
    var g := s.nextCall;
    var x := Template(hash, Init, Some(g));
    var s2 := Changed(s, tid, x, s.pools, s.calls[g := FinalizePool(tid)], []);
    var s3 := Changed(s, tid, x, s.pools[hash := tid], s.calls[g := FinalizeSet(tid)], [PoolInstalled(tid)]);
    Passing(s.calls, g, FinalizePool(tid), FinalizeSet(tid));
    Passing(s.calls, g, FinalizeSet(tid), FinalizeSet(tid));
    assert s.history + [] + [PoolInstalled(tid)] == s.history + [PoolInstalled(tid)];
    assert s.history + [PoolInstalled(tid)] + [Finalised(tid)] == s.history + [PoolInstalled(tid), Finalised(tid)];
    assert MDo(s2, InstallPool(g)) == Some(s3);
    var ts := s.templates;
    assert ts[tid := x][tid := Template(hash, Finalized, Some(g))][tid := Template(hash, Finalized, None)]
        == ts[tid := Template(hash, Finalized, None)];
    TwoSteps(s2, InstallPool(g), s3, MarkFinalized(g),
             Changed(s, tid, Template(hash, Finalized, None), s.pools[hash := tid], s.calls, [PoolInstalled(tid), Finalised(tid)]));
  }

  lemma {:induction false} MExecIsChain(s: MState, steps: seq<MStep>, f: (MState, MStep) -> Option<MState>)
    requires forall x, y :: f(x, y) == MDo(x, y)
    ensures MExec(s, steps) == Chain(f, s, steps)
    decreases |steps|
  {
    if steps != [] {
      var r := f(s, steps[0]);
      if r.Some? {
        MExecIsChain(r.value, steps[1..], f);
      }
    }
  }

  lemma MExecConcat(s: MState, a: seq<MStep>, b: seq<MStep>, t: MState)
    requires MExec(s, a) == Some(t)
    ensures MExec(s, a + b) == MExec(t, b)
  {
    var f := (x, y) => MDo(x, y);
    MExecIsChain(s, a, f);
    MExecIsChain(s, a + b, f);
    MExecIsChain(t, b, f);
    ChainConcat(f, s, a, b, t);
  }

  lemma FinalizeRuns(s: MState, hash: Hash) returns (t: MState)
    requires Calm(s) && hash in s.coll && s.templates[s.coll[hash]].state == Init
    ensures MExec(s, FinalizeTrace(s, hash)) == Some(t)
    ensures t == Changed(s, s.coll[hash], Template(hash, Finalized, None), s.pools[hash := s.coll[hash]], s.calls,
                         [PoolInstalled(s.coll[hash]), Finalised(s.coll[hash])])
  {
    var g, tid := s.nextCall, s.coll[hash];
    FinalizeLocks(s, hash);
    FinalizeEnds(s, hash, tid);
    var mid := Changed(s, tid, Template(hash, Init, Some(g)), s.pools, s.calls[g := FinalizePool(tid)], []);
    t := Changed(s, tid, Template(hash, Finalized, None), s.pools[hash := tid], s.calls, [PoolInstalled(tid), Finalised(tid)]);
    MExecConcat(s, [BeginFinalize(hash), LockTemplate(g)], [InstallPool(g), MarkFinalized(g)], mid);
  }

  lemma FinalizeRefused(s: MState, hash: Hash) returns (t: MState)
    requires Calm(s) && hash in s.coll && s.templates[s.coll[hash]].state != Init
    ensures MExec(s, FinalizeTrace(s, hash)) == Some(t) && t == s.(nextCall := s.nextCall + 1)
  {
    var g := s.nextCall;
    var u := Enter(s, FinalizeLock(s.coll[hash]));
    t := s.(nextCall := s.nextCall + 1);
    Passing(s.calls, g, FinalizeLock(s.coll[hash]), FinalizeLock(s.coll[hash]));
    TwoSteps(s, BeginFinalize(hash), u, LockTemplate(g), t);
  }

  /** A finalisation run alone takes effect exactly for a template in init: finalised, with its pool. */
  lemma AtomicFinalize(s: MState, hash: Hash) returns (t: MState)
    requires Calm(s)
    ensures MExec(s, FinalizeTrace(s, hash)) == Some(t) && Calm(t)
    ensures var ok := hash in s.coll && StatesOf(s)[hash] == Init;
            && StatesOf(t) == (if ok then StatesOf(s)[hash := Finalized] else StatesOf(s))
            && t.pools == (if ok then s.pools[hash := s.coll[hash]] else s.pools)
  {
    if hash !in s.coll {
      t := s;
      OneStep(s, BeginFinalize(hash), s);
    } else if s.templates[s.coll[hash]].state == Init {
      t := FinalizeRuns(s, hash);
      OneView(s, t, hash, Template(hash, Finalized, None));
    } else {
      t := FinalizeRefused(s, hash);
    }
  }

  // Discard.

  /** The steps of a discard, with the answer of the pool's removal. */
  function DiscardTrace(s: MState, hash: Hash, removed: bool): (r: seq<MStep>) {
    var g := s.nextCall;
    if hash in s.pools && !removed then [BeginDiscard(hash, false)]
    else if hash in s.coll then [BeginDiscard(hash, removed), Pop(g), MarkDiscarded(g)]
    else [BeginDiscard(hash, removed), Pop(g)]
  }

  lemma DroppedView(s: MState, t: MState, hash: Hash, x: Template)
    requires Live(s) && hash in s.coll && x.hash == hash
    requires t.templates == s.templates[s.coll[hash] := x] && t.coll == s.coll - {hash}
    ensures Live(t) && StatesOf(t) == StatesOf(s) - {hash}
  {
  }

  /** The pool is gone and the template yet to be popped. */
  function Unpooled(s: MState, hash: Hash): (r: MState) {
    Log(Enter(s.(pools := s.pools - {hash}), DiscardPop(hash)), PoolsRemoved({hash}))
  }

  function PoppedOut(s: MState, hash: Hash, tid: nat): (r: MState) {
    Log(Enter(Log(s.(pools := s.pools - {hash}, coll := s.coll - {hash}), PoolsRemoved({hash})), DiscardSet(tid)), Removed(hash, tid))
  }

  lemma Pops(s: MState, hash: Hash)
    requires s.collLock.None? && hash in s.coll && s.nextCall !in s.calls
    ensures MDo(Unpooled(s, hash), Pop(s.nextCall)) == Some(PoppedOut(s, hash, s.coll[hash]))
  {
    Passing(s.calls, s.nextCall, DiscardPop(hash), DiscardSet(s.coll[hash]));
  }

  lemma DiscardRuns(s: MState, hash: Hash, removed: bool) returns (t: MState)
    requires s.collLock.None? && hash in s.coll && s.coll[hash] < |s.templates| && s.nextCall !in s.calls
    requires s.templates[s.coll[hash]].mutex.None? && (removed || hash !in s.pools)
    ensures MExec(s, DiscardTrace(s, hash, removed)) == Some(t)
    ensures t.templates == s.templates[s.coll[hash] := s.templates[s.coll[hash]].(state := Discarded)]
    ensures t.coll == s.coll - {hash} && t.collLock.None? && t.calls == s.calls && t.pools == s.pools - {hash}
  {
    var g, tid := s.nextCall, s.coll[hash];
    Passing(s.calls, g, DiscardSet(tid), DiscardSet(tid));
    Pops(s, hash);
    var u := PoppedOut(s, hash, tid);
    t := MDo(u, MarkDiscarded(g)).value;
    ThreeSteps(s, BeginDiscard(hash, removed), Unpooled(s, hash), Pop(g), u, MarkDiscarded(g), t);
  }

  lemma DiscardOfNone(s: MState, hash: Hash, removed: bool) returns (t: MState)
    requires s.collLock.None? && hash !in s.coll && s.nextCall !in s.calls && (removed || hash !in s.pools)
    ensures MExec(s, DiscardTrace(s, hash, removed)) == Some(t)
    ensures t.templates == s.templates && t.coll == s.coll && t.collLock.None? && t.calls == s.calls
    ensures t.pools == s.pools - {hash}
  {
    var g := s.nextCall;
    Passing(s.calls, g, DiscardPop(hash), DiscardPop(hash));
    t := Leave(Unpooled(s, hash), g);
    TwoSteps(s, BeginDiscard(hash, removed), Unpooled(s, hash), Pop(g), t);
  }

  /**
    A discard run alone: unless the pool cannot be removed, neither a template nor a pool is left for
    the hash, and the template that was there ends up discarded.
    */
  lemma AtomicDiscard(s: MState, hash: Hash, removed: bool) returns (t: MState)
    requires Calm(s)
    ensures MExec(s, DiscardTrace(s, hash, removed)) == Some(t) && Calm(t)
    ensures var gone := removed || hash !in s.pools;
            && StatesOf(t) == (if gone then StatesOf(s) - {hash} else StatesOf(s))
            && t.pools == (if gone then s.pools - {hash} else s.pools)
            && |t.templates| == |s.templates|
            && (gone && hash in s.coll ==> t.templates[s.coll[hash]].state == Discarded)
  {
    if hash in s.pools && !removed {
      t := s;
      OneStep(s, BeginDiscard(hash, false), s);
    } else if hash in s.coll {
      t := DiscardRuns(s, hash, removed);
      DroppedView(s, t, hash, s.templates[s.coll[hash]].(state := Discarded));
    } else {
      t := DiscardOfNone(s, hash, removed);
      assert StatesOf(s) - {hash} == StatesOf(s);
    }
  }

  // Get.

  /** A call by `g` on the way, with one more event. */
  function Getting(s: MState, calls: map<nat, Call>, pools: map<Hash, nat>, log: seq<MEvent>): (r: MState) {
    s.(calls := calls, pools := pools, nextCall := s.nextCall + 1, history := s.history + log)
  }

  lemma GetEnters(s: MState, hash: Hash)
    requires s.collLock.None? && s.calls == map[] && hash in s.coll
    ensures MDo(s, BeginGet(hash))
         == Some(Getting(s, map[s.nextCall := GetRead(s.coll[hash], |s.history|)], s.pools, [Called(s.nextCall)]))
  {
    var g, q := s.nextCall, GetRead(s.coll[hash], |s.history|);
    assert map[][g := q] == map[g := q];
  }

  /** Where a get stands once it has read the state. */
  function AfterRead(s: MState, tid: nat): (r: MState)
    requires tid < |s.templates|
  {
    var g, n := s.nextCall, |s.history|;
    if s.templates[tid].state == Finalized then Getting(s, map[g := GetPool(tid)], s.pools, [Called(g), GatePassed(g, tid, n)])
    else Getting(s, map[g := GetSleep(tid, n)], s.pools, [Called(g)])
  }

  lemma GetReads(s: MState, tid: nat)
    requires tid < |s.templates| && s.templates[tid].mutex.None?
    ensures MDo(Getting(s, map[s.nextCall := GetRead(tid, |s.history|)], s.pools, [Called(s.nextCall)]), ReadState(s.nextCall))
         == Some(AfterRead(s, tid))
  {
    var g, n := s.nextCall, |s.history|;
    assert map[g := GetRead(tid, n)][g := GetPool(tid)] == map[g := GetPool(tid)];
    assert map[g := GetRead(tid, n)][g := GetSleep(tid, n)] == map[g := GetSleep(tid, n)];
    assert s.history + [Called(g)] + [GatePassed(g, tid, n)] == s.history + [Called(g), GatePassed(g, tid, n)];
  }

  lemma GetBegins(s: MState, hash: Hash)
    requires Calm(s) && hash in s.coll
    ensures MExec(s, [BeginGet(hash), ReadState(s.nextCall)]) == Some(AfterRead(s, s.coll[hash]))
  {
    GetEnters(s, hash);
    GetReads(s, s.coll[hash]);
    TwoSteps(s, BeginGet(hash), Getting(s, map[s.nextCall := GetRead(s.coll[hash], |s.history|)], s.pools, [Called(s.nextCall)]),
             ReadState(s.nextCall), AfterRead(s, s.coll[hash]));
  }

  /** A get past the gate that found no pool installs one. */
  function Reinstalled(u: MState, g: nat, tid: nat, hash: Hash): (r: MState) {
    u.(calls := map[g := GetRetry(tid)], pools := u.pools[hash := tid], history := u.history + [PoolInstalled(tid)])
  }

  lemma MissesPool(u: MState, g: nat, tid: nat)
    requires u.calls == map[g := GetPool(tid)] && tid < |u.templates| && u.templates[tid].hash !in u.pools
    ensures MDo(u, UsePool(g)) == Some(u.(calls := map[g := GetInstall(tid)]))
  {
    assert map[g := GetPool(tid)][g := GetInstall(tid)] == map[g := GetInstall(tid)];
  }

  lemma InstallsPool(u: MState, g: nat, tid: nat)
    requires tid < |u.templates|
    ensures MDo(u.(calls := map[g := GetInstall(tid)]), Reinstall(g)) == Some(Reinstalled(u, g, tid, u.templates[tid].hash))
  {
    assert map[g := GetInstall(tid)][g := GetRetry(tid)] == map[g := GetRetry(tid)];
  }

  lemma RetriesPool(u: MState, g: nat, tid: nat, hash: Hash)
    ensures MDo(Reinstalled(u, g, tid, hash), UseAgain(g)) == Some(Reinstalled(u, g, tid, hash).(calls := map[]))
  {
    assert map[g := GetRetry(tid)] - {g} == map[];
  }

  lemma GetReinstalls(u: MState, g: nat, tid: nat, hash: Hash)
    requires u.calls == map[g := GetPool(tid)] && tid < |u.templates| && u.templates[tid].hash == hash && hash !in u.pools
    ensures MExec(u, [UsePool(g), Reinstall(g), UseAgain(g)]) == Some(Reinstalled(u, g, tid, hash).(calls := map[]))
  {
    MissesPool(u, g, tid);
    InstallsPool(u, g, tid);
    RetriesPool(u, g, tid, hash);
    var w := Reinstalled(u, g, tid, hash);
    ThreeSteps(u, UsePool(g), u.(calls := map[g := GetInstall(tid)]), Reinstall(g), w, UseAgain(g), w.(calls := map[]));
  }

  /** The steps of a get during which no other call moves the template. */
  function GetTrace(s: MState, hash: Hash): (r: seq<MStep>)
    requires Live(s)
  {
    var g := s.nextCall;
    if hash !in s.coll then [BeginGet(hash)]
    else if s.templates[s.coll[hash]].state != Finalized then [BeginGet(hash), ReadState(g)] + [TimeOut(g)]
    else if hash in s.pools then [BeginGet(hash), ReadState(g)] + [UsePool(g)]
    else [BeginGet(hash), ReadState(g)] + [UsePool(g), Reinstall(g), UseAgain(g)]
  }

  lemma GetLeaves(u: MState, g: nat, step: MStep)
    requires step == TimeOut(g) || step == UsePool(g)
    requires step == TimeOut(g) ==> exists tid, n :: u.calls == map[g := GetSleep(tid, n)]
    requires step == UsePool(g) ==>
               exists tid: nat :: u.calls == map[g := GetPool(tid)] && tid < |u.templates| && u.templates[tid].hash in u.pools
    ensures MExec(u, [step]) == Some(u.(calls := map[]))
  {
    assert u.calls - {g} == map[];
    OneStep(u, step, u.(calls := map[]));
  }

  lemma GetRuns(s: MState, hash: Hash) returns (t: MState)
    requires Calm(s) && hash in s.coll
    ensures MExec(s, GetTrace(s, hash)) == Some(t)
    ensures t.templates == s.templates && t.coll == s.coll && t.collLock == s.collLock && t.calls == map[]
    ensures t.pools == if s.templates[s.coll[hash]].state == Finalized && hash !in s.pools then s.pools[hash := s.coll[hash]]
                       else s.pools
  {
    var g, tid := s.nextCall, s.coll[hash];
    var u := AfterRead(s, tid);
    GetBegins(s, hash);
    if s.templates[tid].state != Finalized {
      t := u.(calls := map[]);
      GetLeaves(u, g, TimeOut(g));
      MExecConcat(s, [BeginGet(hash), ReadState(g)], [TimeOut(g)], u);
    } else if hash in s.pools {
      t := u.(calls := map[]);
      GetLeaves(u, g, UsePool(g));
      MExecConcat(s, [BeginGet(hash), ReadState(g)], [UsePool(g)], u);
    } else {
      t := Reinstalled(u, g, tid, hash).(calls := map[]);
      GetReinstalls(u, g, tid, hash);
      MExecConcat(s, [BeginGet(hash), ReadState(g)], [UsePool(g), Reinstall(g), UseAgain(g)], u);
    }
  }

  /** A get run alone passes exactly for a finalised template, and leaves a pool for its hash. */
  lemma AtomicGet(s: MState, hash: Hash) returns (t: MState)
    requires Calm(s)
    ensures MExec(s, GetTrace(s, hash)) == Some(t) && Calm(t) && StatesOf(t) == StatesOf(s)
    ensures var passes := hash in s.coll && StatesOf(s)[hash] == Finalized;
            t.pools == if passes && hash !in s.pools then s.pools[hash := s.coll[hash]] else s.pools
  {
    if hash !in s.coll {
      t := s;
      OneStep(s, BeginGet(hash), s);
    } else {
      t := GetRuns(s, hash);
    }
  }

  // Reset.

  /** The loop of a reset: templates are discarded one by one while the collection is locked. */
  predicate Resetting(s: MState, g: nat) {
    && Live(s) && s.calls == map[g := ResetLoop] && s.collLock == Some(g)
    && forall i :: 0 <= i < |s.templates| ==> s.templates[i].mutex.None?
  }

  /** Marking and deleting the templates of these hashes, one after the other. */
  function ResetEach(g: nat, order: seq<Hash>): (r: seq<MStep>) {
    if order == [] then [] else [ResetMark(g, order[0]), ResetDrop(g)] + ResetEach(g, order[1..])
  }

  /** The hashes in some order, each once. */
  predicate Lists(order: seq<Hash>, hashes: set<Hash>) {
    && (set h | h in order) == hashes
    && forall i, j :: 0 <= i < j < |order| ==> order[i] != order[j]
  }

  /** The steps of a reset that meets the collection's hashes in this order and removes these pools. */
  function ResetTrace(s: MState, order: seq<Hash>, gone: set<Hash>): (r: seq<MStep>) {
    var g := s.nextCall;
    [BeginReset] + (ResetEach(g, order) + [ResetUnlock(g), ResetRemove(g, gone)])
  }

  /** A template is marked, and its hash not yet deleted. */
  function Marked(s: MState, g: nat, hash: Hash, tid: nat): (r: MState)
    requires tid < |s.templates|
  {
    Log(SetState(s, tid, Discarded), DiscardedT(tid)).(calls := map[g := ResetDelete(hash, tid)])
  }

  function Dropped(s: MState, g: nat, hash: Hash, tid: nat): (r: MState)
    requires tid < |s.templates|
  {
    Log(Marked(s, g, hash, tid).(coll := s.coll - {hash}), Removed(hash, tid)).(calls := map[g := ResetLoop])
  }

  lemma Marks(s: MState, g: nat, hash: Hash)
    requires Resetting(s, g) && hash in s.coll
    ensures MDo(s, ResetMark(g, hash)) == Some(Marked(s, g, hash, s.coll[hash]))
  {
    assert s.calls[g := ResetDelete(hash, s.coll[hash])] == map[g := ResetDelete(hash, s.coll[hash])];
  }

  lemma Drops(s: MState, g: nat, hash: Hash, tid: nat)
    requires tid < |s.templates|
    ensures MDo(Marked(s, g, hash, tid), ResetDrop(g)) == Some(Dropped(s, g, hash, tid))
  {
    assert map[g := ResetDelete(hash, tid)][g := ResetLoop] == map[g := ResetLoop];
  }

  lemma ResetsOne(s: MState, g: nat, hash: Hash) returns (t: MState)
    requires Resetting(s, g) && hash in s.coll
    ensures MExec(s, [ResetMark(g, hash), ResetDrop(g)]) == Some(t) && Resetting(t, g)
    ensures t.coll == s.coll - {hash} && t.pools == s.pools
  {
    var tid := s.coll[hash];
    t := Dropped(s, g, hash, tid);
    Marks(s, g, hash);
    Drops(s, g, hash, tid);
    TwoSteps(s, ResetMark(g, hash), Marked(s, g, hash, tid), ResetDrop(g), t);
    assert forall h <- t.coll :: t.templates[t.coll[h]] == s.templates[s.coll[h]];
  }

  lemma {:induction false} ResetsAll(s: MState, g: nat, order: seq<Hash>) returns (t: MState)
    requires Resetting(s, g) && Lists(order, s.coll.Keys)
    ensures MExec(s, ResetEach(g, order)) == Some(t) && Resetting(t, g) && t.coll == map[] && t.pools == s.pools
    decreases |order|
  {
    if order == [] {
      t := s;
      assert s.coll.Keys == {};
    } else {
      var u := ResetsOne(s, g, order[0]);
      RestListed(order, s.coll.Keys);
      assert u.coll.Keys == s.coll.Keys - {order[0]};
      t := ResetsAll(u, g, order[1..]);
      MExecConcat(s, [ResetMark(g, order[0]), ResetDrop(g)], ResetEach(g, order[1..]), u);
    }
  }

  lemma RestListed(order: seq<Hash>, hashes: set<Hash>)
    requires Lists(order, hashes) && order != []
    ensures order[0] in hashes && Lists(order[1..], hashes - {order[0]})
  {
    forall h ensures h in (set x | x in order[1..]) <==> h in hashes - {order[0]} {
      assert h in order <==> h == order[0] || h in order[1..];
      assert h in hashes <==> h in order;
    }
  }

  lemma Releases(s: MState, g: nat)
    requires Resetting(s, g) && s.coll == map[]
    ensures MDo(s, ResetUnlock(g)) == Some(s.(collLock := None, calls := map[g := ResetPools]))
  {
    assert map[g := ResetLoop][g := ResetPools] == map[g := ResetPools];
  }

  lemma Unpools(s: MState, g: nat, gone: set<Hash>)
    requires s.calls == map[g := ResetPools]
    ensures MDo(s, ResetRemove(g, gone)) == Some(Log(s.(pools := s.pools - gone, calls := map[]), PoolsRemoved(gone)))
  {
    assert map[g := ResetPools] - {g} == map[];
  }

  lemma ResetEnds(s: MState, g: nat, gone: set<Hash>) returns (t: MState)
    requires Resetting(s, g) && s.coll == map[]
    ensures MExec(s, [ResetUnlock(g), ResetRemove(g, gone)]) == Some(t)
    ensures Calm(t) && StatesOf(t) == map[] && t.pools == s.pools - gone
  {
    var u := s.(collLock := None, calls := map[g := ResetPools]);
    t := Log(u.(pools := s.pools - gone, calls := map[]), PoolsRemoved(gone));
    Releases(s, g);
    Unpools(u, g, gone);
    TwoSteps(s, ResetUnlock(g), u, ResetRemove(g, gone), t);
  }

  /** A reset forgets every template, in any order, and removes the pools it can. */
  lemma AtomicReset(s: MState, order: seq<Hash>, gone: set<Hash>) returns (t: MState)
    requires Calm(s) && Lists(order, s.coll.Keys)
    ensures MExec(s, ResetTrace(s, order, gone)) == Some(t)
    ensures Calm(t) && StatesOf(t) == map[] && t.pools == s.pools - gone
  {
    var g := s.nextCall;
    var s1 := s.(collLock := Some(g), calls := map[g := ResetLoop], nextCall := g + 1);
    assert map[][g := ResetLoop] == map[g := ResetLoop];
    OneStep(s, BeginReset, s1);
    var s2 := ResetsAll(s1, g, order);
    t := ResetEnds(s2, g, gone);
    var last := [ResetUnlock(g), ResetRemove(g, gone)];
    MExecConcat(s1, ResetEach(g, order), last, s2);
    MExecConcat(s, [BeginReset], ResetEach(g, order) + last, s1);
  }

  /** Any finite set of hashes can be met in some order. */
  lemma {:induction false} SomeOrder(hashes: set<Hash>) returns (order: seq<Hash>)
    ensures Lists(order, hashes)
  {
    if hashes == {} {
      order := [];
    } else {
      var h :| h in hashes;
      var rest := SomeOrder(hashes - {h});
      order := [h] + rest;
      forall x ensures x in (set y | y in order) <==> x in hashes {
        assert x in order <==> x == h || x in rest;
        assert x in hashes - {h} <==> x in rest;
      }
    }
  }
}
