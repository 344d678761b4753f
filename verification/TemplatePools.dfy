/**
  Which template each hash's pool was made from, in every interleaving of manager calls: the pool of
  a hash is the one installed last, unless it was removed since. An initialisation clears its hash's
  pool before it lets go of the collection, so a pool there at that point was put back by an older
  call.
  */
module TemplatePools {
  import opened Chains
  import opened Queues
  import opened ManagerMachine
  import opened TemplateLifecycle
  import opened TemplateHistory
  import opened ManagerAtomic

  /** The event takes the hash's pool away or replaces it. */
  predicate Touches(templates: seq<Template>, e: MEvent, hash: Hash) {
    match e
    case PoolsRemoved(gone) => hash in gone
    case PoolInstalled(tid) => tid < |templates| && templates[tid].hash == hash
    case _ => false
  }

  /** Event `k` installed the template's pool under the hash, and nothing touched it since. */
  predicate Standing(s: MState, hash: Hash, tid: nat, k: nat) {
    && k < |s.history| && s.history[k] == PoolInstalled(tid)
    && tid < |s.templates| && s.templates[tid].hash == hash
    && forall j: nat :: k < j < |s.history| ==> !Touches(s.templates, s.history[j], hash)
  }

  predicate HasPool(s: MState, hash: Hash, tid: nat) {
    hash in s.pools && s.pools[hash] == tid
  }

  ghost predicate PoolsInv(s: MState) {
    && (forall hash <- s.pools :: exists k: nat :: Standing(s, hash, s.pools[hash], k))
    && (forall hash, tid: nat, k: nat :: Standing(s, hash, tid, k) ==> HasPool(s, hash, tid))
  }

  /** How a step changes the pools, and the event that goes with it. */
  ghost predicate PoolsMoved(s: MState, s': MState) {
    if s'.history == s.history then s'.pools == s.pools
    else
      && |s'.history| == |s.history| + 1
      && match s'.history[|s.history|]
         case PoolsRemoved(gone) => s'.pools == s.pools - gone
         case PoolInstalled(tid) => tid < |s.templates| && s'.pools == s.pools[s.templates[tid].hash := tid]
         case _ => s'.pools == s.pools
  }

  lemma InitialiseMovesPools(s: MState, step: MStep, s': MState)
    requires DoInitialise(s, step) == Some(s')
    ensures PoolsMoved(s, s')
  {
  }

  lemma DiscardMovesPools(s: MState, step: MStep, s': MState)
    requires DoDiscard(s, step) == Some(s')
    ensures PoolsMoved(s, s')
  {
  }

  lemma ResetMovesPools(s: MState, step: MStep, s': MState)
    requires DoReset(s, step) == Some(s')
    ensures PoolsMoved(s, s')
  {
  }

  lemma FinalizeMovesPools(s: MState, step: MStep, s': MState)
    requires DoFinalize(s, step) == Some(s')
    ensures PoolsMoved(s, s')
  {
  }

  lemma GetMovesPools(s: MState, step: MStep, s': MState)
    requires DoGet(s, step) == Some(s')
    ensures PoolsMoved(s, s')
  {
  }

  lemma PoolsMove(s: MState, step: MStep, s': MState)
    requires MDo(s, step) == Some(s')
    ensures PoolsMoved(s, s')
  {
    if DoInitialise(s, step) == Some(s') {
      InitialiseMovesPools(s, step, s');
    } else if DoDiscard(s, step) == Some(s') {
      DiscardMovesPools(s, step, s');
    } else if DoReset(s, step) == Some(s') {
      ResetMovesPools(s, step, s');
    } else if DoFinalize(s, step) == Some(s') {
      FinalizeMovesPools(s, step, s');
    } else if DoGet(s, step) == Some(s') {
      GetMovesPools(s, step, s');
    }
  }

  /** Hashes of templates do not change. */
  ghost predicate SameHashes(s: MState, s': MState) {
    && |s.templates| <= |s'.templates|
    && forall tid: nat :: tid < |s.templates| ==> s'.templates[tid].hash == s.templates[tid].hash
  }

  lemma StandingStays(s: MState, s': MState, hash: Hash, tid: nat, k: nat)
    requires Logged(s, s') && SameHashes(s, s') && EventsInv(s) && Standing(s, hash, tid, k)
    requires |s'.history| > |s.history| ==> !Touches(s'.templates, s'.history[|s.history|], hash)
    ensures Standing(s', hash, tid, k)
  {
    assert s'.history[k] == s.history[k];
    forall j: nat | k < j < |s'.history| ensures !Touches(s'.templates, s'.history[j], hash) {
      if j < |s.history| {
        assert s'.history[j] == s.history[j] && EventOk(s, s.history[j]);
      }
    }
  }

  lemma StoodBefore(s: MState, s': MState, hash: Hash, tid: nat, k: nat)
    requires Logged(s, s') && SameHashes(s, s') && EventsInv(s) && Standing(s', hash, tid, k) && k < |s.history|
    ensures Standing(s, hash, tid, k)
  {
    assert s'.history[k] == s.history[k] && EventOk(s, s.history[k]);
    forall j: nat | k < j < |s.history| ensures !Touches(s.templates, s.history[j], hash) {
      assert s'.history[j] == s.history[j] && !Touches(s'.templates, s'.history[j], hash);
    }
  }

  lemma PoolsHeldKeep(s: MState, s': MState, hash: Hash)
    requires Logged(s, s') && SameHashes(s, s') && PoolsMoved(s, s') && EventsInv(s) && PoolsInv(s)
    requires hash in s'.pools
    ensures exists k: nat :: Standing(s', hash, s'.pools[hash], k)
  {
    var n := |s.history|;
    if |s'.history| > n && Touches(s'.templates, s'.history[n], hash) {
      assert Standing(s', hash, s'.pools[hash], n);
    } else {
      assert hash in s.pools && s'.pools[hash] == s.pools[hash];
      var k: nat :| Standing(s, hash, s.pools[hash], k);
      StandingStays(s, s', hash, s.pools[hash], k);
    }
  }

  lemma PoolsAllKeep(s: MState, s': MState, hash: Hash, tid: nat, k: nat)
    requires Logged(s, s') && SameHashes(s, s') && PoolsMoved(s, s') && EventsInv(s) && PoolsInv(s)
    requires Standing(s', hash, tid, k)
    ensures HasPool(s', hash, tid)
  {
    var n := |s.history|;
    if k < n {
      StoodBefore(s, s', hash, tid, k);
      assert HasPool(s, hash, tid);
      assert |s'.history| > n ==> !Touches(s'.templates, s'.history[n], hash);
    }
  }

  lemma PoolsKeep(s: MState, step: MStep, s': MState)
    requires LifeInv(s) && HistoryInv(s) && PoolsInv(s) && MDo(s, step) == Some(s')
    ensures PoolsInv(s')
  {
    StepChanges(s, step, s');
    PoolsMove(s, step, s');
    forall hash <- s'.pools ensures exists k: nat :: Standing(s', hash, s'.pools[hash], k) {
      PoolsHeldKeep(s, s', hash);
    }
    forall hash, tid: nat, k: nat | Standing(s', hash, tid, k) ensures HasPool(s', hash, tid) {
      PoolsAllKeep(s, s', hash, tid, k);
    }
  }

  lemma {:induction false} RunPools(states: seq<MState>, steps: seq<MStep>, i: nat)
    requires MRun(states, steps) && i < |states|
    ensures LifeInv(states[i]) && HistoryInv(states[i]) && PoolsInv(states[i])
  {
    RunHistory(states, steps, i);
    if i > 0 {
      RunPools(states, steps, i - 1);
      assert MStepAt(states, steps, i - 1);
      PoolsKeep(states[i - 1], steps[i - 1], states[i]);
    }
  }

  // What the runs of a manager guarantee.

  /** A hash has a template's pool exactly if the template's installation is the last event on it. */
  lemma PoolIsLastInstalled(states: seq<MState>, steps: seq<MStep>, i: nat, hash: Hash, tid: nat)
    requires MRun(states, steps) && i < |states|
    ensures HasPool(states[i], hash, tid) <==> exists k: nat :: Standing(states[i], hash, tid, k)
  {
    RunPools(states, steps, i);
  }

  /** After event `cleared`, an older template than `tid` had its pool installed under the hash. */
  ghost predicate PutBack(s: MState, hash: Hash, tid: nat, cleared: nat) {
    exists older: nat, k: nat :: older < tid && cleared < k && Standing(s, hash, older, k)
  }

  /**
    An initialisation about to let go of the collection: the hash has a pool exactly if, since the
    initialisation removed the pool, an older template's pool was installed; it is never its own.
    */
  lemma PoolAtUnlock(states: seq<MState>, steps: seq<MStep>, i: nat, g: nat)
    requires MRun(states, steps) && i < |states| && g in states[i].calls && states[i].calls[g].InitUnlock?
    ensures var InitUnlock(hash, tid, cleared) := states[i].calls[g];
            hash in states[i].pools <==> PutBack(states[i], hash, tid, cleared)
  {
    RunPools(states, steps, i);
    assert PastOk(states[i].history, g, states[i].calls[g]);
    PoolHere(states[i], g);
  }

  lemma PoolHere(s: MState, g: nat)
    requires PoolsInv(s) && g in s.calls && s.calls[g].InitUnlock?
    requires CallOk(s, g, s.calls[g]) && PastOk(s.history, g, s.calls[g])
    ensures var InitUnlock(hash, tid, cleared) := s.calls[g];
            hash in s.pools <==> PutBack(s, hash, tid, cleared)
  {
    var InitUnlock(hash, tid, cleared) := s.calls[g];
    if hash in s.pools {
      var k: nat :| Standing(s, hash, s.pools[hash], k);
      assert s.history[cleared] == PoolsRemoved({hash});
      assert Touches(s.templates, s.history[cleared], hash);
      assert k > cleared;
      assert s.pools[hash] < tid;
    }
  }

  /** Another call in flight knows an older template of the hash and may still install its pool. */
  predicate OldCall(s: MState, g: nat, hash: Hash, tid: nat, k: nat) {
    && k in s.calls && k != g && HasTemplate(s.calls[k]) && s.calls[k].tid < tid
    && s.calls[k].tid < |s.templates| && s.templates[s.calls[k].tid].hash == hash
  }

  predicate InitAt(s: MState, g: nat, hash: Hash, tid: nat) {
    g in s.calls && Initialising(s.calls[g]) && s.calls[g].hash == hash && s.calls[g].tid == tid
  }

  /** What a call in flight may become, and when it comes to know a template. */
  predicate Follows(a: Call, b: Call, own: bool, unlocked: bool) {
    || a == b
    || (own && Initialising(a) && Initialising(b) && a.hash == b.hash && a.tid == b.tid && (b.InitUnlock? ==> a.InitRemove?))
    || (!Initialising(a) && !Initialising(b) &&
          (HasTemplate(b) ==> (HasTemplate(a) && a.tid == b.tid) || a.ResetLoop? || (a.DiscardPop? && unlocked)))
  }

  /** A step of this initialisation. */
  predicate InitStep(step: MStep, g: nat) {
    (step.CreateReturns? || step.RemoveReturns?) && step.g == g
  }

  ghost predicate CallsMoved(s: MState, step: MStep, s': MState) {
    && s.nextCall <= s'.nextCall
    && forall k <- s'.calls ::
         if k < s.nextCall then k in s.calls && Follows(s.calls[k], s'.calls[k], InitStep(step, k), s.collLock.None?)
         else HasTemplate(s'.calls[k]) ==> s.collLock.None?
  }

  lemma InitialiseMovesCalls(s: MState, step: MStep, s': MState)
    requires CallsInv(s) && DoInitialise(s, step) == Some(s')
    ensures CallsMoved(s, step, s')
  {
  }

  lemma DiscardMovesCalls(s: MState, step: MStep, s': MState)
    requires CallsInv(s) && DoDiscard(s, step) == Some(s')
    ensures CallsMoved(s, step, s')
  {
  }

  lemma ResetMovesCalls(s: MState, step: MStep, s': MState)
    requires CallsInv(s) && DoReset(s, step) == Some(s')
    ensures CallsMoved(s, step, s')
  {
  }

  lemma FinalizeMovesCalls(s: MState, step: MStep, s': MState)
    requires CallsInv(s) && DoFinalize(s, step) == Some(s')
    ensures CallsMoved(s, step, s')
  {
  }

  lemma GetMovesCalls(s: MState, step: MStep, s': MState)
    requires CallsInv(s) && DoGet(s, step) == Some(s')
    ensures CallsMoved(s, step, s')
  {
  }

  lemma CallsMove(s: MState, step: MStep, s': MState)
    requires CallsInv(s) && MDo(s, step) == Some(s')
    ensures CallsMoved(s, step, s')
  {
    if DoInitialise(s, step) == Some(s') {
      InitialiseMovesCalls(s, step, s');
    } else if DoDiscard(s, step) == Some(s') {
      DiscardMovesCalls(s, step, s');
    } else if DoReset(s, step) == Some(s') {
      ResetMovesCalls(s, step, s');
    } else if DoFinalize(s, step) == Some(s') {
      FinalizeMovesCalls(s, step, s');
    } else if DoGet(s, step) == Some(s') {
      GetMovesCalls(s, step, s');
    }
  }

  /** While an initialisation holds the collection, no other call comes to know a template. */
  lemma OldCallWas(s: MState, step: MStep, s': MState, g: nat, hash: Hash, tid: nat, k: nat)
    requires LifeInv(s) && MDo(s, step) == Some(s') && InitAt(s, g, hash, tid)
    requires OldCall(s', g, hash, tid, k)
    ensures OldCall(s, g, hash, tid, k)
  {
    assert CallOk(s, g, s.calls[g]);
    assert k in s.calls ==> CallOk(s, k, s.calls[k]);
    CallsMove(s, step, s');
    OnwardStep(s, step, s', s.calls[k].tid);
  }

  lemma InstallerIsOld(s: MState, step: MStep, s': MState, g: nat, hash: Hash, tid: nat)
    requires LifeInv(s) && MDo(s, step) == Some(s') && InitAt(s, g, hash, tid)
    requires hash !in s.pools && hash in s'.pools
    ensures exists k: nat :: OldCall(s, g, hash, tid, k)
  {
    StepChanges(s, step, s');
    PoolsMove(s, step, s');
    var e := s'.history[|s.history|];
    assert Fits(s, s', e);
    var k :| k in s.calls && Installs(s.calls[k], e.tid);
    assert CallOk(s, g, s.calls[g]) && CallOk(s, k, s.calls[k]);
    assert OldCall(s, g, hash, tid, k);
  }

  lemma CallNumbered(states: seq<MState>, steps: seq<MStep>, i: nat, g: nat)
    requires MRun(states, steps) && i < |states| && g in states[i].calls
    ensures g < states[i].nextCall
  {
    RunHistory(states, steps, i);
  }

  lemma RunCallsMove(states: seq<MState>, steps: seq<MStep>, i: nat)
    requires MRun(states, steps) && i < |steps|
    ensures CallsMoved(states[i], steps[i], states[i + 1])
  {
    RunHistory(states, steps, i);
    assert MStepAt(states, steps, i);
    CallsMove(states[i], steps[i], states[i + 1]);
  }

  lemma {:induction false} NumbersGrow(states: seq<MState>, steps: seq<MStep>, j: nat, i: nat)
    requires MRun(states, steps) && j <= i < |states|
    ensures states[j].nextCall <= states[i].nextCall
  {
    if j < i {
      NumbersGrow(states, steps, j, i - 1);
      RunCallsMove(states, steps, i - 1);
    }
  }

  /** An initialisation still in flight was so all along, with its template. */
  lemma {:induction false} SameCall(states: seq<MState>, steps: seq<MStep>, j: nat, i: nat, g: nat, hash: Hash, tid: nat)
    requires MRun(states, steps) && j <= i < |states| && InitAt(states[j], g, hash, tid) && g in states[i].calls
    ensures InitAt(states[i], g, hash, tid)
    ensures j < i ==> g in states[i - 1].calls
  {
    if j < i {
      CallNumbered(states, steps, j, g);
      NumbersGrow(states, steps, j, i - 1);
      RunCallsMove(states, steps, i - 1);
      SameCall(states, steps, j, i - 1, g, hash, tid);
    }
  }

  lemma {:induction false} OldCallWasThere(states: seq<MState>, steps: seq<MStep>, j: nat, i: nat, g: nat, hash: Hash,
                                           tid: nat, k: nat)
    requires MRun(states, steps) && j <= i < |states| && InitAt(states[j], g, hash, tid) && g in states[i].calls
    requires OldCall(states[i], g, hash, tid, k)
    ensures OldCall(states[j], g, hash, tid, k)
    decreases i
  {
    if j < i {
      SameCall(states, steps, j, i, g, hash, tid);
      SameCall(states, steps, j, i - 1, g, hash, tid);
      OldCallStep(states, steps, i - 1, g, hash, tid, k);
      OldCallWasThere(states, steps, j, i - 1, g, hash, tid, k);
    }
  }

  lemma OldCallStep(states: seq<MState>, steps: seq<MStep>, i: nat, g: nat, hash: Hash, tid: nat, k: nat)
    requires MRun(states, steps) && i < |steps| && InitAt(states[i], g, hash, tid)
    requires OldCall(states[i + 1], g, hash, tid, k)
    ensures OldCall(states[i], g, hash, tid, k)
  {
    RunHistory(states, steps, i);
    assert MStepAt(states, steps, i);
    OldCallWas(states[i], steps[i], states[i + 1], g, hash, tid, k);
  }

  /** At the unlock a pool is new, or was there one step before, with the initialisation as far. */
  lemma PoolCame(states: seq<MState>, steps: seq<MStep>, i: nat, g: nat, hash: Hash, tid: nat)
    requires MRun(states, steps) && i < |steps| && InitAt(states[i], g, hash, tid)
    requires g in states[i + 1].calls && states[i + 1].calls[g].InitUnlock? && hash in states[i + 1].pools
    ensures states[i].calls[g].InitUnlock?
    ensures hash in states[i].pools || exists k: nat :: OldCall(states[i], g, hash, tid, k)
  {
    RunHistory(states, steps, i);
    assert MStepAt(states, steps, i);
    if !states[i].calls[g].InitUnlock? {
      RunCallsMove(states, steps, i);
      CallNumbered(states, steps, i, g);
      UnlockStep(states[i], steps[i], states[i + 1], g);
    }
    if hash !in states[i].pools {
      InstallerIsOld(states[i], steps[i], states[i + 1], g, hash, tid);
    }
  }

  /** Only the removal of the pool leads to the unlock. */
  lemma UnlockStep(s: MState, step: MStep, s': MState, g: nat)
    requires MDo(s, step) == Some(s') && CallsMoved(s, step, s') && g in s.calls && g < s.nextCall && s.calls[g].InitRemove?
    requires g in s'.calls && s'.calls[g].InitUnlock?
    ensures s.calls[g].hash !in s'.pools
  {
  }

  /**
    What can be known beforehand: if no call in flight knows an older template of the hash while the
    initialisation has yet to remove the pool, there is none when it lets go of the collection.
    */
  lemma {:induction false} NoOldCallNoPool(states: seq<MState>, steps: seq<MStep>, j: nat, i: nat, g: nat, hash: Hash,
                                           tid: nat)
    requires MRun(states, steps) && j <= i < |states|
    requires InitAt(states[j], g, hash, tid) && !states[j].calls[g].InitUnlock?
    requires forall k: nat :: !OldCall(states[j], g, hash, tid, k)
    requires g in states[i].calls && states[i].calls[g].InitUnlock?
    ensures hash !in states[i].pools
    decreases i
  {
    SameCall(states, steps, j, i, g, hash, tid);
    SameCall(states, steps, j, i - 1, g, hash, tid);
    if hash in states[i].pools {
      PoolCame(states, steps, i - 1, g, hash, tid);
      if hash in states[i - 1].pools {
        NoOldCallNoPool(states, steps, j, i - 1, g, hash, tid);
      } else {
        var k: nat :| OldCall(states[i - 1], g, hash, tid, k);
        OldCallWasThere(states, steps, j, i - 1, g, hash, tid, k);
      }
    }
  }

  // The failing case.

  function InstallStep(call: Call, k: nat): (r: MStep) {
    if call.FinalizePool? then InstallPool(k) else Reinstall(k)
  }

  /** An older call that is about to install its pool can do so between the removal and the unlock. */
  lemma OldCallPutsBack(s: MState, g: nat, hash: Hash, tid: nat, k: nat, older: nat) returns (t: MState)
    requires LifeInv(s) && g in s.calls && s.calls[g] == InitRemove(hash, tid)
    requires k in s.calls && Installs(s.calls[k], older) && s.templates[older].hash == hash
    ensures MExec(s, [RemoveReturns(g, true), InstallStep(s.calls[k], k), InitReturns(g)]) == Some(t)
    ensures t.collLock.None? && t.templates == s.templates && s.templates[tid] == Template(hash, Init, None)
    ensures t.coll == s.coll && InCollection(s, hash, tid) && t.pools == s.pools[hash := older] && older < tid
    ensures t.history != [] && t.history[|t.history| - 1] == Initialised(hash, tid)
  {
    var call := s.calls[k];
    OlderIsLess(s, g, hash, tid, k, older);
    var u := Clears(s, g, hash, tid);
    assert u.calls[k] == call;
    var v := PutsBack(u, k, call);
    t := LetsGo(v, g);
    ThreeSteps(s, RemoveReturns(g, true), u, InstallStep(call, k), v, InitReturns(g), t);
    PutOver(s.pools, hash, older);
  }

  lemma PutOver(pools: map<Hash, nat>, hash: Hash, tid: nat)
    ensures (pools - {hash})[hash := tid] == pools[hash := tid]
  {
  }

  lemma OlderIsLess(s: MState, g: nat, hash: Hash, tid: nat, k: nat, older: nat)
    requires LifeInv(s) && g in s.calls && s.calls[g] == InitRemove(hash, tid)
    requires k in s.calls && Installs(s.calls[k], older)
    ensures older < tid < |s.templates| && s.templates[tid] == Template(hash, Init, None) && InCollection(s, hash, tid)
    ensures k != g
  {
    assert CallOk(s, g, s.calls[g]) && CallOk(s, k, s.calls[k]);
  }

  lemma Clears(s: MState, g: nat, hash: Hash, tid: nat) returns (u: MState)
    requires g in s.calls && s.calls[g] == InitRemove(hash, tid)
    ensures MDo(s, RemoveReturns(g, true)) == Some(u)
    ensures u.templates == s.templates && u.coll == s.coll && u.pools == s.pools - {hash}
    ensures u.calls == s.calls[g := InitUnlock(hash, tid, |s.history|)]
  {
    u := MDo(s, RemoveReturns(g, true)).value;
  }

  lemma LetsGo(v: MState, g: nat) returns (t: MState)
    requires g in v.calls && v.calls[g].InitUnlock?
    ensures MDo(v, InitReturns(g)) == Some(t)
    ensures t.collLock.None? && t.templates == v.templates && t.coll == v.coll && t.pools == v.pools
    ensures t.history == v.history + [Initialised(v.calls[g].hash, v.calls[g].tid)]
  {
    t := MDo(v, InitReturns(g)).value;
  }

  lemma PutsBack(u: MState, k: nat, call: Call) returns (v: MState)
    requires k in u.calls && u.calls[k] == call && (call.FinalizePool? || call.GetInstall?) && call.tid < |u.templates|
    ensures MDo(u, InstallStep(call, k)) == Some(v)
    ensures v.pools == u.pools[u.templates[call.tid].hash := call.tid]
    ensures v.templates == u.templates && v.coll == u.coll && v.calls.Keys == u.calls.Keys
    ensures forall g <- u.calls :: g != k ==> v.calls[g] == u.calls[g]
  {
    v := MDo(u, InstallStep(call, k)).value;
  }

  lemma {:induction false} KeepsLife(s: MState, steps: seq<MStep>, t: MState)
    requires LifeInv(s) && MExec(s, steps) == Some(t)
    ensures LifeInv(t)
    decreases |steps|
  {
    if steps != [] {
      var u := MDo(s, steps[0]).value;
      LifeKeeps(s, steps[0], u);
      KeepsLife(u, steps[1..], t);
    }
  }

  /** Consecutive steps from a fresh manager are a run. */
  lemma MExecIsRun(steps: seq<MStep>, t: MState) returns (states: seq<MState>)
    requires MExec(Fresh, steps) == Some(t)
    ensures MRun(states, steps) && states[|steps|] == t
  {
    var f := (x, y) => MDo(x, y);
    MExecIsChain(Fresh, steps, f);
    states := ChainStates(f, Fresh, steps, t);
    forall i: nat ensures MStepAt(states, steps, i) {
    }
  }

  /** A template is initialised and finalised, and a get on it has passed the gate. */
  lemma PassedGate(h: Hash) returns (s: MState, steps: seq<MStep>)
    ensures MExec(Fresh, steps) == Some(s)
    ensures s.templates == [Template(h, Finalized, None)] && s.coll == map[h := 0] && s.collLock.None?
    ensures s.pools == map[h := 0] && s.calls == map[2 := GetPool(0)] && s.nextCall == 3
  {
    var a := Completed(Fresh, h);
    InitialiseRuns(Fresh, h, true);
    assert a.coll == map[h := 0] && a.calls == map[] && a.nextCall == 1 && a.templates == [Template(h, Init, None)];
    var b := FinalizeRuns(a, h);
    assert b.templates == [Template(h, Finalized, None)] && b.calls == map[] && b.nextCall == 2;
    assert b.pools == map[h := 0];
    GetBegins(b, h);
    s := AfterRead(b, 0);
    var first, second, third := InitialiseTrace(Fresh, h, true, true), FinalizeTrace(a, h), [BeginGet(h), ReadState(2)];
    MExecConcat(a, second, third, b);
    MExecConcat(Fresh, first, second + third, a);
    steps := first + (second + third);
  }

  /** Then the template is discarded up to the pop, and the get finds its pool gone. */
  lemma FoundNoPool(h: Hash, s: MState) returns (t: MState, steps: seq<MStep>)
    requires s.templates == [Template(h, Finalized, None)] && s.coll == map[h := 0] && s.collLock.None?
    requires s.pools == map[h := 0] && s.calls == map[2 := GetPool(0)] && s.nextCall == 3
    ensures MExec(s, steps) == Some(t)
    ensures t.templates == s.templates && t.coll == map[] && t.pools == map[] && t.collLock.None? && t.nextCall == 4
    ensures t.calls == map[2 := GetInstall(0), 3 := DiscardSet(0)]
  {
    var u := Unpooled(s, h);
    var v := Goto(u, 2, GetInstall(0));
    assert v.calls == map[2 := GetInstall(0), 3 := DiscardPop(h)] && v.coll == map[h := 0];
    t := MDo(v, Pop(3)).value;
    assert t.coll == map[];
    steps := [BeginDiscard(h, true), UsePool(2), Pop(3)];
    assert MDo(s, BeginDiscard(h, true)) == Some(u);
    assert MDo(u, UsePool(2)) == Some(v);
    ThreeSteps(s, BeginDiscard(h, true), u, UsePool(2), v, Pop(3), t);
  }

  /** And the hash is initialised again, up to the removal of its pool. */
  lemma InitialisesAgain(h: Hash, t: MState) returns (u: MState, steps: seq<MStep>)
    requires |t.templates| == 1 && t.coll == map[] && t.pools == map[] && t.collLock.None? && t.nextCall == 4
    requires t.calls == map[2 := GetInstall(0), 3 := DiscardSet(0)]
    ensures MExec(t, steps) == Some(u) && u.templates == t.templates + [Template(h, Init, None)]
    ensures u.coll == map[h := 1] && u.pools == map[]
    ensures 4 in u.calls && u.calls[4] == InitRemove(h, 1) && 2 in u.calls && u.calls[2] == GetInstall(0)
  {
    u := During(t, h, InitRemove(h, 1));
    Begins(t, h);
    Creates(t, h);
    steps := [BeginInit(h), CreateReturns(4, true)];
    TwoSteps(t, BeginInit(h), During(t, h, InitCreate(h, 1)), CreateReturns(4, true), u);
  }

  lemma BeforeTheRace(h: Hash) returns (u: MState, steps: seq<MStep>)
    ensures MExec(Fresh, steps) == Some(u) && LifeInv(u)
    ensures |u.templates| == 2 && u.templates[0].hash == h && u.coll == map[h := 1] && u.pools == map[]
    ensures 4 in u.calls && u.calls[4] == InitRemove(h, 1) && 2 in u.calls && u.calls[2] == GetInstall(0)
  {
    var s, first := PassedGate(h);
    var t, second := FoundNoPool(h, s);
    var third;
    u, third := InitialisesAgain(h, t);
    MExecConcat(s, second, third, t);
    MExecConcat(Fresh, first, second + third, s);
    steps := first + (second + third);
    KeepsLife(Fresh, steps, u);
  }

  /**
    A run in which an initialisation succeeds and leaves a pool of the discarded template: the get of
    an earlier call puts it back between the removal of the pool and the release of the collection.
    */
  lemma StalePoolAfterInitialise(h: Hash) returns (states: seq<MState>, steps: seq<MStep>)
    ensures MRun(states, steps)
    ensures var last := states[|steps|];
            && last.history != [] && last.history[|last.history| - 1] == Initialised(h, 1)
            && last.collLock.None? && last.coll == map[h := 1] && last.pools == map[h := 0]
            && |last.templates| == 2 && last.templates[1] == Template(h, Init, None)
  {
    var u, first := BeforeTheRace(h);
    var end := OldCallPutsBack(u, 4, h, 1, 2, 0);
    var race := [RemoveReturns(4, true), Reinstall(2), InitReturns(4)];
    MExecConcat(Fresh, first, race, u);
    steps := first + race;
    states := MExecIsRun(steps, end);
  }
}
