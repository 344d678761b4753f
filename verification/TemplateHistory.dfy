/**
  What the history of a manager says in every interleaving: each template is finalised at most once
  and after its pool was installed, and successful initialisations of a hash are separated by the
  removal of its template.
  */
module TemplateHistory {
  import opened Queues
  import opened ManagerMachine
  import opened TemplateLifecycle

  ghost predicate Happened(h: seq<MEvent>, e: MEvent) {
    exists k: nat :: k < |h| && h[k] == e
  }

  /** The pool was installed, and later the template finalised. */
  ghost predicate ReadyFor(h: seq<MEvent>, tid: nat) {
    exists m: nat, k: nat :: m < k < |h| && h[m] == PoolInstalled(tid) && h[k] == Finalised(tid)
  }

  ghost predicate RemovedBetween(h: seq<MEvent>, i: nat, j: nat, hash: Hash, tid: nat) {
    exists k: nat :: i < k < j && k < |h| && h[k] == Removed(hash, tid)
  }

  predicate EventOk(s: MState, e: MEvent) {
    match e
    case Called(g) => g < s.nextCall
    case Finalised(tid) => tid < |s.templates| && s.templates[tid].state != Init
    case DiscardedT(tid) => tid < |s.templates| && s.templates[tid].state == Discarded
    case PoolsRemoved(_) => true
    case _ => e.tid < |s.templates|
  }

  predicate EventsInv(s: MState) {
    forall k: nat :: k < |s.history| ==> EventOk(s, s.history[k])
  }

  predicate FinalisedOnce(h: seq<MEvent>) {
    forall i: nat, j: nat :: i < j < |h| && h[i].Finalised? ==> h[i] != h[j]
  }

  ghost predicate StateInv(s: MState) {
    forall tid: nat :: tid < |s.templates| ==> StateOk(s.history, tid, s.templates[tid].state)
  }

  ghost predicate StateOk(h: seq<MEvent>, tid: nat, state: TemplateState) {
    && (state == Finalized ==> ReadyFor(h, tid))
    && (state == Discarded ==> Happened(h, DiscardedT(tid)))
  }

  ghost predicate PastOk(h: seq<MEvent>, g: nat, call: Call) {
    && (call.FinalizeSet? ==> Happened(h, PoolInstalled(call.tid)))
    && (call.GetRead? || call.GetSleep? ==> call.began < |h| && h[call.began] == Called(g))
    && (Initialising(call) ==> !Happened(h, Initialised(call.hash, call.tid)) && !Happened(h, PoolInstalled(call.tid)))
    && (call.InitUnlock? ==> call.cleared < |h| && h[call.cleared] == PoolsRemoved({call.hash}))
  }

  ghost predicate PastInv(s: MState) {
    forall g <- s.calls :: PastOk(s.history, g, s.calls[g])
  }

  predicate InCollection(s: MState, hash: Hash, tid: nat) {
    hash in s.coll && s.coll[hash] == tid
  }

  /** A template successfully initialised is in the collection until it is removed. */
  ghost predicate KeptInv(s: MState) {
    forall i: nat :: i < |s.history| && s.history[i].Initialised? ==>
      || InCollection(s, s.history[i].hash, s.history[i].tid)
      || RemovedBetween(s.history, i, |s.history|, s.history[i].hash, s.history[i].tid)
  }

  ghost predicate Separated(h: seq<MEvent>) {
    forall i: nat, j: nat :: i < j < |h| && h[i].Initialised? && h[j].Initialised? && h[i].hash == h[j].hash ==>
      RemovedBetween(h, i, j, h[i].hash, h[i].tid)
  }

  ghost predicate HistoryInv(s: MState) {
    EventsInv(s) && FinalisedOnce(s.history) && StateInv(s) && PastInv(s) && KeptInv(s) && Separated(s.history)
  }

  /** When a step may log the event. */
  ghost predicate Fits(s: MState, s': MState, e: MEvent) {
    match e
    case Initialised(hash, tid) => tid < |s.templates| && exists g <- s.calls :: Unlocks(s.calls[g], hash, tid)
    case Removed(hash, tid) => tid < |s.templates| && InCollection(s, hash, tid)
    case Finalised(tid) =>
      && tid < |s.templates| <= |s'.templates| && s.templates[tid].state == Init
      && s'.templates[tid].state == Finalized
      && exists g <- s.calls :: s.calls[g] == FinalizeSet(tid)
    case DiscardedT(tid) => tid < |s.templates| <= |s'.templates| && s'.templates[tid].state == Discarded
    case Called(g) => g < s'.nextCall
    case GatePassed(g, tid, began) =>
      && tid < |s.templates| && s.templates[tid].state == Finalized
      && (At(s, g, GetRead(tid, began)) || At(s, g, GetSleep(tid, began)))
    case Pushed(_, tid) => tid < |s'.templates|
    case PoolInstalled(tid) => tid < |s.templates| && exists g <- s.calls :: Installs(s.calls[g], tid)
    case PoolsRemoved(_) => true
  }

  predicate Unlocks(call: Call, hash: Hash, tid: nat) {
    call.InitUnlock? && call.hash == hash && call.tid == tid
  }

  /** A finalisation, or a get past the gate, about to install a pool for its template. */
  predicate Installs(call: Call, tid: nat) {
    call == FinalizePool(tid) || call == GetInstall(tid)
  }

  ghost predicate Logged(s: MState, s': MState) {
    && |s.history| <= |s'.history| <= |s.history| + 1
    && s'.history[..|s.history|] == s.history
    && |s.templates| <= |s'.templates|
    && s.nextCall <= s'.nextCall
  }

  ghost predicate AllFit(s: MState, s': MState) {
    forall k: nat :: |s.history| <= k < |s'.history| ==> Fits(s, s', s'.history[k])
  }

  /** How a state may change, and which event must then be logged. */
  ghost predicate Moved(s: MState, s': MState, tid: nat)
    requires tid < |s.templates| <= |s'.templates|
  {
    var a, b := s.templates[tid].state, s'.templates[tid].state;
    || a == b
    || (a == Init && b == Finalized && |s'.history| == |s.history| + 1 && s'.history[|s.history|] == Finalised(tid))
    || (b == Discarded && |s.history| < |s'.history| && s'.history[|s.history|] == DiscardedT(tid))
  }

  /** Where a call's memory of the past comes from: the call before the step, or the step's event. */
  ghost predicate Remembers(s: MState, s': MState, g: nat, call: Call) {
    && (call.FinalizeSet? ==>
          At(s, g, call) || (|s'.history| == |s.history| + 1 && s'.history[|s.history|] == PoolInstalled(call.tid)))
    && (call.GetRead? || call.GetSleep? ==>
          || (g in s.calls && s.calls[g].GetRead? && s.calls[g].began == call.began)
          || At(s, g, call)
          || (call.began == |s.history| < |s'.history| && s'.history[|s.history|] == Called(g)))
    && (Initialising(call) ==>
          || (g in s.calls && Initialising(s.calls[g]) && s.calls[g].hash == call.hash && s.calls[g].tid == call.tid)
          || call.tid == |s.templates|)
    && (call.InitUnlock? ==>
          || At(s, g, call)
          || (call.cleared == |s.history| < |s'.history| && s'.history[|s.history|] == PoolsRemoved({call.hash})))
  }

  ghost predicate AllMoved(s: MState, s': MState) {
    && |s.templates| <= |s'.templates|
    && (forall tid: nat :: tid < |s.templates| ==> Moved(s, s', tid) && s'.templates[tid].hash == s.templates[tid].hash)
    && (forall tid: nat :: |s.templates| <= tid < |s'.templates| ==> s'.templates[tid].state == Init)
  }

  /** A template leaves the collection only with its removal as the step's last event. */
  ghost predicate AllKept(s: MState, s': MState) {
    forall h <- s.coll :: InCollection(s', h, s.coll[h]) ||
      (|s.history| < |s'.history| && s'.history[|s'.history| - 1] == Removed(h, s.coll[h]))
  }

  ghost predicate AllRemember(s: MState, s': MState) {
    && (forall g <- s'.calls :: Remembers(s, s', g, s'.calls[g]))
    && (|s.history| < |s'.history| && s'.history[|s.history|].Initialised? ==> s'.collLock.None?)
  }

  lemma AnswerLogs(s: MState, step: MStep, s': MState)
    requires LifeInv(s) && DoInitialise(s, step) == Some(s') && (step.CreateReturns? || step.RemoveReturns?)
    ensures Logged(s, s') && AllFit(s, s')
  {
    assert CallOk(s, step.g, s.calls[step.g]);
  }

  lemma InitialiseLogs(s: MState, step: MStep, s': MState)
    requires LifeInv(s) && DoInitialise(s, step) == Some(s')
    ensures Logged(s, s') && AllFit(s, s')
  {
    match step
    case CreateReturns(_, _) | RemoveReturns(_, _) => AnswerLogs(s, step, s');
    case _ =>
  }

  lemma InitialiseMoves(s: MState, step: MStep, s': MState)
    requires LifeInv(s) && DoInitialise(s, step) == Some(s')
    ensures AllMoved(s, s')
  {
  }

  lemma InitialiseTracks(s: MState, step: MStep, s': MState)
    requires LifeInv(s) && DoInitialise(s, step) == Some(s')
    ensures AllKept(s, s')
  {
  }

  lemma InitialiseRemembers(s: MState, step: MStep, s': MState)
    requires LifeInv(s) && DoInitialise(s, step) == Some(s')
    ensures AllRemember(s, s')
  {
  }

  lemma DiscardLogs(s: MState, step: MStep, s': MState)
    requires LifeInv(s) && DoDiscard(s, step) == Some(s')
    ensures Logged(s, s') && AllFit(s, s')
  {
  }

  lemma DiscardMoves(s: MState, step: MStep, s': MState)
    requires LifeInv(s) && DoDiscard(s, step) == Some(s')
    ensures AllMoved(s, s')
  {
  }

  lemma DiscardTracks(s: MState, step: MStep, s': MState)
    requires LifeInv(s) && DoDiscard(s, step) == Some(s')
    ensures AllKept(s, s')
  {
  }

  lemma DiscardRemembers(s: MState, step: MStep, s': MState)
    requires LifeInv(s) && DoDiscard(s, step) == Some(s')
    ensures AllRemember(s, s')
  {
  }

  lemma ResetLogs(s: MState, step: MStep, s': MState)
    requires LifeInv(s) && DoReset(s, step) == Some(s')
    ensures Logged(s, s') && AllFit(s, s')
  {
  }

  lemma ResetMoves(s: MState, step: MStep, s': MState)
    requires LifeInv(s) && DoReset(s, step) == Some(s')
    ensures AllMoved(s, s')
  {
  }

  lemma ResetTracks(s: MState, step: MStep, s': MState)
    requires LifeInv(s) && DoReset(s, step) == Some(s')
    ensures AllKept(s, s')
  {
  }

  lemma ResetRemembers(s: MState, step: MStep, s': MState)
    requires LifeInv(s) && DoReset(s, step) == Some(s')
    ensures AllRemember(s, s')
  {
  }

  lemma FinalizeLogs(s: MState, step: MStep, s': MState)
    requires LifeInv(s) && DoFinalize(s, step) == Some(s')
    ensures Logged(s, s') && AllFit(s, s')
  {
  }

  lemma FinalizeMoves(s: MState, step: MStep, s': MState)
    requires LifeInv(s) && DoFinalize(s, step) == Some(s')
    ensures AllMoved(s, s')
  {
  }

  lemma FinalizeTracks(s: MState, step: MStep, s': MState)
    requires LifeInv(s) && DoFinalize(s, step) == Some(s')
    ensures AllKept(s, s')
  {
  }

  lemma FinalizeRemembers(s: MState, step: MStep, s': MState)
    requires LifeInv(s) && DoFinalize(s, step) == Some(s')
    ensures AllRemember(s, s')
  {
  }

  lemma GetGateLogs(s: MState, step: MStep, s': MState)
    requires DoGet(s, step) == Some(s') && (step.ReadState? || step.WakeUp? || step.TimeOut?)
    ensures Logged(s, s') && AllFit(s, s')
  {
  }

  lemma GetPoolLogs(s: MState, step: MStep, s': MState)
    requires DoGet(s, step) == Some(s') && (step.UsePool? || step.Reinstall? || step.UseAgain?)
    ensures Logged(s, s') && AllFit(s, s')
  {
  }

  lemma GetLogs(s: MState, step: MStep, s': MState)
    requires DoGet(s, step) == Some(s')
    ensures Logged(s, s') && AllFit(s, s')
  {
    match step
    case BeginGet(_) =>
    case ReadState(_) | WakeUp(_) | TimeOut(_) => GetGateLogs(s, step, s');
    case _ => GetPoolLogs(s, step, s');
  }

  lemma GetMoves(s: MState, step: MStep, s': MState)
    requires LifeInv(s) && DoGet(s, step) == Some(s')
    ensures AllMoved(s, s')
  {
  }

  lemma GetTracks(s: MState, step: MStep, s': MState)
    requires LifeInv(s) && DoGet(s, step) == Some(s')
    ensures AllKept(s, s')
  {
  }

  lemma GetBeginRemembers(s: MState, hash: Hash, s': MState)
    requires DoGet(s, BeginGet(hash)) == Some(s')
    ensures AllRemember(s, s')
  {
  }

  lemma GetGateRemembers(s: MState, step: MStep, s': MState)
    requires DoGet(s, step) == Some(s') && (step.ReadState? || step.WakeUp? || step.TimeOut?)
    ensures AllRemember(s, s')
  {
  }

  lemma GetPoolRemembers(s: MState, step: MStep, s': MState)
    requires DoGet(s, step) == Some(s') && (step.UsePool? || step.Reinstall? || step.UseAgain?)
    ensures AllRemember(s, s')
  {
  }

  lemma GetRemembers(s: MState, step: MStep, s': MState)
    requires DoGet(s, step) == Some(s')
    ensures AllRemember(s, s')
  {
    match step
    case BeginGet(hash) => GetBeginRemembers(s, hash, s');
    case ReadState(_) | WakeUp(_) | TimeOut(_) => GetGateRemembers(s, step, s');
    case _ => GetPoolRemembers(s, step, s');
  }

  lemma StepChanges(s: MState, step: MStep, s': MState)
    requires LifeInv(s) && MDo(s, step) == Some(s')
    ensures Logged(s, s') && AllFit(s, s') && AllMoved(s, s')
  {
    if DoInitialise(s, step) == Some(s') {
      InitialiseLogs(s, step, s');
      InitialiseMoves(s, step, s');
    } else if DoDiscard(s, step) == Some(s') {
      DiscardLogs(s, step, s');
      DiscardMoves(s, step, s');
    } else if DoReset(s, step) == Some(s') {
      ResetLogs(s, step, s');
      ResetMoves(s, step, s');
    } else if DoFinalize(s, step) == Some(s') {
      FinalizeLogs(s, step, s');
      FinalizeMoves(s, step, s');
    } else if DoGet(s, step) == Some(s') {
      GetLogs(s, step, s');
      GetMoves(s, step, s');
    }
  }

  lemma StepTracks(s: MState, step: MStep, s': MState)
    requires LifeInv(s) && MDo(s, step) == Some(s')
    ensures AllKept(s, s') && AllRemember(s, s')
  {
    if DoInitialise(s, step) == Some(s') {
      InitialiseTracks(s, step, s');
      InitialiseRemembers(s, step, s');
    } else if DoDiscard(s, step) == Some(s') {
      DiscardTracks(s, step, s');
      DiscardRemembers(s, step, s');
    } else if DoReset(s, step) == Some(s') {
      ResetTracks(s, step, s');
      ResetRemembers(s, step, s');
    } else if DoFinalize(s, step) == Some(s') {
      FinalizeTracks(s, step, s');
      FinalizeRemembers(s, step, s');
    } else if DoGet(s, step) == Some(s') {
      GetTracks(s, step, s');
      GetRemembers(s, step, s');
    }
  }

  lemma EventsKeep(s: MState, s': MState)
    requires Logged(s, s') && AllFit(s, s') && EventsInv(s) && FinalisedOnce(s.history)
    requires AllMoved(s, s')
    ensures EventsInv(s') && FinalisedOnce(s'.history)
  {
    forall k: nat | k < |s'.history| ensures EventOk(s', s'.history[k]) {
      if k < |s.history| {
        var e := s.history[k];
        assert s'.history[k] == e && EventOk(s, e);
        assert e.Finalised? || e.DiscardedT? ==> Moved(s, s', e.tid);
      } else {
        assert Fits(s, s', s'.history[k]);
      }
    }
    forall i: nat, j: nat | i < j < |s'.history| && s'.history[i].Finalised? ensures s'.history[i] != s'.history[j] {
      if j < |s.history| {
        assert s'.history[i] == s.history[i] && s'.history[j] == s.history[j];
      } else if i < |s.history| {
        assert s'.history[i] == s.history[i] && EventOk(s, s.history[i]);
      }
    }
  }

  lemma ReadyStays(h: seq<MEvent>, h': seq<MEvent>, tid: nat)
    requires |h| <= |h'| && h'[..|h|] == h && ReadyFor(h, tid)
    ensures ReadyFor(h', tid)
  {
    var m: nat, k: nat :| m < k < |h| && h[m] == PoolInstalled(tid) && h[k] == Finalised(tid);
    assert h'[m] == h[m] && h'[k] == h[k];
  }

  lemma HappenedStays(h: seq<MEvent>, h': seq<MEvent>, e: MEvent)
    requires |h| <= |h'| && h'[..|h|] == h && Happened(h, e)
    ensures Happened(h', e)
  {
    var k: nat :| k < |h| && h[k] == e;
    assert h'[k] == h[k];
  }

  lemma StatesKeep(s: MState, s': MState)
    requires Logged(s, s') && AllFit(s, s') && StateInv(s) && PastInv(s)
    requires AllMoved(s, s')
    ensures StateInv(s')
  {
    forall tid: nat | tid < |s'.templates| ensures StateOk(s'.history, tid, s'.templates[tid].state) {
      if tid < |s.templates| {
        StateKeeps(s, s', tid);
      }
    }
  }

  lemma StateKeeps(s: MState, s': MState, tid: nat)
    requires Logged(s, s') && AllFit(s, s') && StateInv(s) && PastInv(s)
    requires tid < |s.templates| && Moved(s, s', tid)
    ensures StateOk(s'.history, tid, s'.templates[tid].state)
  {
    var n := |s.history|;
    assert StateOk(s.history, tid, s.templates[tid].state);
    if s.templates[tid].state == s'.templates[tid].state {
      if ReadyFor(s.history, tid) { ReadyStays(s.history, s'.history, tid); }
      if Happened(s.history, DiscardedT(tid)) { HappenedStays(s.history, s'.history, DiscardedT(tid)); }
    } else if s'.templates[tid].state == Finalized {
      assert Fits(s, s', s'.history[n]);
      var g :| g in s.calls && s.calls[g] == FinalizeSet(tid);
      assert PastOk(s.history, g, s.calls[g]);
      var m: nat :| m < n && s.history[m] == PoolInstalled(tid);
      assert s'.history[m] == s.history[m];
    }
  }

  lemma PastKeeps(s: MState, s': MState)
    requires LifeInv(s) && LifeInv(s') && Logged(s, s') && AllFit(s, s') && EventsInv(s) && PastInv(s)
    requires AllRemember(s, s')
    ensures PastInv(s')
  {
    forall g <- s'.calls ensures PastOk(s'.history, g, s'.calls[g]) {
      PastKeepsOne(s, s', g);
    }
  }

  lemma PastKeepsOne(s: MState, s': MState, g: nat)
    requires LifeInv(s) && LifeInv(s') && Logged(s, s') && AllFit(s, s') && EventsInv(s) && PastInv(s)
    requires g in s'.calls && Remembers(s, s', g, s'.calls[g])
    requires |s.history| < |s'.history| && s'.history[|s.history|].Initialised? ==> s'.collLock.None?
    ensures PastOk(s'.history, g, s'.calls[g])
  {
    var call := s'.calls[g];
    assert g in s.calls ==> PastOk(s.history, g, s.calls[g]);
    if call.FinalizeSet? && At(s, g, call) {
      HappenedStays(s.history, s'.history, PoolInstalled(call.tid));
    } else if Initialising(call) {
      NotYet(s, s', g);
    }
  }

  lemma NotYet(s: MState, s': MState, g: nat)
    requires LifeInv(s) && LifeInv(s') && Logged(s, s') && AllFit(s, s') && EventsInv(s) && PastInv(s)
    requires g in s'.calls && Initialising(s'.calls[g]) && Remembers(s, s', g, s'.calls[g])
    requires |s.history| < |s'.history| && s'.history[|s.history|].Initialised? ==> s'.collLock.None?
    ensures !Happened(s'.history, Initialised(s'.calls[g].hash, s'.calls[g].tid))
    ensures !Happened(s'.history, PoolInstalled(s'.calls[g].tid))
  {
    var call, n := s'.calls[g], |s.history|;
    assert CallOk(s', g, call);
    assert g in s.calls ==> PastOk(s.history, g, s.calls[g]) && CallOk(s, g, s.calls[g]);
    forall k: nat | k < |s'.history|
      ensures s'.history[k] != Initialised(call.hash, call.tid) && s'.history[k] != PoolInstalled(call.tid)
    {
      if k < n {
        assert s'.history[k] == s.history[k] && EventOk(s, s.history[k]);
      } else {
        assert Fits(s, s', s'.history[k]);
      }
    }
  }

  lemma KeptKeeps(s: MState, s': MState)
    requires LifeInv(s) && Logged(s, s') && AllFit(s, s') && KeptInv(s)
    requires AllKept(s, s')
    ensures KeptInv(s')
  {
    var n := |s.history|;
    forall i: nat | i < |s'.history| && s'.history[i].Initialised?
      ensures || InCollection(s', s'.history[i].hash, s'.history[i].tid)
              || RemovedBetween(s'.history, i, |s'.history|, s'.history[i].hash, s'.history[i].tid)
    {
      var h, t := s'.history[i].hash, s'.history[i].tid;
      if i < n {
        assert s'.history[i] == s.history[i];
        if !InCollection(s, h, t) {
          var k: nat :| i < k < n && s.history[k] == Removed(h, t);
          assert s'.history[k] == s.history[k];
        }
      } else {
        assert Fits(s, s', s'.history[i]);
        var g :| g in s.calls && Unlocks(s.calls[g], h, t);
        assert CallOk(s, g, s.calls[g]);
      }
    }
  }

  lemma SeparatedKeeps(s: MState, s': MState)
    requires LifeInv(s) && Logged(s, s') && AllFit(s, s') && PastInv(s) && KeptInv(s) && Separated(s.history)
    ensures Separated(s'.history)
  {
    var n := |s.history|;
    forall i: nat, j: nat | i < j < |s'.history| && s'.history[i].Initialised? && s'.history[j].Initialised?
                            && s'.history[i].hash == s'.history[j].hash
      ensures RemovedBetween(s'.history, i, j, s'.history[i].hash, s'.history[i].tid)
    {
      assert j >= n ==> j == n;
      assert s'.history[i] == s.history[i];
      var h, t := s'.history[i].hash, s'.history[i].tid;
      if j == n {
        assert Fits(s, s', s'.history[j]);
        var g :| g in s.calls && Unlocks(s.calls[g], h, s'.history[j].tid);
        assert CallOk(s, g, s.calls[g]) && PastOk(s.history, g, s.calls[g]);
        assert !InCollection(s, h, t);
      } else {
        assert s'.history[j] == s.history[j];
      }
      var k: nat :| i < k < j && k < n && s.history[k] == Removed(h, t);
      assert s'.history[k] == s.history[k];
    }
  }

  lemma HistoryKeeps(s: MState, step: MStep, s': MState)
    requires LifeInv(s) && HistoryInv(s) && MDo(s, step) == Some(s')
    ensures LifeInv(s') && HistoryInv(s')
  {
    LifeKeeps(s, step, s');
    StepChanges(s, step, s');
    StepTracks(s, step, s');
    EventsKeep(s, s');
    StatesKeep(s, s');
    PastKeeps(s, s');
    KeptKeeps(s, s');
    SeparatedKeeps(s, s');
  }

  lemma {:induction false} RunHistory(states: seq<MState>, steps: seq<MStep>, i: nat)
    requires MRun(states, steps) && i < |states|
    ensures LifeInv(states[i]) && HistoryInv(states[i])
  {
    if i > 0 {
      RunHistory(states, steps, i - 1);
      assert MStepAt(states, steps, i - 1);
      HistoryKeeps(states[i - 1], steps[i - 1], states[i]);
    }
  }

  // What the runs of a manager guarantee.

  /** Same state, or a move from init to finalised, or from either of them to discarded. */
  predicate Onward(a: TemplateState, b: TemplateState) {
    a == b || (a == Init && b == Finalized) || (a != Discarded && b == Discarded)
  }

  lemma OnwardStep(s: MState, step: MStep, s': MState, tid: nat)
    requires LifeInv(s) && MDo(s, step) == Some(s') && tid < |s.templates|
    ensures tid < |s'.templates| && s'.templates[tid].hash == s.templates[tid].hash
    ensures Onward(s.templates[tid].state, s'.templates[tid].state)
  {
    StepChanges(s, step, s');
    assert Moved(s, s', tid);
  }

  /** Templates only move onward; discarded is final; the hash of a template never changes. */
  lemma {:induction false} LifecycleOnward(states: seq<MState>, steps: seq<MStep>, i: nat, j: nat, tid: nat)
    requires MRun(states, steps) && i <= j < |states| && tid < |states[i].templates|
    ensures tid < |states[j].templates|
    ensures states[j].templates[tid].hash == states[i].templates[tid].hash
    ensures Onward(states[i].templates[tid].state, states[j].templates[tid].state)
    decreases j
  {
    if i < j {
      LifecycleOnward(states, steps, i, j - 1, tid);
      RunHistory(states, steps, j - 1);
      assert MStepAt(states, steps, j - 1);
      OnwardStep(states[j - 1], steps[j - 1], states[j], tid);
    }
  }

  /** A template in the collection is not discarded, but for the one entry a reset is deleting. */
  lemma CollectedIsLive(states: seq<MState>, steps: seq<MStep>, i: nat, hash: Hash)
    requires MRun(states, steps) && i < |states| && hash in states[i].coll
    ensures var tid := states[i].coll[hash];
            && tid < |states[i].templates|
            && states[i].templates[tid].hash == hash
            && (states[i].templates[tid].state == Discarded ==> Deleting(states[i], hash))
    ensures states[i].collLock.None? ==> states[i].templates[states[i].coll[hash]].state != Discarded
  {
    RunHistory(states, steps, i);
  }

  /** At most one finalisation succeeds per template, and only after its pool was installed. */
  lemma FinaliseOnce(states: seq<MState>, steps: seq<MStep>, i: nat, a: nat, b: nat)
    requires MRun(states, steps) && i < |states|
    requires a < |states[i].history| && b < |states[i].history|
    requires states[i].history[a].Finalised? && states[i].history[a] == states[i].history[b]
    ensures a == b
  {
    RunHistory(states, steps, i);
  }

  /**
    A get that passes the gate read a finalised template during its own call, and by then the
    template's pool had been installed and its finalisation had followed.
    */
  lemma GateSound(states: seq<MState>, steps: seq<MStep>, i: nat, g: nat, tid: nat, began: nat)
    requires MRun(states, steps) && i < |steps|
    requires states[i + 1].history == states[i].history + [GatePassed(g, tid, began)]
    ensures tid < |states[i].templates| && states[i].templates[tid].state == Finalized
    ensures began < |states[i].history| && states[i].history[began] == Called(g)
    ensures ReadyFor(states[i].history, tid)
    ensures !Happened(states[i].history, DiscardedT(tid))
  {
    RunHistory(states, steps, i);
    assert MStepAt(states, steps, i);
    assert states[i + 1].history[|states[i].history|] == GatePassed(g, tid, began);
    GateStep(states[i], steps[i], states[i + 1], g, tid, began);
    assert StateOk(states[i].history, tid, states[i].templates[tid].state);
    assert PastOk(states[i].history, g, states[i].calls[g]);
  }

  lemma GateStep(s: MState, step: MStep, s': MState, g: nat, tid: nat, began: nat)
    requires LifeInv(s) && MDo(s, step) == Some(s') && s'.history == s.history + [GatePassed(g, tid, began)]
    ensures g in s.calls && (s.calls[g] == GetRead(tid, began) || s.calls[g] == GetSleep(tid, began))
    ensures tid < |s.templates| && s.templates[tid].state == Finalized
  {
    StepChanges(s, step, s');
    assert Fits(s, s', s'.history[|s.history|]);
  }

  /** Between two successful initialisations of a hash, the first one's template is removed. */
  lemma InitialisationsSeparated(states: seq<MState>, steps: seq<MStep>, i: nat, a: nat, b: nat)
    requires MRun(states, steps) && i < |states|
    requires a < b < |states[i].history|
    requires states[i].history[a].Initialised? && states[i].history[b].Initialised?
    requires states[i].history[a].hash == states[i].history[b].hash
    ensures RemovedBetween(states[i].history, a, b, states[i].history[a].hash, states[i].history[a].tid)
  {
    RunHistory(states, steps, i);
  }

  /**
    The end of an initialisation, however other calls interleave: it lets go of the collection, and
    leaves either its own template, still in init, or no template for the hash.
    */
  lemma InitialisationEnds(states: seq<MState>, steps: seq<MStep>, i: nat, g: nat)
    requires MRun(states, steps) && i < |steps|
    requires g in states[i].calls && g !in states[i + 1].calls && Initialising(states[i].calls[g])
    ensures EndOk(states[i], states[i + 1], states[i].calls[g].hash, states[i].calls[g].tid)
  {
    RunHistory(states, steps, i);
    assert MStepAt(states, steps, i);
    EndStep(states[i], steps[i], states[i + 1], g);
  }

  predicate EndOk(s: MState, s': MState, hash: Hash, tid: nat) {
    && s'.collLock.None?
    && |s'.history| == |s.history| + 1
    && if s'.history[|s.history|] == Initialised(hash, tid) then
         && InCollection(s', hash, tid) && tid < |s'.templates|
         && s'.templates[tid] == Template(hash, Init, None)
       else
         s'.history[|s.history|] == Removed(hash, tid) && hash !in s'.coll
  }

  lemma DiscardSpares(s: MState, step: MStep, s': MState, g: nat)
    requires DoDiscard(s, step) == Some(s') && g in s.calls && Initialising(s.calls[g])
    ensures g in s'.calls
  {
  }

  lemma ResetSpares(s: MState, step: MStep, s': MState, g: nat)
    requires DoReset(s, step) == Some(s') && g in s.calls && Initialising(s.calls[g])
    ensures g in s'.calls
  {
  }

  lemma FinalizeSpares(s: MState, step: MStep, s': MState, g: nat)
    requires DoFinalize(s, step) == Some(s') && g in s.calls && Initialising(s.calls[g])
    ensures g in s'.calls
  {
  }

  lemma GetSpares(s: MState, step: MStep, s': MState, g: nat)
    requires DoGet(s, step) == Some(s') && g in s.calls && Initialising(s.calls[g])
    ensures g in s'.calls
  {
  }

  /** No other call's step ends an initialisation. */
  lemma EndsItself(s: MState, step: MStep, s': MState, g: nat)
    requires MDo(s, step) == Some(s') && g in s.calls && g !in s'.calls && Initialising(s.calls[g])
    ensures DoInitialise(s, step) == Some(s') && !step.BeginInit? && step.g == g
  {
    if DoDiscard(s, step) == Some(s') { DiscardSpares(s, step, s', g); }
    if DoReset(s, step) == Some(s') { ResetSpares(s, step, s', g); }
    if DoFinalize(s, step) == Some(s') { FinalizeSpares(s, step, s', g); }
    if DoGet(s, step) == Some(s') { GetSpares(s, step, s', g); }
    assert DoInitialise(s, step) == Some(s');
  }

  lemma EndInitialise(s: MState, step: MStep, s': MState, g: nat)
    requires DoInitialise(s, step) == Some(s') && !step.BeginInit? && step.g == g
    requires g in s.calls && CallOk(s, g, s.calls[g]) && g !in s'.calls
    ensures EndOk(s, s', s.calls[g].hash, s.calls[g].tid)
  {
  }

  lemma EndStep(s: MState, step: MStep, s': MState, g: nat)
    requires LifeInv(s) && MDo(s, step) == Some(s') && g in s.calls && g !in s'.calls && Initialising(s.calls[g])
    ensures EndOk(s, s', s.calls[g].hash, s.calls[g].tid)
  {
    EndsItself(s, step, s', g);
    EndInitialise(s, step, s', g);
  }
}
