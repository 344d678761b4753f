/**
  What every interleaving of manager calls keeps: locks are held by the calls that claim them, no
  template in the collection is discarded but the one a reset is about to delete, and a call that
  discards has its template to itself.
  */
module TemplateLifecycle {
  import opened Queues
  import opened ManagerMachine

  predicate HasTemplate(call: Call) {
    !call.DiscardPop? && !call.ResetLoop? && !call.ResetPools?
  }

  predicate Mentions(call: Call, tid: nat) {
    HasTemplate(call) && call.tid == tid
  }

  /** Only call `g` knows the template. */
  predicate Alone(calls: map<nat, Call>, g: nat, tid: nat) {
    forall k <- calls :: k != g ==> !Mentions(calls[k], tid)
  }

  /** The call is an initialisation that has pushed its template. */
  predicate Initialising(call: Call) {
    call.InitCreate? || call.InitRemove? || call.InitUnlock?
  }

  predicate CallOk(s: MState, g: nat, call: Call) {
    && (HasTemplate(call) ==> call.tid < |s.templates|)
    && (Initialising(call) ==>
          && s.collLock == Some(g) && call.tid + 1 == |s.templates|
          && call.hash in s.coll && s.coll[call.hash] == call.tid
          && s.templates[call.tid] == Template(call.hash, Init, None)
          && Alone(s.calls, g, call.tid))
    && (call.ResetLoop? ==> s.collLock == Some(g))
    && (call.ResetDelete? ==>
          && s.collLock == Some(g)
          && call.hash in s.coll && s.coll[call.hash] == call.tid && s.templates[call.tid].state == Discarded)
    && (call.DiscardSet? ==> Popped(s, call.tid))
    && (call.FinalizePool? || call.FinalizeSet? ==>
          s.templates[call.tid].mutex == Some(g) && s.templates[call.tid].state == Init)
  }

  /** The template is no longer the collection's entry for its hash. */
  predicate Popped(s: MState, tid: nat)
    requires tid < |s.templates|
  {
    var hash := s.templates[tid].hash;
    hash in s.coll ==> s.coll[hash] != tid
  }

  predicate CallsInv(s: MState) {
    forall g <- s.calls :: g < s.nextCall && CallOk(s, g, s.calls[g])
  }

  /** The holder of the collection is a reset about to delete the hash. */
  predicate Deleting(s: MState, hash: Hash) {
    && s.collLock.Some? && s.collLock.value in s.calls
    && s.calls[s.collLock.value].ResetDelete? && s.calls[s.collLock.value].hash == hash
  }

  /** Each entry is a template of its own hash, not discarded unless a reset is deleting it. */
  predicate CollInv(s: MState) {
    forall h <- s.coll ::
      && s.coll[h] < |s.templates|
      && s.templates[s.coll[h]].hash == h
      && (s.templates[s.coll[h]].state == Discarded ==> Deleting(s, h))
  }

  predicate LifeInv(s: MState) {
    CallsInv(s) && CollInv(s)
  }

  lemma PushKeeps(s: MState, hash: Hash, s': MState)
    requires LifeInv(s) && DoInitialise(s, BeginInit(hash)) == Some(s')
    ensures LifeInv(s')
  {
  }

  lemma CreateKeeps(s: MState, g: nat, ok: bool, s': MState)
    requires LifeInv(s) && DoInitialise(s, CreateReturns(g, ok)) == Some(s')
    ensures LifeInv(s')
  {
  }

  lemma RemoveKeeps(s: MState, g: nat, ok: bool, s': MState)
    requires LifeInv(s) && DoInitialise(s, RemoveReturns(g, ok)) == Some(s')
    ensures LifeInv(s')
  {
  }

  lemma ReturnKeeps(s: MState, g: nat, s': MState)
    requires LifeInv(s) && DoInitialise(s, InitReturns(g)) == Some(s')
    ensures LifeInv(s')
  {
  }

  lemma InitialiseKeeps(s: MState, step: MStep, s': MState)
    requires LifeInv(s) && DoInitialise(s, step) == Some(s')
    ensures LifeInv(s')
  {
    match step
    case BeginInit(hash) => PushKeeps(s, hash, s');
    case CreateReturns(g, ok) => CreateKeeps(s, g, ok, s');
    case RemoveReturns(g, ok) => RemoveKeeps(s, g, ok, s');
    case InitReturns(g) => ReturnKeeps(s, g, s');
  }

  lemma BeginDiscardKeeps(s: MState, hash: Hash, ok: bool, s': MState)
    requires LifeInv(s) && DoDiscard(s, BeginDiscard(hash, ok)) == Some(s')
    ensures LifeInv(s')
  {
  }

  lemma PopKeeps(s: MState, g: nat, s': MState)
    requires LifeInv(s) && DoDiscard(s, Pop(g)) == Some(s')
    ensures LifeInv(s')
  {
  }

  lemma MarkDiscardedKeeps(s: MState, g: nat, s': MState)
    requires LifeInv(s) && DoDiscard(s, MarkDiscarded(g)) == Some(s')
    ensures LifeInv(s')
  {
  }

  lemma DiscardKeeps(s: MState, step: MStep, s': MState)
    requires LifeInv(s) && DoDiscard(s, step) == Some(s')
    ensures LifeInv(s')
  {
    match step
    case BeginDiscard(hash, ok) => BeginDiscardKeeps(s, hash, ok, s');
    case Pop(g) => PopKeeps(s, g, s');
    case MarkDiscarded(g) => MarkDiscardedKeeps(s, g, s');
  }

  lemma ResetMarkKeeps(s: MState, g: nat, hash: Hash, s': MState)
    requires LifeInv(s) && DoReset(s, ResetMark(g, hash)) == Some(s')
    ensures LifeInv(s')
  {
  }

  lemma ResetDropKeeps(s: MState, g: nat, s': MState)
    requires LifeInv(s) && DoReset(s, ResetDrop(g)) == Some(s')
    ensures LifeInv(s')
  {
  }

  lemma ResetLocksKeep(s: MState, step: MStep, s': MState)
    requires LifeInv(s) && DoReset(s, step) == Some(s') && (step.BeginReset? || step.ResetUnlock?)
    ensures LifeInv(s')
  {
  }

  lemma ResetKeeps(s: MState, step: MStep, s': MState)
    requires LifeInv(s) && DoReset(s, step) == Some(s')
    ensures LifeInv(s')
  {
    match step
    case ResetMark(g, hash) => ResetMarkKeeps(s, g, hash, s');
    case ResetDrop(g) => ResetDropKeeps(s, g, s');
    case BeginReset | ResetUnlock(_) => ResetLocksKeep(s, step, s');
    case _ =>
  }

  /** A step by a call that keeps its template and holds no lock before or after. */
  lemma PlainKeeps(s: MState, g: nat, next: Option<Call>, s': MState)
    requires LifeInv(s) && g in s.calls && HasTemplate(s.calls[g]) && !s.calls[g].ResetDelete?
    requires s'.templates == s.templates && s'.coll == s.coll && s'.collLock == s.collLock
    requires s'.nextCall == s.nextCall && s'.calls == PutCall(s.calls, g, next)
    requires next.Some? ==> Plain(next.value) && next.value.tid == s.calls[g].tid
    ensures LifeInv(s')
  {
  }

  /** A new call on a collected template, or none. */
  lemma EnterKeeps(s: MState, call: Call, s': MState)
    requires LifeInv(s) && s.collLock.None? && (Plain(call) || call.FinalizeLock?) && call.tid < |s.templates|
    requires s'.templates == s.templates && s'.coll == s.coll && s'.collLock == s.collLock
    requires s'.nextCall == s.nextCall + 1 && s'.calls == s.calls[s.nextCall := call]
    ensures LifeInv(s')
  {
  }

  predicate Plain(call: Call) {
    call.GetRead? || call.GetSleep? || call.GetPool? || call.GetInstall? || call.GetRetry?
  }

  function PutCall(calls: map<nat, Call>, g: nat, next: Option<Call>): (r: map<nat, Call>) {
    if next.Some? then calls[g := next.value] else calls - {g}
  }

  lemma LockKeeps(s: MState, g: nat, s': MState)
    requires LifeInv(s) && DoFinalize(s, LockTemplate(g)) == Some(s')
    ensures LifeInv(s')
  {
    if s.templates[s.calls[g].tid].state != Init {
      PlainKeeps(s, g, None, s');
    }
  }

  lemma MarkKeeps(s: MState, g: nat, s': MState)
    requires LifeInv(s) && DoFinalize(s, MarkFinalized(g)) == Some(s')
    ensures LifeInv(s')
  {
  }

  lemma InstallKeeps(s: MState, g: nat, s': MState)
    requires LifeInv(s) && DoFinalize(s, InstallPool(g)) == Some(s')
    ensures LifeInv(s')
  {
  }

  lemma FinalizeKeeps(s: MState, step: MStep, s': MState)
    requires LifeInv(s) && DoFinalize(s, step) == Some(s')
    ensures LifeInv(s')
  {
    match step
    case BeginFinalize(hash) =>
      if hash in s.coll {
        EnterKeeps(s, FinalizeLock(s.coll[hash]), s');
      }
    case LockTemplate(g) => LockKeeps(s, g, s');
    case MarkFinalized(g) => MarkKeeps(s, g, s');
    case InstallPool(g) => InstallKeeps(s, g, s');
  }

  lemma GetKeeps(s: MState, step: MStep, s': MState)
    requires LifeInv(s) && DoGet(s, step) == Some(s')
    ensures LifeInv(s')
  {
    if step.BeginGet? {
      if step.hash in s.coll {
        EnterKeeps(s, GetRead(s.coll[step.hash], |s.history|), s');
      }
    } else {
      var g := step.g;
      PlainKeeps(s, g, if g in s'.calls then Some(s'.calls[g]) else None, s');
    }
  }

  lemma LifeKeeps(s: MState, step: MStep, s': MState)
    requires LifeInv(s) && MDo(s, step) == Some(s')
    ensures LifeInv(s')
  {
    if DoInitialise(s, step) == Some(s') { InitialiseKeeps(s, step, s'); }
    if DoDiscard(s, step) == Some(s') { DiscardKeeps(s, step, s'); }
    if DoReset(s, step) == Some(s') { ResetKeeps(s, step, s'); }
    if DoFinalize(s, step) == Some(s') { FinalizeKeeps(s, step, s'); }
    if DoGet(s, step) == Some(s') { GetKeeps(s, step, s'); }
  }
}
