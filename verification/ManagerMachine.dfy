/**
  Template lifecycle and manager calls as a concurrent step system. A step is one critical section
  of the collection lock, of a template's lock or of the pool collection's lock, or the return of a
  database call. The collection lock is held across an initialisation and across the loop of a
  reset; a template's lock is held across a finalisation.
  */
module ManagerMachine {
  import opened Queues

  type Hash = string

  datatype TemplateState = Init | Discarded | Finalized

  /** A template object; `mutex` is the call that holds its lock across several steps. */
  datatype Template = Template(hash: Hash, state: TemplateState, mutex: Option<nat>)

  /**
    A manager call in flight, named after what it does next; templates are known by their index, and
    `began` and `cleared` are positions in the history.
    */
  datatype Call =
    | InitCreate(hash: Hash, tid: nat)
    | InitRemove(hash: Hash, tid: nat)
    | InitUnlock(hash: Hash, tid: nat, cleared: nat)
    | DiscardPop(hash: Hash)
    | DiscardSet(tid: nat)
    | ResetLoop
    | ResetDelete(hash: Hash, tid: nat)
    | ResetPools
    | FinalizeLock(tid: nat)
    | FinalizePool(tid: nat)
    | FinalizeSet(tid: nat)
    | GetRead(tid: nat, began: nat)
    | GetSleep(tid: nat, began: nat)
    | GetPool(tid: nat)
    | GetInstall(tid: nat)
    | GetRetry(tid: nat)

  datatype MEvent =
    | Pushed(hash: Hash, tid: nat)
    | Initialised(hash: Hash, tid: nat)
    | Removed(hash: Hash, tid: nat)
    | PoolInstalled(tid: nat)
    | PoolsRemoved(gone: set<Hash>)
    | Finalised(tid: nat)
    | DiscardedT(tid: nat)
    | Called(g: nat)
    | GatePassed(g: nat, tid: nat, began: nat)

  /** `pools` says which template each hash's pool was made from. */
  datatype MState = MState(
    templates: seq<Template>,
    coll: map<Hash, nat>,
    collLock: Option<nat>,
    pools: map<Hash, nat>,
    calls: map<nat, Call>,
    nextCall: nat,
    history: seq<MEvent>)

  const Fresh := MState([], map[], None, map[], map[], 0, [])

  datatype MStep =
    | BeginInit(hash: Hash)
    | CreateReturns(g: nat, ok: bool)
    | RemoveReturns(g: nat, ok: bool)
    | InitReturns(g: nat)
    | BeginDiscard(hash: Hash, ok: bool)
    | Pop(g: nat)
    | MarkDiscarded(g: nat)
    | BeginReset
    | ResetMark(g: nat, hash: Hash)
    | ResetDrop(g: nat)
    | ResetUnlock(g: nat)
    | ResetRemove(g: nat, gone: set<Hash>)
    | BeginFinalize(hash: Hash)
    | LockTemplate(g: nat)
    | InstallPool(g: nat)
    | MarkFinalized(g: nat)
    | BeginGet(hash: Hash)
    | ReadState(g: nat)
    | WakeUp(g: nat)
    | TimeOut(g: nat)
    | UsePool(g: nat)
    | Reinstall(g: nat)
    | UseAgain(g: nat)
    | ClearTracked(hash: Hash, ok: bool)

  function Log(s: MState, e: MEvent): (r: MState) {
    s.(history := s.history + [e])
  }

  function Enter(s: MState, call: Call): (r: MState) {
    s.(calls := s.calls[s.nextCall := call], nextCall := s.nextCall + 1)
  }

  function Goto(s: MState, g: nat, call: Call): (r: MState) {
    s.(calls := s.calls[g := call])
  }

  function Leave(s: MState, g: nat): (r: MState) {
    s.(calls := s.calls - {g})
  }

  function SetState(s: MState, tid: nat, state: TemplateState): (r: MState)
    requires tid < |s.templates|
  {
    s.(templates := s.templates[tid := s.templates[tid].(state := state)])
  }

  function SetMutex(s: MState, tid: nat, m: Option<nat>): (r: MState)
    requires tid < |s.templates|
  {
    s.(templates := s.templates[tid := s.templates[tid].(mutex := m)])
  }

  /** Initialisation gives up: the template it pushed goes and the collection is unlocked. */
  function Rollback(s: MState, g: nat, hash: Hash, tid: nat): (r: MState) {
    Leave(Log(s.(coll := s.coll - {hash}, collLock := None), Removed(hash, tid)), g)
  }

  predicate At(s: MState, g: nat, call: Call) {
    g in s.calls && s.calls[g] == call
  }

  /** The template's lock is free for one critical section. */
  predicate Unlocked(s: MState, tid: nat) {
    tid < |s.templates| && s.templates[tid].mutex.None?
  }

  /** Steps of InitializeTemplateDatabase. */
  function DoInitialise(s: MState, step: MStep): (r: Option<MState>) {
    match step
    case BeginInit(hash) =>
      if s.collLock.Some? then None
      else if hash in s.coll then Some(s)
      else
        var tid := |s.templates|;
        Some(Log(Enter(s.(templates := s.templates + [Template(hash, Init, None)],
                          coll := s.coll[hash := tid], collLock := Some(s.nextCall)),
                       InitCreate(hash, tid)),
                 Pushed(hash, tid)))
    case CreateReturns(g, ok) =>
      if g in s.calls && s.calls[g].InitCreate? then
        var InitCreate(hash, tid) := s.calls[g];
        if ok then Some(Goto(s, g, InitRemove(hash, tid))) else Some(Rollback(s, g, hash, tid))
      else None
    case RemoveReturns(g, ok) =>
      if g in s.calls && s.calls[g].InitRemove? then
        var InitRemove(hash, tid) := s.calls[g];
        if hash in s.pools && !ok then Some(Rollback(s, g, hash, tid))
        else
          Some(Goto(Log(s.(pools := s.pools - {hash}), PoolsRemoved({hash})), g, InitUnlock(hash, tid, |s.history|)))
      else None
    case InitReturns(g) =>
      if g in s.calls && s.calls[g].InitUnlock? then
        Some(Leave(Log(s.(collLock := None), Initialised(s.calls[g].hash, s.calls[g].tid)), g))
      else None
    case _ => None
  }

  /** Steps of DiscardTemplateDatabase. Popping an absent hash ends the call. */
  function DoDiscard(s: MState, step: MStep): (r: Option<MState>) {
    match step
    case BeginDiscard(hash, ok) =>
      if hash in s.pools && !ok then Some(s)
      else Some(Log(Enter(s.(pools := s.pools - {hash}), DiscardPop(hash)), PoolsRemoved({hash})))
    case Pop(g) =>
      if g in s.calls && s.calls[g].DiscardPop? && s.collLock.None? then
        var hash := s.calls[g].hash;
        if hash in s.coll then
          Some(Goto(Log(s.(coll := s.coll - {hash}), Removed(hash, s.coll[hash])), g, DiscardSet(s.coll[hash])))
        else Some(Leave(s, g))
      else None
    case MarkDiscarded(g) =>
      if g in s.calls && s.calls[g].DiscardSet? && Unlocked(s, s.calls[g].tid) then
        Some(Leave(Log(SetState(s, s.calls[g].tid, Discarded), DiscardedT(s.calls[g].tid)), g))
      else None
    case _ => None
  }

  /** Steps of ResetAllTracking and ClearTrackedTestDatabases. */
  function DoReset(s: MState, step: MStep): (r: Option<MState>) {
    match step
    case BeginReset =>
      if s.collLock.None? then Some(Enter(s.(collLock := Some(s.nextCall)), ResetLoop)) else None
    case ResetMark(g, hash) =>
      if At(s, g, ResetLoop) && hash in s.coll && Unlocked(s, s.coll[hash]) then
        var tid := s.coll[hash];
        Some(Goto(Log(SetState(s, tid, Discarded), DiscardedT(tid)), g, ResetDelete(hash, tid)))
      else None
    case ResetDrop(g) =>
      if g in s.calls && s.calls[g].ResetDelete? then
        var ResetDelete(hash, tid) := s.calls[g];
        Some(Goto(Log(s.(coll := s.coll - {hash}), Removed(hash, tid)), g, ResetLoop))
      else None
    case ResetUnlock(g) =>
      if At(s, g, ResetLoop) && s.coll == map[] then Some(Goto(s.(collLock := None), g, ResetPools)) else None
    case ResetRemove(g, gone) =>
      if At(s, g, ResetPools) then Some(Leave(Log(s.(pools := s.pools - gone), PoolsRemoved(gone)), g)) else None
    case ClearTracked(hash, ok) =>
      if hash in s.pools && ok then Some(Log(s.(pools := s.pools - {hash}), PoolsRemoved({hash}))) else Some(s)
    case _ => None
  }

  /** Steps of FinalizeTemplateDatabase. */
  function DoFinalize(s: MState, step: MStep): (r: Option<MState>) {
    match step
    case BeginFinalize(hash) =>
      if s.collLock.Some? then None
      else if hash in s.coll then Some(Enter(s, FinalizeLock(s.coll[hash])))
      else Some(s)
    case LockTemplate(g) =>
      if g in s.calls && s.calls[g].FinalizeLock? && Unlocked(s, s.calls[g].tid) then
        var tid := s.calls[g].tid;
        if s.templates[tid].state == Init then Some(Goto(SetMutex(s, tid, Some(g)), g, FinalizePool(tid)))
        else Some(Leave(s, g))
      else None
    case InstallPool(g) =>
      if g in s.calls && s.calls[g].FinalizePool? && s.calls[g].tid < |s.templates| then
        var tid := s.calls[g].tid;
        Some(Goto(Log(s.(pools := s.pools[s.templates[tid].hash := tid]), PoolInstalled(tid)), g, FinalizeSet(tid)))
      else None
    case MarkFinalized(g) =>
      if g in s.calls && s.calls[g].FinalizeSet? && s.calls[g].tid < |s.templates| then
        var tid := s.calls[g].tid;
        Some(Leave(Log(SetMutex(SetState(s, tid, Finalized), tid, None), Finalised(tid)), g))
      else None
    case _ => None
  }

  /** Steps of GetTestDatabase. A wake-up may come at any time. */
  function DoGet(s: MState, step: MStep): (r: Option<MState>) {
    match step
    case BeginGet(hash) =>
      if s.collLock.Some? then None
      else if hash in s.coll then Some(Log(Enter(s, GetRead(s.coll[hash], |s.history|)), Called(s.nextCall)))
      else Some(s)
    case ReadState(g) =>
      if g in s.calls && s.calls[g].GetRead? && Unlocked(s, s.calls[g].tid) then
        var GetRead(tid, began) := s.calls[g];
        if s.templates[tid].state == Finalized then Some(Goto(Log(s, GatePassed(g, tid, began)), g, GetPool(tid)))
        else Some(Goto(s, g, GetSleep(tid, began)))
      else None
    case WakeUp(g) =>
      if g in s.calls && s.calls[g].GetSleep? && Unlocked(s, s.calls[g].tid) then
        var GetSleep(tid, began) := s.calls[g];
        if s.templates[tid].state == Finalized then Some(Goto(Log(s, GatePassed(g, tid, began)), g, GetPool(tid)))
        else Some(Leave(s, g))
      else None
    case TimeOut(g) =>
      if g in s.calls && s.calls[g].GetSleep? then Some(Leave(s, g)) else None
    case UsePool(g) =>
      if g in s.calls && s.calls[g].GetPool? && s.calls[g].tid < |s.templates| then
        var tid := s.calls[g].tid;
        if s.templates[tid].hash in s.pools then Some(Leave(s, g)) else Some(Goto(s, g, GetInstall(tid)))
      else None
    case Reinstall(g) =>
      if g in s.calls && s.calls[g].GetInstall? && s.calls[g].tid < |s.templates| then
        var tid := s.calls[g].tid;
        Some(Goto(Log(s.(pools := s.pools[s.templates[tid].hash := tid]), PoolInstalled(tid)), g, GetRetry(tid)))
      else None
    case UseAgain(g) =>
      if g in s.calls && s.calls[g].GetRetry? then Some(Leave(s, g)) else None
    case _ => None
  }

  function MDo(s: MState, step: MStep): (r: Option<MState>) {
    match step
    case BeginInit(_) | CreateReturns(_, _) | RemoveReturns(_, _) | InitReturns(_) => DoInitialise(s, step)
    case BeginDiscard(_, _) | Pop(_) | MarkDiscarded(_) => DoDiscard(s, step)
    case BeginReset | ResetMark(_, _) | ResetDrop(_) | ResetUnlock(_) | ResetRemove(_, _) | ClearTracked(_, _) => DoReset(s, step)
    case BeginFinalize(_) | LockTemplate(_) | InstallPool(_) | MarkFinalized(_) => DoFinalize(s, step)
    case _ => DoGet(s, step)
  }

  ghost predicate MStepAt(states: seq<MState>, steps: seq<MStep>, i: nat)
    requires |states| == |steps| + 1
  {
    i < |steps| ==> MDo(states[i], steps[i]) == Some(states[i + 1])
  }

  /** A run of one manager from its creation. */
  ghost predicate MRun(states: seq<MState>, steps: seq<MStep>) {
    && |states| == |steps| + 1
    && states[0] == Fresh
    && forall i: nat :: MStepAt(states, steps, i)
  }
}
