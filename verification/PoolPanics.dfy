/**
  The steps that would end the program with a panic, and exactly when a run can take one. The
  machine has no state after such a step.
  */
module PoolPanics {
  import opened Queues
  import opened PoolMachine
  import opened PoolTasks
  import opened PoolFull
  import opened PoolStop

  /** A worker's table access is out of range. */
  predicate WorkPanics(p: Pool, cancelled: bool, pc: Pc, x: WorkMove) {
    match x
    case DoCleanWake => pc.CleanSleep? && pc.until <= p.now && p.lock.None? && pc.id >= |p.dbs|
    case DoRecLock(_) => pc.RecLock? && p.lock.None? && pc.id >= |p.dbs|
    case DoMoveLock => pc.MoveLock? && p.lock.None? && !cancelled && pc.id >= |p.dbs|
    case DoMoveSend => pc.MoveSend? && pc.id >= |p.dbs|
    case _ => false
  }

  /** A client's step panics: a send to the closed task channel, or a worker spawned without a context. */
  predicate ClientPanics(p: Pool, d: Sched, q: Proc, x: ClientMove) {
    match x
    case GetPushTask => q.GetTask? && p.closed
    case RefillEnd => q.Refill? && q.op == Recreate && q.buffer == [] && !d.ctxSet
    case RemoveDrop => q.Remover? && q.next >= |p.dbs|
    case RemoveLast => q.Remover? && q.next >= |p.dbs|
    case _ => false
  }

  predicate Panics(s: State, step: Step) {
    match step
    case OfWorker(g, x) => g in s.procs && s.procs[g].Work? && WorkPanics(s.pool, s.sched.cancelled, s.procs[g].pc, x)
    case OfClient(g, x) => g in s.procs && ClientPanics(s.pool, s.sched, s.procs[g], x)
    case OfArrival(RecreateAtomic(id)) => s.pool.lock.None? && id < |s.pool.dbs| && !s.sched.ctxSet
    case _ => false
  }

  // ---------------------------------------------------------------- every id was tracked once

  ghost predicate KnownIds(p: Pool, procs: map<Gid, Proc>) {
    forall g <- procs :: ProcId(procs[g]).Some? ==> ProcId(procs[g]).value < Reach(p)
  }

  /** A goroutine keeps its id, or takes one of the table. */
  predicate IdOnward(before: Option<nat>, next: Option<Proc>, size: nat) {
    next.Some? && ProcId(next.value).Some? ==> ProcId(next.value) == before || ProcId(next.value).value < size
  }

  lemma ArriveIds(c: Config, p: Pool, d: Sched, g: Gid, x: Arrival, turn: Turn)
    requires Arrive(c, p, d, g, x) == Some(turn) && (p.ready != [] ==> p.ready[0] < |p.dbs|)
    ensures IdOnward(None, turn.next, |turn.pool.dbs|)
  {
  }

  lemma ClientIds(c: Config, p: Pool, d: Sched, q: Proc, g: Gid, x: ClientMove, turn: Turn)
    requires ClientTurn(c, p, d, q, g, x) == Some(turn)
    ensures IdOnward(ProcId(q), turn.next, |turn.pool.dbs|)
  {
  }

  lemma WorkIds(c: Config, p: Pool, cancelled: bool, kind: Kind, pc: Pc, g: Gid, x: WorkMove, turn: Turn)
    requires WorkTurn(c, p, cancelled, kind, pc, g, x) == Some(turn)
    requires pc.CleanTake? && p.dirty != [] ==> p.dirty[0] < |p.dbs|
    ensures IdOnward(PcId(pc), turn.next, |turn.pool.dbs|)
  {
    if Early(x) {
      EarlyIds(c, p, cancelled, kind, pc, g, x, turn);
    } else {
      LateIds(c, p, cancelled, kind, pc, g, x, turn);
    }
  }

  lemma EarlyIds(c: Config, p: Pool, cancelled: bool, kind: Kind, pc: Pc, g: Gid, x: WorkMove, turn: Turn)
    requires WorkTurn(c, p, cancelled, kind, pc, g, x) == Some(turn) && Early(x)
    requires pc.CleanTake? && p.dirty != [] ==> p.dirty[0] < |p.dbs|
    ensures IdOnward(PcId(pc), turn.next, |turn.pool.dbs|)
  {
  }

  lemma LateIds(c: Config, p: Pool, cancelled: bool, kind: Kind, pc: Pc, g: Gid, x: WorkMove, turn: Turn)
    requires WorkTurn(c, p, cancelled, kind, pc, g, x) == Some(turn) && !Early(x)
    ensures IdOnward(PcId(pc), turn.next, |turn.pool.dbs|)
  {
  }

  lemma PutIds(p: Pool, procs: map<Gid, Proc>, g: Gid, next: Option<Proc>, p': Pool)
    requires KnownIds(p, procs) && Reach(p) <= Reach(p')
    requires IdOnward(if g in procs then ProcId(procs[g]) else None, next, |p'.dbs|)
    ensures KnownIds(p', Put(procs, g, next))
  {
  }

  lemma NewClient(s: State)
    requires ProcInv(s)
    ensures Client(s.nextClient) !in s.procs
  {
  }

  lemma IdArrive(c: Config, s: State, x: Arrival, t: State)
    requires ReadyInv(s.pool, s.procs) && KnownIds(s.pool, s.procs) && Reach(s.pool) <= Reach(t.pool)
    requires Client(s.nextClient) !in s.procs && Do(c, s, OfArrival(x)) == Some(t)
    ensures KnownIds(t.pool, t.procs)
  {
    var g := Client(s.nextClient);
    var turn := Arrive(c, s.pool, s.sched, g, x).value;
    assert s.pool.ready != [] ==> s.pool.ready[0] in s.pool.ready;
    ArriveIds(c, s.pool, s.sched, g, x, turn);
    PutIds(s.pool, s.procs, g, turn.next, t.pool);
  }

  lemma IdClient(c: Config, s: State, g: Gid, x: ClientMove, t: State)
    requires KnownIds(s.pool, s.procs) && Reach(s.pool) <= Reach(t.pool) && Do(c, s, OfClient(g, x)) == Some(t)
    ensures KnownIds(t.pool, t.procs)
  {
    var turn := ClientTurn(c, s.pool, s.sched, s.procs[g], g, x).value;
    ClientIds(c, s.pool, s.sched, s.procs[g], g, x, turn);
    PutIds(s.pool, s.procs, g, turn.next, t.pool);
  }

  lemma IdWork(c: Config, s: State, g: Gid, x: WorkMove, t: State)
    requires KnownIds(s.pool, s.procs) && Reach(s.pool) <= Reach(t.pool) && Do(c, s, OfWorker(g, x)) == Some(t)
    requires s.procs[g].pc.CleanTake? && s.pool.dirty != [] ==> s.pool.dirty[0] < |s.pool.dbs|
    ensures KnownIds(t.pool, t.procs)
  {
    var q := s.procs[g];
    var turn := WorkTurn(c, s.pool, s.sched.cancelled, q.kind, q.pc, g, x).value;
    WorkIds(c, s.pool, s.sched.cancelled, q.kind, q.pc, g, x, turn);
    PutIds(s.pool, s.procs, g, turn.next, t.pool);
  }

  lemma IdSched(c: Config, s: State, x: SchedStep, t: State)
    requires KnownIds(s.pool, s.procs) && DoSched(c, s, x) == Some(t)
    ensures KnownIds(t.pool, t.procs)
  {
    SchedShape(c, s, x, t);
  }

  lemma IdReport(c: Config, s: State, g: Gid, x: Report, t: State)
    requires KnownIds(s.pool, s.procs) && Do(c, s, OfReport(g, x)) == Some(t)
    ensures KnownIds(t.pool, t.procs)
  {
  }

  lemma IdStep(c: Config, s: State, step: Step, t: State)
    requires FullState(c, s) && DropInv(s.pool) && KnownIds(s.pool, s.procs) && Do(c, s, step) == Some(t)
    ensures KnownIds(t.pool, t.procs)
  {
    DropStep(c, s, step, t);
    match step
    case OfArrival(x) =>
      NewClient(s);
      IdArrive(c, s, x, t);
    case OfClient(g, x) => IdClient(c, s, g, x, t);
    case OfWorker(g, x) =>
      CleanerRange(c, s, g);
      IdWork(c, s, g, x, t);
    case OfSched(x) => IdSched(c, s, x, t);
    case OfReport(g, x) => IdReport(c, s, g, x, t);
    case OfTick(_) =>
  }

  /** A cleaner about to take an id is tracked, so no removal has begun and the queue is in range. */
  lemma CleanerRange(c: Config, s: State, g: Gid)
    requires FullState(c, s) && g in s.procs && s.procs[g].Work?
    ensures s.procs[g].pc.CleanTake? && s.pool.dirty != [] ==> s.pool.dirty[0] < |s.pool.dbs|
  {
    assert ProcOk(g, s.procs[g], s.nextClient, s.pool.removal);
    if s.procs[g].pc.CleanTake? {
      NoRemovalYet(c, s, g);
    }
  }

  lemma RunIdsStep(c: Config, mode: Mode, states: seq<State>, steps: seq<Step>, i: nat)
    requires Run(c, mode, states, steps) && i < |steps| && KnownIds(states[i].pool, states[i].procs)
    ensures KnownIds(states[i + 1].pool, states[i + 1].procs)
  {
    RunStep(c, mode, states, steps, i);
    RunFull(c, mode, states, steps, i);
    RunDrops(c, mode, states, steps, i);
    IdStep(c, states[i], steps[i], states[i + 1]);
  }

  lemma RunIds(c: Config, mode: Mode, states: seq<State>, steps: seq<Step>, i: nat)
    requires Run(c, mode, states, steps) && i < |states|
    ensures KnownIds(states[i].pool, states[i].procs)
  {
    var inv := (s: State) => KnownIds(s.pool, s.procs);
    forall k: nat ensures KeptAt(inv, states, k) {
      if k < |steps| && inv(states[k]) {
        RunIdsStep(c, mode, states, steps, k);
      }
    }
    AlongRun(inv, states, i);
  }

  // ---------------------------------------------------------------- the worker context

  /** The worker context is there from the start until Stop has returned. */
  predicate ContextInv(d: Sched) {
    d.ctxSet <==> !d.control.NotStarted? && !d.stop.Stopped?
  }

  lemma ContextSched(c: Config, s: State, x: SchedStep, t: State)
    requires PhaseInv(s) && ContextInv(s.sched) && DoSched(c, s, x) == Some(t)
    ensures ContextInv(t.sched)
  {
  }

  lemma ContextReport(c: Config, s: State, g: Gid, x: Report, t: State)
    requires ContextInv(s.sched) && Do(c, s, OfReport(g, x)) == Some(t)
    ensures ContextInv(t.sched)
  {
  }

  lemma ContextOutside(c: Config, s: State, step: Step, t: State)
    requires ContextInv(s.sched) && Do(c, s, step) == Some(t) && !step.OfSched? && !step.OfReport?
    ensures ContextInv(t.sched)
  {
    OutsideSched(c, s, step, t);
  }

  lemma ContextStep(c: Config, s: State, step: Step, t: State)
    requires PhaseInv(s) && ContextInv(s.sched) && Do(c, s, step) == Some(t)
    ensures ContextInv(t.sched)
  {
    match step
    case OfSched(x) => ContextSched(c, s, x, t);
    case OfReport(g, x) => ContextReport(c, s, g, x, t);
    case _ => ContextOutside(c, s, step, t);
  }

  lemma {:induction false} RunContext(c: Config, mode: Mode, states: seq<State>, steps: seq<Step>, i: nat)
    requires Run(c, mode, states, steps) && i < |states|
    ensures ContextInv(states[i].sched)
  {
    if i > 0 {
      RunStep(c, mode, states, steps, i - 1);
      RunContext(c, mode, states, steps, i - 1);
      RunKeeps(c, mode, states, steps, i - 1);
      ContextStep(c, states[i - 1], steps[i - 1], states[i]);
    }
  }

  // ---------------------------------------------------------------- exactly when

  /** The goroutine's next step indexes the table without a check of its own. */
  predicate Indexes(q: Proc, cancelled: bool) {
    || q.Remover?
    || (q.Work? && (q.pc.CleanSleep? || q.pc.RecLock? || q.pc.MoveSend? || (q.pc.MoveLock? && !cancelled)))
  }

  function IndexOf(q: Proc, cancelled: bool): (id: nat)
    requires Indexes(q, cancelled)
  {
    if q.Remover? then q.next else q.pc.id
  }

  /** A manual worker about to claim a database that a removal has dropped. */
  predicate LateClaim(p: Pool, q: Proc) {
    q.Work? && q.kind == Manual && q.pc.RecLock? && q.pc.id in Drops(p.history)
  }

  /** In every run an unchecked table access is out of range exactly if it is a late claim. */
  lemma IndexExactly(c: Config, mode: Mode, states: seq<State>, steps: seq<Step>, i: nat, g: Gid)
    requires Run(c, mode, states, steps) && i < |states| && g in states[i].procs
    requires Indexes(states[i].procs[g], states[i].sched.cancelled)
    ensures IndexOf(states[i].procs[g], states[i].sched.cancelled) >= |states[i].pool.dbs|
       <==> LateClaim(states[i].pool, states[i].procs[g])
  {
    RunFull(c, mode, states, steps, i);
    RunDrops(c, mode, states, steps, i);
    RunIds(c, mode, states, steps, i);
    IndexHere(c, states[i], g);
  }

  lemma IndexHere(c: Config, s: State, g: Gid)
    requires FullState(c, s) && DropInv(s.pool) && KnownIds(s.pool, s.procs) && g in s.procs
    requires Indexes(s.procs[g], s.sched.cancelled)
    ensures IndexOf(s.procs[g], s.sched.cancelled) >= |s.pool.dbs| <==> LateClaim(s.pool, s.procs[g])
  {
    var q, h := s.procs[g], Drops(s.pool.history);
    assert InRange(s.pool, q) && ProcOk(g, q, s.nextClient, s.pool.removal);
    if Live(q) {
      NoRemovalYet(c, s, g);
    }
    if q.Work? && q.kind == Manual && q.pc.RecLock? && q.pc.id >= |s.pool.dbs| {
      assert h[|h| - 1 - (q.pc.id - |s.pool.dbs|)] == q.pc.id;
    }
  }

  /** The fatal steps: a late claim, or spawning a manual worker once Stop has returned. */
  predicate Fatal(s: State, step: Step) {
    match step
    case OfWorker(g, DoRecLock(_)) => s.pool.lock.None? && g in s.procs && LateClaim(s.pool, s.procs[g])
    case OfArrival(RecreateAtomic(id)) => s.sched.stop.Stopped? && s.pool.lock.None? && id < |s.pool.dbs|
    case OfClient(g, RefillEnd) =>
      s.sched.stop.Stopped? && g in s.procs && s.procs[g].Refill? && s.procs[g].op == Recreate && s.procs[g].buffer == []
    case _ => false
  }

  lemma WorkPanicsHere(c: Config, s: State, g: Gid, x: WorkMove)
    requires FullState(c, s) && DropInv(s.pool) && KnownIds(s.pool, s.procs)
    ensures Panics(s, OfWorker(g, x)) <==> Fatal(s, OfWorker(g, x))
  {
    if g in s.procs && Indexes(s.procs[g], s.sched.cancelled) {
      IndexHere(c, s, g);
    }
  }

  lemma SpawnPanicsHere(c: Config, s: State, id: nat)
    requires ContextInv(s.sched) && StartInv(c, s) && PhaseInv(s)
    ensures Panics(s, OfArrival(RecreateAtomic(id))) <==> Fatal(s, OfArrival(RecreateAtomic(id)))
  {
  }

  lemma ClientPanicsHere(c: Config, s: State, g: Gid, x: ClientMove)
    requires FullState(c, s) && ContextInv(s.sched) && StartInv(c, s)
    ensures Panics(s, OfClient(g, x)) <==> Fatal(s, OfClient(g, x))
  {
    if g in s.procs {
      assert InRange(s.pool, s.procs[g]);
    }
  }

  /** In every run a step panics exactly if it is one of the fatal ones, and then the machine ends. */
  lemma PanicsExactly(c: Config, mode: Mode, states: seq<State>, steps: seq<Step>, i: nat, step: Step)
    requires Run(c, mode, states, steps) && i < |states|
    ensures Panics(states[i], step) <==> Fatal(states[i], step)
    ensures Panics(states[i], step) ==> Do(c, states[i], step).None?
  {
    RunFull(c, mode, states, steps, i);
    RunDrops(c, mode, states, steps, i);
    RunIds(c, mode, states, steps, i);
    RunContext(c, mode, states, steps, i);
    RunStarts(c, mode, states, steps, i);
    PanicsHere(c, states[i], step);
  }

  lemma PanicsHere(c: Config, s: State, step: Step)
    requires FullState(c, s) && DropInv(s.pool) && KnownIds(s.pool, s.procs) && ContextInv(s.sched) && StartInv(c, s)
    ensures Panics(s, step) <==> Fatal(s, step)
    ensures Panics(s, step) ==> Do(c, s, step).None?
  {
    match step
    case OfWorker(g, x) => WorkPanicsHere(c, s, g, x);
    case OfClient(g, x) => ClientPanicsHere(c, s, g, x);
    case OfArrival(x) =>
      if x.RecreateAtomic? {
        SpawnPanicsHere(c, s, x.id);
      }
    case _ =>
  }

  /** Until Stop has returned no step of any run panics. */
  lemma NoPanicBeforeStopped(c: Config, mode: Mode, states: seq<State>, steps: seq<Step>, i: nat, step: Step)
    requires Run(c, mode, states, steps) && i < |states| && !states[i].sched.stop.Stopped?
    ensures !Panics(states[i], step)
  {
    RunFull(c, mode, states, steps, i);
    RunDrops(c, mode, states, steps, i);
    PanicsExactly(c, mode, states, steps, i, step);
  }
}
