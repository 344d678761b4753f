/** Stopping a pool and removing its databases. */
module PoolStop {
  import opened Queues
  import opened PoolMachine
  import opened PoolTasks
  import opened PoolFull

  // ---------------------------------------------------------------- the workers run out

  /** How many more steps a tracked worker can take once its context is cancelled. */
  function Rank(pc: Pc): (n: nat) {
    match pc
    case SemRelease => 1
    case Done => 2
    case SlotRelease => 3
    case MoveSend(_) => 4
    case MoveLock(_) => 5
    case RecLoop(_) => 5
    case RecCall(_, _) => 6
    case RecSlot(_) => 7
    case RecLock(_) => 8
    case RecCheck(_) => 9
    case CleanSleep(_, _, _) => 10
    case CleanRead(_) => 11
    case CleanTake => 12
    case ExtendLock => 12
  }

  function Weight(q: Proc): (n: nat) {
    if Tracked(q) then Rank(q.pc) else 0
  }

  /** The sum of a weight over all goroutines. */
  ghost function Sum(w: Proc -> nat, procs: map<Gid, Proc>): (n: nat)
    decreases |procs|
  {
    if procs == map[] then 0
    else
      var g :| g in procs;
      w(procs[g]) + Sum(w, procs - {g})
  }

  lemma {:induction false} SumSplit(w: Proc -> nat, procs: map<Gid, Proc>, g: Gid)
    requires g in procs
    ensures Sum(w, procs) == w(procs[g]) + Sum(w, procs - {g})
    decreases |procs|
  {
    var h :| h in procs && Sum(w, procs) == w(procs[h]) + Sum(w, procs - {h});
    if h != g {
      SumSplit(w, procs - {h}, g);
      SumSplit(w, procs - {g}, h);
      assert procs - {h} - {g} == procs - {g} - {h};
    }
  }

  lemma SumPut(w: Proc -> nat, procs: map<Gid, Proc>, g: Gid, next: Option<Proc>)
    ensures
      Sum(w, Put(procs, g, next)) + (if g in procs then w(procs[g]) else 0)
      == Sum(w, procs) + (if next.Some? then w(next.value) else 0)
  {
    var procs' := Put(procs, g, next);
    if g in procs {
      SumSplit(w, procs, g);
    } else {
      assert procs - {g} == procs;
    }
    if next.Some? {
      SumSplit(w, procs', g);
    }
    assert procs' - {g} == procs - {g};
  }

  /** Tasks still queued, the worker loop's position and the positions of all tracked workers. */
  ghost function Measure(s: State): (n: nat) {
    14 * |s.sched.workChan|
    + (match s.sched.loop case NoLoop => 0 case LoopExited => 0 case Idle => 1 case Acquiring(_) => 14)
    + Sum(Weight, s.procs)
  }

  predicate WorkerSide(step: Step) {
    match step
    case OfWorker(g, _) => g.TaskRun?
    case OfReport(g, _) => true
    case OfSched(x) => x.LoopTake? || x.LoopClosed? || x.LoopCancel? || x.LoopSpawn?
    case _ => false
  }

  lemma WorkerRanks(c: Config, p: Pool, kind: Kind, pc: Pc, g: Gid, x: WorkMove, turn: Turn)
    requires WorkTurn(c, p, true, kind, pc, g, x) == Some(turn) && kind != Manual
    ensures turn.next.Some? && turn.next.value.Work? && turn.next.value.kind == kind && Rank(turn.next.value.pc) < Rank(pc)
  {
  }

  lemma ManualRanks(c: Config, p: Pool, cancelled: bool, pc: Pc, g: Gid, x: WorkMove, turn: Turn)
    requires WorkTurn(c, p, cancelled, Manual, pc, g, x) == Some(turn)
    ensures turn.next.Some? ==> turn.next.value.Work? && turn.next.value.kind == Manual
  {
  }

  lemma LoopRanks(c: Config, s: State, x: SchedStep, t: State)
    requires PhaseInv(s) && LedgerInv(s.sched, s.procs) && JobInv(s.sched)
    requires s.sched.cancelled && DoSched(c, s, x) == Some(t)
    ensures if WorkerSide(OfSched(x)) then Measure(t) < Measure(s) else Measure(t) == Measure(s)
    ensures t.sched.cancelled
  {
    SchedShape(c, s, x, t);
    if x.LoopSpawn? {
      var j := s.sched.loop.job;
      SumPut(Weight, s.procs, TaskRun(j.serial), Some(StartPc(j.kind)));
    }
  }

  lemma ReportRanks(c: Config, s: State, g: Gid, x: Report, t: State)
    requires ProcInv(s) && Do(c, s, OfReport(g, x)) == Some(t)
    ensures Measure(t) < Measure(s) && t.sched.cancelled == s.sched.cancelled
  {
    var next := if x == ToWaitGroup then Some(Work(s.procs[g].kind, SemRelease)) else None;
    assert ProcOk(g, s.procs[g], s.nextClient, s.pool.removal);
    assert t.procs == Put(s.procs, g, next);
    SumPut(Weight, s.procs, g, next);
  }

  lemma WorkerSteps(c: Config, s: State, g: Gid, x: WorkMove, t: State)
    requires ProcInv(s) && s.sched.cancelled && Do(c, s, OfWorker(g, x)) == Some(t)
    ensures if g.TaskRun? then Measure(t) < Measure(s) else Measure(t) == Measure(s)
    ensures t.sched.cancelled
  {
    var q := s.procs[g];
    assert ProcOk(g, q, s.nextClient, s.pool.removal);
    var turn := WorkTurn(c, s.pool, true, q.kind, q.pc, g, x).value;
    if g.TaskRun? {
      WorkerRanks(c, s.pool, q.kind, q.pc, g, x, turn);
    } else {
      ManualRanks(c, s.pool, true, q.pc, g, x, turn);
    }
    WorkQuiet(c, s, g, x, turn);
    SumPut(Weight, s.procs, g, turn.next);
  }

  lemma ArrivalSteps(c: Config, s: State, x: Arrival, t: State)
    requires ProcInv(s) && Do(c, s, OfArrival(x)) == Some(t)
    ensures Measure(t) == Measure(s) && t.sched == s.sched
  {
    var g := Client(s.nextClient);
    var u := s.(nextClient := s.nextClient + 1);
    var turn := Arrive(c, s.pool, s.sched, g, x).value;
    ArriveQuiet(c, u, x, turn);
    assert g !in s.procs;
    SumPut(Weight, s.procs, g, turn.next);
  }

  lemma ClientSteps(c: Config, s: State, g: Gid, x: ClientMove, t: State)
    requires ProcInv(s) && Do(c, s, OfClient(g, x)) == Some(t)
    ensures Measure(t) == Measure(s) && t.sched.cancelled == s.sched.cancelled
  {
    var turn := ClientTurn(c, s.pool, s.sched, s.procs[g], g, x).value;
    assert ProcOk(g, s.procs[g], s.nextClient, s.pool.removal);
    ClientQuiet(c, s, g, x, turn);
    SumPut(Weight, s.procs, g, turn.next);
  }

  lemma StopRunsOut(c: Config, s: State, step: Step, t: State)
    requires SchedInv(c, s) && s.sched.cancelled && Do(c, s, step) == Some(t)
    ensures t.sched.cancelled
    ensures if WorkerSide(step) then Measure(t) < Measure(s) else Measure(t) == Measure(s)
  {
    match step
    case OfTick(_) =>
    case OfArrival(x) => ArrivalSteps(c, s, x, t);
    case OfClient(g, x) => ClientSteps(c, s, g, x, t);
    case OfWorker(g, x) => WorkerSteps(c, s, g, x, t);
    case OfReport(g, x) => ReportRanks(c, s, g, x, t);
    case OfSched(x) => LoopRanks(c, s, x, t);
  }

  /** The steps of the worker loop and of tracked workers among steps `i` to `j`. */
  function WorkerStepCount(steps: seq<Step>, i: nat, j: nat): (n: nat)
    requires i <= j <= |steps|
  {
    if i == j then 0
    else WorkerStepCount(steps, i, j - 1) + (if WorkerSide(steps[j - 1]) then 1 else 0)
  }

  /**
    Once the control loop has consumed the stop task, every step of the worker loop or of a tracked
    worker lowers the measure and no other step changes it: at most `Measure` such steps are left,
    however the run goes on.
    */
  lemma {:induction false} StopStepsBounded(c: Config, mode: Mode, states: seq<State>, steps: seq<Step>, i: nat, j: nat)
    requires Run(c, mode, states, steps) && i <= j < |states|
    requires states[i].sched.cancelled
    ensures states[j].sched.cancelled
    ensures WorkerStepCount(steps, i, j) + Measure(states[j]) <= Measure(states[i])
    decreases j
  {
    if i < j {
      StopStepsBounded(c, mode, states, steps, i, j - 1);
      RunKeeps(c, mode, states, steps, j - 1);
      RunStep(c, mode, states, steps, j - 1);
      StopRunsOut(c, states[j - 1], steps[j - 1], states[j]);
    }
  }

  /** Stop returns only when both loops have ended and every tracked worker has reported in. */
  lemma StopReturnsLast(c: Config, mode: Mode, states: seq<State>, steps: seq<Step>, i: nat)
    requires Run(c, mode, states, steps) && i < |states|
    requires states[i].sched.stop.Stopped?
    ensures states[i].sched.control.ControlExited? && states[i].sched.loop.LoopExited?
    ensures forall g :: g in states[i].procs && Tracked(states[i].procs[g]) ==> states[i].procs[g].pc == SemRelease
  {
    RunKeeps(c, mode, states, steps, i);
    forall g | g in states[i].procs && Tracked(states[i].procs[g])
      ensures states[i].procs[g].pc == SemRelease
    {
      assert g !in LiveSet(states[i].procs);
    }
  }

  // ---------------------------------------------------------------- no worker publishes after the stop

  ghost predicate NoPublisher(procs: map<Gid, Proc>) {
    forall g <- procs :: !(procs[g].Work? && procs[g].pc.MoveSend?)
  }

  /** A worker step with a cancelled context makes no id ready. */
  lemma CancelledWork(c: Config, p: Pool, kind: Kind, pc: Pc, g: Gid, x: WorkMove, turn: Turn)
    requires WorkTurn(c, p, true, kind, pc, g, x) == Some(turn) && !pc.MoveSend?
    ensures turn.pool.ready == p.ready
    ensures forall id: nat :: IsReady(turn.pool, id) ==> IsReady(p, id)
    ensures turn.next.Some? ==> turn.next.value.Work? && !turn.next.value.pc.MoveSend?
  {
    if Early(x) {
      CancelledEarly(c, p, kind, pc, g, x, turn);
    } else {
      CancelledLate(c, p, kind, pc, g, x, turn);
    }
  }

  lemma CancelledEarly(c: Config, p: Pool, kind: Kind, pc: Pc, g: Gid, x: WorkMove, turn: Turn)
    requires WorkTurn(c, p, true, kind, pc, g, x) == Some(turn) && Early(x)
    ensures turn.pool.ready == p.ready
    ensures forall id: nat :: IsReady(turn.pool, id) ==> IsReady(p, id)
    ensures turn.next.Some? ==> turn.next.value.Work? && !turn.next.value.pc.MoveSend?
  {
  }

  lemma CancelledLate(c: Config, p: Pool, kind: Kind, pc: Pc, g: Gid, x: WorkMove, turn: Turn)
    requires WorkTurn(c, p, true, kind, pc, g, x) == Some(turn) && !Early(x) && !pc.MoveSend?
    ensures turn.pool.ready == p.ready && turn.pool.dbs == p.dbs
    ensures turn.next.Some? ==> turn.next.value.Work? && !turn.next.value.pc.MoveSend?
  {
  }

  lemma ClientNoPublisher(c: Config, p: Pool, d: Sched, q: Proc, g: Gid, x: ClientMove, turn: Turn)
    requires ClientTurn(c, p, d, q, g, x) == Some(turn)
    ensures turn.next.Some? && turn.next.value.Work? ==> turn.next.value.pc.RecCheck?
  {
  }

  lemma NoPublisherStep(c: Config, s: State, step: Step, t: State)
    requires s.sched.cancelled && NoPublisher(s.procs) && Do(c, s, step) == Some(t)
    ensures NoPublisher(t.procs)
    ensures step.OfWorker? ==>
      && t.pool.ready == s.pool.ready
      && forall id: nat :: IsReady(t.pool, id) ==> IsReady(s.pool, id)
  {
    match step
    case OfClient(g, x) =>
      ClientNoPublisher(c, s.pool, s.sched, s.procs[g], g, x, ClientTurn(c, s.pool, s.sched, s.procs[g], g, x).value);
    case OfWorker(g, x) =>
      var q := s.procs[g];
      CancelledWork(c, s.pool, q.kind, q.pc, g, x, WorkTurn(c, s.pool, true, q.kind, q.pc, g, x).value);
    case OfSched(x) => SchedShape(c, s, x, t);
    case _ =>
  }

  lemma FreeMutex(s: State)
    requires LockInv(s.pool, s.procs) && s.pool.lock.None?
    ensures NoPublisher(s.procs)
  {
    forall g <- s.procs
      ensures !(s.procs[g].Work? && s.procs[g].pc.MoveSend?)
    {
      assert !HoldsLock(s.procs[g]);
    }
  }

  lemma {:induction false} NoPublisherLater(c: Config, mode: Mode, states: seq<State>, steps: seq<Step>, i: nat, j: nat)
    requires Run(c, mode, states, steps) && i <= j < |states|
    requires states[i].sched.cancelled && states[i].pool.lock.None?
    ensures states[j].sched.cancelled && NoPublisher(states[j].procs)
    decreases j
  {
    if i == j {
      RunFull(c, mode, states, steps, i);
      FreeMutex(states[i]);
    } else {
      NoPublisherLater(c, mode, states, steps, i, j - 1);
      StopStepsBounded(c, mode, states, steps, i, j);
      RunStep(c, mode, states, steps, j - 1);
      NoPublisherStep(c, states[j - 1], steps[j - 1], states[j]);
    }
  }

  /**
    From the first moment after the cancellation at which the mutex is free, no worker, tracked or
    manual, ever makes an id ready or sends one to `ready`.
    */
  lemma NoReadyAfterStop(c: Config, mode: Mode, states: seq<State>, steps: seq<Step>, i: nat, j: nat)
    requires Run(c, mode, states, steps) && i <= j < |steps|
    requires states[i].sched.cancelled && states[i].pool.lock.None?
    requires steps[j].OfWorker?
    ensures states[j + 1].pool.ready == states[j].pool.ready
    ensures forall id: nat :: IsReady(states[j + 1].pool, id) ==> IsReady(states[j].pool, id)
  {
    NoPublisherLater(c, mode, states, steps, i, j);
    RunStep(c, mode, states, steps, j);
    NoPublisherStep(c, states[j], steps[j], states[j + 1]);
  }

  // ---------------------------------------------------------------- removal

  /** The ids dropped so far, in order. */
  function Drops(h: seq<Event>): (r: seq<nat>) {
    if h == [] then []
    else
      var e := h[|h| - 1];
      Drops(h[..|h| - 1]) + (if e.Dropped? then [e.id] else [])
  }

  lemma DropsSnoc(h: seq<Event>, e: Event)
    ensures Drops(h + [e]) == Drops(h) + (if e.Dropped? then [e.id] else [])
  {
    assert (h + [e])[..|h|] == h;
  }

  /** Nothing is dropped before a removal; after it, exactly the ids from `|dbs|` up, from the top down, once each. */
  ghost predicate DropInv(p: Pool) {
    var d := Drops(p.history);
    && (!p.removal ==> d == [])
    && forall i :: 0 <= i < |d| ==> d[i] == |p.dbs| + (|d| - 1 - i)
  }

  /** How many ids there have ever been: the tracked ones and the dropped ones. */
  ghost function Reach(p: Pool): (n: nat) {
    |p.dbs| + |Drops(p.history)|
  }

  lemma DropTurn(p: Pool, p': Pool)
    requires DropInv(p)
    requires p'.history == p.history || exists e :: p'.history == p.history + [e]
    requires p.removal ==> p'.removal
    requires
      var log := p'.history[|p.history|..];
      if log != [] && log[0].Dropped? then p'.removal && log[0].id == |p'.dbs| == |p.dbs| - 1
      else |p.dbs| <= |p'.dbs| && (p.removal ==> |p'.dbs| == |p.dbs|)
    ensures DropInv(p') && Reach(p) <= Reach(p')
  {
    if p'.history != p.history {
      var e :| p'.history == p.history + [e];
      DropsSnoc(p.history, e);
    }
  }

  lemma DropArrive(c: Config, p: Pool, d: Sched, g: Gid, x: Arrival, turn: Turn)
    requires DropInv(p) && Arrive(c, p, d, g, x) == Some(turn)
    ensures DropInv(turn.pool) && Reach(p) <= Reach(turn.pool)
  {
    DropTurn(p, turn.pool);
  }

  lemma DropClient(c: Config, p: Pool, d: Sched, q: Proc, g: Gid, x: ClientMove, turn: Turn)
    requires DropInv(p) && ClientTurn(c, p, d, q, g, x) == Some(turn)
    requires q.Remover? ==> p.removal && q.next + 1 == |p.dbs|
    ensures DropInv(turn.pool) && Reach(p) <= Reach(turn.pool)
  {
    DropTurn(p, turn.pool);
  }

  lemma DropWorkEarly(c: Config, p: Pool, cancelled: bool, kind: Kind, pc: Pc, g: Gid, x: WorkMove, turn: Turn)
    requires DropInv(p) && WorkTurn(c, p, cancelled, kind, pc, g, x) == Some(turn)
    requires pc.ExtendLock? ==> !p.removal
    requires Early(x)
    ensures DropInv(turn.pool) && Reach(p) <= Reach(turn.pool)
  {
    DropTurn(p, turn.pool);
  }

  lemma DropWorkLate(c: Config, p: Pool, cancelled: bool, kind: Kind, pc: Pc, g: Gid, x: WorkMove, turn: Turn)
    requires DropInv(p) && WorkTurn(c, p, cancelled, kind, pc, g, x) == Some(turn)
    requires !Early(x)
    ensures DropInv(turn.pool) && Reach(p) <= Reach(turn.pool)
  {
    if x.DoMoveLock? {
      DropMoveShape(c, p, cancelled, kind, pc, g, turn);
    } else {
      WorkLogs(c, p, cancelled, kind, pc, g, x, turn);
    }
    if turn.pool.history != p.history {
      DropsSnoc(p.history, turn.pool.history[|p.history|]);
    }
  }

  lemma DropMoveShape(c: Config, p: Pool, cancelled: bool, kind: Kind, pc: Pc, g: Gid, turn: Turn)
    requires WorkTurn(c, p, cancelled, kind, pc, g, DoMoveLock) == Some(turn)
    ensures |turn.pool.dbs| == |p.dbs| && turn.pool.removal == p.removal
    ensures NoGrant(p.history, turn.pool.history) && NoDrop(p.history, turn.pool.history)
  {
  }

  lemma DropWork(c: Config, p: Pool, cancelled: bool, kind: Kind, pc: Pc, g: Gid, x: WorkMove, turn: Turn)
    requires DropInv(p) && WorkTurn(c, p, cancelled, kind, pc, g, x) == Some(turn)
    requires pc.ExtendLock? ==> !p.removal
    ensures DropInv(turn.pool) && Reach(p) <= Reach(turn.pool)
  {
    if Early(x) {
      DropWorkEarly(c, p, cancelled, kind, pc, g, x, turn);
    } else {
      DropWorkLate(c, p, cancelled, kind, pc, g, x, turn);
    }
  }

  lemma DropStep(c: Config, s: State, step: Step, t: State)
    requires FullState(c, s) && DropInv(s.pool) && Do(c, s, step) == Some(t)
    ensures DropInv(t.pool) && Reach(s.pool) <= Reach(t.pool)
  {
    match step
    case OfArrival(x) =>
      DropArrive(c, s.pool, s.sched, Client(s.nextClient), x, Arrive(c, s.pool, s.sched, Client(s.nextClient), x).value);
    case OfClient(g, x) =>
      assert InRange(s.pool, s.procs[g]);
      DropClient(c, s.pool, s.sched, s.procs[g], g, x, ClientTurn(c, s.pool, s.sched, s.procs[g], g, x).value);
    case OfWorker(g, x) =>
      var q := s.procs[g];
      if Live(q) {
        NoRemovalYet(c, s, g);
      }
      DropWork(c, s.pool, s.sched.cancelled, q.kind, q.pc, g, x, WorkTurn(c, s.pool, s.sched.cancelled, q.kind, q.pc, g, x).value);
    case OfSched(x) => SchedShape(c, s, x, t);
    case _ =>
  }

  lemma {:induction false} RunDrops(c: Config, mode: Mode, states: seq<State>, steps: seq<Step>, i: nat)
    requires Run(c, mode, states, steps) && i < |states|
    ensures DropInv(states[i].pool)
  {
    if i > 0 {
      RunStep(c, mode, states, steps, i - 1);
      RunDrops(c, mode, states, steps, i - 1);
      RunFull(c, mode, states, steps, i - 1);
      DropStep(c, states[i - 1], steps[i - 1], states[i]);
    }
  }

  /**
    Removal. At each iteration the loop's id is the last of the table. The ids dropped so far are
    exactly those from the table's size up, once each and from the top down, so a failure leaves
    exactly the lower ones tracked, and none of the dropped ids is in `ready`.
    */
  lemma RemovalLoop(c: Config, mode: Mode, states: seq<State>, steps: seq<Step>, i: nat)
    requires Run(c, mode, states, steps) && i < |states|
    ensures
      var p := states[i].pool;
      && (forall g <- states[i].procs :: states[i].procs[g].Remover? ==> states[i].procs[g].next + 1 == |p.dbs| && p.lock == Some(g))
      && (!p.removal ==> Drops(p.history) == [])
      && (forall k :: 0 <= k < |Drops(p.history)| ==> Drops(p.history)[k] == |p.dbs| + (|Drops(p.history)| - 1 - k))
      && (forall id :: id in p.ready ==> id < |p.dbs|)
  {
    RunDrops(c, mode, states, steps, i);
    RunFull(c, mode, states, steps, i);
    forall g <- states[i].procs | states[i].procs[g].Remover?
      ensures states[i].procs[g].next + 1 == |states[i].pool.dbs| && states[i].pool.lock == Some(g)
    {
      assert InRange(states[i].pool, states[i].procs[g]) && HoldsLock(states[i].procs[g]);
    }
  }

  /**
    After a complete removal an extend would find the pool full, no goroutine is on its way to the
    closed task channel, and a getter that had already received an id gets ErrInvalidIndex.
    */
  lemma AfterRemoval(c: Config, mode: Mode, states: seq<State>, steps: seq<Step>, i: nat)
    requires Run(c, mode, states, steps) && i < |states|
    requires states[i].pool.closed
    ensures states[i].pool.dbs == [] && |states[i].pool.dbs| == states[i].pool.cap && states[i].pool.ready == []
    ensures forall g <- states[i].procs :: !states[i].procs[g].GetPush? && !states[i].procs[g].GetTask? && !states[i].procs[g].GetSend?
    ensures forall g <- states[i].procs :: states[i].procs[g].GetWait? && states[i].pool.lock.None? ==>
      Do(c, states[i], OfClient(g, GetLock)) == Some(states[i].(procs := states[i].procs - {g}))
  {
    RunFull(c, mode, states, steps, i);
    var s := states[i];
    forall g <- s.procs
      ensures !s.procs[g].GetPush? && !s.procs[g].GetTask? && !s.procs[g].GetSend?
    {
      assert InRange(s.pool, s.procs[g]);
    }
    EmptyQueue(s.pool.ready, |s.pool.dbs|);
  }

  /** Before a removal begins, no goroutine's table access is out of range; the mutex holder's never is. */
  lemma IndexSafe(c: Config, mode: Mode, states: seq<State>, steps: seq<Step>, i: nat, g: Gid)
    requires Run(c, mode, states, steps) && i < |states| && g in states[i].procs
    ensures ProcId(states[i].procs[g]).Some? && (!states[i].pool.removal || states[i].pool.lock == Some(g)) ==>
      ProcId(states[i].procs[g]).value < |states[i].pool.dbs|
    ensures Live(states[i].procs[g]) ==> !states[i].pool.removal
  {
    RunFull(c, mode, states, steps, i);
    assert InRange(states[i].pool, states[i].procs[g]);
    if Live(states[i].procs[g]) {
      NoRemovalYet(c, states[i], g);
    }
  }
}
