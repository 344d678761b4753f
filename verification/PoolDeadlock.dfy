/**
  When Stop can no longer return: a getter holds the mutex and cannot avoid sending a task, the task
  channel is full and nobody empties it any more, and a tracked worker waits for the mutex. No step
  of any goroutine ends that.
  */
module PoolDeadlock {
  import opened Queues
  import opened PoolMachine
  import opened PoolTasks
  import opened PoolFull
  import opened PoolStop

  /** The control loop takes no further task: it has ended, or holds the stop task. */
  predicate Deaf(d: Sched) {
    d.cancelled || (d.control.Forwarding? && d.control.job.kind == StopJob)
  }

  /** A tracked worker that can go on only with the mutex. */
  predicate Waits(q: Proc) {
    Tracked(q) && (q.pc.ExtendLock? || q.pc.CleanRead? || q.pc.CleanSleep? || q.pc.RecLock? || q.pc.MoveLock?)
  }

  /** One for a worker about to take a recreation slot. */
  function SeekWeight(q: Proc): (n: nat) {
    if q.Work? && q.pc.RecSlot? then 1 else 0
  }

  function SeekOf(next: Option<Proc>): (n: nat) {
    if next.Some? then SeekWeight(next.value) else 0
  }

  /** Slots taken, and slots that can be taken without the mutex. */
  ghost function SlotsInReach(s: State): (n: nat) {
    s.pool.slots + Sum(SeekWeight, s.procs)
  }

  function Least(a: nat, b: nat): (r: nat) {
    if a < b then a else b
  }

  /** As long as the getter keeps the mutex, it will find databases missing. */
  ghost predicate RunsShort(c: Config, s: State) {
    |s.pool.dbs| < c.max || |s.pool.ready| + Least(c.max, SlotsInReach(s)) < c.initial
  }

  /** A getter that has a task to send, or cannot avoid asking for one. */
  ghost predicate WillAsk(c: Config, s: State, q: Proc) {
    q.GetTask? || ((q.GetSend? || q.GetPush?) && RunsShort(c, s))
  }

  ghost predicate Stuck(c: Config, s: State, g: Gid, w: Gid) {
    && Deaf(s.sched) && |s.sched.tasks| >= c.max + 1
    && s.pool.lock == Some(g) && g in s.procs && WillAsk(c, s, s.procs[g])
    && w in s.procs && Waits(s.procs[w])
  }

  /** The last stage: the getter stands before the full channel of a cancelled pool. */
  predicate Deadlocked(c: Config, s: State, g: Gid, w: Gid) {
    && s.sched.cancelled && |s.sched.tasks| >= c.max + 1
    && s.pool.lock == Some(g) && g in s.procs && s.procs[g].GetTask?
    && w in s.procs && Waits(s.procs[w])
  }

  // ---------------------------------------------------------------- what a goroutine can do without the mutex

  /** The table stays, `ready` does not grow, and no more slots come into reach. */
  predicate NoRelief(p: Pool, before: nat, p': Pool, next: nat) {
    && p'.dbs == p.dbs && |p'.ready| <= |p.ready| && p'.lock == p.lock
    && p'.slots + next <= p.slots + before
  }

  lemma WorkBlocked(c: Config, p: Pool, cancelled: bool, kind: Kind, pc: Pc, h: Gid, x: WorkMove, turn: Turn)
    requires WorkTurn(c, p, cancelled, kind, pc, h, x) == Some(turn) && p.lock.Some? && !pc.MoveSend?
    ensures NoRelief(p, SeekOf(Some(Work(kind, pc))), turn.pool, SeekOf(turn.next))
    ensures !Waits(Work(kind, pc)) && turn.task.None?
  {
  }

  lemma ArriveBlocked(c: Config, p: Pool, d: Sched, h: Gid, x: Arrival, turn: Turn)
    requires Arrive(c, p, d, h, x) == Some(turn) && p.lock.Some?
    ensures NoRelief(p, 0, turn.pool, SeekOf(turn.next)) && turn.task.None?
  {
  }

  lemma ClientBlocked(c: Config, p: Pool, d: Sched, q: Proc, h: Gid, x: ClientMove, turn: Turn)
    requires ClientTurn(c, p, d, q, h, x) == Some(turn) && p.lock.Some? && !q.Work? && !HoldsLock(q)
    ensures NoRelief(p, 0, turn.pool, SeekOf(turn.next)) && turn.task.None?
  {
  }

  /** The getter itself: it moves towards the task channel, and stays before it when that is full. */
  lemma GetterBlocked(c: Config, p: Pool, d: Sched, q: Proc, g: Gid, x: ClientMove, turn: Turn)
    requires ClientTurn(c, p, d, q, g, x) == Some(turn) && |d.tasks| >= c.max + 1
    requires q.GetSend? || (q.GetPush? && TaskAfterGrant(c, p).Some?) || q.GetTask?
    ensures NoRelief(p, 0, turn.pool, SeekOf(turn.next)) && turn.task.None?
    ensures turn.next.Some? && (turn.next.value.GetPush? || turn.next.value.GetTask?) && !q.GetTask?
  {
  }

  /** A turn of `h` leaves fewer slots in reach, or as many. */
  lemma TurnNoRelief(c: Config, s: State, h: Gid, turn: Turn, t: State)
    requires After(s, h, Some(turn)) == Some(t)
    requires NoRelief(s.pool, SeekOf(if h in s.procs then Some(s.procs[h]) else None), turn.pool, SeekOf(turn.next))
    ensures RunsShort(c, s) ==> RunsShort(c, t)
  {
    SumPut(SeekWeight, s.procs, h, turn.next);
  }

  // ---------------------------------------------------------------- every step keeps it

  /** Where a worker waits it stays, and a getter before the channel stays too. */
  ghost predicate Keeps(c: Config, s: State, t: State, g: Gid, w: Gid) {
    && Stuck(c, t, g, w)
    && w in s.procs && t.procs[w] == s.procs[w]
    && g in s.procs && (s.procs[g].GetTask? ==> t.procs[g].GetTask?) && (s.sched.cancelled ==> t.sched.cancelled)
  }

  lemma OtherTurnStuck(c: Config, s: State, h: Gid, turn: Turn, t: State, g: Gid, w: Gid)
    requires Stuck(c, s, g, w) && After(s, h, Some(turn)) == Some(t) && turn.task.None? && h != g && h != w
    requires NoRelief(s.pool, SeekOf(if h in s.procs then Some(s.procs[h]) else None), turn.pool, SeekOf(turn.next))
    ensures Keeps(c, s, t, g, w)
  {
    TurnNoRelief(c, s, h, turn, t);
  }

  lemma StuckArrive(c: Config, s: State, x: Arrival, t: State, g: Gid, w: Gid)
    requires ProcInv(s) && Stuck(c, s, g, w) && Do(c, s, OfArrival(x)) == Some(t)
    ensures Keeps(c, s, t, g, w)
  {
    var h := Client(s.nextClient);
    assert ProcOk(g, s.procs[g], s.nextClient, s.pool.removal) && ProcOk(w, s.procs[w], s.nextClient, s.pool.removal);
    assert h !in s.procs;
    var turn := Arrive(c, s.pool, s.sched, h, x).value;
    ArriveBlocked(c, s.pool, s.sched, h, x, turn);
    OtherTurnStuck(c, s.(nextClient := s.nextClient + 1), h, turn, t, g, w);
  }

  lemma StuckClient(c: Config, s: State, h: Gid, x: ClientMove, t: State, g: Gid, w: Gid)
    requires LockInv(s.pool, s.procs) && s.pool.slots <= c.max && Stuck(c, s, g, w) && Do(c, s, OfClient(h, x)) == Some(t)
    ensures Keeps(c, s, t, g, w)
  {
    var turn := ClientTurn(c, s.pool, s.sched, s.procs[h], h, x).value;
    assert HoldsLock(s.procs[h]) <==> s.pool.lock == Some(h);
    if h == g {
      GetterBlocked(c, s.pool, s.sched, s.procs[g], g, x, turn);
      TurnNoRelief(c, s, g, turn, t);
    } else {
      ClientBlocked(c, s.pool, s.sched, s.procs[h], h, x, turn);
      OtherTurnStuck(c, s, h, turn, t, g, w);
    }
  }

  lemma StuckWork(c: Config, s: State, h: Gid, x: WorkMove, t: State, g: Gid, w: Gid)
    requires LockInv(s.pool, s.procs) && Stuck(c, s, g, w) && Do(c, s, OfWorker(h, x)) == Some(t)
    ensures Keeps(c, s, t, g, w)
  {
    var q := s.procs[h];
    assert HoldsLock(q) <==> s.pool.lock == Some(h);
    var turn := WorkTurn(c, s.pool, s.sched.cancelled, q.kind, q.pc, h, x).value;
    WorkBlocked(c, s.pool, s.sched.cancelled, q.kind, q.pc, h, x, turn);
    OtherTurnStuck(c, s, h, turn, t, g, w);
  }

  lemma StuckReport(c: Config, s: State, h: Gid, x: Report, t: State, g: Gid, w: Gid)
    requires Stuck(c, s, g, w) && Do(c, s, OfReport(h, x)) == Some(t)
    ensures Keeps(c, s, t, g, w)
  {
    var next := if x == ToWaitGroup then Some(Work(s.procs[h].kind, SemRelease)) else None;
    assert t.procs == Put(s.procs, h, next);
    SumPut(SeekWeight, s.procs, h, next);
  }

  lemma StuckSched(c: Config, s: State, x: SchedStep, t: State, g: Gid, w: Gid)
    requires SchedInv(c, s) && Stuck(c, s, g, w) && DoSched(c, s, x) == Some(t)
    ensures Keeps(c, s, t, g, w)
  {
    SchedShape(c, s, x, t);
    if x.LoopSpawn? {
      var j := s.sched.loop.job;
      assert s.sched.ledger[j.serial] == Picked;
      SumPut(SeekWeight, s.procs, TaskRun(j.serial), Some(StartPc(j.kind)));
    }
  }

  /** Whatever step is taken, the getter keeps the mutex and the worker goes on waiting. */
  lemma StuckStep(c: Config, s: State, step: Step, t: State, g: Gid, w: Gid)
    requires FullState(c, s) && s.pool.slots <= c.max && Stuck(c, s, g, w) && Do(c, s, step) == Some(t)
    ensures Keeps(c, s, t, g, w)
  {
    match step
    case OfTick(_) =>
    case OfArrival(x) => StuckArrive(c, s, x, t, g, w);
    case OfClient(h, x) => StuckClient(c, s, h, x, t, g, w);
    case OfWorker(h, x) => StuckWork(c, s, h, x, t, g, w);
    case OfReport(h, x) => StuckReport(c, s, h, x, t, g, w);
    case OfSched(x) => StuckSched(c, s, x, t, g, w);
  }

  // ---------------------------------------------------------------- over runs

  lemma SlotsKept(c: Config, s: State, step: Step, t: State)
    requires s.pool.slots <= c.max && Do(c, s, step) == Some(t)
    ensures t.pool.slots <= c.max
  {
    match step
    case OfSched(x) => SchedShape(c, s, x, t);
    case OfWorker(g, x) =>
      var q := s.procs[g];
      WorkSlotsKept(c, s.pool, s.sched.cancelled, q.kind, q.pc, g, x, WorkTurn(c, s.pool, s.sched.cancelled, q.kind, q.pc, g, x).value);
    case _ =>
  }

  lemma WorkSlotsKept(c: Config, p: Pool, cancelled: bool, kind: Kind, pc: Pc, g: Gid, x: WorkMove, turn: Turn)
    requires WorkTurn(c, p, cancelled, kind, pc, g, x) == Some(turn) && p.slots <= c.max
    ensures turn.pool.slots <= c.max
  {
  }

  lemma {:induction false} RunSlotsBounded(c: Config, mode: Mode, states: seq<State>, steps: seq<Step>, i: nat)
    requires Run(c, mode, states, steps) && i < |states|
    ensures states[i].pool.slots <= c.max
  {
    if i > 0 {
      RunSlotsBounded(c, mode, states, steps, i - 1);
      RunStep(c, mode, states, steps, i - 1);
      SlotsKept(c, states[i - 1], steps[i - 1], states[i]);
    }
  }

  lemma StuckHolds(c: Config, s: State, g: Gid, w: Gid)
    requires SchedInv(c, s) && Stuck(c, s, g, w)
    ensures s.sched.wg > 0 && !s.sched.stop.Stopped?
  {
    NoRemovalYet(c, s, w);
    assert w in LiveSet(s.procs);
  }

  lemma StuckRunStep(c: Config, mode: Mode, states: seq<State>, steps: seq<Step>, i: nat, g: Gid, w: Gid)
    requires Run(c, mode, states, steps) && i < |steps| && Stuck(c, states[i], g, w)
    ensures Keeps(c, states[i], states[i + 1], g, w)
  {
    RunStep(c, mode, states, steps, i);
    RunFull(c, mode, states, steps, i);
    RunSlotsBounded(c, mode, states, steps, i);
    StuckStep(c, states[i], steps[i], states[i + 1], g, w);
  }

  /** Stuck is for ever: in every later state of the run it is so still, and Stop cannot return. */
  lemma {:induction false} StuckLasts(c: Config, mode: Mode, states: seq<State>, steps: seq<Step>, i: nat, j: nat, g: Gid, w: Gid)
    requires Run(c, mode, states, steps) && i <= j < |states| && Stuck(c, states[i], g, w)
    ensures Stuck(c, states[j], g, w) && states[j].procs[w] == states[i].procs[w]
    ensures Do(c, states[j], OfSched(StopReturn)).None? && !states[j].sched.stop.Stopped?
    decreases j
  {
    if i < j {
      StuckLasts(c, mode, states, steps, i, j - 1, g, w);
      StuckRunStep(c, mode, states, steps, j - 1, g, w);
    }
    RunKeeps(c, mode, states, steps, j);
    StuckHolds(c, states[j], g, w);
  }

  /** The deadlock lasts likewise. */
  lemma {:induction false} DeadlockLasts(c: Config, mode: Mode, states: seq<State>, steps: seq<Step>, i: nat, j: nat, g: Gid, w: Gid)
    requires Run(c, mode, states, steps) && i <= j < |states| && Deadlocked(c, states[i], g, w)
    ensures Deadlocked(c, states[j], g, w) && states[j].procs[w] == states[i].procs[w]
    ensures !states[j].sched.stop.Stopped?
    decreases j
  {
    assert Stuck(c, states[i], g, w);
    StuckLasts(c, mode, states, steps, i, j, g, w);
    if i < j {
      DeadlockLasts(c, mode, states, steps, i, j - 1, g, w);
      assert Stuck(c, states[j - 1], g, w);
      StuckRunStep(c, mode, states, steps, j - 1, g, w);
    }
  }
}
