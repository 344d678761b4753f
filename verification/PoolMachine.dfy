/**
  The test database pool of one template hash as a concurrent step system.

  A step is one critical section of the pool's mutex or one channel operation outside of it.
  Where a channel operation happens while the mutex is held (the sends to `dirty`, `ready` and
  the task channel, the drain and refill of `dirty`), the mutex holder is explicit and the
  operation is a step of its own.
  */
module PoolMachine {
  import opened Queues

  // ---------------------------------------------------------------- data

  datatype DbState = Ready | Dirty | Recreating

  /** A tracked test database. `blockUntil` is the earliest moment automatic cleaning may start. */
  datatype TestDb = TestDb(id: nat, state: DbState, generation: nat, blockUntil: int)

  datatype Config = Config(initial: int, max: nat, parallel: nat, lifetime: int)

  /** The sizes manager.New settles on (lines 58-69): at least one initial database, never more than the maximum. */
  function Normalise(c: Config): (r: Config)
    ensures r.parallel >= 1 && r.max == c.max && r.lifetime == c.lifetime
    ensures c.initial >= 0 && c.max >= 1 ==> 1 <= r.initial <= r.max
    ensures 1 <= c.initial <= c.max && c.parallel >= 1 ==> r == c
  {
    var i := if c.initial == 0 then 1 else c.initial;
    Config(if i > c.max && c.max > 0 then c.max else i, c.max, if c.parallel < 1 then 1 else c.parallel, c.lifetime)
  }

  datatype JobKind = ExtendJob | CleanJob | StopJob
  datatype Job = Job(kind: JobKind, serial: nat)

  /** A goroutine: the run of a task taken from the task channel, or a client call. */
  datatype Gid = TaskRun(serial: nat) | Client(n: nat)

  datatype Kind = Extend | Clean | Manual
  datatype ManualOp = Return | Recreate

  /** Where a worker goroutine stands; named after what it does next. */
  datatype Pc =
    | ExtendLock
    | CleanTake
    | CleanRead(id: nat)
    | CleanSleep(id: nat, generation: nat, until: int)
    | RecCheck(id: nat)
    | RecLock(id: nat)
    | RecSlot(id: nat)
    | RecLoop(id: nat)
    | RecCall(id: nat, began: nat)
    | MoveLock(id: nat)
    | MoveSend(id: nat)
    | SlotRelease
    | Done
    | SemRelease

  datatype Proc =
    | GetWait(id: nat)
    | GetSend(id: nat)
    | GetPush(id: nat)
    | GetTask(id: nat, task: JobKind)
    | Drain(op: ManualOp, id: nat, buffer: seq<nat>)
    | Refill(op: ManualOp, id: nat, buffer: seq<nat>)
    | ReturnSend(id: nat)
    | Work(kind: Kind, pc: Pc)
    | Remover(next: nat)

  datatype Outcome = Created | InUse | Failed

  datatype Event =
    | Granted(id: nat, time: int, generation: nat)
    | Unlocked(id: nat)
    | Popped(id: nat)
    | CallStart(id: nat)
    | CallOk(id: nat, began: nat)
    | CallFailed(id: nat)
    | Regenerated(id: nat)
    | Dropped(id: nat)

  datatype ControlPc = NotStarted | Starting | Receiving | Forwarding(job: Job) | ControlExited
  datatype LoopPc = NoLoop | Idle | Acquiring(job: Job) | LoopExited
  datatype StopPc = NoStop | StopSending | StopWaiting | Stopped

  /** Where a task taken from the task channel is. */
  datatype Place = Held | Queued | Picked | Running | Dropping | Finished | Discarded

  /** The task system: task channel, control loop, worker loop, wait group and semaphore. */
  datatype Sched = Sched(
    tasks: seq<Job>,
    nextJob: nat,
    running: bool,
    ctxSet: bool,
    cancelled: bool,
    control: ControlPc,
    workChan: seq<Job>,
    workCap: nat,
    workClosed: bool,
    loop: LoopPc,
    wg: nat,
    sem: nat,
    stop: StopPc,
    ledger: map<nat, Place>)

  /** What the goroutines share besides the task system. `closed` says the task channel is closed. */
  datatype Pool = Pool(
    dbs: seq<TestDb>,
    cap: nat,
    ready: seq<nat>,
    dirty: seq<nat>,
    slots: nat,
    lock: Option<Gid>,
    closed: bool,
    removal: bool,
    now: int,
    history: seq<Event>,
    abandoned: set<nat>)

  datatype State = State(pool: Pool, sched: Sched, procs: map<Gid, Proc>, nextClient: nat)

  const NoTasks := Sched([], 0, false, false, false, NotStarted, [], 0, false, NoLoop, 0, 0, NoStop, map[])

  function Init(c: Config, now: int): (s: State) {
    State(Pool([], c.max, [], [], 0, None, false, false, now, [], {}), NoTasks, map[], 0)
  }

  // ---------------------------------------------------------------- steps

  /** A client call comes in; its goroutine is new. */
  datatype Arrival =
    | GetReceive
    | ReturnLock(id: nat)
    | RecreateCheck(id: nat)
    | ReturnAtomic(id: nat)
    | RecreateAtomic(id: nat)
    | RemoveLock

  datatype ClientMove =
    | GetLock
    | GetSendDirty
    | GetDecide
    | GetPushTask
    | DrainTake
    | DrainEnd
    | RefillSend
    | RefillEnd
    | ReturnSendReady
    | RemoveDrop
    | RemoveLast
    | RemoveFail

  datatype WorkMove =
    | DoExtend
    | DoCleanTake
    | DoCleanSkip
    | DoCleanRead
    | DoCleanWake
    | DoRecCheck
    | DoRecLock(mark: bool)
    | DoRecSlot
    | DoRecLoop
    | DoRecCall(outcome: Outcome)
    | DoMoveLock
    | DoMoveSend
    | DoSlotRelease

  /** The two reports a tracked worker makes when it is through. */
  datatype Report = ToWaitGroup | ToSemaphore

  datatype SchedStep =
    | Start
    | ControlInit
    | ControlTake
    | ControlForward
    | ControlHandoff
    | ControlStop
    | LoopTake
    | LoopClosed
    | LoopCancel
    | LoopSpawn
    | StopLock
    | StopSend
    | StopReturn

  datatype Step =
    | OfTick(time: int)
    | OfArrival(arrival: Arrival)
    | OfClient(g: Gid, move: ClientMove)
    | OfWorker(g: Gid, work: WorkMove)
    | OfReport(g: Gid, report: Report)
    | OfSched(sched: SchedStep)

  /** The outcome of a goroutine's step: the shared state, its own next state if it goes on, a task it sends. */
  datatype Turn = Turn(pool: Pool, next: Option<Proc>, task: Option<JobKind>)

  function PushTask(sched: Sched, kind: JobKind): (r: Sched) {
    sched.(tasks := sched.tasks + [Job(kind, sched.nextJob)], nextJob := sched.nextJob + 1)
  }

  function Put(procs: map<Gid, Proc>, g: Gid, next: Option<Proc>): (r: map<Gid, Proc>) {
    if next.Some? then procs[g := next.value] else procs - {g}
  }

  function After(s: State, g: Gid, turn: Option<Turn>): (r: Option<State>) {
    match turn
    case None => None
    case Some(Turn(pool, next, task)) =>
      var sched := if task.Some? then PushTask(s.sched, task.value) else s.sched;
      Some(State(pool, sched, Put(s.procs, g, next), s.nextClient))
  }

  /** The state after a step, or None when the step is blocked or its goroutine is elsewhere. */
  function Do(c: Config, s: State, step: Step): (r: Option<State>) {
    match step
    case OfTick(time) => if s.pool.now <= time then Some(s.(pool := s.pool.(now := time))) else None
    case OfArrival(x) => After(s.(nextClient := s.nextClient + 1), Client(s.nextClient), Arrive(c, s.pool, s.sched, Client(s.nextClient), x))
    case OfClient(g, x) =>
      if g in s.procs && !s.procs[g].Work? then After(s, g, ClientTurn(c, s.pool, s.sched, s.procs[g], g, x)) else None
    case OfWorker(g, x) =>
      if g in s.procs && s.procs[g].Work? then After(s, g, WorkTurn(c, s.pool, s.sched.cancelled, s.procs[g].kind, s.procs[g].pc, g, x))
      else None
    case OfReport(g, x) => if g in s.procs && s.procs[g].Work? then DoReport(s, g, s.procs[g].kind, s.procs[g].pc, x) else None
    case OfSched(x) => DoSched(c, s, x)
  }

  // ---------------------------------------------------------------- client calls

  /** GetTestDatabase flags the database as dirty and blocks automatic cleaning for a while. */
  function Grant(d: TestDb, until: int): (r: TestDb) {
    d.(state := Dirty, blockUntil := until)
  }

  /** The task a grant asks for, given the sizes it sees while holding the mutex. */
  function TaskAfterGrant(c: Config, p: Pool): (r: Option<JobKind>) {
    if |p.dbs| < c.max then Some(ExtendJob)
    else if |p.ready| + p.slots < c.initial then Some(CleanJob)
    else None
  }

  predicate CanReturn(p: Pool, id: nat) {
    id < |p.dbs| && p.dbs[id].state == Dirty
  }

  /** A database goes from dirty to ready without being recreated. */
  function Unlock(p: Pool, id: nat): (r: Pool)
    requires id < |p.dbs|
  {
    p.(dbs := p.dbs[id := p.dbs[id].(state := Ready)], history := p.history + [Unlocked(id)])
  }

  function Arrive(c: Config, p: Pool, d: Sched, g: Gid, x: Arrival): (r: Option<Turn>) {
    match x
    case GetReceive =>
      if |p.ready| > 0 then Some(Turn(p.(ready := p.ready[1..]), Some(GetWait(p.ready[0])), None)) else None
    case ReturnLock(id) =>
      if p.lock.Some? then None
      else if CanReturn(p, id) then Some(Turn(Unlock(p, id).(lock := Some(g)), Some(Drain(Return, id, [])), None))
      else Some(Turn(p, None, None))
    case RecreateCheck(id) =>
      if p.lock.Some? then None
      else if id < |p.dbs| then Some(Turn(p, Some(Drain(Recreate, id, [])), None))
      else Some(Turn(p, None, None))
    case ReturnAtomic(id) =>
      if p.lock.Some? then None
      else if !CanReturn(p, id) then Some(Turn(p, None, None))
      else if |p.ready| < c.max then
        Some(Turn(Unlock(p, id).(dirty := Without(p.dirty, id), ready := p.ready + [id]), None, None))
      else None
    case RecreateAtomic(id) =>
      if p.lock.Some? then None
      else if id >= |p.dbs| then Some(Turn(p, None, None))
      else if d.ctxSet then Some(Turn(p.(dirty := Without(p.dirty, id)), Some(Work(Manual, RecCheck(id))), None))
      else None
    case RemoveLock =>
      if d.stop.Stopped? && p.lock.None? then
        if p.dbs == [] then Some(Turn(p, None, None))
        else Some(Turn(p.(lock := Some(g), removal := true), Some(Remover(|p.dbs| - 1)), None))
      else None
  }

  /** RemoveAll takes a dropped database out of both queues. */
  function Forget(p: Pool, id: nat): (r: Pool) {
    p.(dirty := Without(p.dirty, id), ready := Without(p.ready, id), history := p.history + [Dropped(id)])
  }

  function ClientTurn(c: Config, p: Pool, d: Sched, q: Proc, g: Gid, x: ClientMove): (r: Option<Turn>) {
    match x
    case GetLock =>
      if q.GetWait? && p.lock.None? then
        if q.id < |p.dbs| && p.dbs[q.id].state == Ready then
          Some(Turn(p.(dbs := p.dbs[q.id := Grant(p.dbs[q.id], p.now + c.lifetime)],
                       lock := Some(g),
                       history := p.history + [Granted(q.id, p.now, p.dbs[q.id].generation)]),
                    Some(GetSend(q.id)), None))
        else Some(Turn(p, None, None))
      else None
    case GetSendDirty =>
      if q.GetSend? && |p.dirty| < c.max then Some(Turn(p.(dirty := p.dirty + [q.id]), Some(GetPush(q.id)), None)) else None
    case GetDecide =>
      if q.GetPush? then
        match TaskAfterGrant(c, p)
        case None => Some(Turn(p.(lock := None), None, None))
        case Some(task) => Some(Turn(p, Some(GetTask(q.id, task)), None))
      else None
    case GetPushTask =>
      if q.GetTask? && |d.tasks| < c.max + 1 && !p.closed then Some(Turn(p.(lock := None), None, Some(q.task))) else None
    case DrainTake =>
      if q.Drain? && |p.dirty| > 0 then
        if p.dirty[0] == q.id then Some(Turn(p.(dirty := p.dirty[1..]), Some(q), None))
        else if |q.buffer| < c.max then
          Some(Turn(p.(dirty := p.dirty[1..]), Some(Drain(q.op, q.id, q.buffer + [p.dirty[0]])), None))
        else None
      else None
    case DrainEnd =>
      if q.Drain? && p.dirty == [] then Some(Turn(p, Some(Refill(q.op, q.id, q.buffer)), None)) else None
    case RefillSend =>
      if q.Refill? && q.buffer != [] && |p.dirty| < c.max then
        Some(Turn(p.(dirty := p.dirty + [q.buffer[0]]), Some(Refill(q.op, q.id, q.buffer[1..])), None))
      else None
    case RefillEnd =>
      if q.Refill? && q.buffer == [] then
        if q.op == Return then Some(Turn(p, Some(ReturnSend(q.id)), None))
        else if d.ctxSet then Some(Turn(p, Some(Work(Manual, RecCheck(q.id))), None))
        else None
      else None
    case ReturnSendReady =>
      if q.ReturnSend? && |p.ready| < c.max then Some(Turn(p.(ready := p.ready + [q.id], lock := None), None, None)) else None
    case RemoveDrop =>
      if q.Remover? && q.next > 0 && |p.dbs| > 1 then
        Some(Turn(Forget(p, q.next).(dbs := p.dbs[..|p.dbs| - 1]), Some(Remover(q.next - 1)), None))
      else None
    case RemoveLast =>
      if q.Remover? && q.next == 0 then
        Some(Turn(Forget(p, 0).(dbs := [], cap := 0, lock := None, closed := true), None, None))
      else None
    case RemoveFail =>
      if q.Remover? then Some(Turn(p.(lock := None), None, None)) else None
  }

  // ---------------------------------------------------------------- workers

  function Goto(p: Pool, kind: Kind, pc: Pc): (r: Option<Turn>) {
    Some(Turn(p, Some(Work(kind, pc)), None))
  }

  /** A worker leaves: a tracked one still has to report to the wait group and the semaphore. */
  function Leave(p: Pool, kind: Kind): (r: Option<Turn>) {
    Some(Turn(p, if kind == Manual then None else Some(Work(kind, Done)), None))
  }

  function Abandon(p: Pool, id: nat): (r: Pool) {
    p.(abandoned := p.abandoned + {id})
  }

  function Log(p: Pool, e: Event): (r: Pool) {
    p.(history := p.history + [e])
  }

  function WorkTurn(c: Config, p: Pool, cancelled: bool, kind: Kind, pc: Pc, g: Gid, x: WorkMove): (r: Option<Turn>) {
    match x
    case DoExtend =>
      if pc.ExtendLock? && p.lock.None? then
        if |p.dbs| == p.cap then Leave(p, kind)
        else Goto(p.(dbs := p.dbs + [TestDb(|p.dbs|, Dirty, 0, 0)]), kind, RecCheck(|p.dbs|))
      else None
    case DoCleanTake =>
      if pc.CleanTake? && |p.dirty| > 0 then Goto(Log(p.(dirty := p.dirty[1..]), Popped(p.dirty[0])), kind, CleanRead(p.dirty[0]))
      else None
    case DoCleanSkip =>
      if pc.CleanTake? && (p.dirty == [] || cancelled) then Leave(p, kind) else None
    case DoCleanRead =>
      if pc.CleanRead? && p.lock.None? then
        if pc.id >= |p.dbs| then Leave(p, kind)
        else if p.dbs[pc.id].blockUntil <= p.now then Goto(p, kind, RecCheck(pc.id))
        else Goto(p, kind, CleanSleep(pc.id, p.dbs[pc.id].generation, p.dbs[pc.id].blockUntil))
      else None
    case DoCleanWake =>
      if pc.CleanSleep? && pc.until <= p.now && p.lock.None? && pc.id < |p.dbs| then
        if p.dbs[pc.id].generation != pc.generation || p.dbs[pc.id].state != Dirty then Leave(p, kind)
        else Goto(p, kind, RecCheck(pc.id))
      else None
    case DoRecCheck =>
      if pc.RecCheck? then
        if cancelled then Leave(Abandon(p, pc.id), kind) else Goto(p, kind, RecLock(pc.id))
      else None
    case DoRecLock(mark) =>
      if pc.RecLock? && p.lock.None? && pc.id < |p.dbs| then
        if p.dbs[pc.id].state != Dirty then Leave(p, kind)
        else Goto(p.(dbs := p.dbs[pc.id := p.dbs[pc.id].(state := if mark then Recreating else Dirty)]), kind, RecSlot(pc.id))
      else None
    case DoRecSlot =>
      if pc.RecSlot? && p.slots < c.max then Goto(p.(slots := p.slots + 1), kind, RecLoop(pc.id)) else None
    case DoRecLoop =>
      if pc.RecLoop? then
        if cancelled then Goto(Abandon(p, pc.id), kind, SlotRelease)
        else Goto(Log(p, CallStart(pc.id)), kind, RecCall(pc.id, |p.history|))
      else None
    case DoRecCall(outcome) =>
      if pc.RecCall? then
        match outcome
        case Created => Goto(Log(p, CallOk(pc.id, pc.began)), kind, MoveLock(pc.id))
        case InUse => Goto(Log(p, CallFailed(pc.id)), kind, RecLoop(pc.id))
        case Failed => Goto(Abandon(Log(p, CallFailed(pc.id)), pc.id), kind, SlotRelease)
      else None
    case DoMoveLock =>
      if pc.MoveLock? && p.lock.None? then
        if cancelled then Goto(Abandon(p, pc.id), kind, SlotRelease)
        else if pc.id >= |p.dbs| then None
        else if p.dbs[pc.id].state == Ready then Goto(p, kind, SlotRelease)
        else
          var d := p.dbs[pc.id];
          Goto(Log(p.(dbs := p.dbs[pc.id := d.(generation := d.generation + 1, state := Ready)], lock := Some(g)), Regenerated(pc.id)),
               kind, MoveSend(pc.id))
      else None
    case DoMoveSend =>
      if pc.MoveSend? && |p.ready| < c.max && pc.id < |p.dbs| then
        Goto(p.(ready := p.ready + [p.dbs[pc.id].id], lock := None), kind, SlotRelease)
      else None
    case DoSlotRelease =>
      if pc.SlotRelease? && p.slots > 0 then Leave(p.(slots := p.slots - 1), kind) else None
  }

  /** The steps before a worker holds a recreation slot. */
  predicate Early(x: WorkMove) {
    x.DoExtend? || x.DoCleanTake? || x.DoCleanSkip? || x.DoCleanRead? || x.DoCleanWake? || x.DoRecCheck? || x.DoRecLock?
  }

  function DoReport(s: State, g: Gid, kind: Kind, pc: Pc, x: Report): (r: Option<State>) {
    match x
    case ToWaitGroup =>
      if pc.Done? && s.sched.wg > 0 then
        Some(s.(procs := s.procs[g := Work(kind, SemRelease)], sched := s.sched.(wg := s.sched.wg - 1)))
      else None
    case ToSemaphore =>
      if pc.SemRelease? && s.sched.sem > 0 && g.TaskRun? then
        Some(s.(procs := s.procs - {g},
                sched := s.sched.(sem := s.sched.sem - 1, ledger := s.sched.ledger[g.serial := Finished])))
      else None
  }

  // ---------------------------------------------------------------- task system

  /** `n` extend tasks with consecutive serial numbers from `from` on. */
  function InitialJobs(from: nat, n: nat): (r: seq<Job>)
    ensures |r| == n
    ensures forall i :: 0 <= i < n ==> r[i] == Job(ExtendJob, from + i)
  {
    seq(n, i requires 0 <= i < n => Job(ExtendJob, from + i))
  }

  function InitialCount(c: Config): (n: nat) {
    if c.initial < 0 then 0 else c.initial
  }

  function Serials(q: seq<Job>): (r: set<nat>) {
    set j | j in q :: j.serial
  }

  function StartPc(kind: JobKind): (p: Proc) {
    if kind == ExtendJob then Work(Extend, ExtendLock) else Work(Clean, CleanTake)
  }

  function DoSched(c: Config, s: State, step: SchedStep): (r: Option<State>) {
    var d := s.sched;
    match step
    case Start =>
      var n := InitialCount(c);
      if d.control.NotStarted? && s.pool.lock.None? && |d.tasks| + n <= c.max + 1 then
        Some(s.(sched := d.(running := true, ctxSet := true, control := Starting, wg := d.wg + 1,
                            tasks := d.tasks + InitialJobs(d.nextJob, n), nextJob := d.nextJob + n)))
      else None
    case ControlInit =>
      if d.control.Starting? then
        Some(s.(sched := d.(control := Receiving, workCap := |d.tasks|, loop := Idle, wg := d.wg + 1)))
      else None
    case ControlTake =>
      if d.control.Receiving? && |d.tasks| > 0 then
        Some(s.(sched := d.(control := Forwarding(d.tasks[0]), tasks := d.tasks[1..],
                            ledger := d.ledger[d.tasks[0].serial := Held])))
      else None
    case ControlForward =>
      if d.control.Forwarding? && d.control.job.kind != StopJob then
        var j := d.control.job;
        if |d.workChan| < d.workCap then
          Some(s.(sched := d.(control := Receiving, workChan := d.workChan + [j], ledger := d.ledger[j.serial := Queued])))
        else
          Some(s.(sched := d.(control := Receiving, ledger := d.ledger[j.serial := Dropping])))
      else None
    case ControlHandoff =>
      // an unbuffered worker channel passes a task on only when the worker loop is already waiting
      if d.control.Forwarding? && d.control.job.kind != StopJob && d.workCap == 0 && d.loop.Idle? then
        Some(s.(sched := d.(control := Receiving, loop := Acquiring(d.control.job),
                            ledger := d.ledger[d.control.job.serial := Picked])))
      else None
    case ControlStop =>
      if d.control.Forwarding? && d.control.job.kind == StopJob && d.wg > 0 then
        Some(s.(sched := d.(control := ControlExited, workClosed := true, cancelled := true, wg := d.wg - 1,
                            ledger := d.ledger[d.control.job.serial := Finished])))
      else None
    case LoopTake =>
      if d.loop.Idle? && |d.workChan| > 0 then
        Some(s.(sched := d.(loop := Acquiring(d.workChan[0]), workChan := d.workChan[1..],
                            ledger := d.ledger[d.workChan[0].serial := Picked])))
      else None
    case LoopClosed =>
      if d.loop.Idle? && d.workChan == [] && d.workClosed && d.wg > 0 then
        Some(s.(sched := d.(loop := LoopExited, wg := d.wg - 1)))
      else None
    case LoopCancel =>
      if d.loop.Acquiring? && d.cancelled && d.wg > 0 then
        var gone := Serials(d.workChan) + {d.loop.job.serial};
        Some(s.(sched := d.(loop := LoopExited, workChan := [], wg := d.wg - 1,
                            ledger := map n | n in d.ledger :: if n in gone then Discarded else d.ledger[n])))
      else None
    case LoopSpawn =>
      if d.loop.Acquiring? && d.sem < c.parallel then
        var j := d.loop.job;
        Some(s.(procs := s.procs[TaskRun(j.serial) := StartPc(j.kind)],
                sched := d.(loop := Idle, sem := d.sem + 1, wg := d.wg + 1, ledger := d.ledger[j.serial := Running])))
      else None
    case StopLock =>
      if s.pool.lock.None? && d.running && d.stop.NoStop? then Some(s.(sched := d.(running := false, stop := StopSending)))
      else None
    case StopSend =>
      if d.stop.StopSending? && |d.tasks| < c.max + 1 then Some(s.(sched := PushTask(d, StopJob).(stop := StopWaiting)))
      else None
    case StopReturn =>
      if d.stop.StopWaiting? && d.wg == 0 then Some(s.(sched := d.(ctxSet := false, stop := Stopped)))
      else None
  }

  // ---------------------------------------------------------------- runs

  datatype Mode = Full | QueuedManual | Automatic

  predicate ReturnsQueued(p: Pool, id: nat) {
    CanReturn(p, id) ==> id in p.dirty
  }

  predicate RecreatesQueued(p: Pool, id: nat) {
    id < |p.dbs| ==> id in p.dirty
  }

  /**
    Full: every operation, on any id, at any time.
    QueuedManual: a manual return or recreate is atomic, and it either has no effect or hits an
    id that sits in `dirty`, so that no cleaner has claimed it.
    Automatic: no manual return or recreate and no removal.
    */
  predicate Allowed(mode: Mode, s: State, step: Step) {
    step.OfArrival? ==>
      match step.arrival
      case GetReceive => true
      case ReturnLock(_) => mode.Full?
      case RecreateCheck(_) => mode.Full?
      case ReturnAtomic(id) => mode.Full? || (mode.QueuedManual? && ReturnsQueued(s.pool, id))
      case RecreateAtomic(id) => mode.Full? || (mode.QueuedManual? && RecreatesQueued(s.pool, id))
      case RemoveLock => !mode.Automatic?
  }

  ghost predicate StepAt(c: Config, mode: Mode, states: seq<State>, steps: seq<Step>, i: nat)
    requires |states| == |steps| + 1
  {
    i < |steps| ==> Allowed(mode, states[i], steps[i]) && Do(c, states[i], steps[i]) == Some(states[i + 1])
  }

  /** `states` is a run of the pool from its creation. */
  ghost predicate Run(c: Config, mode: Mode, states: seq<State>, steps: seq<Step>) {
    && |states| == |steps| + 1
    && states[0] == Init(c, states[0].pool.now)
    && forall i: nat :: StepAt(c, mode, states, steps, i)
  }

  lemma RunStep(c: Config, mode: Mode, states: seq<State>, steps: seq<Step>, i: nat)
    requires Run(c, mode, states, steps) && i < |steps|
    ensures Allowed(mode, states[i], steps[i]) && Do(c, states[i], steps[i]) == Some(states[i + 1])
  {
    assert StepAt(c, mode, states, steps, i);
  }

  ghost predicate KeptAt(inv: State -> bool, states: seq<State>, i: nat) {
    i + 1 < |states| && inv(states[i]) ==> inv(states[i + 1])
  }

  /** What holds at the start and is kept by every step holds all along. */
  lemma {:induction false} AlongRun(inv: State -> bool, states: seq<State>, i: nat)
    requires i < |states| && inv(states[0]) && forall k: nat :: KeptAt(inv, states, k)
    ensures inv(states[i])
  {
    if i > 0 {
      AlongRun(inv, states, i - 1);
      assert KeptAt(inv, states, i - 1);
    }
  }
}
