/**
  The task system: wait group, semaphore, and the place of every task taken from the task
  channel, over every run of the pool.
  */
module PoolTasks {
  import opened Queues
  import opened PoolMachine

  predicate Tracked(p: Proc) {
    p.Work? && p.kind != Manual
  }

  predicate Live(p: Proc) {
    Tracked(p) && p.pc != SemRelease
  }

  function TrackedSet(procs: map<Gid, Proc>): (r: set<Gid>) {
    set g | g in procs && Tracked(procs[g])
  }

  function LiveSet(procs: map<Gid, Proc>): (r: set<Gid>) {
    set g | g in procs && Live(procs[g])
  }

  function ControlAlive(d: Sched): (n: nat) {
    if d.control.NotStarted? || d.control.ControlExited? then 0 else 1
  }

  function LoopAlive(d: Sched): (n: nat) {
    if d.loop.NoLoop? || d.loop.LoopExited? then 0 else 1
  }

  predicate ManualPc(pc: Pc) {
    !pc.ExtendLock? && !pc.CleanTake? && !pc.CleanRead? && !pc.CleanSleep? && !pc.Done? && !pc.SemRelease?
  }

  predicate ProcOk(g: Gid, p: Proc, nextClient: nat, removal: bool) {
    && (Tracked(p) <==> g.TaskRun?)
    && (g.Client? ==> g.n < nextClient)
    && (p.Work? && p.kind == Manual ==> ManualPc(p.pc))
    && (p.Work? && p.kind == Clean ==> p.pc != ExtendLock)
    && (p.Remover? ==> removal)
  }

  ghost predicate ProcInv(s: State) {
    forall g <- s.procs :: ProcOk(g, s.procs[g], s.nextClient, s.pool.removal)
  }

  /** The counters say exactly how many goroutines they track. */
  ghost predicate CountInv(c: Config, s: State) {
    && s.sched.wg == ControlAlive(s.sched) + LoopAlive(s.sched) + |LiveSet(s.procs)|
    && s.sched.sem == |TrackedSet(s.procs)| <= c.parallel
  }

  ghost predicate PhaseInv(s: State) {
    var d := s.sched;
    && (d.control.ControlExited? <==> d.cancelled)
    && (d.workClosed <==> d.cancelled)
    && (d.control.NotStarted? || d.control.Starting? <==> d.loop.NoLoop?)
    && (d.control.NotStarted? ==> !d.running && d.stop.NoStop?)
    && (d.stop.Stopped? ==> d.cancelled && d.loop.LoopExited? && LiveSet(s.procs) == {})
    && (s.pool.removal ==> d.stop.Stopped?)
    && (s.pool.closed ==> s.pool.removal)
  }

  function Taken(d: Sched): (n: int) {
    d.nextJob - |d.tasks|
  }

  ghost predicate JobInv(d: Sched) {
    && 0 <= Taken(d)
    && (forall i :: 0 <= i < |d.tasks| ==> d.tasks[i].serial == Taken(d) + i)
    && (d.control.Forwarding? ==> d.control.job.serial == Taken(d) - 1)
    && (forall i, j :: 0 <= i < j < |d.workChan| ==> d.workChan[i].serial != d.workChan[j].serial)
    && (forall i :: 0 <= i < |d.workChan| ==> d.workChan[i].kind != StopJob && d.workChan[i].serial < Taken(d))
    && (d.loop.Acquiring? ==> d.loop.job.kind != StopJob && d.loop.job.serial < Taken(d))
  }

  /** Every task taken from the task channel has one place, and that is where it is. */
  ghost predicate LedgerInv(d: Sched, procs: map<Gid, Proc>) {
    && (forall n: nat :: n in d.ledger <==> n < Taken(d))
    && (forall n <- d.ledger ::
          && (d.ledger[n] == Held <==> d.control.Forwarding? && d.control.job.serial == n)
          && (d.ledger[n] == Queued <==> n in Serials(d.workChan))
          && (d.ledger[n] == Picked <==> d.loop.Acquiring? && d.loop.job.serial == n)
          && (d.ledger[n] == Running <==> TaskRun(n) in procs))
    && (forall n: nat :: TaskRun(n) in procs ==> n in d.ledger)
  }

  ghost predicate SchedInv(c: Config, s: State) {
    ProcInv(s) && CountInv(c, s) && PhaseInv(s) && JobInv(s.sched) && LedgerInv(s.sched, s.procs)
  }

  // ---------------------------------------------------------------- preservation by goroutines

  lemma PushKeeps(c: Config, s: State, kind: JobKind, t: State)
    requires SchedInv(c, s)
    requires t == s.(sched := PushTask(s.sched, kind))
    ensures SchedInv(c, t)
  {
  }

  /** What a turn of goroutine `g` may do without disturbing the task system. */
  ghost predicate QuietTurn(s: State, g: Gid, turn: Turn) {
    && (g.Client? ==> g.n < s.nextClient)
    && (g.TaskRun? ==> g in s.procs && Live(s.procs[g]) && turn.next.Some? && Live(turn.next.value))
    && (turn.next.Some? ==> ProcOk(g, turn.next.value, s.nextClient, turn.pool.removal))
    && (s.pool.removal ==> turn.pool.removal)
    && (turn.pool.removal ==> s.pool.removal || s.sched.stop.Stopped?)
    && (turn.pool.closed ==> s.pool.closed || s.pool.removal)
  }

  lemma TurnKeeps(c: Config, s: State, g: Gid, turn: Turn, t: State)
    requires SchedInv(c, s) && QuietTurn(s, g, turn) && turn.task.None?
    requires After(s, g, Some(turn)) == Some(t)
    ensures SchedInv(c, t)
  {
    assert TrackedSet(t.procs) == TrackedSet(s.procs);
    assert LiveSet(t.procs) == LiveSet(s.procs);
    assert forall n: nat :: TaskRun(n) in t.procs <==> TaskRun(n) in s.procs;
  }

  lemma ArriveQuiet(c: Config, s: State, x: Arrival, turn: Turn)
    requires s.nextClient > 0
    requires Arrive(c, s.pool, s.sched, Client(s.nextClient - 1), x) == Some(turn)
    ensures QuietTurn(s, Client(s.nextClient - 1), turn) && turn.task.None?
  {
  }

  lemma ClientQuiet(c: Config, s: State, g: Gid, x: ClientMove, turn: Turn)
    requires g in s.procs && !s.procs[g].Work? && ProcOk(g, s.procs[g], s.nextClient, s.pool.removal)
    requires ClientTurn(c, s.pool, s.sched, s.procs[g], g, x) == Some(turn)
    ensures QuietTurn(s, g, turn)
  {
  }

  lemma WorkQuiet(c: Config, s: State, g: Gid, x: WorkMove, turn: Turn)
    requires g in s.procs && s.procs[g].Work? && ProcOk(g, s.procs[g], s.nextClient, s.pool.removal)
    requires WorkTurn(c, s.pool, s.sched.cancelled, s.procs[g].kind, s.procs[g].pc, g, x) == Some(turn)
    ensures QuietTurn(s, g, turn) && turn.task.None?
  {
  }

  lemma WaitGroupKeeps(c: Config, s: State, g: Gid, t: State)
    requires SchedInv(c, s) && Do(c, s, OfReport(g, ToWaitGroup)) == Some(t)
    ensures SchedInv(c, t)
  {
    assert ProcOk(g, s.procs[g], s.nextClient, s.pool.removal);
    assert g in LiveSet(s.procs);
    ReportedSets(s.procs, g);
  }

  lemma ReportedSets(procs: map<Gid, Proc>, g: Gid)
    requires g in procs && Tracked(procs[g])
    ensures LiveSet(procs[g := Work(procs[g].kind, SemRelease)]) == LiveSet(procs) - {g}
    ensures TrackedSet(procs[g := Work(procs[g].kind, SemRelease)]) == TrackedSet(procs)
  {
  }

  lemma ReleasedSets(procs: map<Gid, Proc>, g: Gid)
    requires g in procs && Tracked(procs[g]) && procs[g].pc == SemRelease
    ensures LiveSet(procs - {g}) == LiveSet(procs) && TrackedSet(procs - {g}) == TrackedSet(procs) - {g}
  {
  }

  lemma SemaphoreKeeps(c: Config, s: State, g: Gid, t: State)
    requires SchedInv(c, s) && Do(c, s, OfReport(g, ToSemaphore)) == Some(t)
    ensures SchedInv(c, t)
  {
    assert ProcOk(g, s.procs[g], s.nextClient, s.pool.removal);
    assert g in TrackedSet(s.procs);
    ReleasedSets(s.procs, g);
  }

  // ---------------------------------------------------------------- preservation by the task system

  lemma SpawnCounts(c: Config, s: State, t: State)
    requires ProcInv(s) && CountInv(c, s) && PhaseInv(s) && DoSched(c, s, LoopSpawn) == Some(t)
    requires TaskRun(s.sched.loop.job.serial) !in s.procs
    ensures ProcInv(t) && CountInv(c, t) && PhaseInv(t)
  {
    SpawnSets(s.procs, TaskRun(s.sched.loop.job.serial), StartPc(s.sched.loop.job.kind));
  }

  lemma SpawnSets(procs: map<Gid, Proc>, g: Gid, q: Proc)
    requires g !in procs && Live(q)
    ensures LiveSet(procs[g := q]) == LiveSet(procs) + {g} && TrackedSet(procs[g := q]) == TrackedSet(procs) + {g}
  {
  }

  lemma SpawnPlaces(c: Config, s: State, t: State)
    requires JobInv(s.sched) && LedgerInv(s.sched, s.procs) && DoSched(c, s, LoopSpawn) == Some(t)
    ensures JobInv(t.sched) && LedgerInv(t.sched, t.procs)
  {
  }

  lemma SpawnKeeps(c: Config, s: State, t: State)
    requires SchedInv(c, s) && DoSched(c, s, LoopSpawn) == Some(t)
    ensures SchedInv(c, t)
  {
    assert s.sched.ledger[s.sched.loop.job.serial] == Picked;
    SpawnCounts(c, s, t);
    SpawnPlaces(c, s, t);
  }

  lemma SerialsSnoc(q: seq<Job>, j: Job)
    ensures Serials(q + [j]) == Serials(q) + {j.serial}
  {
    assert j in q + [j];
    forall k | k in q
      ensures k in q + [j]
    {
    }
  }

  lemma SerialsTail(q: seq<Job>)
    requires q != []
    requires forall i, j :: 0 <= i < j < |q| ==> q[i].serial != q[j].serial
    ensures Serials(q[1..]) == Serials(q) - {q[0].serial}
  {
    forall n | n in Serials(q) && n != q[0].serial
      ensures n in Serials(q[1..])
    {
      var j :| j in q && j.serial == n;
      assert j in q[1..];
    }
  }

  lemma TakeKeeps(c: Config, s: State, t: State)
    requires SchedInv(c, s) && DoSched(c, s, ControlTake) == Some(t)
    ensures SchedInv(c, t)
  {
  }

  lemma ForwardLedger(d: Sched, procs: map<Gid, Proc>, e: Sched)
    requires JobInv(d) && LedgerInv(d, procs) && d.control.Forwarding?
    requires
      var j := d.control.job;
      e == d.(control := Receiving, workChan := d.workChan + [j], ledger := d.ledger[j.serial := Queued])
    ensures LedgerInv(e, procs)
    ensures forall i :: 0 <= i < |d.workChan| ==> d.workChan[i].serial != d.control.job.serial
  {
    var j := d.control.job;
    SerialsSnoc(d.workChan, j);
    assert d.ledger[j.serial] == Held;
    forall i | 0 <= i < |d.workChan|
      ensures d.workChan[i].serial != j.serial
    {
      assert d.workChan[i] in d.workChan;
      assert d.workChan[i].serial in Serials(d.workChan);
    }
  }

  lemma ForwardKeeps(c: Config, s: State, t: State)
    requires SchedInv(c, s) && DoSched(c, s, ControlForward) == Some(t)
    ensures SchedInv(c, t)
  {
    if |s.sched.workChan| < s.sched.workCap {
      ForwardLedger(s.sched, s.procs, t.sched);
      ForwardJobs(s.sched, t.sched);
    } else {
      DropLedger(s.sched, s.procs, t.sched);
    }
  }

  lemma ForwardJobs(d: Sched, e: Sched)
    requires JobInv(d) && d.control.Forwarding? && d.control.job.kind != StopJob
    requires forall i :: 0 <= i < |d.workChan| ==> d.workChan[i].serial != d.control.job.serial
    requires e == d.(control := Receiving, workChan := d.workChan + [d.control.job], ledger := e.ledger)
    ensures JobInv(e)
  {
  }

  lemma DropLedger(d: Sched, procs: map<Gid, Proc>, e: Sched)
    requires JobInv(d) && LedgerInv(d, procs) && d.control.Forwarding?
    requires e == d.(control := Receiving, ledger := d.ledger[d.control.job.serial := Dropping])
    ensures JobInv(e) && LedgerInv(e, procs)
  {
    assert d.ledger[d.control.job.serial] == Held;
  }

  lemma HandoffLedger(c: Config, s: State, t: State)
    requires JobInv(s.sched) && LedgerInv(s.sched, s.procs) && DoSched(c, s, ControlHandoff) == Some(t)
    ensures JobInv(t.sched) && LedgerInv(t.sched, t.procs)
  {
    assert s.sched.ledger[s.sched.control.job.serial] == Held;
  }

  lemma HandoffKeeps(c: Config, s: State, t: State)
    requires SchedInv(c, s) && DoSched(c, s, ControlHandoff) == Some(t)
    ensures SchedInv(c, t)
  {
    HandoffLedger(c, s, t);
  }

  lemma ControlStopLedger(c: Config, s: State, t: State)
    requires JobInv(s.sched) && LedgerInv(s.sched, s.procs) && DoSched(c, s, ControlStop) == Some(t)
    ensures JobInv(t.sched) && LedgerInv(t.sched, t.procs)
  {
    assert s.sched.ledger[s.sched.control.job.serial] == Held;
  }

  lemma ControlKeeps(c: Config, s: State, x: SchedStep, t: State)
    requires SchedInv(c, s) && DoSched(c, s, x) == Some(t) && (x.ControlInit? || x.ControlStop?)
    ensures SchedInv(c, t)
  {
    if x.ControlStop? {
      ControlStopLedger(c, s, t);
    }
  }

  lemma LoopTakeLedger(c: Config, s: State, t: State)
    requires JobInv(s.sched) && LedgerInv(s.sched, s.procs) && DoSched(c, s, LoopTake) == Some(t)
    ensures JobInv(t.sched) && LedgerInv(t.sched, t.procs)
  {
    var d := s.sched;
    SerialsTail(d.workChan);
    assert d.workChan[0] in d.workChan;
    assert d.ledger[d.workChan[0].serial] == Queued;
  }

  lemma LoopTakeKeeps(c: Config, s: State, t: State)
    requires SchedInv(c, s) && DoSched(c, s, LoopTake) == Some(t)
    ensures SchedInv(c, t)
  {
    LoopTakeLedger(c, s, t);
  }

  lemma LoopClosedKeeps(c: Config, s: State, t: State)
    requires SchedInv(c, s) && DoSched(c, s, LoopClosed) == Some(t)
    ensures SchedInv(c, t)
  {
  }

  lemma LoopCancelKeeps(c: Config, s: State, t: State)
    requires SchedInv(c, s) && DoSched(c, s, LoopCancel) == Some(t)
    ensures SchedInv(c, t)
  {
    LoopCancelLedger(c, s, t);
  }

  lemma LoopCancelLedger(c: Config, s: State, t: State)
    requires JobInv(s.sched) && LedgerInv(s.sched, s.procs) && DoSched(c, s, LoopCancel) == Some(t)
    ensures JobInv(t.sched) && LedgerInv(t.sched, t.procs)
  {
  }

  lemma StartStopKeeps(c: Config, s: State, x: SchedStep, t: State)
    requires SchedInv(c, s) && DoSched(c, s, x) == Some(t)
    requires x.Start? || x.StopLock? || x.StopSend? || x.StopReturn?
    ensures SchedInv(c, t)
  {
  }

  lemma StepKeeps(c: Config, s: State, step: Step, t: State)
    requires SchedInv(c, s) && Do(c, s, step) == Some(t)
    ensures SchedInv(c, t)
  {
    match step
    case OfTick(_) =>
    case OfArrival(x) =>
      var u := s.(nextClient := s.nextClient + 1);
      var turn := Arrive(c, s.pool, s.sched, Client(s.nextClient), x).value;
      ArriveQuiet(c, u, x, turn);
      TurnKeeps(c, u, Client(s.nextClient), turn, t);
    case OfClient(g, x) =>
      var turn := ClientTurn(c, s.pool, s.sched, s.procs[g], g, x).value;
      ClientQuiet(c, s, g, x, turn);
      var u := State(t.pool, s.sched, t.procs, t.nextClient);
      TurnKeeps(c, s, g, turn.(task := None), u);
      if turn.task.Some? {
        PushKeeps(c, u, turn.task.value, t);
      }
    case OfWorker(g, x) =>
      var turn := WorkTurn(c, s.pool, s.sched.cancelled, s.procs[g].kind, s.procs[g].pc, g, x).value;
      WorkQuiet(c, s, g, x, turn);
      TurnKeeps(c, s, g, turn, t);
    case OfReport(g, ToWaitGroup) => WaitGroupKeeps(c, s, g, t);
    case OfReport(g, ToSemaphore) => SemaphoreKeeps(c, s, g, t);
    case OfSched(x) =>
      if x.LoopSpawn? {
        SpawnKeeps(c, s, t);
      } else if x.LoopTake? {
        LoopTakeKeeps(c, s, t);
      } else if x.LoopClosed? {
        LoopClosedKeeps(c, s, t);
      } else if x.LoopCancel? {
        LoopCancelKeeps(c, s, t);
      } else if x.ControlTake? {
        TakeKeeps(c, s, t);
      } else if x.ControlForward? {
        ForwardKeeps(c, s, t);
      } else if x.Start? || x.StopLock? || x.StopSend? || x.StopReturn? {
        StartStopKeeps(c, s, x, t);
      } else if x.ControlHandoff? {
        HandoffKeeps(c, s, t);
      } else {
        ControlKeeps(c, s, x, t);
      }
  }

  lemma {:induction false} RunKeeps(c: Config, mode: Mode, states: seq<State>, steps: seq<Step>, i: nat)
    requires Run(c, mode, states, steps) && i < |states|
    ensures SchedInv(c, states[i])
  {
    if i == 0 {
      assert LiveSet(states[0].procs) == {} && TrackedSet(states[0].procs) == {};
      assert Serials([]) == {};
    } else {
      RunStep(c, mode, states, steps, i - 1);
      RunKeeps(c, mode, states, steps, i - 1);
      StepKeeps(c, states[i - 1], steps[i - 1], states[i]);
    }
  }

  // ---------------------------------------------------------------- conservation and parallelism

  /** The only ways a task moves on; the last three places are final. */
  predicate MovesOn(a: Place, b: Place) {
    match a
    case Held => b == Queued || b == Dropping || b == Picked || b == Finished
    case Queued => b == Picked || b == Discarded
    case Picked => b == Running || b == Discarded
    case Running => b == Finished
    case _ => false
  }

  predicate Final(a: Place) {
    a == Dropping || a == Finished || a == Discarded
  }

  ghost predicate InPlace(s: State, n: nat, place: Place) {
    match place
    case Held => s.sched.control.Forwarding? && s.sched.control.job.serial == n
    case Queued => exists k :: 0 <= k < |s.sched.workChan| && s.sched.workChan[k].serial == n
    case Picked => s.sched.loop.Acquiring? && s.sched.loop.job.serial == n
    case Running => TaskRun(n) in s.procs
    case _ => n in s.sched.ledger && s.sched.ledger[n] == place
  }

  /** In every run each task taken from the task channel is in exactly one place. */
  lemma TaskConservation(c: Config, mode: Mode, states: seq<State>, steps: seq<Step>, i: nat, n: nat)
    requires Run(c, mode, states, steps) && i < |states|
    ensures n in states[i].sched.ledger <==> n < states[i].sched.nextJob - |states[i].sched.tasks|
    ensures n in states[i].sched.ledger ==> InPlace(states[i], n, states[i].sched.ledger[n])
    ensures forall q: Place :: InPlace(states[i], n, q) ==> n in states[i].sched.ledger && states[i].sched.ledger[n] == q
    ensures forall j, k :: 0 <= j < k < |states[i].sched.workChan| ==> states[i].sched.workChan[j].serial != states[i].sched.workChan[k].serial
  {
    RunKeeps(c, mode, states, steps, i);
    var s := states[i];
    if InPlace(s, n, Queued) {
      var k :| 0 <= k < |s.sched.workChan| && s.sched.workChan[k].serial == n;
      assert s.sched.workChan[k] in s.sched.workChan;
    }
    if n in s.sched.ledger && s.sched.ledger[n] == Queued {
      var j :| j in s.sched.workChan && j.serial == n;
    }
  }

  /** A goroutine outside the task system can only add to the task channel. */
  lemma OutsideSched(c: Config, s: State, step: Step, t: State)
    requires Do(c, s, step) == Some(t) && !step.OfReport? && !step.OfSched?
    ensures t.sched == s.sched || exists kind :: t.sched == PushTask(s.sched, kind)
  {
  }

  predicate LoopMove(x: SchedStep) {
    x.LoopTake? || x.LoopCancel? || x.LoopSpawn?
  }

  predicate ControlMove(x: SchedStep) {
    x.ControlTake? || x.ControlForward? || x.ControlHandoff? || x.ControlStop?
  }

  lemma LoopMoves(c: Config, s: State, x: SchedStep, t: State, n: nat)
    requires JobInv(s.sched) && LedgerInv(s.sched, s.procs) && DoSched(c, s, x) == Some(t) && n in s.sched.ledger
    requires LoopMove(x)
    ensures n in t.sched.ledger
    ensures t.sched.ledger[n] == s.sched.ledger[n] || MovesOn(s.sched.ledger[n], t.sched.ledger[n])
  {
    var d := s.sched;
    if x.LoopTake? {
      assert d.workChan[0] in d.workChan;
      assert d.workChan[0].serial in Serials(d.workChan);
    }
  }

  lemma ReceiveMoves(c: Config, s: State, x: SchedStep, t: State, n: nat)
    requires JobInv(s.sched) && LedgerInv(s.sched, s.procs) && DoSched(c, s, x) == Some(t) && n in s.sched.ledger
    requires x.ControlTake?
    ensures n in t.sched.ledger
    ensures t.sched.ledger[n] == s.sched.ledger[n] || MovesOn(s.sched.ledger[n], t.sched.ledger[n])
  {
  }

  lemma ForwardMoves(c: Config, s: State, t: State, n: nat)
    requires LedgerInv(s.sched, s.procs) && DoSched(c, s, ControlForward) == Some(t) && n in s.sched.ledger
    ensures n in t.sched.ledger
    ensures t.sched.ledger[n] == s.sched.ledger[n] || MovesOn(s.sched.ledger[n], t.sched.ledger[n])
  {
  }

  lemma PassMoves(c: Config, s: State, x: SchedStep, t: State, n: nat)
    requires LedgerInv(s.sched, s.procs) && DoSched(c, s, x) == Some(t) && n in s.sched.ledger
    requires x.ControlHandoff? || x.ControlStop?
    ensures n in t.sched.ledger
    ensures t.sched.ledger[n] == s.sched.ledger[n] || MovesOn(s.sched.ledger[n], t.sched.ledger[n])
  {
  }

  lemma ControlMoves(c: Config, s: State, x: SchedStep, t: State, n: nat)
    requires JobInv(s.sched) && LedgerInv(s.sched, s.procs) && DoSched(c, s, x) == Some(t) && n in s.sched.ledger
    requires ControlMove(x)
    ensures n in t.sched.ledger
    ensures t.sched.ledger[n] == s.sched.ledger[n] || MovesOn(s.sched.ledger[n], t.sched.ledger[n])
  {
    if x.ControlTake? {
      ReceiveMoves(c, s, x, t, n);
    } else if x.ControlForward? {
      ForwardMoves(c, s, t, n);
    } else {
      PassMoves(c, s, x, t, n);
    }
  }

  lemma SchedMoves(c: Config, s: State, x: SchedStep, t: State, n: nat)
    requires JobInv(s.sched) && LedgerInv(s.sched, s.procs) && DoSched(c, s, x) == Some(t) && n in s.sched.ledger
    ensures n in t.sched.ledger
    ensures t.sched.ledger[n] == s.sched.ledger[n] || MovesOn(s.sched.ledger[n], t.sched.ledger[n])
  {
    if LoopMove(x) {
      LoopMoves(c, s, x, t, n);
    } else if ControlMove(x) {
      ControlMoves(c, s, x, t, n);
    }
  }

  /** A step moves a task on along `MovesOn` or leaves it where it is; no task is forgotten. */
  lemma TaskMoves(c: Config, s: State, step: Step, t: State, n: nat)
    requires SchedInv(c, s) && Do(c, s, step) == Some(t) && n in s.sched.ledger
    ensures n in t.sched.ledger
    ensures t.sched.ledger[n] == s.sched.ledger[n] || MovesOn(s.sched.ledger[n], t.sched.ledger[n])
  {
    match step
    case OfSched(x) => SchedMoves(c, s, x, t, n);
    case OfReport(g, x) => ReportMoves(c, s, g, x, t, n);
    case _ => OutsideSched(c, s, step, t);
  }

  lemma ReportMoves(c: Config, s: State, g: Gid, x: Report, t: State, n: nat)
    requires LedgerInv(s.sched, s.procs) && Do(c, s, OfReport(g, x)) == Some(t) && n in s.sched.ledger
    ensures n in t.sched.ledger
    ensures t.sched.ledger[n] == s.sched.ledger[n] || MovesOn(s.sched.ledger[n], t.sched.ledger[n])
  {
  }

  lemma FinalStays(c: Config, s: State, step: Step, t: State, n: nat)
    requires SchedInv(c, s) && Do(c, s, step) == Some(t)
    requires n in s.sched.ledger && Final(s.sched.ledger[n])
    ensures n in t.sched.ledger && t.sched.ledger[n] == s.sched.ledger[n]
  {
    TaskMoves(c, s, step, t, n);
  }

  /** A task that was dropped, finished or discarded stays so in every later state of the run. */
  lemma {:induction false} FinalPlaces(c: Config, mode: Mode, states: seq<State>, steps: seq<Step>, i: nat, j: nat, n: nat)
    requires Run(c, mode, states, steps) && i <= j < |states|
    requires n in states[i].sched.ledger && Final(states[i].sched.ledger[n])
    ensures n in states[j].sched.ledger && states[j].sched.ledger[n] == states[i].sched.ledger[n]
    decreases j
  {
    if i < j {
      RunKeeps(c, mode, states, steps, j - 1);
      FinalPlaces(c, mode, states, steps, i, j - 1, n);
      RunStep(c, mode, states, steps, j - 1);
      FinalStays(c, states[j - 1], steps[j - 1], states[j], n);
    }
  }

  /** In every run at most `parallel` tracked tasks run at once. */
  lemma Parallelism(c: Config, mode: Mode, states: seq<State>, steps: seq<Step>, i: nat)
    requires Run(c, mode, states, steps) && i < |states|
    ensures |set g | g in states[i].procs && Tracked(states[i].procs[g])| <= c.parallel
  {
    RunKeeps(c, mode, states, steps, i);
    assert (set g | g in states[i].procs && Tracked(states[i].procs[g])) == TrackedSet(states[i].procs);
  }

  // ---------------------------------------------------------------- start-up

  ghost predicate StartInv(c: Config, s: State) {
    var d, n := s.sched, InitialCount(c);
    && (d.control.NotStarted? ==> d.tasks == [] && d.nextJob == 0)
    && (!d.control.NotStarted? ==> n <= d.nextJob)
    && (d.loop.NoLoop? ==> Taken(d) == 0 && s.pool.dbs == [] && s.pool.ready == [] && s.procs == map[])
    && (!d.loop.NoLoop? ==> n <= d.workCap)
    && (forall i :: 0 <= i < |d.tasks| && d.tasks[i].serial < n ==> d.tasks[i].kind == ExtendJob)
    && (forall m <- d.ledger :: m < n ==> d.ledger[m] != Dropping)
  }

  /** The worker channel still has room when an initial task is forwarded. */
  lemma InitialHasRoom(c: Config, s: State)
    requires SchedInv(c, s) && StartInv(c, s)
    requires s.sched.control.Forwarding? && s.sched.control.job.serial < InitialCount(c)
    ensures |s.sched.workChan| < s.sched.workCap
  {
    var d := s.sched;
    var q: seq<nat> := seq(|d.workChan|, i requires 0 <= i < |d.workChan| => d.workChan[i].serial);
    forall i | 0 <= i < |q|
      ensures q[i] < d.control.job.serial
    {
      assert d.workChan[i] in d.workChan;
      assert d.ledger[q[i]] == Queued;
    }
    SmallDistinct(q, d.control.job.serial);
  }

  /** Before the control loop is up there is nothing a client or worker could do. */
  lemma IdleBeforeStart(c: Config, s: State, step: Step, t: State)
    requires s.pool.dbs == [] && s.pool.ready == [] && s.procs == map[]
    requires Do(c, s, step) == Some(t) && !step.OfSched?
    ensures t.pool.dbs == [] && t.pool.ready == [] && t.procs == map[] && t.sched == s.sched
  {
  }

  lemma StartStarts(c: Config, s: State, t: State)
    requires JobInv(s.sched) && StartInv(c, s) && DoSched(c, s, Start) == Some(t)
    requires s.sched.control.NotStarted? || s.sched.control.Starting? <==> s.sched.loop.NoLoop?
    ensures StartInv(c, t)
  {
  }

  lemma InitStarts(c: Config, s: State, t: State)
    requires JobInv(s.sched) && StartInv(c, s) && DoSched(c, s, ControlInit) == Some(t)
    requires s.sched.control.NotStarted? || s.sched.control.Starting? <==> s.sched.loop.NoLoop?
    ensures StartInv(c, t)
  {
  }

  lemma TakeStarts(c: Config, s: State, t: State)
    requires JobInv(s.sched) && StartInv(c, s) && DoSched(c, s, ControlTake) == Some(t)
    requires s.sched.control.NotStarted? || s.sched.control.Starting? <==> s.sched.loop.NoLoop?
    ensures StartInv(c, t)
  {
  }

  lemma ForwardStarts(c: Config, s: State, t: State)
    requires JobInv(s.sched) && StartInv(c, s) && DoSched(c, s, ControlForward) == Some(t)
    requires s.sched.control.NotStarted? || s.sched.control.Starting? <==> s.sched.loop.NoLoop?
    requires s.sched.control.job.serial < InitialCount(c) ==> |s.sched.workChan| < s.sched.workCap
    ensures StartInv(c, t)
  {
  }

  /** The other steps neither take a task nor drop one. */
  lemma LaterStarts(c: Config, s: State, x: SchedStep, t: State)
    requires StartInv(c, s) && DoSched(c, s, x) == Some(t) && (x.StopLock? || x.StopSend? || x.StopReturn? || x.LoopClosed?)
    requires s.sched.control.NotStarted? || s.sched.control.Starting? <==> s.sched.loop.NoLoop?
    requires s.sched.control.NotStarted? ==> !s.sched.running && s.sched.stop.NoStop?
    requires JobInv(s.sched)
    ensures StartInv(c, t)
  {
  }

  lemma MovedStarts(c: Config, s: State, x: SchedStep, t: State)
    requires StartInv(c, s) && DoSched(c, s, x) == Some(t) && (x.ControlHandoff? || x.ControlStop? || x.LoopTake? || x.LoopCancel?)
    requires s.sched.control.NotStarted? || s.sched.control.Starting? <==> s.sched.loop.NoLoop?
    ensures StartInv(c, t)
  {
  }

  lemma SchedStarts(c: Config, s: State, x: SchedStep, t: State)
    requires JobInv(s.sched) && StartInv(c, s) && DoSched(c, s, x) == Some(t) && !x.LoopSpawn?
    requires s.sched.control.NotStarted? || s.sched.control.Starting? <==> s.sched.loop.NoLoop?
    requires s.sched.control.NotStarted? ==> !s.sched.running && s.sched.stop.NoStop?
    requires x.ControlForward? && s.sched.control.job.serial < InitialCount(c) ==> |s.sched.workChan| < s.sched.workCap
    ensures StartInv(c, t)
  {
    match x
    case Start => StartStarts(c, s, t);
    case ControlInit => InitStarts(c, s, t);
    case ControlTake => TakeStarts(c, s, t);
    case ControlForward => ForwardStarts(c, s, t);
    case StopLock | StopSend | StopReturn | LoopClosed => LaterStarts(c, s, x, t);
    case _ => MovedStarts(c, s, x, t);
  }

  lemma OutsideStarts(c: Config, s: State, step: Step, t: State)
    requires StartInv(c, s) && Do(c, s, step) == Some(t) && !step.OfReport? && !step.OfSched?
    requires s.sched.control.NotStarted? ==> s.sched.loop.NoLoop?
    ensures StartInv(c, t)
  {
    OutsideSched(c, s, step, t);
    if s.sched.loop.NoLoop? {
      IdleBeforeStart(c, s, step, t);
    }
  }

  lemma ReportStarts(c: Config, s: State, g: Gid, x: Report, t: State)
    requires StartInv(c, s) && Do(c, s, OfReport(g, x)) == Some(t)
    requires s.sched.control.NotStarted? ==> s.sched.loop.NoLoop?
    ensures StartInv(c, t)
  {
  }

  lemma StartKeeps(c: Config, s: State, step: Step, t: State)
    requires SchedInv(c, s) && StartInv(c, s) && Do(c, s, step) == Some(t)
    ensures StartInv(c, t)
  {
    match step
    case OfSched(x) =>
      if x.ControlForward? && s.sched.control.job.serial < InitialCount(c) {
        InitialHasRoom(c, s);
      }
      if !x.LoopSpawn? {
        SchedStarts(c, s, x, t);
      }
    case OfReport(g, x) => ReportStarts(c, s, g, x, t);
    case _ => OutsideStarts(c, s, step, t);
  }

  lemma {:induction false} RunStarts(c: Config, mode: Mode, states: seq<State>, steps: seq<Step>, i: nat)
    requires Run(c, mode, states, steps) && i < |states|
    ensures StartInv(c, states[i])
  {
    if i > 0 {
      RunStarts(c, mode, states, steps, i - 1);
      RunKeeps(c, mode, states, steps, i - 1);
      RunStep(c, mode, states, steps, i - 1);
      StartKeeps(c, states[i - 1], steps[i - 1], states[i]);
    }
  }

  /**
    With the sizes manager.New settles on, the first Start never blocks on the task channel, and
    no run ever drops one of the initial extend tasks.
    */
  lemma StartUp(c0: Config, mode: Mode, states: seq<State>, steps: seq<Step>, i: nat)
    requires c0.max >= 1 && c0.initial >= 0
    requires Run(Normalise(c0), mode, states, steps) && i < |states|
    ensures states[i].sched.control.NotStarted? && states[i].pool.lock.None? ==> Do(Normalise(c0), states[i], OfSched(Start)).Some?
    ensures !states[i].sched.control.NotStarted? ==> Normalise(c0).initial <= states[i].sched.nextJob
    ensures forall n: nat :: n < Normalise(c0).initial && n in states[i].sched.ledger ==> states[i].sched.ledger[n] != Dropping
    ensures forall j :: j in states[i].sched.tasks && j.serial < Normalise(c0).initial ==> j.kind == ExtendJob
  {
    RunStarts(Normalise(c0), mode, states, steps, i);
  }
}
