/**
  When Stop can return. From the moment it is called, a queued run has a continuation without new
  calls in which Stop returns, unless the pool is stuck.
  */
module PoolReturn {
  import opened Queues
  import opened PoolMachine
  import opened PoolTasks
  import opened PoolFull
  import opened PoolQueued
  import opened PoolStop
  import opened PoolDeadlock
  import opened PoolProgress

  // ---------------------------------------------------------------- the stop task is on its way

  ghost predicate StopOnItsWay(d: Sched) {
    Deaf(d) || exists i :: 0 <= i < |d.tasks| && d.tasks[i].kind == StopJob
  }

  predicate NoStopTask(next: Option<Proc>) {
    next.Some? && next.value.GetTask? ==> next.value.task != StopJob
  }

  ghost predicate StopInv(c: Config, s: State) {
    && |s.sched.tasks| <= c.max + 1 && s.pool.slots <= c.max
    && (forall g <- s.procs :: NoStopTask(Some(s.procs[g])))
    && (StopOnItsWay(s.sched) <==> s.sched.stop.StopWaiting? || s.sched.stop.Stopped?)
  }

  lemma PushedTask(d: Sched, kind: JobKind)
    ensures StopOnItsWay(PushTask(d, kind)) <==> StopOnItsWay(d) || kind == StopJob
  {
    var e := PushTask(d, kind);
    assert e.tasks[|d.tasks|].kind == kind;
    assert forall i :: 0 <= i < |d.tasks| ==> e.tasks[i] == d.tasks[i];
  }

  lemma StopTurn(c: Config, s: State, g: Gid, turn: Turn, t: State)
    requires StopInv(c, s) && After(s, g, Some(turn)) == Some(t)
    requires turn.pool.slots <= c.max && NoStopTask(turn.next)
    requires turn.task.Some? ==> turn.task != Some(StopJob) && |s.sched.tasks| < c.max + 1
    ensures StopInv(c, t)
  {
    if turn.task.Some? {
      PushedTask(s.sched, turn.task.value);
    }
  }

  lemma StopClient(c: Config, p: Pool, d: Sched, q: Proc, g: Gid, x: ClientMove, turn: Turn)
    requires ClientTurn(c, p, d, q, g, x) == Some(turn) && p.slots <= c.max && NoStopTask(Some(q))
    ensures turn.pool.slots <= c.max && NoStopTask(turn.next)
    ensures turn.task.Some? ==> turn.task != Some(StopJob) && |d.tasks| < c.max + 1
  {
  }

  lemma StopArrive(c: Config, p: Pool, d: Sched, g: Gid, x: Arrival, turn: Turn)
    requires Arrive(c, p, d, g, x) == Some(turn)
    ensures turn.pool.slots == p.slots && NoStopTask(turn.next) && turn.task.None?
  {
  }

  lemma StopWork(c: Config, p: Pool, cancelled: bool, kind: Kind, pc: Pc, g: Gid, x: WorkMove, turn: Turn)
    requires WorkTurn(c, p, cancelled, kind, pc, g, x) == Some(turn)
    ensures NoStopTask(turn.next) && turn.task.None?
  {
  }

  lemma StopControl(c: Config, s: State, x: SchedStep, t: State)
    requires PhaseInv(s) && StopInv(c, s) && DoSched(c, s, x) == Some(t) && ControlMove(x)
    ensures StopInv(c, t)
  {
    if x.ControlTake? {
      assert forall i :: 0 < i < |s.sched.tasks| ==> s.sched.tasks[i] == t.sched.tasks[i - 1];
    }
  }

  lemma StopSched(c: Config, s: State, x: SchedStep, t: State)
    requires PhaseInv(s) && StopInv(c, s) && DoSched(c, s, x) == Some(t) && !ControlMove(x)
    ensures StopInv(c, t)
  {
    SchedShape(c, s, x, t);
    match x
    case StopSend => PushedTask(s.sched, StopJob);
    case Start =>
      assert forall i :: 0 <= i < |t.sched.tasks| ==>
        (i < |s.sched.tasks| && t.sched.tasks[i] == s.sched.tasks[i]) || t.sched.tasks[i].kind == ExtendJob;
    case _ =>
  }

  lemma StopReport(c: Config, s: State, g: Gid, x: Report, t: State)
    requires StopInv(c, s) && Do(c, s, OfReport(g, x)) == Some(t)
    ensures StopInv(c, t)
  {
  }

  lemma StopStep(c: Config, s: State, step: Step, t: State)
    requires PhaseInv(s) && StopInv(c, s) && Do(c, s, step) == Some(t)
    ensures StopInv(c, t)
  {
    match step
    case OfTick(_) =>
    case OfArrival(x) =>
      var g := Client(s.nextClient);
      StopArrive(c, s.pool, s.sched, g, x, Arrive(c, s.pool, s.sched, g, x).value);
      StopTurn(c, s.(nextClient := s.nextClient + 1), g, Arrive(c, s.pool, s.sched, g, x).value, t);
    case OfClient(g, x) =>
      var turn := ClientTurn(c, s.pool, s.sched, s.procs[g], g, x).value;
      StopClient(c, s.pool, s.sched, s.procs[g], g, x, turn);
      StopTurn(c, s, g, turn, t);
    case OfWorker(g, x) =>
      var q := s.procs[g];
      var turn := WorkTurn(c, s.pool, s.sched.cancelled, q.kind, q.pc, g, x).value;
      StopWork(c, s.pool, s.sched.cancelled, q.kind, q.pc, g, x, turn);
      WorkSlotsKept(c, s.pool, s.sched.cancelled, q.kind, q.pc, g, x, turn);
      StopTurn(c, s, g, turn, t);
    case OfReport(g, x) => StopReport(c, s, g, x, t);
    case OfSched(x) => if ControlMove(x) { StopControl(c, s, x, t); } else { StopSched(c, s, x, t); }
  }

  lemma {:induction false} RunStop(c: Config, mode: Mode, states: seq<State>, steps: seq<Step>, i: nat)
    requires Run(c, mode, states, steps) && i < |states|
    ensures StopInv(c, states[i])
  {
    if i > 0 {
      RunStep(c, mode, states, steps, i - 1);
      RunKeeps(c, mode, states, steps, i - 1);
      RunStop(c, mode, states, steps, i - 1);
      StopStep(c, states[i - 1], steps[i - 1], states[i]);
    }
  }

  // ---------------------------------------------------------------- until the cancellation

  /** Stop has been called and has not returned. */
  predicate Stopping(s: State) {
    s.sched.stop.StopSending? || s.sched.stop.StopWaiting?
  }

  ghost predicate StuckFree(c: Config, s: State) {
    forall g, w :: !Stuck(c, s, g, w)
  }

  function SendsLeft(s: State): (n: nat) {
    if s.sched.stop.StopSending? then 1 else 0
  }

  /** How many steps the control loop has left with the tasks there are. */
  function ControlLeft(d: Sched): (n: nat) {
    if d.cancelled then 0
    else 1 + 2 * |d.tasks| + if d.control.Starting? then 2 else if d.control.Forwarding? then 1 else 0
  }

  /** The control loop goes on to the stop task; when it has taken that, the channel has room. */
  lemma ControlHelps(c: Config, s: State) returns (x: SchedStep)
    requires PhaseInv(s) && s.sched.wg > 0 && StopInv(c, s) && Stopping(s) && !s.sched.cancelled && StuckFree(c, s)
    ensures DoSched(c, s, x).Some? && !x.StopReturn?
    ensures var t := DoSched(c, s, x).value;
            && Stopping(t) && StuckFree(c, t)
            && (SendsLeft(t) < SendsLeft(s) || (SendsLeft(t) == SendsLeft(s) && ControlLeft(t.sched) < ControlLeft(s.sched)))
  {
    var d := s.sched;
    x := match d.control
         case Starting => ControlInit
         case Forwarding(j) => if j.kind == StopJob then ControlStop else ControlForward
         case _ => if d.tasks != [] then ControlTake else StopSend;
    ControlUnstuck(c, s, x, DoSched(c, s, x).value);
  }

  lemma ControlUnstuck(c: Config, s: State, x: SchedStep, t: State)
    requires StopInv(c, s) && !s.sched.cancelled && StuckFree(c, s) && DoSched(c, s, x) == Some(t)
    requires x.ControlInit? || x.ControlForward? || x.ControlTake? || x.ControlStop? || (x.StopSend? && !Deaf(s.sched))
    ensures StuckFree(c, t)
  {
    if x.ControlStop? {
      StillUnstuck(c, s, t);
    }
  }

  lemma StillUnstuck(c: Config, s: State, t: State)
    requires StuckFree(c, s) && Deaf(s.sched)
    requires t.pool == s.pool && t.procs == s.procs && t.sched.tasks == s.sched.tasks
    ensures StuckFree(c, t)
  {
    forall g, w ensures !Stuck(c, t, g, w) {
      assert !Stuck(c, s, g, w);
    }
  }

  // ---------------------------------------------------------------- after the cancellation

  ghost predicate GoodState(c: Config, s: State) {
    LinearState(c, s) && SlotInv(s.pool, s.procs) && StopInv(c, s)
  }

  /** The step is enabled, helps, and leaves the pool unstuck. */
  ghost predicate Advances(c: Config, s: State, step: Step) {
    Enabled(c, s, step) && StuckFree(c, Do(c, s, step).value)
  }

  /** No worker waits in the new state that did not wait before. */
  ghost predicate NoNewWaiter(s: State, t: State) {
    t.pool.lock == s.pool.lock && forall w <- t.procs :: Waits(t.procs[w]) ==> w in s.procs && Waits(s.procs[w])
  }

  lemma ReleaseQuiet(c: Config, s: State, h: Gid, x: WorkMove, t: State)
    requires h in s.procs && s.procs[h].Work? && Do(c, s, OfWorker(h, x)) == Some(t) && s.sched.cancelled
    requires x.DoSlotRelease? || x.DoRecSlot? || x.DoCleanSkip? || x.DoRecCheck? || x.DoRecLoop? || x == DoRecCall(Failed)
    ensures NoNewWaiter(s, t)
  {
  }

  /** A live worker that does not wait for the mutex goes on, or another one frees a slot for it. */
  lemma QuietHelps(c: Config, s: State, w: Gid) returns (step: Step)
    requires GoodState(c, s) && s.sched.cancelled && s.sched.wg > 0
    requires w in s.procs && Live(s.procs[w]) && !Waits(s.procs[w]) && !s.procs[w].pc.MoveSend?
    ensures Enabled(c, s, step) && NoNewWaiter(s, Do(c, s, step).value)
  {
    NoRemovalYet(c, s, w);
    assert ProcOk(w, s.procs[w], s.nextClient, s.pool.removal);
    if s.procs[w].pc.Done? {
      step := DoneQuiet(c, s, w);
    } else if s.procs[w].pc.RecSlot? {
      step := SlotHelps(c, s, w);
      ReleaseQuiet(c, s, step.g, step.work, Do(c, s, step).value);
    } else {
      step := MoveQuiet(c, s, w);
    }
  }

  lemma DoneQuiet(c: Config, s: State, w: Gid) returns (step: Step)
    requires s.sched.wg > 0 && w in s.procs && s.procs[w].Work? && s.procs[w].pc.Done?
    ensures Enabled(c, s, step) && NoNewWaiter(s, Do(c, s, step).value)
  {
    step := OfReport(w, ToWaitGroup);
  }

  lemma MoveQuiet(c: Config, s: State, w: Gid) returns (step: Step)
    requires SlotInv(s.pool, s.procs) && s.sched.cancelled && w in s.procs && Live(s.procs[w]) && w.TaskRun?
    requires !Waits(s.procs[w]) && !s.procs[w].pc.MoveSend? && !s.procs[w].pc.Done? && !s.procs[w].pc.RecSlot?
    ensures Enabled(c, s, step) && NoNewWaiter(s, Do(c, s, step).value)
  {
    FreeHelps(c, s, w);
    step := OfWorker(w, NextMove(s.procs[w].pc));
    ReleaseQuiet(c, s, w, step.work, Do(c, s, step).value);
  }

  /** With the mutex free it stays free. */
  lemma FreeAdvances(c: Config, s: State, w: Gid) returns (step: Step)
    requires GoodState(c, s) && s.sched.cancelled && s.sched.wg > 0 && s.pool.lock.None?
    requires w in s.procs && Live(s.procs[w])
    ensures Advances(c, s, step)
  {
    assert !HoldsLock(s.procs[w]);
    if Waits(s.procs[w]) {
      NoRemovalYet(c, s, w);
      assert InRange(s.pool, s.procs[w]) && ProcOk(w, s.procs[w], s.nextClient, s.pool.removal);
      step := WaitingHelps(c, s, w);
      WaitingFree(c, s, w, step);
    } else {
      step := QuietHelps(c, s, w);
    }
  }

  lemma WaitingFree(c: Config, s: State, w: Gid, step: Step)
    requires s.sched.cancelled && s.pool.lock.None? && w in s.procs && Waits(s.procs[w]) && Do(c, s, step).Some?
    requires step.OfTick? || (step.OfWorker? && step.g == w)
    ensures Do(c, s, step).value.pool.lock.None?
  {
  }

  /** The holder of the mutex goes on while the channel has room, or when it is a worker. */
  lemma HolderAdvances(c: Config, s: State, g: Gid) returns (step: Step)
    requires LinearState(c, s) && s.sched.cancelled && !s.pool.removal && s.pool.lock == Some(g)
    requires |s.sched.tasks| < c.max + 1 || s.procs[g].Work?
    ensures Advances(c, s, step)
  {
    var r := HolderHelps(c, s, g);
    step := r.value;
    HolderRoom(c, s, g, step);
  }

  lemma HolderRoom(c: Config, s: State, g: Gid, step: Step)
    requires g in s.procs && s.pool.lock == Some(g) && HoldsLock(s.procs[g]) && Do(c, s, step).Some?
    requires HolderStep(g, step)
    requires |s.sched.tasks| < c.max + 1 || s.procs[g].Work?
    ensures StuckFree(c, Do(c, s, step).value)
  {
  }

  // ---------------------------------------------------------------- before a full task channel

  /** Before a full channel a getter that finds nothing missing lets go of the mutex. */
  lemma SatedAdvances(c: Config, s: State, g: Gid) returns (step: Step)
    requires LinearState(c, s) && s.sched.cancelled && !s.pool.removal && s.pool.lock == Some(g)
    requires s.procs[g].GetSend? || s.procs[g].GetPush?
    requires !RunsShort(c, s) && |s.pool.ready| + s.pool.slots >= c.initial
    ensures Advances(c, s, step)
  {
    var r := HolderHelps(c, s, g);
    step := r.value;
    SatedStep(c, s, g, step.move);
  }

  lemma SatedStep(c: Config, s: State, g: Gid, x: ClientMove)
    requires g in s.procs && s.pool.lock == Some(g) && (s.procs[g].GetSend? || s.procs[g].GetPush?)
    requires !RunsShort(c, s) && |s.pool.ready| + s.pool.slots >= c.initial && Do(c, s, OfClient(g, x)).Some?
    ensures StuckFree(c, Do(c, s, OfClient(g, x)).value)
  {
    var t := Do(c, s, OfClient(g, x)).value;
    var turn := ClientTurn(c, s.pool, s.sched, s.procs[g], g, x).value;
    SumPut(SeekWeight, s.procs, g, turn.next);
  }

  lemma {:induction false} SomeSeeker(procs: map<Gid, Proc>) returns (h: Gid)
    requires Sum(SeekWeight, procs) > 0
    ensures h in procs && SeekWeight(procs[h]) > 0
    decreases |procs|
  {
    h :| h in procs && Sum(SeekWeight, procs) == SeekWeight(procs[h]) + Sum(SeekWeight, procs - {h});
    if SeekWeight(procs[h]) == 0 {
      h := SomeSeeker(procs - {h});
    }
  }

  /** Before a full channel, with slots in reach that would spare the getter its task, one is taken. */
  lemma SeekerAdvances(c: Config, s: State, g: Gid) returns (step: Step)
    requires s.sched.cancelled && s.pool.lock == Some(g) && g in s.procs && (s.procs[g].GetSend? || s.procs[g].GetPush?)
    requires !RunsShort(c, s) && |s.pool.ready| + s.pool.slots < c.initial
    ensures Advances(c, s, step)
  {
    var h := SomeSeeker(s.procs);
    step := OfWorker(h, DoRecSlot);
    SumPut(SeekWeight, s.procs, h, Some(Work(s.procs[h].kind, RecLoop(s.procs[h].pc.id))));
  }

  /** Before a full channel, with no waiting worker, the others run out. */
  lemma JammedAdvances(c: Config, s: State, g: Gid, w: Gid) returns (step: Step)
    requires GoodState(c, s) && s.sched.cancelled && s.sched.wg > 0 && s.pool.lock == Some(g) && !s.procs[g].Work?
    requires forall h <- s.procs :: !Waits(s.procs[h])
    requires w in s.procs && Live(s.procs[w])
    ensures Advances(c, s, step)
  {
    assert HoldsLock(s.procs[w]) <==> s.pool.lock == Some(w);
    step := QuietHelps(c, s, w);
  }

  lemma LockedAdvances(c: Config, s: State, g: Gid, w: Gid) returns (step: Step)
    requires GoodState(c, s) && s.sched.cancelled && s.sched.wg > 0 && StuckFree(c, s) && s.pool.lock == Some(g)
    requires w in s.procs && Live(s.procs[w])
    ensures Advances(c, s, step)
  {
    NoRemovalYet(c, s, w);
    var q := s.procs[g];
    assert HoldsLock(q) && NoDrain(q) && ProcOk(g, q, s.nextClient, s.pool.removal);
    if |s.sched.tasks| < c.max + 1 || q.Work? {
      step := HolderAdvances(c, s, g);
    } else if WillAsk(c, s, q) {
      assert forall h <- s.procs :: !Stuck(c, s, g, h);
      step := JammedAdvances(c, s, g, w);
    } else if |s.pool.ready| + s.pool.slots >= c.initial {
      step := SatedAdvances(c, s, g);
    } else {
      step := SeekerAdvances(c, s, g);
    }
  }

  lemma LoopAdvances(c: Config, s: State) returns (step: Step)
    requires PhaseInv(s) && s.sched.cancelled && s.sched.wg > 0 && LoopAlive(s.sched) == 1 && StuckFree(c, s)
    ensures Advances(c, s, step)
  {
    step := LoopHelps(c, s);
    LoopLeavesTasks(c, s, step.sched);
    StillUnstuck(c, s, Do(c, s, step).value);
  }

  lemma LoopLeavesTasks(c: Config, s: State, x: SchedStep)
    requires WorkerSide(OfSched(x)) && !x.LoopSpawn? && DoSched(c, s, x).Some?
    ensures var t := DoSched(c, s, x).value; t.pool == s.pool && t.procs == s.procs && t.sched.tasks == s.sched.tasks
  {
  }

  /** After the cancellation, until the wait group is empty, a step helps and keeps the pool unstuck. */
  lemma SomeStepAdvances(c: Config, s: State) returns (step: Step)
    requires GoodState(c, s) && s.sched.cancelled && s.sched.wg > 0 && StuckFree(c, s)
    ensures Advances(c, s, step)
  {
    if LoopAlive(s.sched) == 1 {
      step := LoopAdvances(c, s);
    } else {
      assert |LiveSet(s.procs)| > 0;
      var w :| w in LiveSet(s.procs);
      if s.pool.lock.None? {
        step := FreeAdvances(c, s, w);
      } else {
        step := LockedAdvances(c, s, s.pool.lock.value, w);
      }
    }
  }

  // ---------------------------------------------------------------- Stop can return

  lemma HelpKeepsWaiting(c: Config, s: State, step: Step, t: State)
    requires Helps(s, step) && Do(c, s, step) == Some(t)
    ensures t.sched.stop == s.sched.stop && !step.OfArrival? && step != OfSched(StopReturn)
  {
    if !step.OfReport? && !step.OfSched? {
      OutsideSched(c, s, step, t);
    }
  }

  lemma RunExtends(c: Config, mode: Mode, states: seq<State>, steps: seq<Step>, step: Step, t: State)
    requires Run(c, mode, states, steps) && !step.OfArrival? && Do(c, states[|steps|], step) == Some(t)
    ensures Run(c, mode, states + [t], steps + [step])
  {
    forall i: nat ensures StepAt(c, mode, states + [t], steps + [step], i) {
      assert StepAt(c, mode, states, steps, i);
    }
  }

  ghost predicate NoNewCalls(steps: seq<Step>, more: seq<Step>) {
    steps <= more && forall k :: |steps| <= k < |more| ==> !more[k].OfArrival?
  }

  /** One more step towards the return of Stop, before or after the cancellation. */
  ghost predicate Nearer(s: State, t: State) {
    || SendsLeft(t) < SendsLeft(s)
    || (SendsLeft(t) == SendsLeft(s) && ControlLeft(t.sched) < ControlLeft(s.sched))
    || (SendsLeft(t) == SendsLeft(s) && ControlLeft(t.sched) == ControlLeft(s.sched) && Closer(s, t))
  }

  lemma StopGoesOn(c: Config, s: State) returns (step: Step, t: State)
    requires GoodState(c, s) && Stopping(s) && StuckFree(c, s) && Do(c, s, OfSched(StopReturn)).None?
    ensures Do(c, s, step) == Some(t) && !step.OfArrival? && Stopping(t) && StuckFree(c, t) && Nearer(s, t)
  {
    if s.sched.cancelled {
      step := SomeStepAdvances(c, s);
      t := Do(c, s, step).value;
      HelpCloser(c, s, step, t);
      HelpKeepsWaiting(c, s, step, t);
    } else {
      assert ControlAlive(s.sched) == 1;
      var x := ControlHelps(c, s);
      step, t := OfSched(x), DoSched(c, s, x).value;
    }
  }

  ghost predicate ReturnsLater(c: Config, mode: Mode, states: seq<State>, steps: seq<Step>) {
    exists states', steps' ::
      && Run(c, mode, states', steps') && states <= states' && NoNewCalls(steps, steps')
      && Do(c, states'[|steps'|], OfSched(StopReturn)).Some?
  }

  lemma RunGood(c: Config, mode: Mode, states: seq<State>, steps: seq<Step>, i: nat)
    requires Run(c, mode, states, steps) && !mode.Full? && i < |states|
    ensures GoodState(c, states[i])
  {
    RunLinear(c, mode, states, steps, i);
    RunSlots(c, mode, states, steps, i);
    RunStop(c, mode, states, steps, i);
  }

  lemma {:induction false} UnstuckReturns(c: Config, mode: Mode, states: seq<State>, steps: seq<Step>)
    returns (states': seq<State>, steps': seq<Step>)
    requires Run(c, mode, states, steps) && !mode.Full?
    requires Stopping(states[|steps|]) && StuckFree(c, states[|steps|])
    ensures Run(c, mode, states', steps') && states <= states' && NoNewCalls(steps, steps')
    ensures Do(c, states'[|steps'|], OfSched(StopReturn)).Some?
    decreases SendsLeft(states[|steps|]), ControlLeft(states[|steps|].sched),
              Measure(states[|steps|]), HelpRank(states[|steps|]), Sleepers(states[|steps|])
  {
    var s := states[|steps|];
    if Do(c, s, OfSched(StopReturn)).Some? {
      states', steps' := states, steps;
    } else {
      RunGood(c, mode, states, steps, |steps|);
      var step, t := StopGoesOn(c, s);
      RunExtends(c, mode, states, steps, step, t);
      states', steps' := UnstuckReturns(c, mode, states + [t], steps + [step]);
    }
  }

  /**
    Stop can return. Once Stop has been called, a queued run has a continuation without new calls in
    which Stop returns, if and only if the pool is not stuck.
    */
  lemma StopCanReturn(c: Config, mode: Mode, states: seq<State>, steps: seq<Step>)
    requires Run(c, mode, states, steps) && !mode.Full? && Stopping(states[|steps|])
    ensures ReturnsLater(c, mode, states, steps) <==> StuckFree(c, states[|steps|])
  {
    if StuckFree(c, states[|steps|]) {
      var states', steps' := UnstuckReturns(c, mode, states, steps);
    } else {
      var g, w :| Stuck(c, states[|steps|], g, w);
      forall states', steps' | Run(c, mode, states', steps') && states <= states' && NoNewCalls(steps, steps')
        ensures Do(c, states'[|steps'|], OfSched(StopReturn)).None?
      {
        StuckLasts(c, mode, states', steps', |steps|, |steps'|, g, w);
      }
    }
  }
}
