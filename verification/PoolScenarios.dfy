/**
  Runs that end badly although every manual operation hits a queued id: a panic on a table index, a
  panic on the missing worker context, and a Stop that never returns.
  */
module PoolScenarios {
  import opened Chains
  import opened Queues
  import opened PoolMachine
  import opened PoolFull
  import opened PoolPanics
  import opened PoolDeadlock
  import opened PoolRefine
  import opened PoolSequential

  // ---------------------------------------------------------------- building runs

  /** The steps lead from `s` to `t` within the mode. */
  ghost predicate Leads(c: Config, mode: Mode, s: State, steps: seq<Step>, t: State)
    decreases |steps|
  {
    if steps == [] then s == t
    else
      && Allowed(mode, s, steps[0])
      && Do(c, s, steps[0]).Some?
      && Leads(c, mode, Do(c, s, steps[0]).value, steps[1..], t)
  }

  predicate NoManual(steps: seq<Step>) {
    forall i :: 0 <= i < |steps| && steps[i].OfArrival? ==> steps[i].arrival.GetReceive? || steps[i].arrival.RemoveLock?
  }

  lemma {:induction false} ExecLeads(c: Config, s: State, steps: seq<Step>, t: State)
    requires Exec(c, s, steps) == Some(t) && NoManual(steps)
    ensures Leads(c, QueuedManual, s, steps, t)
    decreases |steps|
  {
    if steps != [] {
      ExecLeads(c, Do(c, s, steps[0]).value, steps[1..], t);
    }
  }

  ghost function AllowedDo(c: Config, mode: Mode, s: State, step: Step): (r: Option<State>) {
    if Allowed(mode, s, step) then Do(c, s, step) else None
  }

  lemma {:induction false} LeadsIsChain(c: Config, mode: Mode, s: State, steps: seq<Step>, t: State,
                                        f: (State, Step) -> Option<State>)
    requires forall x, y :: f(x, y) == AllowedDo(c, mode, x, y)
    ensures Leads(c, mode, s, steps, t) <==> Chain(f, s, steps) == Some(t)
    decreases |steps|
  {
    if steps != [] {
      var r := f(s, steps[0]);
      if r.Some? {
        LeadsIsChain(c, mode, r.value, steps[1..], t, f);
      }
    }
  }

  lemma LeadsConcat(c: Config, mode: Mode, s: State, a: seq<Step>, t: State, b: seq<Step>, u: State)
    requires Leads(c, mode, s, a, t) && Leads(c, mode, t, b, u)
    ensures Leads(c, mode, s, a + b, u)
  {
    var f := (x, y) => AllowedDo(c, mode, x, y);
    LeadsIsChain(c, mode, s, a, t, f);
    LeadsIsChain(c, mode, s, a + b, u, f);
    LeadsIsChain(c, mode, t, b, u, f);
    ChainConcat(f, s, a, b, t);
  }

  lemma LeadsIsRun(c: Config, mode: Mode, steps: seq<Step>, t: State) returns (states: seq<State>)
    requires Leads(c, mode, Init(c, 0), steps, t)
    ensures Run(c, mode, states, steps) && states[|steps|] == t
  {
    var f := (x, y) => AllowedDo(c, mode, x, y);
    LeadsIsChain(c, mode, Init(c, 0), steps, t, f);
    states := ChainStates(f, Init(c, 0), steps, t);
    forall i: nat ensures StepAt(c, mode, states, steps, i) {
      if i < |steps| {
        assert f(states[i], steps[i]) == Some(states[i + 1]);
        AllowedStep(c, mode, states[i], steps[i], states[i + 1]);
      }
    }
  }

  lemma AllowedStep(c: Config, mode: Mode, s: State, step: Step, t: State)
    requires AllowedDo(c, mode, s, step) == Some(t)
    ensures Allowed(mode, s, step) && Do(c, s, step) == Some(t)
  {
  }

  // ---------------------------------------------------------------- pieces of the task system

  /** The control loop takes the only task and passes it on. */
  lemma TaskPasses(c: Config, s: State, j: Job)
    requires s.sched.control == Receiving && s.sched.tasks == [j] && j.kind != StopJob
    requires s.sched.workChan == [] && s.sched.workCap > 0
    ensures Exec(c, s, [OfSched(ControlTake), OfSched(ControlForward)])
         == Some(s.(sched := s.sched.(tasks := [], workChan := [j], ledger := s.sched.ledger[j.serial := Queued])))
  {
    var d := s.sched;
    var t := s.(sched := d.(control := Forwarding(j), tasks := [], ledger := d.ledger[j.serial := Held]));
    assert [j][1..] == [] && [] + [j] == [j];
    assert d.ledger[j.serial := Held][j.serial := Queued] == d.ledger[j.serial := Queued];
    ExecTwo(c, s, OfSched(ControlTake), t, OfSched(ControlForward),
            s.(sched := d.(tasks := [], workChan := [j], ledger := d.ledger[j.serial := Queued])));
  }

  /** The worker loop picks the only queued task. */
  lemma LoopPicks(c: Config, s: State, j: Job)
    requires s.sched.loop == Idle && s.sched.workChan == [j]
    ensures Do(c, s, OfSched(LoopTake))
         == Some(s.(sched := s.sched.(loop := Acquiring(j), workChan := [], ledger := s.sched.ledger[j.serial := Picked])))
  {
    assert [j][1..] == [];
  }

  const StopSteps: seq<Step> := [OfSched(StopLock), OfSched(StopSend)] + [OfSched(ControlTake), OfSched(ControlStop)]

  /** The task system once the control loop has consumed the stop task. */
  function Consumed(d: Sched): (r: Sched)
    requires d.wg > 0
  {
    d.(running := false, stop := StopWaiting, nextJob := d.nextJob + 1, control := ControlExited, workClosed := true,
       cancelled := true, wg := d.wg - 1, ledger := d.ledger[d.nextJob := Finished])
  }

  lemma StopSent(c: Config, s: State)
    requires s.pool.lock.None? && s.sched.running && s.sched.stop == NoStop && s.sched.tasks == []
    ensures Exec(c, s, [OfSched(StopLock), OfSched(StopSend)])
         == Some(s.(sched := s.sched.(running := false, stop := StopWaiting, tasks := [Job(StopJob, s.sched.nextJob)],
                                      nextJob := s.sched.nextJob + 1)))
  {
    var d := s.sched;
    assert [] + [Job(StopJob, d.nextJob)] == [Job(StopJob, d.nextJob)];
    ExecTwo(c, s, OfSched(StopLock), s.(sched := d.(running := false, stop := StopSending)), OfSched(StopSend),
            s.(sched := d.(running := false, stop := StopWaiting, tasks := [Job(StopJob, d.nextJob)], nextJob := d.nextJob + 1)));
  }

  lemma StopTaken(c: Config, s: State, n: nat)
    requires s.sched.control == Receiving && s.sched.tasks == [Job(StopJob, n)] && s.sched.wg > 0
    ensures Exec(c, s, [OfSched(ControlTake), OfSched(ControlStop)])
         == Some(s.(sched := s.sched.(tasks := [], control := ControlExited, workClosed := true, cancelled := true,
                                      wg := s.sched.wg - 1, ledger := s.sched.ledger[n := Finished])))
  {
    var d, j := s.sched, Job(StopJob, n);
    assert [j][1..] == [];
    assert d.ledger[n := Held][n := Finished] == d.ledger[n := Finished];
    ExecTwo(c, s, OfSched(ControlTake), s.(sched := d.(control := Forwarding(j), tasks := [], ledger := d.ledger[n := Held])),
            OfSched(ControlStop),
            s.(sched := d.(tasks := [], control := ControlExited, workClosed := true, cancelled := true,
                           wg := d.wg - 1, ledger := d.ledger[n := Finished])));
  }

  lemma StopConsumed(c: Config, s: State)
    requires s.pool.lock.None? && s.sched.running && s.sched.stop == NoStop && s.sched.tasks == []
    requires s.sched.control == Receiving && s.sched.wg > 0
    ensures Exec(c, s, StopSteps) == Some(s.(sched := Consumed(s.sched)))
  {
    var n := s.sched.nextJob;
    var t := s.(sched := s.sched.(running := false, stop := StopWaiting, tasks := [Job(StopJob, n)], nextJob := n + 1));
    StopSent(c, s);
    StopTaken(c, t, n);
    ExecJoin(c, s, [OfSched(StopLock), OfSched(StopSend)], t, [OfSched(ControlTake), OfSched(ControlStop)],
             s.(sched := Consumed(s.sched)));
  }

  // ---------------------------------------------------------------- a pool with its first database granted

  /** One initial database, two at most, one task at a time. */
  const Small := Config(1, 2, 1, 0)

  /** A pool that starts with one database. */
  predicate StartsWithOne(c: Config) {
    c.initial == 1 && c.max > 0 && c.parallel > 0
  }

  const Fresh := TestDb(0, Ready, 1, 0)

  /** The pool after its first database was created. */
  function Filled(c: Config): (p: Pool) {
    Init(c, 0).pool.(dbs := [Fresh], ready := [0], history := [CallStart(0), CallOk(0, 0), Regenerated(0)])
  }

  const Idling := BootSched.(wg := 2, sem := 0, ledger := map[0 := Finished])

  const CreateSteps: seq<Step> := [OfWorker(Worker, DoExtend)] + RecreateWork(Worker, 0, true)

  lemma RestAtStart(c: Config)
    ensures AtRest(c, Init(c, 0).pool)
  {
    assert forall h, x: nat :: !Carries(map[], h, x);
  }

  lemma CreatedIsFilled(c: Config)
    ensures AfterRecreate(Appended(Init(c, 0).pool), 0, 0, true) == Filled(c)
  {
    var p := Init(c, 0).pool;
    var db := TestDb(0, Dirty, 0, 0);
    assert [] + [db] == [db];
    assert [db][0 := Fresh] == [Fresh];
    assert [] + [CallStart(0), CallOk(0, 0), Regenerated(0)] == [CallStart(0), CallOk(0, 0), Regenerated(0)];
  }

  lemma Creates(c: Config)
    requires StartsWithOne(c)
    ensures Exec(c, BootedIn(c), CreateSteps) == Some(Solo(Filled(c), BootSched, 0, Worker, Some(Work(Extend, Done))))
  {
    RestAtStart(c);
    ExtendIsExec(c, Init(c, 0).pool, BootSched, 0, Worker, 0, true);
    CreatedIsFilled(c);
  }

  const ReportSteps: seq<Step> := [OfReport(Worker, ToWaitGroup), OfReport(Worker, ToSemaphore)]

  lemma Reports(c: Config, p: Pool)
    ensures Exec(c, Solo(p, BootSched, 0, Worker, Some(Work(Extend, Done))), ReportSteps) == Some(Solo(p, Idling, 0, Worker, None))
  {
    var s := Solo(p, BootSched, 0, Worker, Some(Work(Extend, Done)));
    var t := Solo(p, BootSched.(wg := 2), 0, Worker, Some(Work(Extend, SemRelease)));
    assert map[Worker := Work(Extend, Done)][Worker := Work(Extend, SemRelease)] == map[Worker := Work(Extend, SemRelease)];
    assert map[Worker := Work(Extend, SemRelease)] - {Worker} == map[];
    assert map[0 := Running][0 := Finished] == map[0 := Finished];
    ExecTwo(c, s, OfReport(Worker, ToWaitGroup), t, OfReport(Worker, ToSemaphore), Solo(p, Idling, 0, Worker, None));
  }

  /** The pool after the first grant. */
  function Taken1(c: Config): (p: Pool) {
    Filled(c).(dbs := [TestDb(0, Dirty, 1, c.lifetime)], ready := [], dirty := [0],
               history := Filled(c).history + [Granted(0, 0, 1)])
  }

  /** What a client asks for that took the only database. */
  function Asked(c: Config): (kind: JobKind) {
    if c.max > 1 then ExtendJob else CleanJob
  }

  function Granted1(c: Config): (s: State) {
    State(Taken1(c), Idling.(tasks := [Job(Asked(c), 1)], nextJob := 2), map[], 1)
  }

  lemma FilledRests(c: Config)
    requires StartsWithOne(c)
    ensures AtRest(c, Filled(c))
  {
    RestAtStart(c);
    AppendRests(c, Init(c, 0).pool);
    RecreateRests(c, Appended(Init(c, 0).pool), 0, 0, true);
    CreatedIsFilled(c);
  }

  lemma FilledTaken(c: Config)
    requires StartsWithOne(c)
    ensures AfterGet(c, Filled(c)) == Taken1(c) && TaskAfterGrant(c, Taken1(c)) == Some(Asked(c))
  {
    assert [0][1..] == [] && [] + [0] == [0];
    assert [Fresh][0 := Grant(Fresh, c.lifetime)] == [TestDb(0, Dirty, 1, c.lifetime)];
  }

  lemma Grants1(c: Config)
    requires StartsWithOne(c)
    ensures Exec(c, Solo(Filled(c), Idling, 0, Client(0), None), GetSteps(0, true)) == Some(Granted1(c))
  {
    FilledRests(c);
    FilledTaken(c);
    GetIsExec(c, Filled(c), Idling, 0);
    GrantedState(c);
  }

  lemma GrantedState(c: Config)
    ensures Solo(Taken1(c), Sent(Idling, Some(Asked(c))), 1, Client(0), None) == Granted1(c)
  {
    assert [] + [Job(Asked(c), 1)] == [Job(Asked(c), 1)];
  }

  const FirstSteps: seq<Step> := ((BootSteps + CreateSteps) + ReportSteps) + GetSteps(0, true)

  /** A queued run in which the first database is created and granted. */
  lemma FirstGrant(c: Config)
    requires StartsWithOne(c)
    ensures Exec(c, Init(c, 0), FirstSteps) == Some(Granted1(c))
    ensures Leads(c, QueuedManual, Init(c, 0), FirstSteps, Granted1(c))
  {
    var s, p := Init(c, 0), Filled(c);
    Boot(c);
    Creates(c);
    Reports(c, p);
    Grants1(c);
    ExecJoin(c, s, BootSteps, BootedIn(c), CreateSteps, Solo(p, BootSched, 0, Worker, Some(Work(Extend, Done))));
    ExecJoin(c, s, BootSteps + CreateSteps, Solo(p, BootSched, 0, Worker, Some(Work(Extend, Done))), ReportSteps,
             Solo(p, Idling, 0, Worker, None));
    ExecJoin(c, s, (BootSteps + CreateSteps) + ReportSteps, Solo(p, Idling, 0, Worker, None), GetSteps(0, true), Granted1(c));
    FirstIsFree();
    ExecLeads(c, s, FirstSteps, Granted1(c));
  }

  lemma FirstIsFree()
    ensures NoManual(FirstSteps)
  {
  }

  // ---------------------------------------------------------------- panics

  const Manual1 := Client(1)

  /** A manual worker for the granted database, about to claim it; the rest of the pool idles. */
  const Claiming :=
    Solo(Taken1(Small).(dirty := []), Granted1(Small).sched, 2, Manual1, Some(Work(Manual, RecLock(0))))

  const ClaimSteps: seq<Step> := [OfArrival(RecreateAtomic(0)), OfWorker(Manual1, DoRecCheck)]

  lemma Claims()
    ensures Leads(Small, QueuedManual, Granted1(Small), ClaimSteps, Claiming)
  {
    var p, d := Taken1(Small).(dirty := []), Granted1(Small).sched;
    assert [0][..0] == [];
    assert Without([0], 0) == [];
    SoloArrive(Small, Taken1(Small), d, 1, RecreateAtomic(0), Turn(p, Some(Work(Manual, RecCheck(0))), None));
    SoloWork(Small, p, d, 2, Manual1, Manual, RecCheck(0), DoRecCheck, Turn(p, Some(Work(Manual, RecLock(0))), None));
    var t := Solo(p, d, 2, Manual1, Some(Work(Manual, RecCheck(0))));
    assert Do(Small, Granted1(Small), ClaimSteps[0]) == Some(t);
    assert Do(Small, t, ClaimSteps[1]) == Some(Claiming);
    assert ClaimSteps[1..] == [ClaimSteps[1]] && ClaimSteps[1..][1..] == [];
    assert Leads(Small, QueuedManual, t, ClaimSteps[1..], Claiming);
  }

  const HaltSteps: seq<Step> := [OfSched(LoopTake), OfSched(LoopCancel)] + [OfSched(StopReturn)]

  /** After the cancellation the worker loop ends without spawning and Stop returns. */
  lemma Halts(c: Config, s: State, j: Job) returns (t: State)
    requires s.sched.loop == Idle && s.sched.workChan == [j] && s.sched.cancelled && s.sched.wg == 1 && s.sched.stop == StopWaiting
    ensures Exec(c, s, HaltSteps) == Some(t)
    ensures t.pool == s.pool && t.procs == s.procs && t.nextClient == s.nextClient
    ensures t.sched.stop == Stopped && !t.sched.ctxSet
  {
    LoopPicks(c, s, j);
    var u := Do(c, s, OfSched(LoopTake)).value;
    var v := Do(c, u, OfSched(LoopCancel)).value;
    t := Do(c, v, OfSched(StopReturn)).value;
    ExecTwo(c, s, OfSched(LoopTake), u, OfSched(LoopCancel), v);
    ExecCons(c, v, OfSched(StopReturn), [], t);
    assert [OfSched(StopReturn)] + [] == [OfSched(StopReturn)];
    ExecJoin(c, s, [OfSched(LoopTake), OfSched(LoopCancel)], v, [OfSched(StopReturn)], t);
  }

  const QuietSteps: seq<Step> := [OfSched(ControlTake), OfSched(ControlForward)] + (StopSteps + HaltSteps)

  lemma Quiets(s: State) returns (t: State)
    requires s.sched == Granted1(Small).sched && s.pool.lock.None?
    ensures Exec(Small, s, QuietSteps) == Some(t)
    ensures t.pool == s.pool && t.procs == s.procs && t.nextClient == s.nextClient
    ensures t.sched.stop == Stopped && !t.sched.ctxSet
  {
    var d, j := s.sched, Job(ExtendJob, 1);
    var u := s.(sched := d.(tasks := [], workChan := [j], ledger := d.ledger[1 := Queued]));
    TaskPasses(Small, s, j);
    StopConsumed(Small, u);
    var v := u.(sched := Consumed(u.sched));
    t := Halts(Small, v, j);
    ExecJoin(Small, u, StopSteps, v, HaltSteps, t);
    ExecJoin(Small, s, [OfSched(ControlTake), OfSched(ControlForward)], u, StopSteps + HaltSteps, t);
  }

  /** A queued run in which Stop has returned while a manual worker is about to claim its database. */
  lemma StoppedWhileClaiming() returns (steps: seq<Step>, t: State)
    ensures Leads(Small, QueuedManual, Init(Small, 0), steps, t)
    ensures t.pool == Claiming.pool && t.procs == Claiming.procs && t.nextClient == 2
    ensures t.sched.stop == Stopped && !t.sched.ctxSet
  {
    FirstGrant(Small);
    Claims();
    t := Quiets(Claiming);
    ExecLeads(Small, Claiming, QuietSteps, t);
    LeadsConcat(Small, QueuedManual, Init(Small, 0), FirstSteps, Granted1(Small), ClaimSteps, Claiming);
    LeadsConcat(Small, QueuedManual, Init(Small, 0), FirstSteps + ClaimSteps, Claiming, QuietSteps, t);
    steps := (FirstSteps + ClaimSteps) + QuietSteps;
  }

  /** After a stop, recreating a queued database spawns a worker without a context, which panics. */
  lemma RecreateAfterStopPanics() returns (states: seq<State>, steps: seq<Step>)
    ensures Run(Small, QueuedManual, states, steps)
    ensures Allowed(QueuedManual, states[|steps|], OfArrival(RecreateAtomic(0)))
    ensures Panics(states[|steps|], OfArrival(RecreateAtomic(0)))
  {
    FirstGrant(Small);
    var t := Quiets(Granted1(Small));
    ExecLeads(Small, Granted1(Small), QuietSteps, t);
    LeadsConcat(Small, QueuedManual, Init(Small, 0), FirstSteps, Granted1(Small), QuietSteps, t);
    steps := FirstSteps + QuietSteps;
    states := LeadsIsRun(Small, QueuedManual, steps, t);
  }

  const DropSteps: seq<Step> := [OfArrival(RemoveLock), OfClient(Client(2), RemoveLast)]

  lemma RemovesOnly(c: Config, s: State) returns (t: State)
    requires |s.pool.dbs| == 1 && s.pool.lock.None? && s.sched.stop == Stopped && s.nextClient == 2 && Client(2) !in s.procs
    ensures Exec(c, s, DropSteps) == Some(t)
    ensures t.pool.dbs == [] && t.pool.lock.None? && t.procs == s.procs && t.sched == s.sched
  {
    var u := Do(c, s, OfArrival(RemoveLock)).value;
    t := Do(c, u, OfClient(Client(2), RemoveLast)).value;
    assert s.procs[Client(2) := Remover(0)] - {Client(2)} == s.procs;
    ExecTwo(c, s, OfArrival(RemoveLock), u, OfClient(Client(2), RemoveLast), t);
  }

  /**
    A manual recreate, a stop and a removal: the manual worker, which Stop does not wait for, then
    indexes the removed table.
    */
  lemma LateClaimPanics() returns (states: seq<State>, steps: seq<Step>)
    ensures Run(Small, QueuedManual, states, steps)
    ensures states[|steps|].procs == map[Manual1 := Work(Manual, RecLock(0))] && states[|steps|].pool.dbs == []
    ensures Panics(states[|steps|], OfWorker(Manual1, DoRecLock(false)))
  {
    var first, s := StoppedWhileClaiming();
    var t := RemovesOnly(Small, s);
    ExecLeads(Small, s, DropSteps, t);
    LeadsConcat(Small, QueuedManual, Init(Small, 0), first, s, DropSteps, t);
    steps := first + DropSteps;
    states := LeadsIsRun(Small, QueuedManual, steps, t);
  }

  // ---------------------------------------------------------------- a stop that never returns

  /** The only database is ready and no lock is held; any goroutines may be in flight. */
  predicate Offering(s: State) {
    && |s.pool.dbs| == 1 && s.pool.dbs[0].state == Ready && s.pool.ready == [0] && s.pool.dirty == [] && s.pool.slots == 0
    && s.pool.lock.None? && !s.pool.closed
    && Client(s.nextClient) !in s.procs && Client(s.nextClient + 1) !in s.procs
  }

  /** The state in which client `n` has been granted the database and goes on with `q`. */
  function Serving(c: Config, s: State, q: Proc, dirty: seq<nat>): (r: State)
    requires |s.pool.dbs| == 1
  {
    State(s.pool.(dbs := [Grant(s.pool.dbs[0], s.pool.now + c.lifetime)], ready := [], dirty := dirty,
                  lock := Some(Client(s.nextClient)),
                  history := s.pool.history + [Granted(0, s.pool.now, s.pool.dbs[0].generation)]),
          s.sched, s.procs[Client(s.nextClient) := q], s.nextClient + 1)
  }

  function Received(s: State): (r: State) {
    s.(pool := s.pool.(ready := []), procs := s.procs[Client(s.nextClient) := GetWait(0)], nextClient := s.nextClient + 1)
  }

  lemma Receives(c: Config, s: State)
    requires Offering(s)
    ensures Do(c, s, OfArrival(GetReceive)) == Some(Received(s))
  {
    assert [0][1..] == [];
  }

  lemma GrantsReceived(c: Config, s: State)
    requires Offering(s)
    ensures Do(c, Received(s), OfClient(Client(s.nextClient), GetLock)) == Some(Serving(c, s, GetSend(0), []))
  {
    var g := Client(s.nextClient);
    assert s.pool.dbs[0 := Grant(s.pool.dbs[0], s.pool.now + c.lifetime)] == [Grant(s.pool.dbs[0], s.pool.now + c.lifetime)];
    assert s.procs[g := GetWait(0)][g := GetSend(0)] == s.procs[g := GetSend(0)];
  }

  lemma Serves(c: Config, s: State)
    requires Offering(s)
    ensures Exec(c, s, [OfArrival(GetReceive), OfClient(Client(s.nextClient), GetLock)]) == Some(Serving(c, s, GetSend(0), []))
  {
    Receives(c, s);
    GrantsReceived(c, s);
    ExecTwo(c, s, OfArrival(GetReceive), Received(s), OfClient(Client(s.nextClient), GetLock), Serving(c, s, GetSend(0), []));
  }

  lemma Decides(c: Config, s: State)
    requires Offering(s) && StartsWithOne(c)
    ensures Exec(c, Serving(c, s, GetSend(0), []), [OfClient(Client(s.nextClient), GetSendDirty), OfClient(Client(s.nextClient), GetDecide)])
         == Some(Serving(c, s, GetTask(0, Asked(c)), [0]))
  {
    var g := Client(s.nextClient);
    assert [] + [0] == [0];
    assert s.procs[g := GetSend(0)][g := GetPush(0)] == s.procs[g := GetPush(0)];
    assert s.procs[g := GetPush(0)][g := GetTask(0, Asked(c))] == s.procs[g := GetTask(0, Asked(c))];
    ExecTwo(c, Serving(c, s, GetSend(0), []), OfClient(g, GetSendDirty), Serving(c, s, GetPush(0), [0]),
            OfClient(g, GetDecide), Serving(c, s, GetTask(0, Asked(c)), [0]));
  }

  function ServeSteps(n: nat): (r: seq<Step>) {
    [OfArrival(GetReceive), OfClient(Client(n), GetLock)] + [OfClient(Client(n), GetSendDirty), OfClient(Client(n), GetDecide)]
  }

  /** A client gets the only database and is about to send its task. */
  lemma ServeRuns(c: Config, s: State)
    requires Offering(s) && StartsWithOne(c)
    ensures Exec(c, s, ServeSteps(s.nextClient)) == Some(Serving(c, s, GetTask(0, Asked(c)), [0]))
  {
    var g := Client(s.nextClient);
    Serves(c, s);
    Decides(c, s);
    ExecJoin(c, s, [OfArrival(GetReceive), OfClient(g, GetLock)], Serving(c, s, GetSend(0), []),
             [OfClient(g, GetSendDirty), OfClient(g, GetDecide)], Serving(c, s, GetTask(0, Asked(c)), [0]));
  }

  /** The task is sent and the mutex free again. */
  function Served(c: Config, s: State): (r: State)
    requires |s.pool.dbs| == 1
  {
    State(Serving(c, s, GetWait(0), [0]).pool.(lock := None), PushTask(s.sched, Asked(c)), s.procs, s.nextClient + 1)
  }

  lemma Sends(c: Config, s: State)
    requires Offering(s) && |s.sched.tasks| <= c.max
    ensures Do(c, Serving(c, s, GetTask(0, Asked(c)), [0]), OfClient(Client(s.nextClient), GetPushTask)) == Some(Served(c, s))
  {
    var g := Client(s.nextClient);
    assert s.procs[g := GetTask(0, Asked(c))] - {g} == s.procs;
  }

  /** Served and returned again, with one more task in the channel. */
  function Returned(s: State): (r: State)
    requires |s.pool.dbs| == 1
  {
    State(s.pool.(dbs := [s.pool.dbs[0].(blockUntil := s.pool.now + Small.lifetime)],
                  history := s.pool.history + [Granted(0, s.pool.now, s.pool.dbs[0].generation), Unlocked(0)]),
          PushTask(s.sched, ExtendJob), s.procs, s.nextClient + 2)
  }

  lemma GivesBack(s: State)
    requires Offering(s)
    ensures Do(Small, Served(Small, s), OfArrival(ReturnAtomic(0))) == Some(Returned(s))
  {
    var db := s.pool.dbs[0].(blockUntil := s.pool.now + Small.lifetime);
    assert [0][..0] == [];
    assert Without([0], 0) == [];
    assert [Grant(s.pool.dbs[0], s.pool.now + Small.lifetime)][0 := db] == [db] && [] + [0] == [0];
    assert s.pool.history + [Granted(0, s.pool.now, db.generation)] + [Unlocked(0)]
        == s.pool.history + [Granted(0, s.pool.now, db.generation), Unlocked(0)];
    assert s.procs - {Client(s.nextClient + 1)} == s.procs;
  }

  lemma Returns(s: State)
    requires Offering(s) && |s.sched.tasks| < 3
    ensures Leads(Small, QueuedManual, Serving(Small, s, GetTask(0, ExtendJob), [0]),
                  [OfClient(Client(s.nextClient), GetPushTask), OfArrival(ReturnAtomic(0))], Returned(s))
  {
    var steps := [OfClient(Client(s.nextClient), GetPushTask), OfArrival(ReturnAtomic(0))];
    Sends(Small, s);
    GivesBack(s);
    assert steps[1..] == [steps[1]] && steps[1..][1..] == [];
    assert Leads(Small, QueuedManual, Served(Small, s), steps[1..], Returned(s));
  }

  lemma ServeLeads(s: State)
    requires Offering(s)
    ensures Leads(Small, QueuedManual, s, ServeSteps(s.nextClient), Serving(Small, s, GetTask(0, ExtendJob), [0]))
  {
    ServeRuns(Small, s);
    ExecLeads(Small, s, ServeSteps(s.nextClient), Serving(Small, s, GetTask(0, ExtendJob), [0]));
  }

  /** Getting and returning the database once more: all it leaves is a task nobody will take. */
  lemma RoundLeads(s: State) returns (steps: seq<Step>)
    requires Offering(s) && |s.sched.tasks| < 3
    ensures Leads(Small, QueuedManual, s, steps, Returned(s))
  {
    ServeLeads(s);
    Returns(s);
    var last := [OfClient(Client(s.nextClient), GetPushTask), OfArrival(ReturnAtomic(0))];
    LeadsConcat(Small, QueuedManual, s, ServeSteps(s.nextClient), Serving(Small, s, GetTask(0, ExtendJob), [0]), last, Returned(s));
    steps := ServeSteps(s.nextClient) + last;
  }

  const Waiter := TaskRun(1)

  const Waiting: map<Gid, Proc> := map[Waiter := Work(Extend, ExtendLock)]

  /** The task channel fills up, and the next getter keeps the mutex. */
  lemma Jams(s: State) returns (steps: seq<Step>, t: State)
    requires Offering(s) && s.sched.cancelled && s.sched.tasks == [] && s.procs == Waiting
    ensures Leads(Small, QueuedManual, s, steps, t) && t.sched.stop == s.sched.stop
    ensures exists g :: Deadlocked(Small, t, g, Waiter)
  {
    var s1, s2, s3 := Returned(s), Returned(Returned(s)), Returned(Returned(Returned(s)));
    var a := RoundLeads(s);
    var b := RoundLeads(s1);
    var e := RoundLeads(s2);
    ServeLeads(s3);
    t := Serving(Small, s3, GetTask(0, ExtendJob), [0]);
    LeadsConcat(Small, QueuedManual, s, a, s1, b, s2);
    LeadsConcat(Small, QueuedManual, s, a + b, s2, e, s3);
    LeadsConcat(Small, QueuedManual, s, a + b + e, s3, ServeSteps(s3.nextClient), t);
    steps := a + b + e + ServeSteps(s3.nextClient);
    assert Deadlocked(Small, t, Client(s3.nextClient), Waiter);
  }

  const SpawnedSched := Idling.(nextJob := 2, sem := 1, wg := 3, ledger := map[0 := Finished, 1 := Running])

  const SpawnSteps: seq<Step> := [OfSched(ControlTake), OfSched(ControlForward)] + [OfSched(LoopTake), OfSched(LoopSpawn)]

  /** The task the first grant asked for gets its worker. */
  lemma Spawns(c: Config, p: Pool, n: nat)
    requires c.parallel > 0
    ensures Exec(c, State(p, Granted1(c).sched, map[], n), SpawnSteps)
         == Some(State(p, SpawnedSched, map[Waiter := StartPc(Asked(c))], n))
  {
    var d, j := Granted1(c).sched, Job(Asked(c), 1);
    var s := State(p, d, map[], n);
    var u := s.(sched := d.(tasks := [], workChan := [j], ledger := d.ledger[1 := Queued]));
    var v := u.(sched := u.sched.(loop := Acquiring(j), workChan := [], ledger := u.sched.ledger[1 := Picked]));
    var t := State(p, SpawnedSched, map[Waiter := StartPc(Asked(c))], n);
    TaskPasses(c, s, j);
    LoopPicks(c, u, j);
    assert v.sched.ledger[1 := Running] == map[0 := Finished, 1 := Running];
    assert map[][Waiter := StartPc(Asked(c))] == map[Waiter := StartPc(Asked(c))];
    assert Do(c, v, OfSched(LoopSpawn)) == Some(t);
    ExecTwo(c, u, OfSched(LoopTake), v, OfSched(LoopSpawn), t);
    ExecJoin(c, s, [OfSched(ControlTake), OfSched(ControlForward)], u, [OfSched(LoopTake), OfSched(LoopSpawn)], t);
  }

  /** The first database is back, and the task the first grant asked for has its worker. */
  const Spawned :=
    State(Filled(Small).(history := Filled(Small).history + [Granted(0, 0, 1), Unlocked(0)]), SpawnedSched, Waiting, 2)

  lemma FirstReturn()
    ensures Leads(Small, QueuedManual, Granted1(Small), [OfArrival(ReturnAtomic(0))], State(Spawned.pool, Granted1(Small).sched, map[], 2))
  {
    var t := State(Spawned.pool, Granted1(Small).sched, map[], 2);
    assert [0][..0] == [];
    assert Without([0], 0) == [];
    assert [TestDb(0, Dirty, 1, 0)][0 := Fresh] == [Fresh] && [] + [0] == [0];
    assert Filled(Small).history + [Granted(0, 0, 1)] + [Unlocked(0)] == Filled(Small).history + [Granted(0, 0, 1), Unlocked(0)];
    SoloArrive(Small, Taken1(Small), Granted1(Small).sched, 1, ReturnAtomic(0), Turn(Spawned.pool, None, None));
    assert Do(Small, Granted1(Small), OfArrival(ReturnAtomic(0))) == Some(t);
    assert [OfArrival(ReturnAtomic(0))][1..] == [];
  }

  /** The stop task has been consumed while a worker waits for the mutex and the database is ready. */
  const Cancelled := Spawned.(sched := Consumed(Spawned.sched))

  lemma SpawnLeads() returns (steps: seq<Step>)
    ensures Leads(Small, QueuedManual, Init(Small, 0), steps, Spawned)
  {
    var s0, s1 := Init(Small, 0), State(Spawned.pool, Granted1(Small).sched, map[], 2);
    FirstGrant(Small);
    FirstReturn();
    Spawns(Small, Spawned.pool, 2);
    ExecLeads(Small, s1, SpawnSteps, Spawned);
    LeadsConcat(Small, QueuedManual, s0, FirstSteps, Granted1(Small), [OfArrival(ReturnAtomic(0))], s1);
    LeadsConcat(Small, QueuedManual, s0, FirstSteps + [OfArrival(ReturnAtomic(0))], s1, SpawnSteps, Spawned);
    steps := FirstSteps + [OfArrival(ReturnAtomic(0))] + SpawnSteps;
  }

  lemma CancelLeads() returns (steps: seq<Step>)
    ensures Leads(Small, QueuedManual, Init(Small, 0), steps, Cancelled)
  {
    var first := SpawnLeads();
    StopConsumed(Small, Spawned);
    ExecLeads(Small, Spawned, StopSteps, Cancelled);
    LeadsConcat(Small, QueuedManual, Init(Small, 0), first, Spawned, StopSteps, Cancelled);
    steps := first + StopSteps;
  }

  /**
    Clients that get and return one database while Stop waits fill the task channel, which nobody
    empties any more; the next getter then holds the mutex for ever, and so a tracked worker that
    needs it never reports and Stop never returns.
    */
  lemma StopCanHang() returns (states: seq<State>, steps: seq<Step>)
    ensures Run(Small, QueuedManual, states, steps) && states[|steps|].sched.stop == StopWaiting
    ensures exists g :: Deadlocked(Small, states[|steps|], g, Waiter)
  {
    var first := CancelLeads();
    var last, t := Jams(Cancelled);
    LeadsConcat(Small, QueuedManual, Init(Small, 0), first, Cancelled, last, t);
    steps := first + last;
    states := LeadsIsRun(Small, QueuedManual, steps, t);
  }
}
