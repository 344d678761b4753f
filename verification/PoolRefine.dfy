/**
  The atomic manual operations are runs of the fine-grained ones, and what goes wrong when manual
  operations hit an id that is no longer queued.
  */
module PoolRefine {
  import opened Chains
  import opened Queues
  import opened PoolMachine
  import opened PoolFull
  import opened PoolQueued
  import opened PoolIsolation

  /** The state after running `steps` one after the other, with nothing in between. */
  function Exec(c: Config, s: State, steps: seq<Step>): (r: Option<State>)
    decreases |steps|
  {
    if steps == [] then Some(s)
    else
      var r := Do(c, s, steps[0]);
      if r.None? then None else Exec(c, r.value, steps[1..])
  }

  lemma ExecCons(c: Config, s: State, step: Step, rest: seq<Step>, t: State)
    requires Do(c, s, step) == Some(t)
    ensures Exec(c, s, [step] + rest) == Exec(c, t, rest)
  {
    assert ([step] + rest)[1..] == rest;
  }

  lemma {:induction false} ExecIsChain(c: Config, s: State, steps: seq<Step>, f: (State, Step) -> Option<State>)
    requires forall x, y :: f(x, y) == Do(c, x, y)
    ensures Exec(c, s, steps) == Chain(f, s, steps)
    decreases |steps|
  {
    if steps != [] {
      var r := f(s, steps[0]);
      if r.Some? {
        ExecIsChain(c, r.value, steps[1..], f);
      }
    }
  }

  lemma ExecConcat(c: Config, s: State, a: seq<Step>, b: seq<Step>, t: State)
    requires Exec(c, s, a) == Some(t)
    ensures Exec(c, s, a + b) == Exec(c, t, b)
  {
    var f := (x, y) => Do(c, x, y);
    ExecIsChain(c, s, a, f);
    ExecIsChain(c, s, a + b, f);
    ExecIsChain(c, t, b, f);
    ChainConcat(f, s, a, b, t);
  }

  function Times(n: nat, step: Step): (r: seq<Step>)
    ensures |r| == n
  {
    if n == 0 then [] else [step] + Times(n - 1, step)
  }

  function WithDirty(s: State, dirty: seq<nat>, g: Gid, q: Proc): (t: State) {
    s.(pool := s.pool.(dirty := dirty), procs := s.procs[g := q])
  }

  lemma WithDirtyTwice(s: State, d1: seq<nat>, q1: Proc, d2: seq<nat>, q2: Proc, g: Gid)
    ensures WithDirty(WithDirty(s, d1, g, q1), d2, g, q2) == WithDirty(s, d2, g, q2)
  {
    assert s.procs[g := q1][g := q2] == s.procs[g := q2];
  }

  lemma WithDirtySame(s: State, g: Gid)
    requires g in s.procs
    ensures WithDirty(s, s.pool.dirty, g, s.procs[g]) == s
  {
    assert s.procs[g := s.procs[g]] == s.procs;
  }

  function Drained(buffer: seq<nat>, x: nat, id: nat): (r: seq<nat>) {
    if x == id then buffer else buffer + [x]
  }

  lemma DrainOne(c: Config, s: State, g: Gid, op: ManualOp, id: nat, buffer: seq<nat>)
    requires g in s.procs && s.procs[g] == Drain(op, id, buffer)
    requires |buffer| + |s.pool.dirty| <= c.max && s.pool.dirty != []
    ensures Do(c, s, OfClient(g, DrainTake))
         == Some(WithDirty(s, s.pool.dirty[1..], g, Drain(op, id, Drained(buffer, s.pool.dirty[0], id))))
  {
    WithDirtySame(s, g);
  }

  /** The drain loop of excludeIDFromChannel, run alone, moves the other ids into its buffer in order. */
  lemma {:induction false} DrainRuns(c: Config, s: State, g: Gid, op: ManualOp, id: nat, buffer: seq<nat>)
    requires g in s.procs && s.procs[g] == Drain(op, id, buffer)
    requires |buffer| + |s.pool.dirty| <= c.max
    ensures Exec(c, s, Times(|s.pool.dirty|, OfClient(g, DrainTake)))
         == Some(WithDirty(s, [], g, Drain(op, id, buffer + Without(s.pool.dirty, id))))
    decreases |s.pool.dirty|
  {
    var dirty := s.pool.dirty;
    if dirty == [] {
      assert buffer + Without([], id) == buffer;
      WithDirtySame(s, g);
    } else {
      var buffer' := Drained(buffer, dirty[0], id);
      var q := Drain(op, id, buffer');
      var t := WithDirty(s, dirty[1..], g, q);
      DrainOne(c, s, g, op, id, buffer);
      DrainRuns(c, t, g, op, id, buffer');
      ExecCons(c, s, OfClient(g, DrainTake), Times(|dirty| - 1, OfClient(g, DrainTake)), t);
      var q' := Drain(op, id, buffer' + Without(dirty[1..], id));
      WithDirtyTwice(s, dirty[1..], q, [], q', g);
      DrainedThen(buffer, dirty, id);
    }
  }

  lemma DrainedThen(buffer: seq<nat>, dirty: seq<nat>, id: nat)
    requires dirty != []
    ensures Drained(buffer, dirty[0], id) + Without(dirty[1..], id) == buffer + Without(dirty, id)
  {
    WithoutFirst(dirty, id);
    if dirty[0] == id {
      assert [] + Without(dirty[1..], id) == Without(dirty[1..], id);
    } else {
      assert (buffer + [dirty[0]]) + Without(dirty[1..], id) == buffer + ([dirty[0]] + Without(dirty[1..], id));
    }
  }

  /** The refill loop, run alone, puts the whole buffer back in order. */
  lemma {:induction false} RefillRuns(c: Config, s: State, g: Gid, op: ManualOp, id: nat, buffer: seq<nat>)
    requires g in s.procs && s.procs[g] == Refill(op, id, buffer)
    requires |s.pool.dirty| + |buffer| <= c.max
    ensures Exec(c, s, Times(|buffer|, OfClient(g, RefillSend)))
         == Some(WithDirty(s, s.pool.dirty + buffer, g, Refill(op, id, [])))
    decreases |buffer|
  {
    if buffer == [] {
      assert s.pool.dirty + buffer == s.pool.dirty;
      WithDirtySame(s, g);
    } else {
      var q := Refill(op, id, buffer[1..]);
      var t := WithDirty(s, s.pool.dirty + [buffer[0]], g, q);
      assert Do(c, s, OfClient(g, RefillSend)) == Some(t);
      RefillRuns(c, t, g, op, id, buffer[1..]);
      ExecCons(c, s, OfClient(g, RefillSend), Times(|buffer| - 1, OfClient(g, RefillSend)), t);
      assert s.pool.dirty + [buffer[0]] + buffer[1..] == s.pool.dirty + buffer;
      WithDirtyTwice(s, s.pool.dirty + [buffer[0]], q, s.pool.dirty + buffer, Refill(op, id, []), g);
    }
  }

  /** Both loops of excludeIDFromChannel. */
  function ExcludeSteps(g: Gid, dirty: seq<nat>, id: nat): (r: seq<Step>) {
    Times(|dirty|, OfClient(g, DrainTake)) + ([OfClient(g, DrainEnd)] + Times(|Without(dirty, id)|, OfClient(g, RefillSend)))
  }

  lemma DrainEnds(c: Config, s: State, g: Gid, op: ManualOp, id: nat, kept: seq<nat>)
    ensures Do(c, WithDirty(s, [], g, Drain(op, id, kept)), OfClient(g, DrainEnd)) == Some(WithDirty(s, [], g, Refill(op, id, kept)))
  {
    WithDirtyTwice(s, [], Drain(op, id, kept), [], Refill(op, id, kept), g);
  }

  /**
    excludeIDFromChannel, run without interference on a channel within its capacity, never blocks
    and leaves the old queue with every occurrence of the id removed and the order preserved.
    */
  lemma ExcludeRuns(c: Config, s: State, g: Gid, op: ManualOp, id: nat)
    requires g in s.procs && s.procs[g] == Drain(op, id, [])
    requires |s.pool.dirty| <= c.max
    ensures Exec(c, s, ExcludeSteps(g, s.pool.dirty, id))
         == Some(WithDirty(s, Without(s.pool.dirty, id), g, Refill(op, id, [])))
  {
    var dirty, kept := s.pool.dirty, Without(s.pool.dirty, id);
    WithoutShorter(dirty, id);
    DrainRuns(c, s, g, op, id, []);
    assert [] + kept == kept;
    var t := WithDirty(s, [], g, Drain(op, id, kept));
    var u := WithDirty(s, [], g, Refill(op, id, kept));
    var refill := Times(|kept|, OfClient(g, RefillSend));
    ExecConcat(c, s, Times(|dirty|, OfClient(g, DrainTake)), [OfClient(g, DrainEnd)] + refill, t);
    DrainEnds(c, s, g, op, id, kept);
    ExecCons(c, t, OfClient(g, DrainEnd), refill, u);
    RefillRuns(c, u, g, op, id, kept);
    WithDirtyTwice(s, [], Refill(op, id, kept), kept, Refill(op, id, []), g);
  }

  // ---------------------------------------------------------------- atomic manual operations

  function ReturnSteps(s: State, id: nat): (r: seq<Step>) {
    var g := Client(s.nextClient);
    [OfArrival(ReturnLock(id))] + (ExcludeSteps(g, s.pool.dirty, id) + [OfClient(g, RefillEnd), OfClient(g, ReturnSendReady)])
  }

  lemma ReturnBegins(c: Config, s: State, id: nat)
    requires s.pool.lock.None? && CanReturn(s.pool, id)
    ensures Do(c, s, OfArrival(ReturnLock(id)))
         == Some(State(Unlock(s.pool, id).(lock := Some(Client(s.nextClient))), s.sched,
                       s.procs[Client(s.nextClient) := Drain(Return, id, [])], s.nextClient + 1))
  {
  }

  lemma ReturnEnds(c: Config, u: State, g: Gid, id: nat, procs: map<Gid, Proc>)
    requires g !in procs && u.procs == procs[g := Refill(Return, id, [])] && |u.pool.ready| < c.max
    ensures Exec(c, u, [OfClient(g, RefillEnd), OfClient(g, ReturnSendReady)])
         == Some(State(u.pool.(ready := u.pool.ready + [id], lock := None), u.sched, procs, u.nextClient))
  {
    var v := u.(procs := procs[g := ReturnSend(id)]);
    assert u.procs[g := ReturnSend(id)] == v.procs;
    assert v.procs - {g} == procs;
    var w := State(u.pool.(ready := u.pool.ready + [id], lock := None), u.sched, procs, u.nextClient);
    ExecCons(c, u, OfClient(g, RefillEnd), [OfClient(g, ReturnSendReady)], v);
    assert [OfClient(g, RefillEnd)] + [OfClient(g, ReturnSendReady)] == [OfClient(g, RefillEnd), OfClient(g, ReturnSendReady)];
    ExecCons(c, v, OfClient(g, ReturnSendReady), [], w);
    assert [OfClient(g, ReturnSendReady)] + [] == [OfClient(g, ReturnSendReady)];
  }

  /** The atomic return is what the fine-grained ReturnTestDatabase does when nothing interferes. */
  lemma AtomicReturn(c: Config, s: State, id: nat)
    requires s.pool.lock.None? && CanReturn(s.pool, id) && Client(s.nextClient) !in s.procs
    requires |s.pool.dirty| <= c.max && |s.pool.ready| < c.max
    ensures Exec(c, s, ReturnSteps(s, id)) == Do(c, s, OfArrival(ReturnAtomic(id)))
  {
    var g := Client(s.nextClient);
    var p := Unlock(s.pool, id).(lock := Some(g));
    var t := State(p, s.sched, s.procs[g := Drain(Return, id, [])], s.nextClient + 1);
    ReturnBegins(c, s, id);
    var tail := [OfClient(g, RefillEnd), OfClient(g, ReturnSendReady)];
    ExecCons(c, s, OfArrival(ReturnLock(id)), ExcludeSteps(g, s.pool.dirty, id) + tail, t);
    ExcludeRuns(c, t, g, Return, id);
    var u := WithDirty(t, Without(s.pool.dirty, id), g, Refill(Return, id, []));
    ExecConcat(c, t, ExcludeSteps(g, s.pool.dirty, id), tail, u);
    assert u.procs == s.procs[g := Refill(Return, id, [])];
    ReturnEnds(c, u, g, id, s.procs);
    assert s.procs - {g} == s.procs;
  }

  function RecreateSteps(s: State, id: nat): (r: seq<Step>) {
    var g := Client(s.nextClient);
    [OfArrival(RecreateCheck(id))] + (ExcludeSteps(g, s.pool.dirty, id) + [OfClient(g, RefillEnd)])
  }

  /** The atomic recreate is what the fine-grained RecreateTestDatabase does when nothing interferes. */
  lemma AtomicRecreate(c: Config, s: State, id: nat)
    requires s.pool.lock.None? && id < |s.pool.dbs| && Client(s.nextClient) !in s.procs
    requires |s.pool.dirty| <= c.max && s.sched.ctxSet
    ensures Exec(c, s, RecreateSteps(s, id)) == Do(c, s, OfArrival(RecreateAtomic(id)))
  {
    var g := Client(s.nextClient);
    var t := State(s.pool, s.sched, s.procs[g := Drain(Recreate, id, [])], s.nextClient + 1);
    var u := WithDirty(t, Without(s.pool.dirty, id), g, Refill(Recreate, id, []));
    var w := u.(procs := s.procs[g := Work(Manual, RecCheck(id))]);
    RecreateBegins(c, s, id, t);
    ExcludeRuns(c, t, g, Recreate, id);
    assert u.procs[g := Work(Manual, RecCheck(id))] == w.procs;
    RecreateEnds(c, u, g, id, w);
    RecreateAtOnce(c, s, id, w);
    ExecCons(c, s, OfArrival(RecreateCheck(id)), ExcludeSteps(g, s.pool.dirty, id) + [OfClient(g, RefillEnd)], t);
    ExecConcat(c, t, ExcludeSteps(g, s.pool.dirty, id), [OfClient(g, RefillEnd)], u);
  }

  lemma RecreateBegins(c: Config, s: State, id: nat, t: State)
    requires s.pool.lock.None? && id < |s.pool.dbs|
    requires t == State(s.pool, s.sched, s.procs[Client(s.nextClient) := Drain(Recreate, id, [])], s.nextClient + 1)
    ensures Do(c, s, OfArrival(RecreateCheck(id))) == Some(t)
  {
  }

  lemma RecreateAtOnce(c: Config, s: State, id: nat, w: State)
    requires s.pool.lock.None? && id < |s.pool.dbs| && s.sched.ctxSet
    requires w == State(s.pool.(dirty := Without(s.pool.dirty, id)), s.sched,
                        s.procs[Client(s.nextClient) := Work(Manual, RecCheck(id))], s.nextClient + 1)
    ensures Do(c, s, OfArrival(RecreateAtomic(id))) == Some(w)
  {
  }

  /** The refill is over and the manual worker starts. */
  lemma RecreateEnds(c: Config, u: State, g: Gid, id: nat, w: State)
    requires g in u.procs && u.procs[g] == Refill(Recreate, id, []) && u.sched.ctxSet
    requires w == u.(procs := w.procs) && w.procs == u.procs[g := Work(Manual, RecCheck(id))]
    ensures Exec(c, u, [OfClient(g, RefillEnd)]) == Some(w)
  {
    ExecCons(c, u, OfClient(g, RefillEnd), [], w);
    assert [OfClient(g, RefillEnd)] + [] == [OfClient(g, RefillEnd)];
  }

  // ---------------------------------------------------------------- runs from executions

  /** Steps that can be taken one after the other from the pool's creation are a run. */
  lemma ExecIsRun(c: Config, now: int, steps: seq<Step>, t: State) returns (states: seq<State>)
    requires Exec(c, Init(c, now), steps) == Some(t)
    ensures Run(c, Full, states, steps) && states[|steps|] == t
  {
    var f := (x, y) => Do(c, x, y);
    ExecIsChain(c, Init(c, now), steps, f);
    states := ChainStates(f, Init(c, now), steps, t);
    forall i: nat ensures StepAt(c, Full, states, steps, i) {
      AllAllowed(states, steps, i);
    }
  }

  lemma AllAllowed(states: seq<State>, steps: seq<Step>, i: nat)
    requires |states| == |steps| + 1
    ensures i < |steps| ==> Allowed(Full, states[i], steps[i])
  {
  }

  // ---------------------------------------------------------------- without the queued condition

  const Tiny := Config(1, 1, 1, 0)

  /** A pool with one initial database starts up and runs its only task. */
  const BootSteps: seq<Step> := BootControlSteps + BootLoopSteps
  const BootControlSteps: seq<Step> := [OfSched(Start), OfSched(ControlInit), OfSched(ControlTake)]
  const BootLoopSteps: seq<Step> := [OfSched(ControlForward), OfSched(LoopTake), OfSched(LoopSpawn)]

  const Worker := TaskRun(0)

  const BootSched :=
    Sched([], 1, true, true, false, Receiving, [], 1, false, Idle, 3, 1, NoStop, map[0 := Running])

  function BootedIn(c: Config): (s: State) {
    State(Init(c, 0).pool, BootSched, map[Worker := Work(Extend, ExtendLock)], 0)
  }

  const Booted := BootedIn(Tiny)

  function Forwarded(c: Config): (s: State) {
    State(Init(c, 0).pool,
          Sched([], 1, true, true, false, Forwarding(Job(ExtendJob, 0)), [], 1, false, Idle, 2, 0, NoStop, map[0 := Held]),
          map[], 0)
  }

  lemma BootControl(c: Config)
    requires c.initial == 1
    ensures Exec(c, Init(c, 0), BootControlSteps) == Some(Forwarded(c))
  {
    var s0 := Init(c, 0);
    var j := Job(ExtendJob, 0);
    var d := s0.sched.(running := true, ctxSet := true, control := Starting, wg := 1, tasks := [j], nextJob := 1);
    var s1 := s0.(sched := d);
    assert InitialJobs(0, 1) == [j];
    assert [] + [j] == [j];
    assert Do(c, s0, OfSched(Start)) == Some(s1);
    var s2 := s0.(sched := d.(control := Receiving, workCap := 1, loop := Idle, wg := 2));
    assert Do(c, s1, OfSched(ControlInit)) == Some(s2);
    assert [j][1..] == [];
    assert Do(c, s2, OfSched(ControlTake)) == Some(Forwarded(c));
  }

  lemma BootLoop(c: Config)
    requires c.parallel > 0
    ensures Exec(c, Forwarded(c), BootLoopSteps) == Some(BootedIn(c))
  {
    var s3, j := Forwarded(c), Job(ExtendJob, 0);
    var s4 := s3.(sched := s3.sched.(control := Receiving, workChan := [j], ledger := map[0 := Queued]));
    assert [] + [j] == [j];
    assert map[0 := Held][0 := Queued] == map[0 := Queued];
    assert Do(c, s3, OfSched(ControlForward)) == Some(s4);
    BootSpawn(c, s4);
  }

  lemma BootSpawn(c: Config, s4: State)
    requires c.parallel > 0
    requires s4 == Forwarded(c).(sched := Forwarded(c).sched.(control := Receiving, workChan := [Job(ExtendJob, 0)], ledger := map[0 := Queued]))
    ensures Exec(c, s4, [OfSched(LoopTake), OfSched(LoopSpawn)]) == Some(BootedIn(c))
  {
    var j := Job(ExtendJob, 0);
    var s5 := s4.(sched := s4.sched.(loop := Acquiring(j), workChan := [], ledger := map[0 := Picked]));
    assert [j][1..] == [];
    assert map[0 := Queued][0 := Picked] == map[0 := Picked];
    assert Do(c, s4, OfSched(LoopTake)) == Some(s5);
    assert map[0 := Picked][0 := Running] == map[0 := Running];
    assert map[][Worker := Work(Extend, ExtendLock)] == map[Worker := Work(Extend, ExtendLock)];
    assert Do(c, s5, OfSched(LoopSpawn)) == Some(BootedIn(c));
  }

  lemma Boot(c: Config)
    requires c.initial == 1 && c.parallel > 0
    ensures Exec(c, Init(c, 0), BootSteps) == Some(BootedIn(c))
  {
    BootControl(c);
    BootLoop(c);
    ExecConcat(c, Init(c, 0), BootControlSteps, BootLoopSteps, Forwarded(c));
  }

  /** The creation of database 0 fails for good; a client returns it all the same and the next one is granted it. */
  const BadSteps: seq<Step> := [
    OfWorker(Worker, DoExtend), OfWorker(Worker, DoRecCheck), OfWorker(Worker, DoRecLock(false)), OfWorker(Worker, DoRecSlot),
    OfWorker(Worker, DoRecLoop), OfWorker(Worker, DoRecCall(Failed)),
    OfArrival(ReturnAtomic(0)), OfArrival(GetReceive), OfClient(Client(1), GetLock)]

  /** One step of the only goroutine there is. */
  lemma LoneStep(c: Config, s: State, g: Gid, q: Proc, x: WorkMove, p: Pool, pc: Pc)
    requires s.procs == map[g := q] && q.Work?
    requires WorkTurn(c, s.pool, s.sched.cancelled, q.kind, q.pc, g, x) == Some(Turn(p, Some(Work(q.kind, pc)), None))
    ensures Do(c, s, OfWorker(g, x)) == Some(s.(pool := p, procs := map[g := Work(q.kind, pc)]))
  {
    assert s.procs[g := Work(q.kind, pc)] == map[g := Work(q.kind, pc)];
  }

  function Lone(p: Pool, pc: Pc): (s: State) {
    Booted.(pool := p, procs := map[Worker := Work(Extend, pc)])
  }

  lemma BadStart(db: TestDb, p: Pool)
    requires db == TestDb(0, Dirty, 0, 0) && p == Booted.pool.(dbs := [db])
    ensures Do(Tiny, Booted, BadSteps[0]) == Some(Lone(p, RecCheck(0)))
    ensures Do(Tiny, Lone(p, RecCheck(0)), BadSteps[1]) == Some(Lone(p, RecLock(0)))
  {
    assert [] + [db] == [db];
    LoneStep(Tiny, Booted, Worker, Work(Extend, ExtendLock), DoExtend, p, RecCheck(0));
    LoneStep(Tiny, Lone(p, RecCheck(0)), Worker, Work(Extend, RecCheck(0)), DoRecCheck, p, RecLock(0));
  }

  lemma BadLock(db: TestDb, p: Pool)
    requires db == TestDb(0, Dirty, 0, 0) && p == Booted.pool.(dbs := [db])
    ensures Do(Tiny, Lone(p, RecLock(0)), BadSteps[2]) == Some(Lone(p, RecSlot(0)))
    ensures Do(Tiny, Lone(p, RecSlot(0)), BadSteps[3]) == Some(Lone(p.(slots := 1), RecLoop(0)))
  {
    assert [db][0 := db] == [db];
    LoneStep(Tiny, Lone(p, RecLock(0)), Worker, Work(Extend, RecLock(0)), DoRecLock(false), p, RecSlot(0));
    LoneStep(Tiny, Lone(p, RecSlot(0)), Worker, Work(Extend, RecSlot(0)), DoRecSlot, p.(slots := 1), RecLoop(0));
  }

  lemma BadCall(p: Pool, p': Pool, p'': Pool)
    requires p.history == [] && p.abandoned == {}
    requires p' == p.(history := [CallStart(0)]) && p'' == p.(history := [CallStart(0), CallFailed(0)], abandoned := {0})
    ensures Do(Tiny, Lone(p, RecLoop(0)), BadSteps[4]) == Some(Lone(p', RecCall(0, 0)))
    ensures Do(Tiny, Lone(p', RecCall(0, 0)), BadSteps[5]) == Some(Lone(p'', SlotRelease))
  {
    assert [] + [CallStart(0)] == [CallStart(0)];
    LoneStep(Tiny, Lone(p, RecLoop(0)), Worker, Work(Extend, RecLoop(0)), DoRecLoop, p', RecCall(0, 0));
    assert p'.history + [CallFailed(0)] == p''.history;
    assert p'.abandoned + {0} == p''.abandoned;
    LoneStep(Tiny, Lone(p', RecCall(0, 0)), Worker, Work(Extend, RecCall(0, 0)), DoRecCall(Failed), p'', SlotRelease);
  }

  lemma BadGrant() returns (t: State)
    ensures Exec(Tiny, Booted, BadSteps) == Some(t)
    ensures t.pool.history == [CallStart(0), CallFailed(0), Unlocked(0), Granted(0, 0, 0)]
  {
    var db := TestDb(0, Dirty, 0, 0);
    var p1 := Booted.pool.(dbs := [db]);
    var p2 := p1.(slots := 1);
    var p3 := p2.(history := [CallStart(0)]);
    var p4 := p2.(history := [CallStart(0), CallFailed(0)], abandoned := {0});
    BadStart(db, p1);
    BadLock(db, p1);
    BadCall(p2, p3, p4);
    var s6 := Lone(p4, SlotRelease);
    t := Regrant(s6);
    Steps9(Tiny, Booted, Lone(p1, RecCheck(0)), Lone(p1, RecLock(0)), Lone(p1, RecSlot(0)), Lone(p2, RecLoop(0)), Lone(p3, RecCall(0, 0)), s6, t);
  }

  lemma Regrant(s: State) returns (t: State)
    requires s.pool.dbs == [TestDb(0, Dirty, 0, 0)] && s.pool.ready == [] && s.pool.lock.None? && s.pool.now == 0 && s.nextClient == 0
    requires Client(0) !in s.procs && s.pool.dirty == [] && s.pool.history == [CallStart(0), CallFailed(0)]
    ensures Exec(Tiny, s, BadSteps[6..]) == Some(t)
    ensures t.pool.history == [CallStart(0), CallFailed(0), Unlocked(0), Granted(0, 0, 0)]
  {
    var c := Tiny;
    var db := TestDb(0, Ready, 0, 0);
    var p1 := s.pool.(dbs := [db], dirty := [], ready := [0], history := [CallStart(0), CallFailed(0), Unlocked(0)]);
    assert Unlock(s.pool, 0).dbs == [db];
    assert Unlock(s.pool, 0).history == p1.history;
    assert s.pool.ready + [0] == [0];
    assert s.procs - {Client(0)} == s.procs;
    var s1 := s.(pool := p1, nextClient := 1);
    assert Do(c, s, OfArrival(ReturnAtomic(0))) == Some(s1);
    var s2 := s1.(pool := p1.(ready := []), procs := s.procs[Client(1) := GetWait(0)], nextClient := 2);
    assert [0][1..] == [];
    assert Do(c, s1, OfArrival(GetReceive)) == Some(s2);
    t := Do(c, s2, OfClient(Client(1), GetLock)).value;
    var last := OfClient(Client(1), GetLock);
    ExecCons(c, s2, last, [], t);
    ExecCons(c, s1, OfArrival(GetReceive), [last], s2);
    ExecCons(c, s, OfArrival(ReturnAtomic(0)), [OfArrival(GetReceive), last], s1);
    assert [last] + [] == [last];
    assert [OfArrival(GetReceive)] + [last] == [OfArrival(GetReceive), last];
    assert BadSteps[6..] == [OfArrival(ReturnAtomic(0))] + [OfArrival(GetReceive), last];
  }

  lemma Steps9(c: Config, s0: State, s1: State, s2: State, s3: State, s4: State, s5: State, s6: State, t: State)
    requires Do(c, s0, BadSteps[0]) == Some(s1) && Do(c, s1, BadSteps[1]) == Some(s2) && Do(c, s2, BadSteps[2]) == Some(s3)
    requires Do(c, s3, BadSteps[3]) == Some(s4) && Do(c, s4, BadSteps[4]) == Some(s5) && Do(c, s5, BadSteps[5]) == Some(s6)
    requires Exec(c, s6, BadSteps[6..]) == Some(t)
    ensures Exec(c, s0, BadSteps) == Some(t)
  {
    assert BadSteps[5..] == [BadSteps[5]] + BadSteps[6..];
    ExecCons(c, s5, BadSteps[5], BadSteps[6..], s6);
    assert BadSteps[4..] == [BadSteps[4]] + BadSteps[5..];
    ExecCons(c, s4, BadSteps[4], BadSteps[5..], s5);
    assert BadSteps[3..] == [BadSteps[3]] + BadSteps[4..];
    ExecCons(c, s3, BadSteps[3], BadSteps[4..], s4);
    assert BadSteps[2..] == [BadSteps[2]] + BadSteps[3..];
    ExecCons(c, s2, BadSteps[2], BadSteps[3..], s3);
    assert BadSteps[1..] == [BadSteps[1]] + BadSteps[2..];
    ExecCons(c, s1, BadSteps[1], BadSteps[2..], s2);
    assert BadSteps == [BadSteps[0]] + BadSteps[1..];
    ExecCons(c, s0, BadSteps[0], BadSteps[1..], s1);
  }

  /**
    Isolation needs the queued condition: with a return of an id that is not in `dirty` there is a
    run that grants a database whose creation has failed.
    */
  lemma IsolationNeedsQueued() returns (states: seq<State>, steps: seq<Step>)
    ensures Run(Tiny, Full, states, steps)
    ensures
      var h := states[|steps|].pool.history;
      |h| == 4 && h[3] == Granted(0, 0, 0) && !CleanDb(h[..3], 0)
  {
    Boot(Tiny);
    var t := BadGrant();
    steps := BootSteps + BadSteps;
    ExecConcat(Tiny, Init(Tiny, 0), BootSteps, BadSteps, Booted);
    states := ExecIsRun(Tiny, 0, steps, t);
  }

  // ---------------------------------------------------------------- removal

  function RemovalSteps(g: Gid, k: nat): (r: seq<Step>) {
    Times(k, OfClient(g, RemoveDrop)) + [OfClient(g, RemoveLast)]
  }

  /** The drops that are left when the loop is at `k`: once each, from the top down. */
  function DropEvents(k: nat): (r: seq<Event>) {
    [Dropped(k)] + if k == 0 then [] else DropEvents(k - 1)
  }

  lemma DropsJoin(h: seq<Event>, k: nat)
    requires k > 0
    ensures (h + [Dropped(k)]) + DropEvents(k - 1) == h + DropEvents(k)
  {
  }

  predicate QueuesWithin(p: Pool) {
    (forall i :: 0 <= i < |p.ready| ==> p.ready[i] < |p.dbs|) && (forall i :: 0 <= i < |p.dirty| ==> p.dirty[i] < |p.dbs|)
  }

  predicate Emptied(p: Pool) {
    p.closed && p.dbs == [] && p.ready == [] && p.dirty == [] && p.lock.None?
  }

  predicate RemoverAt(s: State, g: Gid, k: nat) {
    g in s.procs && s.procs[g] == Remover(k) && |s.pool.dbs| == k + 1 && QueuesWithin(s.pool)
  }

  /**
    Wherever a removal stands or is taken up again, dropping the remaining databases without failure
    empties the table and both queues, drops each remaining id once from the top down, and closes
    the task channel.
    */
  lemma {:induction false} RemovalFinishes(c: Config, s: State, g: Gid, k: nat) returns (t: State)
    requires RemoverAt(s, g, k)
    ensures Exec(c, s, RemovalSteps(g, k)) == Some(t)
    ensures Emptied(t.pool) && t.pool.history == s.pool.history + DropEvents(k)
    decreases k
  {
    if k == 0 {
      t := LastRemoval(c, s, g);
    } else {
      var u := OneRemoval(c, s, g, k);
      t := RemovalFinishes(c, u, g, k - 1);
      DropsJoin(s.pool.history, k);
    }
  }

  lemma LastRemoval(c: Config, s: State, g: Gid) returns (t: State)
    requires RemoverAt(s, g, 0)
    ensures Exec(c, s, RemovalSteps(g, 0)) == Some(t)
    ensures Emptied(t.pool) && t.pool.history == s.pool.history + DropEvents(0)
  {
    t := Do(c, s, OfClient(g, RemoveLast)).value;
    EmptyQueue(t.pool.ready, |t.pool.dbs|);
    EmptyQueue(t.pool.dirty, |t.pool.dbs|);
    ExecCons(c, s, OfClient(g, RemoveLast), [], t);
    assert RemovalSteps(g, 0) == [OfClient(g, RemoveLast)] + [];
    assert s.pool.history + [Dropped(0)] + [] == s.pool.history + [Dropped(0)];
  }

  lemma OneRemoval(c: Config, s: State, g: Gid, k: nat) returns (t: State)
    requires RemoverAt(s, g, k) && k > 0
    ensures RemoverAt(t, g, k - 1) && t.pool.history == s.pool.history + [Dropped(k)]
    ensures Exec(c, s, RemovalSteps(g, k)) == Exec(c, t, RemovalSteps(g, k - 1))
  {
    t := Do(c, s, OfClient(g, RemoveDrop)).value;
    WithoutTop(s.pool.ready, k);
    WithoutTop(s.pool.dirty, k);
    ExecCons(c, s, OfClient(g, RemoveDrop), RemovalSteps(g, k - 1), t);
    assert RemovalSteps(g, k) == [OfClient(g, RemoveDrop)] + RemovalSteps(g, k - 1);
  }

  lemma WithoutTop(q: seq<nat>, k: nat)
    requires forall i :: 0 <= i < |q| ==> q[i] < k + 1
    ensures forall i :: 0 <= i < |Without(q, k)| ==> Without(q, k)[i] < k
  {
    forall i | 0 <= i < |Without(q, k)| ensures Without(q, k)[i] < k {
      assert Without(q, k)[i] in q;
    }
  }

  /** In queued runs a dropped id is in neither queue, so after a complete removal both are empty. */
  lemma QueuesAfterRemoval(c: Config, mode: Mode, states: seq<State>, steps: seq<Step>, i: nat)
    requires Run(c, mode, states, steps) && !mode.Full? && i < |states|
    ensures QueuesWithin(states[i].pool)
    ensures states[i].pool.closed ==> states[i].pool.ready == [] && states[i].pool.dirty == []
  {
    RunLinear(c, mode, states, steps, i);
    var p := states[i].pool;
    forall k | 0 <= k < |p.ready| ensures p.ready[k] < |p.dbs| {
      assert p.ready[k] in p.ready;
    }
    forall k | 0 <= k < |p.dirty| ensures p.dirty[k] < |p.dbs| {
      assert p.dirty[k] in p.dirty;
    }
    if p.closed {
      EmptyQueue(p.ready, |p.dbs|);
      EmptyQueue(p.dirty, |p.dbs|);
    }
  }

  /** Wherever a removal of a queued run stands, the rest of its loop finishes the job. */
  lemma RemovalCanFinish(c: Config, mode: Mode, states: seq<State>, steps: seq<Step>, i: nat, g: Gid) returns (t: State)
    requires Run(c, mode, states, steps) && !mode.Full? && i < |states|
    requires g in states[i].procs && states[i].procs[g].Remover?
    ensures Exec(c, states[i], RemovalSteps(g, states[i].procs[g].next)) == Some(t)
    ensures Emptied(t.pool)
  {
    RunLinear(c, mode, states, steps, i);
    QueuesAfterRemoval(c, mode, states, steps, i);
    assert InRange(states[i].pool, states[i].procs[g]);
    t := RemovalFinishes(c, states[i], g, states[i].procs[g].next);
  }
}
