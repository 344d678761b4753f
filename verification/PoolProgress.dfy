/**
  What stands between a stop and its return: after the cancellation some step always brings Stop
  closer, unless a getter holds the mutex and waits for room in a task channel that nobody empties
  any more.
  */
module PoolProgress {
  import opened Queues
  import opened PoolMachine
  import opened PoolTasks
  import opened PoolFull
  import opened PoolQueued
  import opened PoolStop
  import opened PoolDeadlock

  // ---------------------------------------------------------------- recreation slots

  predicate HoldsSlot(q: Proc) {
    q.Work? && (q.pc.RecLoop? || q.pc.RecCall? || q.pc.MoveLock? || q.pc.MoveSend? || q.pc.SlotRelease?)
  }

  function SlotWeight(q: Proc): (n: nat) {
    if HoldsSlot(q) then 1 else 0
  }

  /** The slots taken are those of the goroutines between taking and freeing one. */
  ghost predicate SlotInv(p: Pool, procs: map<Gid, Proc>) {
    p.slots == Sum(SlotWeight, procs)
  }

  function SlotOf(next: Option<Proc>): (n: nat) {
    if next.Some? then SlotWeight(next.value) else 0
  }

  lemma SlotPut(p: Pool, procs: map<Gid, Proc>, g: Gid, next: Option<Proc>, p': Pool)
    requires SlotInv(p, procs)
    requires p'.slots + SlotOf(if g in procs then Some(procs[g]) else None) == p.slots + SlotOf(next)
    ensures SlotInv(p', Put(procs, g, next))
  {
    SumPut(SlotWeight, procs, g, next);
  }

  lemma ClientSlots(c: Config, p: Pool, d: Sched, q: Proc, g: Gid, x: ClientMove, turn: Turn)
    requires ClientTurn(c, p, d, q, g, x) == Some(turn) && !q.Work?
    ensures turn.pool.slots == p.slots && SlotOf(turn.next) == 0
  {
  }

  lemma ArriveSlots(c: Config, p: Pool, d: Sched, g: Gid, x: Arrival, turn: Turn)
    requires Arrive(c, p, d, g, x) == Some(turn)
    ensures turn.pool.slots == p.slots && SlotOf(turn.next) == 0
  {
  }

  lemma WorkSlots(c: Config, p: Pool, cancelled: bool, kind: Kind, pc: Pc, g: Gid, x: WorkMove, turn: Turn)
    requires WorkTurn(c, p, cancelled, kind, pc, g, x) == Some(turn)
    ensures turn.pool.slots + SlotOf(Some(Work(kind, pc))) == p.slots + SlotOf(turn.next)
  {
    if Early(x) {
      EarlySlots(c, p, cancelled, kind, pc, g, x, turn);
    } else {
      LateSlots(c, p, cancelled, kind, pc, g, x, turn);
    }
  }

  lemma EarlySlots(c: Config, p: Pool, cancelled: bool, kind: Kind, pc: Pc, g: Gid, x: WorkMove, turn: Turn)
    requires WorkTurn(c, p, cancelled, kind, pc, g, x) == Some(turn) && Early(x)
    ensures turn.pool.slots == p.slots && SlotOf(Some(Work(kind, pc))) == 0 && SlotOf(turn.next) == 0
  {
  }

  lemma LateSlots(c: Config, p: Pool, cancelled: bool, kind: Kind, pc: Pc, g: Gid, x: WorkMove, turn: Turn)
    requires WorkTurn(c, p, cancelled, kind, pc, g, x) == Some(turn) && !Early(x)
    ensures turn.pool.slots + SlotOf(Some(Work(kind, pc))) == p.slots + SlotOf(turn.next)
  {
  }

  lemma SlotStep(c: Config, s: State, step: Step, t: State)
    requires SchedInv(c, s) && SlotInv(s.pool, s.procs) && Do(c, s, step) == Some(t)
    ensures SlotInv(t.pool, t.procs)
  {
    match step
    case OfArrival(x) =>
      var g := Client(s.nextClient);
      assert g !in s.procs;
      var turn := Arrive(c, s.pool, s.sched, g, x).value;
      ArriveSlots(c, s.pool, s.sched, g, x, turn);
      SlotPut(s.pool, s.procs, g, turn.next, t.pool);
    case OfClient(g, x) =>
      var turn := ClientTurn(c, s.pool, s.sched, s.procs[g], g, x).value;
      ClientSlots(c, s.pool, s.sched, s.procs[g], g, x, turn);
      SlotPut(s.pool, s.procs, g, turn.next, t.pool);
    case OfWorker(g, x) =>
      var q := s.procs[g];
      var turn := WorkTurn(c, s.pool, s.sched.cancelled, q.kind, q.pc, g, x).value;
      WorkSlots(c, s.pool, s.sched.cancelled, q.kind, q.pc, g, x, turn);
      SlotPut(s.pool, s.procs, g, turn.next, t.pool);
    case OfReport(g, x) =>
      SlotPut(s.pool, s.procs, g, if x == ToWaitGroup then Some(Work(s.procs[g].kind, SemRelease)) else None, t.pool);
    case OfSched(x) => SlotSched(c, s, x, t);
    case OfTick(_) =>
  }

  lemma SlotSched(c: Config, s: State, x: SchedStep, t: State)
    requires SchedInv(c, s) && SlotInv(s.pool, s.procs) && DoSched(c, s, x) == Some(t)
    ensures SlotInv(t.pool, t.procs)
  {
    SchedShape(c, s, x, t);
    if x.LoopSpawn? {
      var j := s.sched.loop.job;
      assert s.sched.ledger[j.serial] == Picked;
      SlotPut(s.pool, s.procs, TaskRun(j.serial), Some(StartPc(j.kind)), t.pool);
    }
  }

  lemma {:induction false} RunSlots(c: Config, mode: Mode, states: seq<State>, steps: seq<Step>, i: nat)
    requires Run(c, mode, states, steps) && i < |states|
    ensures SlotInv(states[i].pool, states[i].procs)
  {
    if i > 0 {
      RunStep(c, mode, states, steps, i - 1);
      RunSlots(c, mode, states, steps, i - 1);
      RunKeeps(c, mode, states, steps, i - 1);
      SlotStep(c, states[i - 1], steps[i - 1], states[i]);
    }
  }

  // ---------------------------------------------------------------- a slot for every claim

  ghost predicate OneSlotPerId(procs: map<Gid, Proc>) {
    forall g <- procs, h <- procs ::
      HasSlotId(procs[g]) && HasSlotId(procs[h]) && procs[g].pc.id == procs[h].pc.id ==> g == h
  }

  predicate HasSlotId(q: Proc) {
    q.Work? && (q.pc.RecLoop? || q.pc.RecCall? || q.pc.MoveLock? || q.pc.MoveSend?)
  }

  ghost predicate SlotId(procs: map<Gid, Proc>, x: nat) {
    exists g <- procs :: HasSlotId(procs[g]) && procs[g].pc.id == x
  }

  lemma NotTwice(procs: map<Gid, Proc>, g: Gid)
    requires OneSlotPerId(procs) && g in procs && HasSlotId(procs[g])
    ensures !SlotId(procs - {g}, procs[g].pc.id)
  {
  }

  /** The ids of the slot holders, when none of them is about to free its slot. */
  lemma {:induction false} CollectIds(procs: map<Gid, Proc>) returns (q: seq<nat>)
    requires OneSlotPerId(procs) && forall g <- procs :: HoldsSlot(procs[g]) ==> HasSlotId(procs[g])
    ensures Distinct(q) && |q| == Sum(SlotWeight, procs)
    ensures forall x: nat :: x in q ==> SlotId(procs, x)
    decreases |procs|
  {
    if procs == map[] {
      q := [];
    } else {
      var g :| g in procs;
      SumSplit(SlotWeight, procs, g);
      var rest := procs - {g};
      q := CollectIds(rest);
      forall x: nat | x in q ensures SlotId(procs, x) {
        assert SlotId(rest, x);
      }
      if HoldsSlot(procs[g]) {
        var id := procs[g].pc.id;
        NotTwice(procs, g);
        assert id !in q;
        q := q + [id];
      }
    }
  }

  /**
    A worker waiting for a slot has one, or some goroutine is about to free one: the other holders
    have claimed different databases, so they are fewer than the maximum.
    */
  lemma SlotOrRelease(c: Config, s: State, w: Gid) returns (h: Option<Gid>)
    requires TokenInv(s.pool, s.procs) && TableInv(c, s.pool, s.procs) && SlotInv(s.pool, s.procs) && !s.pool.removal
    requires w in s.procs && s.procs[w].Work? && s.procs[w].pc.RecSlot?
    ensures h.None? ==> s.pool.slots < c.max
    ensures h.Some? ==> h.value in s.procs && s.procs[h.value].Work? && s.procs[h.value].pc.SlotRelease? && s.pool.slots > 0
  {
    if g :| g in s.procs && s.procs[g].Work? && s.procs[g].pc.SlotRelease? {
      SumSplit(SlotWeight, s.procs, g);
      h := Some(g);
    } else {
      h := None;
      ClaimsDiffer(s.pool, s.procs);
      var q := CollectIds(s.procs);
      var id := s.procs[w].pc.id;
      assert InRange(s.pool, s.procs[w]) && Holds(s.procs, w, id);
      forall x: nat | x in q ensures x < c.max && x != id {
        assert SlotId(s.procs, x);
        var g :| g in s.procs && HasSlotId(s.procs[g]) && s.procs[g].pc.id == x;
        assert InRange(s.pool, s.procs[g]) && Holds(s.procs, g, x);
      }
      RoomFor(q, id, c.max);
    }
  }

  lemma ClaimsDiffer(p: Pool, procs: map<Gid, Proc>)
    requires TokenInv(p, procs)
    ensures OneSlotPerId(procs)
  {
    forall g <- procs, h <- procs | HasSlotId(procs[g]) && HasSlotId(procs[h]) && procs[g].pc.id == procs[h].pc.id
      ensures g == h
    {
      assert Holds(procs, g, procs[g].pc.id) && Holds(procs, h, procs[g].pc.id);
    }
  }

  // ---------------------------------------------------------------- some step helps

  /** A worker at one of these gets on with its slot or lets go of the mutex. */
  predicate Frees(pc: Pc) {
    pc.RecSlot? || pc.SlotRelease? || pc.MoveSend?
  }

  /** A step that brings the return of Stop closer. */
  predicate Helps(s: State, step: Step) {
    match step
    case OfTick(time) =>
      exists g <- s.procs :: s.procs[g].Work? && s.procs[g].pc.CleanSleep? && s.pool.now < s.procs[g].pc.until == time
    case OfClient(g, x) => g in s.procs && (s.procs[g].GetSend? || s.procs[g].GetPush? || s.procs[g].GetTask?)
    case OfWorker(g, x) =>
      g.TaskRun? || (g in s.procs && s.procs[g].Work? && Frees(s.procs[g].pc))
    case _ => WorkerSide(step)
  }

  predicate Enabled(c: Config, s: State, step: Step) {
    Helps(s, step) && Do(c, s, step).Some?
  }

  lemma LoopHelps(c: Config, s: State) returns (step: Step)
    requires PhaseInv(s) && s.sched.cancelled && s.sched.wg > 0 && LoopAlive(s.sched) == 1
    ensures Enabled(c, s, step) && step.OfSched? && !step.sched.LoopSpawn?
  {
    step := OfSched(if s.sched.loop.Acquiring? then LoopCancel else if s.sched.workChan != [] then LoopTake else LoopClosed);
  }

  predicate HolderStep(g: Gid, step: Step) {
    (step.OfClient? && step.g == g) || step == OfWorker(g, DoMoveSend)
  }

  /** The holder of the mutex can go on, unless it is a getter before a full task channel. */
  lemma HolderHelps(c: Config, s: State, g: Gid) returns (r: Option<Step>)
    requires LinearState(c, s) && s.sched.cancelled && !s.pool.removal && s.pool.lock == Some(g)
    ensures r.Some? ==> Enabled(c, s, r.value) && HolderStep(g, r.value)
    ensures r.None? ==> s.procs[g].GetTask? && |s.sched.tasks| >= c.max + 1
  {
    var q := s.procs[g];
    assert HoldsLock(q) && NoDrain(q) && ProcOk(g, q, s.nextClient, s.pool.removal);
    match q
    case GetSend(_) =>
      SenderHelps(c, s, g);
      r := Some(OfClient(g, GetSendDirty));
    case GetPush(_) => r := Some(OfClient(g, GetDecide));
    case GetTask(_, _) =>
      assert InRange(s.pool, q);
      r := if |s.sched.tasks| < c.max + 1 then Some(OfClient(g, GetPushTask)) else None;
    case Work(_, _) =>
      PublisherHelps(c, s, g);
      r := Some(OfWorker(g, DoMoveSend));
  }

  lemma SenderHelps(c: Config, s: State, g: Gid)
    requires TokenInv(s.pool, s.procs) && TableInv(c, s.pool, s.procs) && DirtyInv(s.pool, s.procs) && !s.pool.removal
    requires g in s.procs && s.procs[g].GetSend?
    ensures Enabled(c, s, OfClient(g, GetSendDirty))
  {
    var id := s.procs[g].id;
    assert InRange(s.pool, s.procs[g]) && Holds(s.procs, g, id);
    RoomFor(s.pool.dirty, id, c.max);
  }

  lemma PublisherHelps(c: Config, s: State, g: Gid)
    requires ReadyInv(s.pool, s.procs) && TableInv(c, s.pool, s.procs) && !s.pool.removal
    requires g in s.procs && s.procs[g].Work? && s.procs[g].pc.MoveSend?
    ensures Enabled(c, s, OfWorker(g, DoMoveSend))
  {
    var id := s.procs[g].pc.id;
    assert InRange(s.pool, s.procs[g]) && Carries(s.procs, g, id);
    RoomFor(s.pool.ready, id, c.max);
  }

  /** What a worker that needs no mutex does next. */
  function NextMove(pc: Pc): (x: WorkMove)
    requires pc.CleanTake? || pc.RecCheck? || pc.RecLoop? || pc.RecCall? || pc.SlotRelease?
  {
    match pc
    case CleanTake => DoCleanSkip
    case RecCheck(_) => DoRecCheck
    case RecLoop(_) => DoRecLoop
    case RecCall(_, _) => DoRecCall(Failed)
    case SlotRelease => DoSlotRelease
  }

  lemma FreeHelps(c: Config, s: State, w: Gid)
    requires s.sched.cancelled && w in s.procs && Tracked(s.procs[w]) && w.TaskRun? && SlotInv(s.pool, s.procs)
    requires var pc := s.procs[w].pc; pc.CleanTake? || pc.RecCheck? || pc.RecLoop? || pc.RecCall? || pc.SlotRelease?
    ensures Enabled(c, s, OfWorker(w, NextMove(s.procs[w].pc)))
  {
    SumSplit(SlotWeight, s.procs, w);
  }

  /** With the mutex free a waiting worker can take it, or time has to pass. */
  lemma WaitingHelps(c: Config, s: State, w: Gid) returns (step: Step)
    requires s.sched.cancelled && s.pool.lock.None? && !s.pool.removal && w in s.procs && w.TaskRun? && Waits(s.procs[w])
    requires InRange(s.pool, s.procs[w])
    ensures Enabled(c, s, step) && (step.OfTick? || (step.OfWorker? && step.g == w))
  {
    var pc := s.procs[w].pc;
    match pc
    case ExtendLock => step := OfWorker(w, DoExtend);
    case CleanRead(_) => step := OfWorker(w, DoCleanRead);
    case CleanSleep(_, _, until) => step := if until <= s.pool.now then OfWorker(w, DoCleanWake) else OfTick(until);
    case RecLock(_) => step := OfWorker(w, DoRecLock(false));
    case MoveLock(_) => step := OfWorker(w, DoMoveLock);
  }

  lemma SlotHelps(c: Config, s: State, w: Gid) returns (step: Step)
    requires TokenInv(s.pool, s.procs) && TableInv(c, s.pool, s.procs) && SlotInv(s.pool, s.procs) && !s.pool.removal
    requires w in s.procs && s.procs[w].Work? && s.procs[w].pc.RecSlot? && w.TaskRun?
    ensures Enabled(c, s, step) && step.OfWorker? && step.g in s.procs && s.procs[step.g].Work?
    ensures step.work.DoSlotRelease? || step.work.DoRecSlot?
  {
    var h := SlotOrRelease(c, s, w);
    step := if h.Some? then OfWorker(h.value, DoSlotRelease) else OfWorker(w, DoRecSlot);
  }

  /** A tracked worker that has not reported can go on, some other goroutine helps it, or it is deadlocked. */
  lemma LiveHelps(c: Config, s: State, w: Gid) returns (r: Option<Step>, g: Gid)
    requires LinearState(c, s) && SlotInv(s.pool, s.procs) && s.sched.cancelled && s.sched.wg > 0
    requires w in s.procs && Live(s.procs[w])
    ensures r.Some? ==> Enabled(c, s, r.value)
    ensures r.None? ==> Deadlocked(c, s, g, w)
  {
    NoRemovalYet(c, s, w);
    g := w;
    var q := s.procs[w];
    assert InRange(s.pool, q) && ProcOk(w, q, s.nextClient, s.pool.removal);
    if q.pc.Done? {
      r := Some(OfReport(w, ToWaitGroup));
    } else if q.pc.RecSlot? {
      var step := SlotHelps(c, s, w);
      r := Some(step);
    } else if q.pc.MoveSend? {
      assert HoldsLock(q);
      r := HolderHelps(c, s, w);
    } else if !Waits(q) {
      FreeHelps(c, s, w);
      r := Some(OfWorker(w, NextMove(q.pc)));
    } else if s.pool.lock.None? {
      var step := WaitingHelps(c, s, w);
      r := Some(step);
    } else {
      g := s.pool.lock.value;
      r := HolderHelps(c, s, g);
    }
  }

  /** Some step helps as long as the wait group is not empty, unless there is a deadlock. */
  lemma SomeStepHelps(c: Config, s: State) returns (r: Option<Step>, g: Gid, w: Gid)
    requires LinearState(c, s) && SlotInv(s.pool, s.procs) && s.sched.cancelled && s.sched.wg > 0
    ensures r.Some? ==> Enabled(c, s, r.value)
    ensures r.None? ==> Deadlocked(c, s, g, w)
  {
    if LoopAlive(s.sched) == 1 {
      var step := LoopHelps(c, s);
      r, g, w := Some(step), Client(0), Client(0);
    } else {
      assert |LiveSet(s.procs)| > 0;
      w :| w in LiveSet(s.procs);
      r, g := LiveHelps(c, s, w);
    }
  }

  /**
    Progress. In every queued run, after the cancellation and until the wait group is empty, a step
    is enabled that brings Stop closer to its return, or there is a deadlock.
    */
  lemma StopProgress(c: Config, mode: Mode, states: seq<State>, steps: seq<Step>, i: nat)
    requires Run(c, mode, states, steps) && !mode.Full? && i < |states|
    requires states[i].sched.cancelled && states[i].sched.wg > 0
    ensures (exists step :: Enabled(c, states[i], step)) || (exists g, w :: Deadlocked(c, states[i], g, w))
  {
    RunLinear(c, mode, states, steps, i);
    RunSlots(c, mode, states, steps, i);
    var r, g, w := SomeStepHelps(c, states[i]);
  }

  // ---------------------------------------------------------------- Stop can return

  /** How many helping steps a getter with the mutex, or a manual worker at its slot, has left. */
  function HelpWeight(q: Proc): (n: nat) {
    match q
    case GetSend(_) => 3
    case GetPush(_) => 2
    case GetTask(_, _) => 1
    case Work(kind, pc) => if kind != Manual then 0 else if pc.MoveSend? then 2 else if Frees(pc) then 1 else 0
    case _ => 0
  }

  ghost function HelpRank(s: State): (n: nat) {
    Sum(HelpWeight, s.procs)
  }

  function Sleepers(s: State): (r: set<Gid>) {
    set g | g in s.procs && s.procs[g].Work? && s.procs[g].pc.CleanSleep? && s.pool.now < s.procs[g].pc.until
  }

  ghost predicate Closer(s: State, t: State) {
    || Measure(t) < Measure(s)
    || (Measure(t) == Measure(s) && HelpRank(t) < HelpRank(s))
    || (Measure(t) == Measure(s) && HelpRank(t) == HelpRank(s) && Sleepers(t) < Sleepers(s))
  }

  lemma TickCloser(s: State, time: int, t: State)
    requires Helps(s, OfTick(time)) && s.pool.now <= time && t == s.(pool := s.pool.(now := time))
    ensures HelpRank(t) == HelpRank(s) && Sleepers(t) < Sleepers(s)
  {
    var g :| g in s.procs && s.procs[g].Work? && s.procs[g].pc.CleanSleep? && s.pool.now < s.procs[g].pc.until == time;
    assert g in Sleepers(s) && g !in Sleepers(t);
  }

  lemma GetterCloser(c: Config, s: State, g: Gid, x: ClientMove, t: State)
    requires Helps(s, OfClient(g, x)) && Do(c, s, OfClient(g, x)) == Some(t)
    ensures HelpRank(t) < HelpRank(s)
  {
    var turn := ClientTurn(c, s.pool, s.sched, s.procs[g], g, x).value;
    SumPut(HelpWeight, s.procs, g, turn.next);
  }

  lemma ReleaseCloser(c: Config, s: State, g: Gid, x: WorkMove, t: State)
    requires g in s.procs && s.procs[g].Work? && s.procs[g].kind == Manual
    requires Frees(s.procs[g].pc)
    requires Do(c, s, OfWorker(g, x)) == Some(t)
    ensures HelpRank(t) < HelpRank(s)
  {
    var turn := WorkTurn(c, s.pool, s.sched.cancelled, Manual, s.procs[g].pc, g, x).value;
    SumPut(HelpWeight, s.procs, g, turn.next);
  }

  /** Every helping step brings the pool closer to the end of all tracked work. */
  lemma HelpCloser(c: Config, s: State, step: Step, t: State)
    requires SchedInv(c, s) && s.sched.cancelled && Helps(s, step) && Do(c, s, step) == Some(t)
    ensures Closer(s, t) && t.sched.cancelled
  {
    StopRunsOut(c, s, step, t);
    if !WorkerSide(step) {
      match step
      case OfTick(time) => TickCloser(s, time, t);
      case OfClient(g, x) => GetterCloser(c, s, g, x, t);
      case OfWorker(g, x) =>
        assert ProcOk(g, s.procs[g], s.nextClient, s.pool.removal);
        ReleaseCloser(c, s, g, x, t);
    }
  }
}
