/** First in, first out: the order in which databases are queued and taken for cleaning. */
module PoolFifo {
  import opened Queues
  import opened PoolMachine
  import opened PoolFull
  import opened PoolQueued
  import opened PoolIsolation

  /** The position in the history of the latest grant of `id`, or -1. */
  function LastGrant(h: seq<Event>, id: nat): (i: int)
    ensures -1 <= i < |h|
    ensures i >= 0 ==> Grants(h[i], id)
    ensures forall k :: i < k < |h| ==> !Grants(h[k], id)
  {
    if h == [] then -1
    else if Grants(h[|h| - 1], id) then |h| - 1
    else LastGrant(h[..|h| - 1], id)
  }

  lemma LastGrantSnoc(h: seq<Event>, e: Event, id: nat)
    ensures LastGrant(h + [e], id) == if Grants(e, id) then |h| else LastGrant(h, id)
  {
    assert (h + [e])[..|h|] == h;
  }

  /** The queue is strictly ordered by the latest grant of its ids. */
  ghost predicate Ordered(h: seq<Event>, q: seq<nat>) {
    forall i, j :: 0 <= i < j < |q| ==> LastGrant(h, q[i]) < LastGrant(h, q[j])
  }

  ghost predicate Newest(h: seq<Event>, q: seq<nat>, id: nat) {
    forall i :: 0 <= i < |q| ==> LastGrant(h, q[i]) < LastGrant(h, id)
  }

  ghost predicate OrderInv(p: Pool, procs: map<Gid, Proc>) {
    && Ordered(p.history, p.dirty)
    && forall g <- procs :: procs[g].GetSend? ==> Newest(p.history, p.dirty, procs[g].id)
  }

  lemma OrderedWithout(h: seq<Event>, q: seq<nat>, x: nat)
    requires Ordered(h, q)
    ensures Ordered(h, Without(q, x))
    ensures forall id: nat :: Newest(h, q, id) ==> Newest(h, Without(q, x), id)
  {
    var at := WithoutIsFilter(q, x);
  }

  /** Nothing is granted and the queue loses ids at most. */
  lemma OrderKept(p: Pool, procs: map<Gid, Proc>, g: Gid, turn: Turn)
    requires OrderInv(p, procs)
    requires NoGrant(p.history, turn.pool.history)
    requires Ordered(p.history, turn.pool.dirty)
    requires forall id: nat :: Newest(p.history, p.dirty, id) ==> Newest(p.history, turn.pool.dirty, id)
    requires turn.next.Some? ==> !turn.next.value.GetSend?
    ensures OrderInv(turn.pool, Put(procs, g, turn.next))
  {
    forall id: nat
      ensures LastGrant(turn.pool.history, id) == LastGrant(p.history, id)
    {
      if turn.pool.history != p.history {
        LastGrantSnoc(p.history, turn.pool.history[|p.history|], id);
      }
    }
    forall h | h in procs && h != g && procs[h].GetSend?
      ensures Newest(turn.pool.history, turn.pool.dirty, procs[h].id)
    {
      assert Newest(p.history, p.dirty, procs[h].id);
    }
  }

  lemma ArriveOrder(c: Config, p: Pool, d: Sched, procs: map<Gid, Proc>, g: Gid, x: Arrival, turn: Turn)
    requires OrderInv(p, procs) && Arrive(c, p, d, g, x) == Some(turn) && QueuedArrival(p, x)
    ensures OrderInv(turn.pool, Put(procs, g, turn.next))
  {
    if x.ReturnAtomic? || x.RecreateAtomic? {
      OrderedWithout(p.history, p.dirty, x.id);
    }
    OrderKept(p, procs, g, turn);
  }

  lemma GrantOrder(p: Pool, procs: map<Gid, Proc>, g: Gid, turn: Turn, e: Event)
    requires OrderInv(p, procs) && g in procs && procs[g].GetWait? && e.Granted? && e.id == procs[g].id
    requires forall h <- procs :: !procs[h].GetSend?
    requires e.id !in p.dirty
    requires turn.pool.dirty == p.dirty && turn.pool.history == p.history + [e] && turn.next == Some(GetSend(e.id))
    ensures OrderInv(turn.pool, Put(procs, g, turn.next))
  {
    forall id: nat
      ensures LastGrant(turn.pool.history, id) == if id == e.id then |p.history| else LastGrant(p.history, id)
    {
      LastGrantSnoc(p.history, e, id);
    }
    forall i | 0 <= i < |p.dirty|
      ensures p.dirty[i] != e.id
    {
      assert p.dirty[i] in p.dirty;
    }
  }

  lemma ClientOrder(c: Config, p: Pool, d: Sched, procs: map<Gid, Proc>, g: Gid, x: ClientMove, turn: Turn)
    requires OrderInv(p, procs) && TokenInv(p, procs) && LockInv(p, procs) && g in procs && !procs[g].Work?
    requires ClientTurn(c, p, d, procs[g], g, x) == Some(turn)
    ensures OrderInv(turn.pool, Put(procs, g, turn.next))
  {
    var q := procs[g];
    assert NoDrain(q);
    if x.GetLock? && turn.next.Some? {
      assert Holds(procs, g, q.id);
      forall h <- procs
        ensures !procs[h].GetSend?
      {
        assert !HoldsLock(procs[h]);
      }
      GrantOrder(p, procs, g, turn, Granted(q.id, p.now, p.dbs[q.id].generation));
    } else if x.GetSendDirty? {
      assert Newest(p.history, p.dirty, q.id);
      forall h | h in procs && h != g
        ensures !procs[h].GetSend?
      {
        assert HoldsLock(q) && !HoldsLock(procs[h]);
      }
    } else {
      if x.RemoveDrop? || x.RemoveLast? {
        OrderedWithout(p.history, p.dirty, q.next);
      }
      OrderKept(p, procs, g, turn);
    }
  }

  /** The steps before a slot is taken log nothing, but for the pop of a clean task. */
  lemma WorkShapeEarly(c: Config, p: Pool, cancelled: bool, kind: Kind, pc: Pc, g: Gid, x: WorkMove, turn: Turn)
    requires WorkTurn(c, p, cancelled, kind, pc, g, x) == Some(turn) && !x.DoCleanTake? && Early(x)
    ensures turn.pool.dirty == p.dirty && turn.pool.removal == p.removal
    ensures turn.pool.history == p.history && turn.pool.lock == p.lock
    ensures turn.next.Some? ==> turn.next.value.Work?
  {
  }

  /** The steps of a recreation up to its call. */
  lemma WorkShapeCall(c: Config, p: Pool, cancelled: bool, kind: Kind, pc: Pc, g: Gid, x: WorkMove, turn: Turn)
    requires WorkTurn(c, p, cancelled, kind, pc, g, x) == Some(turn) && (x.DoRecSlot? || x.DoRecLoop? || x.DoRecCall?)
    ensures turn.pool.dirty == p.dirty && turn.pool.removal == p.removal && turn.pool.lock == p.lock
    ensures NeitherLogged(p.history, turn.pool.history)
    ensures turn.next.Some? ==> turn.next.value.Work?
  {
  }

  /** The steps that publish and leave. */
  lemma WorkShapeMove(c: Config, p: Pool, cancelled: bool, kind: Kind, pc: Pc, g: Gid, x: WorkMove, turn: Turn)
    requires WorkTurn(c, p, cancelled, kind, pc, g, x) == Some(turn) && (x.DoMoveLock? || x.DoMoveSend? || x.DoSlotRelease?)
    ensures turn.pool.dirty == p.dirty && turn.pool.removal == p.removal
    ensures NeitherLogged(p.history, turn.pool.history) && LockMoved(p, pc, g, turn.pool)
    ensures turn.next.Some? ==> turn.next.value.Work?
  {
  }

  /** The history stays, or one event is logged that is neither a grant nor a pop. */
  predicate NeitherLogged(h: seq<Event>, h': seq<Event>) {
    h' == h || (|h'| == |h| + 1 && h' == h + [h'[|h|]] && !h'[|h|].Granted? && !h'[|h|].Popped?)
  }

  /** A worker may take the free mutex, and lets go of it only when it publishes. */
  predicate LockMoved(p: Pool, pc: Pc, g: Gid, p': Pool) {
    p'.lock == p.lock || (p.lock.None? && p'.lock == Some(g)) || (p'.lock.None? && pc.MoveSend?)
  }

  /** A worker step that takes nothing from `dirty` logs neither a grant nor a pop. */
  lemma WorkShape(c: Config, p: Pool, cancelled: bool, kind: Kind, pc: Pc, g: Gid, x: WorkMove, turn: Turn)
    requires WorkTurn(c, p, cancelled, kind, pc, g, x) == Some(turn) && !x.DoCleanTake?
    ensures turn.pool.dirty == p.dirty && turn.pool.removal == p.removal
    ensures NeitherLogged(p.history, turn.pool.history) && LockMoved(p, pc, g, turn.pool)
    ensures turn.next.Some? ==> turn.next.value.Work?
  {
    if Early(x) {
      WorkShapeEarly(c, p, cancelled, kind, pc, g, x, turn);
    } else if x.DoRecSlot? || x.DoRecLoop? || x.DoRecCall? {
      WorkShapeCall(c, p, cancelled, kind, pc, g, x, turn);
    } else {
      WorkShapeMove(c, p, cancelled, kind, pc, g, x, turn);
    }
  }

  lemma TakeOrder(c: Config, p: Pool, cancelled: bool, procs: map<Gid, Proc>, g: Gid, turn: Turn)
    requires OrderInv(p, procs) && g in procs && procs[g].Work?
    requires WorkTurn(c, p, cancelled, procs[g].kind, procs[g].pc, g, DoCleanTake) == Some(turn)
    ensures OrderInv(turn.pool, Put(procs, g, turn.next))
  {
    OrderKept(p, procs, g, turn);
  }

  lemma WorkOrder(c: Config, p: Pool, cancelled: bool, procs: map<Gid, Proc>, g: Gid, x: WorkMove, turn: Turn)
    requires OrderInv(p, procs) && g in procs && procs[g].Work?
    requires WorkTurn(c, p, cancelled, procs[g].kind, procs[g].pc, g, x) == Some(turn)
    ensures OrderInv(turn.pool, Put(procs, g, turn.next))
  {
    if x.DoCleanTake? {
      TakeOrder(c, p, cancelled, procs, g, turn);
    } else {
      WorkShape(c, p, cancelled, procs[g].kind, procs[g].pc, g, x, turn);
      OrderKept(p, procs, g, turn);
    }
  }

  lemma OrderKeeps(c: Config, mode: Mode, s: State, step: Step, t: State)
    requires OrderInv(s.pool, s.procs) && TokenInv(s.pool, s.procs) && LockInv(s.pool, s.procs)
    requires !mode.Full? && Allowed(mode, s, step) && Do(c, s, step) == Some(t)
    ensures OrderInv(t.pool, t.procs)
  {
    match step
    case OfTick(time) =>
    case OfArrival(x) =>
      var g := Client(s.nextClient);
      ArriveOrder(c, s.pool, s.sched, s.procs, g, x, Arrive(c, s.pool, s.sched, g, x).value);
    case OfClient(g, x) =>
      ClientOrder(c, s.pool, s.sched, s.procs, g, x, ClientTurn(c, s.pool, s.sched, s.procs[g], g, x).value);
    case OfWorker(g, x) =>
      WorkOrder(c, s.pool, s.sched.cancelled, s.procs, g, x,
                WorkTurn(c, s.pool, s.sched.cancelled, s.procs[g].kind, s.procs[g].pc, g, x).value);
    case OfReport(g, x) =>
    case OfSched(x) => SchedShape(c, s, x, t);
  }

  lemma OrderFacts(c: Config, s: State)
    requires LinearState(c, s)
    ensures TokenInv(s.pool, s.procs) && LockInv(s.pool, s.procs)
  {
  }

  lemma RunOrderStep(c: Config, mode: Mode, states: seq<State>, steps: seq<Step>, i: nat)
    requires Run(c, mode, states, steps) && !mode.Full? && i < |steps| && OrderInv(states[i].pool, states[i].procs)
    ensures OrderInv(states[i + 1].pool, states[i + 1].procs)
  {
    RunLinear(c, mode, states, steps, i);
    OrderFacts(c, states[i]);
    RunStep(c, mode, states, steps, i);
    OrderKeeps(c, mode, states[i], steps[i], states[i + 1]);
  }

  lemma RunOrder(c: Config, mode: Mode, states: seq<State>, steps: seq<Step>, i: nat)
    requires Run(c, mode, states, steps) && !mode.Full? && i < |states|
    ensures OrderInv(states[i].pool, states[i].procs)
  {
    var inv := (s: State) => OrderInv(s.pool, s.procs);
    forall k: nat ensures KeptAt(inv, states, k) {
      if k < |steps| && inv(states[k]) {
        RunOrderStep(c, mode, states, steps, k);
      }
    }
    AlongRun(inv, states, i);
  }

  /** FIFO cleaning: an automatic cleaner takes the id that was granted before every other queued id. */
  lemma FifoCleaning(c: Config, mode: Mode, states: seq<State>, steps: seq<Step>, i: nat, g: Gid)
    requires Run(c, mode, states, steps) && !mode.Full? && i < |steps|
    requires steps[i] == OfWorker(g, DoCleanTake)
    ensures
      var p := states[i].pool;
      && p.dirty != []
      && states[i + 1].pool.history == p.history + [Popped(p.dirty[0])]
      && forall id: nat :: id in p.dirty && id != p.dirty[0] ==> LastGrant(p.history, p.dirty[0]) < LastGrant(p.history, id)
  {
    RunOrder(c, mode, states, steps, i);
    RunStep(c, mode, states, steps, i);
    var p := states[i].pool;
    forall id: nat | id in p.dirty && id != p.dirty[0]
      ensures LastGrant(p.history, p.dirty[0]) < LastGrant(p.history, id)
    {
      var k :| 0 <= k < |p.dirty| && p.dirty[k] == id;
    }
  }

  // ---------------------------------------------------------------- no manual operation

  function GrantIds(h: seq<Event>): (r: seq<nat>) {
    if h == [] then []
    else
      var e := h[|h| - 1];
      GrantIds(h[..|h| - 1]) + (if e.Granted? then [e.id] else [])
  }

  function PopIds(h: seq<Event>): (r: seq<nat>) {
    if h == [] then []
    else
      var e := h[|h| - 1];
      PopIds(h[..|h| - 1]) + (if e.Popped? then [e.id] else [])
  }

  lemma IdsSnoc(h: seq<Event>, e: Event)
    ensures GrantIds(h + [e]) == GrantIds(h) + (if e.Granted? then [e.id] else [])
    ensures PopIds(h + [e]) == PopIds(h) + (if e.Popped? then [e.id] else [])
  {
    assert (h + [e])[..|h|] == h;
  }

  /** The id the mutex holder has granted and not yet queued. */
  function Pending(p: Pool, procs: map<Gid, Proc>): (r: seq<nat>) {
    if p.lock.Some? && p.lock.value in procs && procs[p.lock.value].GetSend? then [procs[p.lock.value].id] else []
  }

  ghost predicate AutoInv(p: Pool, procs: map<Gid, Proc>) {
    !p.removal && GrantIds(p.history) == PopIds(p.history) + p.dirty + Pending(p, procs)
  }

  lemma AutoTurn(p: Pool, procs: map<Gid, Proc>, p': Pool, procs': map<Gid, Proc>)
    requires AutoInv(p, procs) && !p'.removal && NeitherLogged(p.history, p'.history)
    requires p'.dirty + Pending(p', procs') == p.dirty + Pending(p, procs)
    ensures AutoInv(p', procs')
  {
    if p'.history != p.history {
      IdsSnoc(p.history, p'.history[|p.history|]);
    }
    calc {
      GrantIds(p'.history);
      PopIds(p.history) + p.dirty + Pending(p, procs);
      PopIds(p.history) + (p.dirty + Pending(p, procs));
      PopIds(p.history) + (p'.dirty + Pending(p', procs'));
      PopIds(p'.history) + p'.dirty + Pending(p', procs');
    }
  }

  lemma AutoClientTurn(c: Config, p: Pool, d: Sched, procs: map<Gid, Proc>, g: Gid, x: ClientMove, turn: Turn)
    requires AutoInv(p, procs) && g in procs && !procs[g].Work? && !procs[g].Remover? && NoDrain(procs[g])
    requires HoldsLock(procs[g]) <==> p.lock == Some(g)
    requires ClientTurn(c, p, d, procs[g], g, x) == Some(turn)
    ensures AutoInv(turn.pool, Put(procs, g, turn.next))
  {
    var q := procs[g];
    if x.GetLock? && turn.next.Some? {
      IdsSnoc(p.history, Granted(q.id, p.now, p.dbs[q.id].generation));
    } else {
      AutoTurn(p, procs, turn.pool, Put(procs, g, turn.next));
    }
  }

  lemma AutoClient(c: Config, p: Pool, d: Sched, procs: map<Gid, Proc>, g: Gid, x: ClientMove, turn: Turn)
    requires AutoInv(p, procs) && TokenInv(p, procs) && LockInv(p, procs) && g in procs && !procs[g].Work?
    requires !procs[g].Remover?
    requires ClientTurn(c, p, d, procs[g], g, x) == Some(turn)
    ensures AutoInv(turn.pool, Put(procs, g, turn.next))
  {
    assert NoDrain(procs[g]);
    assert HoldsLock(procs[g]) <==> p.lock == Some(g);
    AutoClientTurn(c, p, d, procs, g, x, turn);
  }

  /** A clean task takes the oldest queued id. */
  lemma AutoTake(p: Pool, procs: map<Gid, Proc>, q: Pool, procs': map<Gid, Proc>)
    requires AutoInv(p, procs) && p.dirty != [] && q.removal == p.removal
    requires q.dirty == p.dirty[1..] && q.history == p.history + [Popped(p.dirty[0])]
    requires Pending(q, procs') == Pending(p, procs)
    ensures AutoInv(q, procs')
  {
    IdsSnoc(p.history, Popped(p.dirty[0]));
    assert p.dirty == [p.dirty[0]] + q.dirty;
  }

  /** A worker takes no part in what the mutex holder has pending. */
  lemma WorkPending(p: Pool, procs: map<Gid, Proc>, g: Gid, turn: Turn)
    requires LockInv(p, procs) && g in procs && procs[g].Work? && (turn.next.Some? ==> turn.next.value.Work?)
    requires LockMoved(p, procs[g].pc, g, turn.pool)
    ensures Pending(turn.pool, Put(procs, g, turn.next)) == Pending(p, procs)
  {
    assert HoldsLock(procs[g]) <==> p.lock == Some(g);
  }

  lemma AutoWork(c: Config, p: Pool, cancelled: bool, procs: map<Gid, Proc>, g: Gid, x: WorkMove, turn: Turn)
    requires AutoInv(p, procs) && LockInv(p, procs) && g in procs && procs[g].Work?
    requires WorkTurn(c, p, cancelled, procs[g].kind, procs[g].pc, g, x) == Some(turn)
    ensures AutoInv(turn.pool, Put(procs, g, turn.next))
  {
    if x.DoCleanTake? {
      WorkPending(p, procs, g, turn);
      AutoTake(p, procs, turn.pool, Put(procs, g, turn.next));
    } else {
      WorkShape(c, p, cancelled, procs[g].kind, procs[g].pc, g, x, turn);
      WorkPending(p, procs, g, turn);
      AutoTurn(p, procs, turn.pool, Put(procs, g, turn.next));
    }
  }

  lemma AutoKeeps(c: Config, s: State, step: Step, t: State)
    requires AutoInv(s.pool, s.procs) && TokenInv(s.pool, s.procs) && LockInv(s.pool, s.procs)
    requires Client(s.nextClient) !in s.procs && (forall g <- s.procs :: !s.procs[g].Remover?)
    requires s.sched.loop.Acquiring? ==> TaskRun(s.sched.loop.job.serial) !in s.procs
    requires Allowed(Automatic, s, step) && Do(c, s, step) == Some(t)
    ensures AutoInv(t.pool, t.procs)
  {
    match step
    case OfTick(time) => AutoTurn(s.pool, s.procs, t.pool, t.procs);
    case OfArrival(x) => AutoTurn(s.pool, s.procs, t.pool, t.procs);
    case OfClient(g, x) =>
      AutoClient(c, s.pool, s.sched, s.procs, g, x, ClientTurn(c, s.pool, s.sched, s.procs[g], g, x).value);
    case OfWorker(g, x) =>
      AutoWork(c, s.pool, s.sched.cancelled, s.procs, g, x,
               WorkTurn(c, s.pool, s.sched.cancelled, s.procs[g].kind, s.procs[g].pc, g, x).value);
    case OfReport(g, x) => AutoTurn(s.pool, s.procs, t.pool, t.procs);
    case OfSched(x) =>
      SchedShape(c, s, x, t);
      AutoTurn(s.pool, s.procs, t.pool, t.procs);
  }

  lemma AutoFacts(c: Config, s: State)
    requires LinearState(c, s)
    ensures TokenInv(s.pool, s.procs) && LockInv(s.pool, s.procs) && Client(s.nextClient) !in s.procs
    ensures s.sched.loop.Acquiring? ==> TaskRun(s.sched.loop.job.serial) !in s.procs
    ensures !s.pool.removal ==> forall g <- s.procs :: !s.procs[g].Remover?
  {
    if s.sched.loop.Acquiring? {
      assert s.sched.ledger[s.sched.loop.job.serial] == Picked;
    }
  }

  lemma {:induction false} RunAuto(c: Config, states: seq<State>, steps: seq<Step>, i: nat)
    requires Run(c, Automatic, states, steps) && i < |states|
    ensures AutoInv(states[i].pool, states[i].procs)
  {
    if i > 0 {
      RunAuto(c, states, steps, i - 1);
      RunLinear(c, Automatic, states, steps, i - 1);
      AutoFacts(c, states[i - 1]);
      RunStep(c, Automatic, states, steps, i - 1);
      AutoKeeps(c, states[i - 1], steps[i - 1], states[i]);
    }
  }

  /**
    Without manual operations the ids granted so far are, in order, the ids taken for cleaning so
    far followed by the contents of `dirty`, whenever the mutex is free.
    */
  lemma GrantHistoryIsQueue(c: Config, states: seq<State>, steps: seq<Step>, i: nat)
    requires Run(c, Automatic, states, steps) && i < |states|
    requires states[i].pool.lock.None?
    ensures GrantIds(states[i].pool.history) == PopIds(states[i].pool.history) + states[i].pool.dirty
  {
    RunAuto(c, states, steps, i);
  }
}
