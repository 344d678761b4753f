/**
  What holds in every run, whatever clients do: the mutex has one holder, a database is ready
  exactly when its id is queued in `ready` or carried by the one goroutine that is about to use
  or publish it, and grants of one database are separated.
  */
module PoolFull {
  import opened Queues
  import opened PoolMachine
  import opened PoolTasks

  predicate HoldsLock(q: Proc) {
    match q
    case GetSend(_) => true
    case GetPush(_) => true
    case GetTask(_, _) => true
    case Drain(op, _, _) => op == Return
    case Refill(op, _, _) => op == Return
    case ReturnSend(_) => true
    case Remover(_) => true
    case Work(_, pc) => pc.MoveSend?
    case GetWait(_) => false
  }

  /** The id a goroutine took out of `ready`, or has made ready and not yet put there. */
  function ReadyToken(q: Proc): (r: Option<nat>) {
    match q
    case GetWait(id) => Some(id)
    case Drain(op, id, _) => if op == Return then Some(id) else None
    case Refill(op, id, _) => if op == Return then Some(id) else None
    case ReturnSend(id) => Some(id)
    case Work(_, pc) => if pc.MoveSend? then Some(pc.id) else None
    case _ => None
  }

  function PcId(pc: Pc): (r: Option<nat>) {
    match pc
    case CleanRead(id) => Some(id)
    case CleanSleep(id, _, _) => Some(id)
    case RecCheck(id) => Some(id)
    case RecLock(id) => Some(id)
    case RecSlot(id) => Some(id)
    case RecLoop(id) => Some(id)
    case RecCall(id, _) => Some(id)
    case MoveLock(id) => Some(id)
    case MoveSend(id) => Some(id)
    case _ => None
  }

  /** The id a goroutine works on. */
  function ProcId(q: Proc): (r: Option<nat>) {
    match q
    case GetWait(id) => Some(id)
    case GetSend(id) => Some(id)
    case GetPush(id) => Some(id)
    case GetTask(id, _) => Some(id)
    case Drain(_, id, _) => Some(id)
    case Refill(_, id, _) => Some(id)
    case ReturnSend(id) => Some(id)
    case Work(_, pc) => PcId(pc)
    case Remover(_) => None
  }

  ghost predicate Carries(procs: map<Gid, Proc>, g: Gid, id: nat) {
    g in procs && ReadyToken(procs[g]) == Some(id)
  }

  predicate IsReady(p: Pool, id: nat) {
    id < |p.dbs| && p.dbs[id].state == Ready
  }

  ghost predicate LockInv(p: Pool, procs: map<Gid, Proc>) {
    && (forall g <- procs :: HoldsLock(procs[g]) <==> p.lock == Some(g))
    && (p.lock.Some? ==> p.lock.value in procs)
  }

  /** Until a removal begins, every id in sight is inside the table; the mutex holder's always is. */
  predicate InRange(p: Pool, q: Proc) {
    && (ProcId(q).Some? && (HoldsLock(q) || !p.removal) ==> ProcId(q).value < |p.dbs|)
    && (q.Remover? ==> q.next + 1 == |p.dbs|)
  }

  ghost predicate TableInv(c: Config, p: Pool, procs: map<Gid, Proc>) {
    && |p.dbs| <= p.cap <= c.max
    && (forall i :: 0 <= i < |p.dbs| ==> p.dbs[i].id == i)
    && (forall g <- procs :: InRange(p, procs[g]))
    && (p.closed ==> p.removal && p.dbs == [] && p.cap == 0)
  }

  ghost predicate AllBelow(q: seq<nat>, n: nat) {
    forall i :: 0 <= i < |q| ==> q[i] < n
  }

  lemma BelowWithout(q: seq<nat>, x: nat, n: nat)
    requires AllBelow(q, n)
    ensures AllBelow(Without(q, x), n)
  {
    var r := Without(q, x);
    forall i | 0 <= i < |r|
      ensures r[i] < n
    {
      assert r[i] in r && r[i] in q;
    }
  }

  function Buffer(q: Proc): (r: seq<nat>) {
    if q.Drain? || q.Refill? then q.buffer else []
  }

  ghost predicate DirtyInv(p: Pool, procs: map<Gid, Proc>) {
    !p.removal ==> AllBelow(p.dirty, |p.dbs|) && forall g <- procs :: AllBelow(Buffer(procs[g]), |p.dbs|)
  }

  ghost predicate ReadyInv(p: Pool, procs: map<Gid, Proc>) {
    && Distinct(p.ready)
    && (forall id: nat :: id in p.ready ==> IsReady(p, id))
    && (forall g, id: nat :: Carries(procs, g, id) ==> id !in p.ready && (id < |p.dbs| ==> IsReady(p, id)))
    && (forall g, h, id: nat :: Carries(procs, g, id) && Carries(procs, h, id) ==> g == h)
    && (forall id: nat :: IsReady(p, id) ==> id in p.ready || exists g :: Carries(procs, g, id))
  }

  ghost predicate FullInv(c: Config, p: Pool, procs: map<Gid, Proc>) {
    LockInv(p, procs) && TableInv(c, p, procs) && DirtyInv(p, procs) && ReadyInv(p, procs)
  }

  function Token(procs: map<Gid, Proc>, g: Gid): (r: Option<nat>) {
    if g in procs then ReadyToken(procs[g]) else None
  }

  function NextToken(next: Option<Proc>): (r: Option<nat>) {
    if next.Some? then ReadyToken(next.value) else None
  }

  // ---------------------------------------------------------------- how a turn may change readiness

  /** Nothing about readiness changes, except that a stale id beyond the table may be let go. */
  lemma ReadyKept(p: Pool, procs: map<Gid, Proc>, g: Gid, turn: Turn)
    requires ReadyInv(p, procs)
    requires turn.pool.ready == p.ready && |p.dbs| <= |turn.pool.dbs|
    requires forall id: nat :: IsReady(turn.pool, id) <==> IsReady(p, id)
    requires forall h, id: nat :: |p.dbs| <= id < |turn.pool.dbs| ==> !Carries(procs, h, id)
    requires
      || NextToken(turn.next) == Token(procs, g)
      || (NextToken(turn.next).None? && Token(procs, g).Some? && Token(procs, g).value >= |p.dbs|)
    ensures ReadyInv(turn.pool, Put(procs, g, turn.next))
  {
    var procs' := Put(procs, g, turn.next);
    forall id: nat | IsReady(turn.pool, id)
      ensures id in turn.pool.ready || exists h :: Carries(procs', h, id)
    {
      if id !in p.ready {
        var h :| Carries(procs, h, id);
        assert Carries(procs', h, id);
      }
    }
    assert forall h, id: nat :: Carries(procs', h, id) ==> Carries(procs, h, id);
  }

  /** A goroutine takes the first id out of `ready`. */
  lemma ReadyTaken(p: Pool, procs: map<Gid, Proc>, g: Gid, turn: Turn)
    requires ReadyInv(p, procs) && g !in procs && p.ready != []
    requires turn.pool == p.(ready := p.ready[1..]) && NextToken(turn.next) == Some(p.ready[0])
    ensures ReadyInv(turn.pool, Put(procs, g, turn.next))
  {
    var procs' := Put(procs, g, turn.next);
    assert p.ready[0] in p.ready;
    assert forall id: nat :: IsReady(turn.pool, id) <==> IsReady(p, id);
    forall id: nat | IsReady(turn.pool, id)
      ensures id in turn.pool.ready || exists h :: Carries(procs', h, id)
    {
      assert IsReady(p, id);
      if id == p.ready[0] {
        assert Carries(procs', g, id);
      } else if id !in p.ready {
        var h :| Carries(procs, h, id);
        assert Carries(procs', h, id);
      }
    }
    assert forall h, id: nat :: h != g ==> (Carries(procs', h, id) <==> Carries(procs, h, id));
  }

  /** The carrier of a ready id uses it up. */
  lemma ReadyUsed(p: Pool, procs: map<Gid, Proc>, g: Gid, id: nat, turn: Turn)
    requires ReadyInv(p, procs) && Carries(procs, g, id)
    requires turn.pool.ready == p.ready && NextToken(turn.next).None?
    requires |turn.pool.dbs| == |p.dbs|
    requires forall i: nat :: IsReady(turn.pool, i) <==> IsReady(p, i) && i != id
    ensures ReadyInv(turn.pool, Put(procs, g, turn.next))
  {
    var procs' := Put(procs, g, turn.next);
    assert forall h, i: nat :: Carries(procs', h, i) <==> Carries(procs, h, i) && h != g;
    forall i: nat | IsReady(turn.pool, i)
      ensures i in turn.pool.ready || exists h :: Carries(procs', h, i)
    {
      if i !in p.ready {
        var h :| Carries(procs, h, i);
        assert Carries(procs', h, i);
      }
    }
  }

  /** A goroutine makes an id ready and carries it. */
  lemma ReadyMade(p: Pool, procs: map<Gid, Proc>, g: Gid, id: nat, turn: Turn)
    requires ReadyInv(p, procs) && Token(procs, g).None? && id < |p.dbs| && !IsReady(p, id)
    requires turn.pool.ready == p.ready && NextToken(turn.next) == Some(id)
    requires |turn.pool.dbs| == |p.dbs|
    requires forall i: nat :: IsReady(turn.pool, i) <==> IsReady(p, i) || i == id
    ensures ReadyInv(turn.pool, Put(procs, g, turn.next))
  {
    var procs' := Put(procs, g, turn.next);
    assert Carries(procs', g, id);
    assert forall h, i: nat :: Carries(procs', h, i) <==> Carries(procs, h, i) || (h == g && i == id);
    forall i: nat | IsReady(turn.pool, i)
      ensures i in turn.pool.ready || exists h :: Carries(procs', h, i)
    {
      if i != id && i !in p.ready {
        var h :| Carries(procs, h, i);
        assert Carries(procs', h, i);
      }
    }
  }

  /** The carrier of an id inside the table puts it into `ready`. */
  lemma ReadyPut(p: Pool, procs: map<Gid, Proc>, g: Gid, id: nat, turn: Turn)
    requires ReadyInv(p, procs) && Carries(procs, g, id) && id < |p.dbs|
    requires turn.pool.ready == p.ready + [id] && turn.pool.dbs == p.dbs && NextToken(turn.next).None?
    ensures ReadyInv(turn.pool, Put(procs, g, turn.next))
  {
    var procs' := Put(procs, g, turn.next);
    assert forall h, i: nat :: Carries(procs', h, i) <==> Carries(procs, h, i) && h != g;
    forall i: nat | IsReady(turn.pool, i)
      ensures i in turn.pool.ready || exists h :: Carries(procs', h, i)
    {
      if i != id && i !in p.ready {
        var h :| Carries(procs, h, i);
        assert Carries(procs', h, i);
      }
    }
  }

  /** An id that was not ready becomes ready and goes into `ready` at once. */
  lemma ReadyDirect(p: Pool, procs: map<Gid, Proc>, g: Gid, id: nat, turn: Turn)
    requires ReadyInv(p, procs) && g !in procs && turn.next.None?
    requires id < |p.dbs| && !IsReady(p, id) && |turn.pool.dbs| == |p.dbs|
    requires turn.pool.ready == p.ready + [id]
    requires forall i: nat :: IsReady(turn.pool, i) <==> IsReady(p, i) || i == id
    ensures ReadyInv(turn.pool, Put(procs, g, turn.next))
  {
    assert Put(procs, g, turn.next) == procs;
  }

  /** The last id leaves the table and `ready`. */
  lemma ReadyShrunk(p: Pool, procs: map<Gid, Proc>, g: Gid, turn: Turn)
    requires ReadyInv(p, procs) && p.dbs != [] && Token(procs, g).None? && NextToken(turn.next).None?
    requires turn.pool.ready == Without(p.ready, |p.dbs| - 1)
    requires turn.pool.dbs == p.dbs[..|p.dbs| - 1]
    ensures ReadyInv(turn.pool, Put(procs, g, turn.next))
  {
    var procs' := Put(procs, g, turn.next);
    WithoutDistinct(p.ready, |p.dbs| - 1);
    assert forall h, i: nat :: Carries(procs', h, i) <==> Carries(procs, h, i);
    forall i: nat | IsReady(turn.pool, i)
      ensures i in turn.pool.ready || exists h :: Carries(procs', h, i)
    {
      assert IsReady(p, i);
      if i !in p.ready {
        var h :| Carries(procs, h, i);
        assert Carries(procs', h, i);
      }
    }
  }

  // ---------------------------------------------------------------- mutex and table

  lemma LockTurn(p: Pool, procs: map<Gid, Proc>, g: Gid, turn: Turn)
    requires LockInv(p, procs)
    requires g !in procs ==> p.lock != Some(g)
    requires
      var before := g in procs && HoldsLock(procs[g]);
      var after := turn.next.Some? && HoldsLock(turn.next.value);
      || (turn.pool.lock == p.lock && before == after)
      || (p.lock.None? && !before && turn.pool.lock == Some(g) && after)
      || (before && !after && turn.pool.lock.None?)
    ensures LockInv(turn.pool, Put(procs, g, turn.next))
  {
  }

  lemma TableTurn(c: Config, p: Pool, procs: map<Gid, Proc>, g: Gid, turn: Turn)
    requires TableInv(c, p, procs)
    requires |p.dbs| <= |turn.pool.dbs| <= turn.pool.cap && turn.pool.cap == p.cap && turn.pool.closed == p.closed
    requires forall i :: 0 <= i < |turn.pool.dbs| ==> turn.pool.dbs[i].id == i
    requires p.removal ==> turn.pool.removal && |p.dbs| == |turn.pool.dbs|
    requires turn.pool.removal ==> |p.dbs| == |turn.pool.dbs|
    requires |p.dbs| < |turn.pool.dbs| ==> forall h <- procs :: !procs[h].Remover?
    requires turn.next.Some? ==> InRange(turn.pool, turn.next.value)
    ensures TableInv(c, turn.pool, Put(procs, g, turn.next))
  {
  }

  lemma DirtyTurn(p: Pool, procs: map<Gid, Proc>, g: Gid, turn: Turn)
    requires DirtyInv(p, procs)
    requires p.removal ==> turn.pool.removal
    requires !turn.pool.removal ==>
      && |p.dbs| <= |turn.pool.dbs|
      && AllBelow(turn.pool.dirty, |turn.pool.dbs|)
      && (turn.next.Some? ==> AllBelow(Buffer(turn.next.value), |turn.pool.dbs|))
    ensures DirtyInv(turn.pool, Put(procs, g, turn.next))
  {
  }

  lemma ArriveTable(c: Config, p: Pool, d: Sched, procs: map<Gid, Proc>, g: Gid, x: Arrival, turn: Turn)
    requires FullInv(c, p, procs) && g !in procs
    requires Arrive(c, p, d, g, x) == Some(turn)
    ensures LockInv(turn.pool, Put(procs, g, turn.next)) && TableInv(c, turn.pool, Put(procs, g, turn.next))
    ensures DirtyInv(turn.pool, Put(procs, g, turn.next))
  {
    LockTurn(p, procs, g, turn);
    assert p.ready != [] ==> p.ready[0] in p.ready;
    TableTurn(c, p, procs, g, turn);
    if !p.removal && (x.RecreateAtomic? || x.ReturnAtomic?) {
      BelowWithout(p.dirty, x.id, |p.dbs|);
    }
    DirtyTurn(p, procs, g, turn);
  }

  lemma ArriveReady(c: Config, p: Pool, d: Sched, procs: map<Gid, Proc>, g: Gid, x: Arrival, turn: Turn)
    requires ReadyInv(p, procs) && g !in procs
    requires Arrive(c, p, d, g, x) == Some(turn)
    ensures ReadyInv(turn.pool, Put(procs, g, turn.next))
  {
    match x
    case GetReceive => ReadyTaken(p, procs, g, turn);
    case ReturnLock(id) => if CanReturn(p, id) { ReadyMade(p, procs, g, id, turn); } else { ReadyKept(p, procs, g, turn); }
    case ReturnAtomic(id) => if CanReturn(p, id) { ReadyDirect(p, procs, g, id, turn); } else { ReadyKept(p, procs, g, turn); }
    case _ => ReadyKept(p, procs, g, turn);
  }

  lemma ClientLock(c: Config, p: Pool, d: Sched, procs: map<Gid, Proc>, g: Gid, x: ClientMove, turn: Turn)
    requires LockInv(p, procs) && g in procs
    requires ClientTurn(c, p, d, procs[g], g, x) == Some(turn)
    ensures LockInv(turn.pool, Put(procs, g, turn.next))
  {
    LockTurn(p, procs, g, turn);
  }

  lemma ClientTable(c: Config, p: Pool, d: Sched, procs: map<Gid, Proc>, g: Gid, x: ClientMove, turn: Turn)
    requires TableInv(c, p, procs) && g in procs && (procs[g].Remover? ==> p.removal)
    requires LockInv(p, procs)
    requires ClientTurn(c, p, d, procs[g], g, x) == Some(turn)
    ensures TableInv(c, turn.pool, Put(procs, g, turn.next))
  {
    assert InRange(p, procs[g]);
    if x.RemoveDrop? || x.RemoveLast? {
      RemoveTable(c, p, d, procs, g, x, turn);
    } else {
      TableTurn(c, p, procs, g, turn);
    }
  }

  lemma RemoveTable(c: Config, p: Pool, d: Sched, procs: map<Gid, Proc>, g: Gid, x: ClientMove, turn: Turn)
    requires TableInv(c, p, procs) && LockInv(p, procs) && g in procs && p.removal && (x.RemoveDrop? || x.RemoveLast?)
    requires ClientTurn(c, p, d, procs[g], g, x) == Some(turn)
    ensures TableInv(c, turn.pool, Put(procs, g, turn.next))
  {
    assert InRange(p, procs[g]);
    forall h <- procs
      ensures h != g ==> InRange(turn.pool, procs[h])
    {
      assert HoldsLock(procs[g]) && (h != g ==> !HoldsLock(procs[h]));
    }
  }

  lemma ClientDirty(c: Config, p: Pool, d: Sched, procs: map<Gid, Proc>, g: Gid, x: ClientMove, turn: Turn)
    requires DirtyInv(p, procs) && g in procs && InRange(p, procs[g]) && (procs[g].Remover? ==> p.removal)
    requires ClientTurn(c, p, d, procs[g], g, x) == Some(turn)
    ensures DirtyInv(turn.pool, Put(procs, g, turn.next))
  {
    DirtyTurn(p, procs, g, turn);
  }

  lemma ClientReady(c: Config, p: Pool, d: Sched, procs: map<Gid, Proc>, g: Gid, x: ClientMove, turn: Turn)
    requires ReadyInv(p, procs) && g in procs && InRange(p, procs[g])
    requires ClientTurn(c, p, d, procs[g], g, x) == Some(turn)
    ensures ReadyInv(turn.pool, Put(procs, g, turn.next))
  {
    if x.RemoveDrop? || x.RemoveLast? {
      ReadyShrunk(p, procs, g, turn);
    } else if x.GetLock? {
      var id := procs[g].id;
      assert Carries(procs, g, id);
      if id < |p.dbs| { ReadyUsed(p, procs, g, id, turn); } else { ReadyKept(p, procs, g, turn); }
    } else if x.ReturnSendReady? {
      assert Carries(procs, g, procs[g].id);
      ReadyPut(p, procs, g, procs[g].id, turn);
    } else {
      ReadyKept(p, procs, g, turn);
    }
  }

  lemma WorkLock(c: Config, p: Pool, cancelled: bool, procs: map<Gid, Proc>, g: Gid, x: WorkMove, turn: Turn)
    requires LockInv(p, procs) && g in procs && procs[g].Work?
    requires WorkTurn(c, p, cancelled, procs[g].kind, procs[g].pc, g, x) == Some(turn)
    ensures LockInv(turn.pool, Put(procs, g, turn.next))
  {
    LockTurn(p, procs, g, turn);
  }

  /** The table as a worker step leaves it: one entry more at most, ids in their places. */
  lemma WorkTableShape(c: Config, p: Pool, cancelled: bool, q: Proc, g: Gid, x: WorkMove, turn: Turn)
    requires q.Work? && WorkTurn(c, p, cancelled, q.kind, q.pc, g, x) == Some(turn)
    requires |p.dbs| <= p.cap && forall i :: 0 <= i < |p.dbs| ==> p.dbs[i].id == i
    ensures |p.dbs| <= |turn.pool.dbs| <= p.cap && (|p.dbs| < |turn.pool.dbs| ==> q.pc.ExtendLock?)
    ensures turn.pool.cap == p.cap && turn.pool.closed == p.closed && turn.pool.removal == p.removal
    ensures forall i :: 0 <= i < |turn.pool.dbs| ==> turn.pool.dbs[i].id == i
  {
  }

  lemma WorkInRange(c: Config, p: Pool, cancelled: bool, q: Proc, g: Gid, x: WorkMove, turn: Turn)
    requires q.Work? && WorkTurn(c, p, cancelled, q.kind, q.pc, g, x) == Some(turn) && InRange(p, q)
    requires q.pc.ExtendLock? || q.pc.CleanTake? ==> !p.removal
    requires !p.removal ==> AllBelow(p.dirty, |p.dbs|)
    ensures turn.next.Some? ==> InRange(turn.pool, turn.next.value)
  {
  }

  lemma WorkTable(c: Config, p: Pool, cancelled: bool, procs: map<Gid, Proc>, g: Gid, x: WorkMove, turn: Turn)
    requires TableInv(c, p, procs) && g in procs && procs[g].Work? && (!p.removal ==> AllBelow(p.dirty, |p.dbs|))
    requires procs[g].pc.ExtendLock? || procs[g].pc.CleanTake? ==> !p.removal
    requires forall h <- procs :: procs[h].Remover? ==> p.removal
    requires WorkTurn(c, p, cancelled, procs[g].kind, procs[g].pc, g, x) == Some(turn)
    ensures TableInv(c, turn.pool, Put(procs, g, turn.next))
  {
    assert InRange(p, procs[g]);
    WorkTableShape(c, p, cancelled, procs[g], g, x, turn);
    WorkInRange(c, p, cancelled, procs[g], g, x, turn);
    TableTurn(c, p, procs, g, turn);
  }

  lemma WorkDirty(c: Config, p: Pool, cancelled: bool, procs: map<Gid, Proc>, g: Gid, x: WorkMove, turn: Turn)
    requires DirtyInv(p, procs) && g in procs && procs[g].Work?
    requires WorkTurn(c, p, cancelled, procs[g].kind, procs[g].pc, g, x) == Some(turn)
    ensures DirtyInv(turn.pool, Put(procs, g, turn.next))
  {
    DirtyTurn(p, procs, g, turn);
  }

  /** The worker steps that leave table and `ready` alone. */
  lemma WorkLeaves(c: Config, p: Pool, cancelled: bool, kind: Kind, pc: Pc, g: Gid, x: WorkMove, turn: Turn)
    requires WorkTurn(c, p, cancelled, kind, pc, g, x) == Some(turn)
    requires !x.DoExtend? && !x.DoRecLock? && !x.DoMoveSend? && (x.DoMoveLock? ==> turn.pool.lock.None?)
    ensures turn.pool.ready == p.ready && turn.pool.dbs == p.dbs
    ensures NextToken(turn.next).None? && !pc.MoveSend?
  {
    if Early(x) {
      EarlyLeaves(c, p, cancelled, kind, pc, g, x, turn);
    } else {
      LateLeaves(c, p, cancelled, kind, pc, g, x, turn);
    }
  }

  lemma EarlyLeaves(c: Config, p: Pool, cancelled: bool, kind: Kind, pc: Pc, g: Gid, x: WorkMove, turn: Turn)
    requires WorkTurn(c, p, cancelled, kind, pc, g, x) == Some(turn) && Early(x) && !x.DoExtend? && !x.DoRecLock?
    ensures turn.pool.ready == p.ready && turn.pool.dbs == p.dbs
    ensures NextToken(turn.next).None? && !pc.MoveSend?
  {
  }

  lemma LateLeaves(c: Config, p: Pool, cancelled: bool, kind: Kind, pc: Pc, g: Gid, x: WorkMove, turn: Turn)
    requires WorkTurn(c, p, cancelled, kind, pc, g, x) == Some(turn) && !Early(x) && !x.DoMoveSend?
    requires x.DoMoveLock? ==> turn.pool.lock.None?
    ensures turn.pool.ready == p.ready && turn.pool.dbs == p.dbs
    ensures NextToken(turn.next).None? && !pc.MoveSend?
  {
  }

  /** A worker takes the mutex for a moment, to enter a database or to claim one. */
  lemma ClaimReady(c: Config, p: Pool, cancelled: bool, procs: map<Gid, Proc>, g: Gid, x: WorkMove, turn: Turn)
    requires ReadyInv(p, procs) && TableInv(c, p, procs) && g in procs && procs[g].Work?
    requires procs[g].pc.ExtendLock? ==> !p.removal
    requires WorkTurn(c, p, cancelled, procs[g].kind, procs[g].pc, g, x) == Some(turn) && (x.DoExtend? || x.DoRecLock?)
    ensures ReadyInv(turn.pool, Put(procs, g, turn.next))
  {
    assert x.DoExtend? ==> forall h <- procs :: InRange(p, procs[h]);
    assert forall id: nat :: IsReady(turn.pool, id) <==> IsReady(p, id);
    ReadyKept(p, procs, g, turn);
  }

  lemma WorkReady(c: Config, p: Pool, cancelled: bool, procs: map<Gid, Proc>, g: Gid, x: WorkMove, turn: Turn)
    requires ReadyInv(p, procs) && TableInv(c, p, procs) && g in procs && procs[g].Work?
    requires procs[g].pc.ExtendLock? ==> !p.removal
    requires WorkTurn(c, p, cancelled, procs[g].kind, procs[g].pc, g, x) == Some(turn)
    ensures ReadyInv(turn.pool, Put(procs, g, turn.next))
  {
    var pc := procs[g].pc;
    if x.DoExtend? || x.DoRecLock? {
      ClaimReady(c, p, cancelled, procs, g, x, turn);
    } else if x.DoMoveLock? && turn.pool.lock.Some? {
      ReadyMade(p, procs, g, pc.id, turn);
    } else if x.DoMoveSend? {
      assert Carries(procs, g, pc.id);
      ReadyPut(p, procs, g, pc.id, turn);
    } else {
      WorkLeaves(c, p, cancelled, procs[g].kind, pc, g, x, turn);
      ReadyKept(p, procs, g, turn);
    }
  }

  // ---------------------------------------------------------------- grants in the history

  predicate UnlockedBetween(h: seq<Event>, i: int, j: int, id: nat) {
    exists k :: i < k < j && 0 <= k < |h| && h[k] == Unlocked(id)
  }

  /** Between any two grants of an id it was unlocked or its generation grew. */
  ghost predicate GrantsApart(h: seq<Event>) {
    forall i, j :: 0 <= i < j < |h| && h[i].Granted? && h[j].Granted? && h[i].id == h[j].id ==>
      h[i].generation < h[j].generation || (h[i].generation == h[j].generation && UnlockedBetween(h, i, j, h[i].id))
  }

  /** What the table still knows about a past grant `h[i]`. */
  ghost predicate GrantKnown(c: Config, p: Pool, h: seq<Event>, i: int)
    requires 0 <= i < |h| && h[i].Granted?
  {
    var e := h[i];
    && e.time <= p.now
    && (!p.removal ==> e.id < |p.dbs|)
    && (e.id < |p.dbs| ==>
          && e.generation <= p.dbs[e.id].generation
          && e.time + c.lifetime <= p.dbs[e.id].blockUntil
          && (IsReady(p, e.id) ==> e.generation < p.dbs[e.id].generation || UnlockedBetween(h, i, |h|, e.id)))
  }

  ghost predicate GrantInv(c: Config, p: Pool) {
    && GrantsApart(p.history)
    && forall i :: 0 <= i < |p.history| && p.history[i].Granted? ==> GrantKnown(c, p, p.history, i)
  }

  lemma StillUnlocked(h: seq<Event>, e: Event, i: int, j: int, id: nat)
    requires UnlockedBetween(h, i, j, id)
    ensures UnlockedBetween(h + [e], i, j, id) && UnlockedBetween(h + [e], i, |h| + 1, id)
  {
    var k :| i < k < j && 0 <= k < |h| && h[k] == Unlocked(id);
    assert (h + [e])[k] == Unlocked(id);
  }

  lemma ApartSnoc(h: seq<Event>, e: Event)
    requires GrantsApart(h)
    requires e.Granted? ==>
      forall i :: 0 <= i < |h| && h[i].Granted? && h[i].id == e.id ==>
        h[i].generation < e.generation || (h[i].generation == e.generation && UnlockedBetween(h, i, |h|, e.id))
    ensures GrantsApart(h + [e])
  {
    var h' := h + [e];
    forall i, j | 0 <= i < j < |h'| && h'[i].Granted? && h'[j].Granted? && h'[i].id == h'[j].id
      ensures h'[i].generation < h'[j].generation || (h'[i].generation == h'[j].generation && UnlockedBetween(h', i, j, h'[i].id))
    {
      if h[i].generation >= h'[j].generation {
        assert UnlockedBetween(h, i, j, h[i].id);
        StillUnlocked(h, e, i, j, h[i].id);
      }
    }
  }

  /** An update of the table that forgets nothing about grants, with at most one event logged. */
  lemma GrantTurn(c: Config, p: Pool, p': Pool, log: seq<Event>)
    requires GrantInv(c, p)
    requires |log| <= 1 && p'.history == p.history + log
    requires p.now <= p'.now && (p.removal ==> p'.removal)
    requires p'.removal || |p.dbs| <= |p'.dbs|
    requires forall id: nat :: id < |p.dbs| && id < |p'.dbs| ==>
      && p.dbs[id].generation <= p'.dbs[id].generation
      && (p.dbs[id].blockUntil <= p'.dbs[id].blockUntil || p'.dbs[id].blockUntil == p.now + c.lifetime)
      && (IsReady(p', id) ==> IsReady(p, id) || p.dbs[id].generation < p'.dbs[id].generation || log == [Unlocked(id)])
    requires |p.dbs| < |p'.dbs| ==> !p.removal
    requires forall e :: e in log && e.Granted? ==>
      && IsReady(p, e.id) && !IsReady(p', e.id) && e.id < |p'.dbs|
      && e.generation == p.dbs[e.id].generation && e.time == p.now
      && p'.dbs[e.id].blockUntil == p.now + c.lifetime
    ensures GrantInv(c, p')
  {
    var h, h' := p.history, p'.history;
    if log == [] {
      assert h' == h;
    } else {
      var e := log[0];
      assert e in log && h' == h + [e];
      if e.Granted? {
        forall i | 0 <= i < |h| && h[i].Granted? && h[i].id == e.id
          ensures h[i].generation < e.generation || (h[i].generation == e.generation && UnlockedBetween(h, i, |h|, e.id))
        {
          assert GrantKnown(c, p, h, i);
        }
      }
      ApartSnoc(h, e);
    }
    forall i | 0 <= i < |h'| && h'[i].Granted?
      ensures GrantKnown(c, p', h', i)
    {
      if i < |h| {
        assert GrantKnown(c, p, h, i);
        if UnlockedBetween(h, i, |h|, h[i].id) && log != [] {
          StillUnlocked(h, log[0], i, |h|, h[i].id);
        }
        if log == [Unlocked(h[i].id)] {
          assert h'[|h|] == Unlocked(h[i].id);
        }
      } else {
        assert h'[i] in log;
      }
    }
  }

  lemma GrantArrive(c: Config, p: Pool, d: Sched, g: Gid, x: Arrival, turn: Turn)
    requires GrantInv(c, p) && Arrive(c, p, d, g, x) == Some(turn)
    ensures GrantInv(c, turn.pool)
  {
    GrantTurn(c, p, turn.pool, if (x.ReturnLock? || x.ReturnAtomic?) && CanReturn(p, x.id) then [Unlocked(x.id)] else []);
  }

  lemma GrantClient(c: Config, p: Pool, d: Sched, q: Proc, g: Gid, x: ClientMove, turn: Turn)
    requires GrantInv(c, p) && ClientTurn(c, p, d, q, g, x) == Some(turn)
    requires q.Remover? ==> p.removal
    ensures GrantInv(c, turn.pool)
  {
    if x.GetLock? || x.RemoveDrop? || x.RemoveLast? {
      GrantTurn(c, p, turn.pool, turn.pool.history[|p.history|..]);
    } else {
      ClientLogs(c, p, d, q, g, x, turn);
      GrantTurn(c, p, turn.pool, []);
    }
  }

  /** The other client steps leave the table and the history alone. */
  lemma ClientLogs(c: Config, p: Pool, d: Sched, q: Proc, g: Gid, x: ClientMove, turn: Turn)
    requires ClientTurn(c, p, d, q, g, x) == Some(turn)
    requires !x.GetLock? && !x.RemoveDrop? && !x.RemoveLast?
    ensures turn.pool.dbs == p.dbs && turn.pool.now == p.now && turn.pool.removal == p.removal
    ensures turn.pool.history == p.history
  {
  }

  /** The worker steps that may change the table. */
  predicate TableMove(x: WorkMove) {
    x.DoExtend? || x.DoRecLock? || x.DoMoveLock?
  }

  /** The history stays, or one event is logged that is no grant. */
  predicate NoGrant(h: seq<Event>, h': seq<Event>) {
    h' == h || (|h'| == |h| + 1 && h' == h + [h'[|h|]] && !h'[|h|].Granted?)
  }

  predicate NoDrop(h: seq<Event>, h': seq<Event>) {
    |h'| == |h| + 1 ==> !h'[|h|].Dropped?
  }

  /** The other worker steps leave the table alone and log neither a grant nor a drop. */
  lemma WorkLogs(c: Config, p: Pool, cancelled: bool, kind: Kind, pc: Pc, g: Gid, x: WorkMove, turn: Turn)
    requires WorkTurn(c, p, cancelled, kind, pc, g, x) == Some(turn) && !TableMove(x)
    ensures turn.pool.dbs == p.dbs && turn.pool.now == p.now && turn.pool.removal == p.removal
    ensures NoGrant(p.history, turn.pool.history) && NoDrop(p.history, turn.pool.history)
  {
    if Early(x) || x.DoRecSlot? || x.DoMoveSend? || x.DoSlotRelease? {
      WorkLogsPop(c, p, cancelled, kind, pc, g, x, turn);
    } else {
      WorkLogsCall(c, p, cancelled, kind, pc, g, x, turn);
    }
  }

  lemma WorkLogsPop(c: Config, p: Pool, cancelled: bool, kind: Kind, pc: Pc, g: Gid, x: WorkMove, turn: Turn)
    requires WorkTurn(c, p, cancelled, kind, pc, g, x) == Some(turn) && !TableMove(x) && !x.DoRecLoop? && !x.DoRecCall?
    ensures turn.pool.dbs == p.dbs && turn.pool.now == p.now && turn.pool.removal == p.removal
    ensures NoGrant(p.history, turn.pool.history) && NoDrop(p.history, turn.pool.history)
  {
  }

  lemma WorkLogsCall(c: Config, p: Pool, cancelled: bool, kind: Kind, pc: Pc, g: Gid, x: WorkMove, turn: Turn)
    requires WorkTurn(c, p, cancelled, kind, pc, g, x) == Some(turn) && (x.DoRecLoop? || x.DoRecCall?)
    ensures turn.pool.dbs == p.dbs && turn.pool.now == p.now && turn.pool.removal == p.removal
    ensures NoGrant(p.history, turn.pool.history) && NoDrop(p.history, turn.pool.history)
  {
  }

  lemma GrantTable(c: Config, p: Pool, cancelled: bool, kind: Kind, pc: Pc, g: Gid, x: WorkMove, turn: Turn)
    requires GrantInv(c, p) && WorkTurn(c, p, cancelled, kind, pc, g, x) == Some(turn) && TableMove(x)
    requires pc.ExtendLock? ==> !p.removal
    ensures GrantInv(c, turn.pool)
  {
    GrantTurn(c, p, turn.pool, if turn.pool.history == p.history then [] else [Regenerated(pc.id)]);
  }

  lemma GrantWork(c: Config, p: Pool, cancelled: bool, kind: Kind, pc: Pc, g: Gid, x: WorkMove, turn: Turn)
    requires GrantInv(c, p) && WorkTurn(c, p, cancelled, kind, pc, g, x) == Some(turn)
    requires pc.ExtendLock? ==> !p.removal
    ensures GrantInv(c, turn.pool)
  {
    if TableMove(x) {
      GrantTable(c, p, cancelled, kind, pc, g, x, turn);
    } else {
      WorkLogs(c, p, cancelled, kind, pc, g, x, turn);
      LoggedGrants(c, p, turn.pool);
    }
  }

  lemma LoggedGrants(c: Config, p: Pool, p': Pool)
    requires GrantInv(c, p) && p'.dbs == p.dbs && p'.now == p.now && p'.removal == p.removal && NoGrant(p.history, p'.history)
    ensures GrantInv(c, p')
  {
    GrantTurn(c, p, p', if p'.history == p.history then [] else [p'.history[|p.history|]]);
  }

  // ---------------------------------------------------------------- all steps

  ghost predicate FullState(c: Config, s: State) {
    SchedInv(c, s) && FullInv(c, s.pool, s.procs) && GrantInv(c, s.pool)
  }

  /** A goroutine without the mutex or an id starts, reports or ends. */
  lemma IdleTurn(c: Config, p: Pool, procs: map<Gid, Proc>, g: Gid, next: Option<Proc>)
    requires FullInv(c, p, procs)
    requires g in procs ==> !HoldsLock(procs[g]) && ReadyToken(procs[g]).None?
    requires next.Some? ==> next.value.Work? && PcId(next.value.pc).None?
    ensures FullInv(c, p, Put(procs, g, next))
  {
    var turn := Turn(p, next, None);
    LockTurn(p, procs, g, turn);
    TableTurn(c, p, procs, g, turn);
    DirtyTurn(p, procs, g, turn);
    ReadyKept(p, procs, g, turn);
  }

  lemma TickKeeps(c: Config, s: State, time: int)
    requires FullState(c, s) && s.pool.now <= time
    ensures FullInv(c, s.pool.(now := time), s.procs) && GrantInv(c, s.pool.(now := time))
  {
    var p' := s.pool.(now := time);
    GrantTurn(c, s.pool, p', []);
    assert forall id: nat :: IsReady(p', id) <==> IsReady(s.pool, id);
  }

  lemma ArriveKeeps(c: Config, s: State, x: Arrival, t: State)
    requires FullState(c, s) && Do(c, s, OfArrival(x)) == Some(t)
    ensures FullInv(c, t.pool, t.procs) && GrantInv(c, t.pool)
  {
    var g := Client(s.nextClient);
    var turn := Arrive(c, s.pool, s.sched, g, x).value;
    ArriveTable(c, s.pool, s.sched, s.procs, g, x, turn);
    ArriveReady(c, s.pool, s.sched, s.procs, g, x, turn);
    GrantArrive(c, s.pool, s.sched, g, x, turn);
  }

  lemma ClientKeeps(c: Config, s: State, g: Gid, x: ClientMove, t: State)
    requires FullState(c, s) && Do(c, s, OfClient(g, x)) == Some(t)
    ensures FullInv(c, t.pool, t.procs) && GrantInv(c, t.pool)
  {
    var turn := ClientTurn(c, s.pool, s.sched, s.procs[g], g, x).value;
    ClientLock(c, s.pool, s.sched, s.procs, g, x, turn);
    ClientTable(c, s.pool, s.sched, s.procs, g, x, turn);
    ClientDirty(c, s.pool, s.sched, s.procs, g, x, turn);
    ClientReady(c, s.pool, s.sched, s.procs, g, x, turn);
    GrantClient(c, s.pool, s.sched, s.procs[g], g, x, turn);
  }

  /** A tracked worker that has not left is never around once a removal has begun. */
  lemma NoRemovalYet(c: Config, s: State, g: Gid)
    requires SchedInv(c, s) && g in s.procs && Live(s.procs[g])
    ensures !s.pool.removal && !s.sched.stop.Stopped?
  {
    assert g in LiveSet(s.procs);
  }

  lemma WorkKeeps(c: Config, s: State, g: Gid, x: WorkMove, t: State)
    requires FullState(c, s) && Do(c, s, OfWorker(g, x)) == Some(t)
    ensures FullInv(c, t.pool, t.procs) && GrantInv(c, t.pool)
  {
    var turn := WorkTurn(c, s.pool, s.sched.cancelled, s.procs[g].kind, s.procs[g].pc, g, x).value;
    if s.procs[g].kind != Manual && s.procs[g].pc != SemRelease {
      NoRemovalYet(c, s, g);
    }
    WorkLock(c, s.pool, s.sched.cancelled, s.procs, g, x, turn);
    WorkTable(c, s.pool, s.sched.cancelled, s.procs, g, x, turn);
    WorkDirty(c, s.pool, s.sched.cancelled, s.procs, g, x, turn);
    WorkReady(c, s.pool, s.sched.cancelled, s.procs, g, x, turn);
    GrantWork(c, s.pool, s.sched.cancelled, s.procs[g].kind, s.procs[g].pc, g, x, turn);
  }

  lemma SchedShape(c: Config, s: State, x: SchedStep, t: State)
    requires DoSched(c, s, x) == Some(t)
    ensures t.pool == s.pool && (!x.LoopSpawn? ==> t.procs == s.procs)
  {
  }

  lemma SchedKeeps(c: Config, s: State, x: SchedStep, t: State)
    requires FullState(c, s) && Do(c, s, OfSched(x)) == Some(t)
    ensures FullInv(c, t.pool, t.procs) && GrantInv(c, t.pool)
  {
    SchedShape(c, s, x, t);
    if x.LoopSpawn? {
      var j := s.sched.loop.job;
      IdleTurn(c, s.pool, s.procs, TaskRun(j.serial), Some(StartPc(j.kind)));
    }
  }

  lemma ReportKeeps(c: Config, s: State, g: Gid, x: Report, t: State)
    requires FullInv(c, s.pool, s.procs) && Do(c, s, OfReport(g, x)) == Some(t)
    ensures t.pool == s.pool && FullInv(c, t.pool, t.procs)
  {
    var next := if x == ToWaitGroup then Some(Work(s.procs[g].kind, SemRelease)) else None;
    assert t.procs == Put(s.procs, g, next);
    IdleTurn(c, s.pool, s.procs, g, next);
  }

  lemma FullKeeps(c: Config, s: State, step: Step, t: State)
    requires FullState(c, s) && Do(c, s, step) == Some(t)
    ensures FullState(c, t)
  {
    StepKeeps(c, s, step, t);
    match step
    case OfArrival(x) => ArriveKeeps(c, s, x, t);
    case OfClient(g, x) => ClientKeeps(c, s, g, x, t);
    case OfWorker(g, x) => WorkKeeps(c, s, g, x, t);
    case OfTick(time) => TickKeeps(c, s, time);
    case OfReport(g, x) => ReportKeeps(c, s, g, x, t);
    case OfSched(x) => SchedKeeps(c, s, x, t);
  }

  lemma RunFullStart(c: Config, mode: Mode, states: seq<State>, steps: seq<Step>)
    requires Run(c, mode, states, steps)
    ensures FullState(c, states[0])
  {
    RunKeeps(c, mode, states, steps, 0);
  }

  lemma RunFullStep(c: Config, mode: Mode, states: seq<State>, steps: seq<Step>, i: nat)
    requires Run(c, mode, states, steps) && i < |steps| && FullState(c, states[i])
    ensures FullState(c, states[i + 1])
  {
    RunStep(c, mode, states, steps, i);
    FullKeeps(c, states[i], steps[i], states[i + 1]);
  }

  lemma RunFull(c: Config, mode: Mode, states: seq<State>, steps: seq<Step>, i: nat)
    requires Run(c, mode, states, steps) && i < |states|
    ensures FullState(c, states[i])
  {
    var inv := s => FullState(c, s);
    RunFullStart(c, mode, states, steps);
    forall k: nat ensures KeptAt(inv, states, k) {
      if k < |steps| && inv(states[k]) {
        RunFullStep(c, mode, states, steps, k);
      }
    }
    AlongRun(inv, states, i);
  }

  // ---------------------------------------------------------------- theorems

  /** The in-flight GetTestDatabase calls that have received `id` and wait for the mutex. */
  function Getters(s: State, id: nat): (r: set<Gid>) {
    set g | g in s.procs && s.procs[g] == GetWait(id)
  }

  lemma DistinctCount(q: seq<nat>, x: nat)
    requires Distinct(q)
    ensures multiset(q)[x] == if x in q then 1 else 0
  {
    if q != [] {
      var init := q[..|q| - 1];
      DistinctCount(init, x);
      assert q == init + [q[|q| - 1]];
      assert q[|q| - 1] !in init;
    }
  }

  lemma AgreementHere(c: Config, s: State, id: nat)
    requires FullState(c, s) && s.pool.lock.None? && id < |s.pool.dbs|
    ensures multiset(s.pool.ready)[id] + |Getters(s, id)| == if IsReady(s.pool, id) then 1 else 0
  {
    DistinctCount(s.pool.ready, id);
    forall g | g in Getters(s, id)
      ensures Carries(s.procs, g, id)
    {
    }
    if h: Gid :| Carries(s.procs, h, id) {
      assert !HoldsLock(s.procs[h]);
      assert Getters(s, id) == {h};
    } else {
      assert Getters(s, id) == {};
    }
  }

  /**
    Ready agreement. Whenever the mutex is free, an id of the table occurs in `ready` plus the
    in-flight getters exactly once if its database is ready and not at all otherwise; ids are
    positions and the table never outgrows the maximum.
    */
  lemma ReadyAgreement(c: Config, mode: Mode, states: seq<State>, steps: seq<Step>, i: nat, id: nat)
    requires Run(c, mode, states, steps) && i < |states|
    ensures |states[i].pool.dbs| <= c.max
    ensures id < |states[i].pool.dbs| ==> states[i].pool.dbs[id].id == id
    ensures states[i].pool.lock.None? && id < |states[i].pool.dbs| ==>
      multiset(states[i].pool.ready)[id] + |Getters(states[i], id)| == if IsReady(states[i].pool, id) then 1 else 0
    ensures forall x :: x in states[i].pool.ready ==> x < |states[i].pool.dbs|
  {
    RunFull(c, mode, states, steps, i);
    if states[i].pool.lock.None? && id < |states[i].pool.dbs| {
      AgreementHere(c, states[i], id);
    }
  }

  /**
    Both sanity checks of GetTestDatabase are unreachable before a removal: an id received from
    `ready` is inside the table and still ready when the mutex is taken, so the call is granted it.
    */
  lemma GetSucceeds(c: Config, mode: Mode, states: seq<State>, steps: seq<Step>, i: nat, g: Gid)
    requires Run(c, mode, states, steps) && i < |states|
    requires g in states[i].procs && states[i].procs[g].GetWait?
    ensures !states[i].pool.removal ==> IsReady(states[i].pool, states[i].procs[g].id)
    ensures states[i].procs[g].id < |states[i].pool.dbs| ==> IsReady(states[i].pool, states[i].procs[g].id)
    ensures !states[i].pool.removal && states[i].pool.lock.None? ==>
      && Do(c, states[i], OfClient(g, GetLock)).Some?
      && Do(c, states[i], OfClient(g, GetLock)).value.procs[g] == GetSend(states[i].procs[g].id)
  {
    RunFull(c, mode, states, steps, i);
    var s := states[i];
    assert Carries(s.procs, g, s.procs[g].id);
    assert InRange(s.pool, s.procs[g]);
  }

  /** A goroutine about to send to `ready` holds the mutex and never finds the channel full. */
  lemma ReadyHasRoom(c: Config, mode: Mode, states: seq<State>, steps: seq<Step>, i: nat, g: Gid)
    requires Run(c, mode, states, steps) && i < |states|
    requires g in states[i].procs
    requires states[i].procs[g].ReturnSend? || (states[i].procs[g].Work? && states[i].procs[g].pc.MoveSend?)
    ensures states[i].pool.lock == Some(g)
    ensures |states[i].pool.ready| < c.max
  {
    RunFull(c, mode, states, steps, i);
    var s := states[i];
    var id := ReadyToken(s.procs[g]).value;
    assert Carries(s.procs, g, id);
    assert InRange(s.pool, s.procs[g]);
    RoomFor(s.pool.ready, id, c.max);
  }

  /** The atomic form of a return has room too. */
  lemma ReturnHasRoom(c: Config, s: State, id: nat)
    requires FullState(c, s) && CanReturn(s.pool, id)
    ensures |s.pool.ready| < c.max
  {
    RoomFor(s.pool.ready, id, c.max);
  }

  /** In every run two grants of one id are separated by an unlock of it or by a newer generation. */
  lemma GrantsSeparated(c: Config, mode: Mode, states: seq<State>, steps: seq<Step>, n: nat, i: nat, j: nat)
    requires Run(c, mode, states, steps) && n < |states|
    requires i < j < |states[n].pool.history|
    requires states[n].pool.history[i].Granted? && states[n].pool.history[j].Granted?
    requires states[n].pool.history[i].id == states[n].pool.history[j].id
    ensures
      var h := states[n].pool.history;
      || h[i].generation < h[j].generation
      || (h[i].generation == h[j].generation && exists k :: i < k < j && h[k] == Unlocked(h[i].id))
  {
    RunFull(c, mode, states, steps, n);
    var h := states[n].pool.history;
    if h[i].generation >= h[j].generation {
      assert UnlockedBetween(h, i, j, h[i].id);
    }
  }

  /** What no turn undoes: events stay logged, generations and, until a removal, the table only grow. */
  ghost predicate Onward(p: Pool, p': Pool) {
    && p.history <= p'.history
    && p.now <= p'.now
    && (p.removal ==> p'.removal && |p'.dbs| <= |p.dbs|)
    && (!p'.removal ==> |p.dbs| <= |p'.dbs|)
    && (forall id: nat :: id < |p.dbs| && id < |p'.dbs| ==> p.dbs[id].generation <= p'.dbs[id].generation)
  }

  lemma ArriveOnward(c: Config, p: Pool, d: Sched, g: Gid, x: Arrival, turn: Turn)
    requires Arrive(c, p, d, g, x) == Some(turn)
    ensures Onward(p, turn.pool)
  {
  }

  lemma ClientOnward(c: Config, p: Pool, d: Sched, q: Proc, g: Gid, x: ClientMove, turn: Turn)
    requires ClientTurn(c, p, d, q, g, x) == Some(turn) && (q.Remover? ==> p.removal)
    ensures Onward(p, turn.pool)
  {
  }

  lemma WorkOnward(c: Config, p: Pool, cancelled: bool, kind: Kind, pc: Pc, g: Gid, x: WorkMove, turn: Turn)
    requires WorkTurn(c, p, cancelled, kind, pc, g, x) == Some(turn) && (pc.ExtendLock? ==> !p.removal)
    ensures Onward(p, turn.pool)
  {
    if TableMove(x) {
      TableOnward(c, p, cancelled, kind, pc, g, x, turn);
    } else {
      WorkLogs(c, p, cancelled, kind, pc, g, x, turn);
    }
  }

  lemma TableOnward(c: Config, p: Pool, cancelled: bool, kind: Kind, pc: Pc, g: Gid, x: WorkMove, turn: Turn)
    requires WorkTurn(c, p, cancelled, kind, pc, g, x) == Some(turn) && (pc.ExtendLock? ==> !p.removal) && TableMove(x)
    ensures Onward(p, turn.pool)
  {
  }

  lemma OnwardStep(c: Config, s: State, step: Step, t: State)
    requires SchedInv(c, s) && Do(c, s, step) == Some(t)
    ensures Onward(s.pool, t.pool)
  {
    match step
    case OfArrival(x) =>
      ArriveOnward(c, s.pool, s.sched, Client(s.nextClient), x, Arrive(c, s.pool, s.sched, Client(s.nextClient), x).value);
    case OfClient(g, x) => ClientOnward(c, s.pool, s.sched, s.procs[g], g, x, ClientTurn(c, s.pool, s.sched, s.procs[g], g, x).value);
    case OfWorker(g, x) =>
      var q := s.procs[g];
      if Live(q) {
        NoRemovalYet(c, s, g);
      }
      WorkOnward(c, s.pool, s.sched.cancelled, q.kind, q.pc, g, x, WorkTurn(c, s.pool, s.sched.cancelled, q.kind, q.pc, g, x).value);
    case OfSched(x) => SchedShape(c, s, x, t);
    case _ =>
  }

  /** Along every run a tracked database's generation never decreases and the history is never rewritten. */
  lemma {:induction false} NeverBackward(c: Config, mode: Mode, states: seq<State>, steps: seq<Step>, i: nat, j: nat)
    requires Run(c, mode, states, steps) && i <= j < |states|
    ensures Onward(states[i].pool, states[j].pool)
    decreases j
  {
    if i < j {
      NeverBackward(c, mode, states, steps, i, j - 1);
      RunKeeps(c, mode, states, steps, j - 1);
      RunStep(c, mode, states, steps, j - 1);
      OnwardStep(c, states[j - 1], steps[j - 1], states[j]);
    }
  }
}
