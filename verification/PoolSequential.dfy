/**
  The pool's operations as they run when nothing interferes: what each leaves behind, and that
  this is what the concurrent machine arrives at by the operation's own steps.
  */
module PoolSequential {
  import opened Queues
  import opened PoolMachine
  import opened PoolFull
  import opened PoolRefine

  // ---------------------------------------------------------------- machine states with one goroutine

  function One(g: Gid, next: Option<Proc>): (r: map<Gid, Proc>) {
    if next.Some? then map[g := next.value] else map[]
  }

  /** A machine state in which at most the goroutine `g` is in flight. */
  function Solo(p: Pool, d: Sched, n: nat, g: Gid, next: Option<Proc>): (s: State) {
    State(p, d, One(g, next), n)
  }

  function Sent(d: Sched, task: Option<JobKind>): (r: Sched) {
    if task.Some? then PushTask(d, task.value) else d
  }

  lemma SoloArrive(c: Config, p: Pool, d: Sched, n: nat, x: Arrival, turn: Turn)
    requires Arrive(c, p, d, Client(n), x) == Some(turn) && turn.task.None?
    ensures Do(c, Solo(p, d, n, Client(n), None), OfArrival(x)) == Some(Solo(turn.pool, d, n + 1, Client(n), turn.next))
  {
    assert Put(map[], Client(n), turn.next) == One(Client(n), turn.next);
  }

  lemma SoloClient(c: Config, p: Pool, d: Sched, n: nat, g: Gid, q: Proc, x: ClientMove, turn: Turn)
    requires ClientTurn(c, p, d, q, g, x) == Some(turn) && !q.Work?
    ensures Do(c, Solo(p, d, n, g, Some(q)), OfClient(g, x)) == Some(Solo(turn.pool, Sent(d, turn.task), n, g, turn.next))
  {
    assert Put(map[g := q], g, turn.next) == One(g, turn.next);
  }

  lemma SoloWork(c: Config, p: Pool, d: Sched, n: nat, g: Gid, kind: Kind, pc: Pc, x: WorkMove, turn: Turn)
    requires WorkTurn(c, p, d.cancelled, kind, pc, g, x) == Some(turn) && turn.task.None?
    ensures Do(c, Solo(p, d, n, g, Some(Work(kind, pc))), OfWorker(g, x)) == Some(Solo(turn.pool, d, n, g, turn.next))
  {
    assert Put(map[g := Work(kind, pc)], g, turn.next) == One(g, turn.next);
  }

  lemma ExecTwo(c: Config, s: State, a: Step, t: State, b: Step, u: State)
    requires Do(c, s, a) == Some(t) && Do(c, t, b) == Some(u)
    ensures Exec(c, s, [a, b]) == Some(u)
  {
    ExecCons(c, t, b, [], u);
    ExecCons(c, s, a, [b], t);
    assert [b] + [] == [b] && [a] + [b] == [a, b];
  }

  // ---------------------------------------------------------------- at rest

  /** Nothing in flight: the mutex and all slots are free, table and `ready` agree, queued ids are distinct and dirty. */
  ghost predicate AtRest(c: Config, p: Pool) {
    && p.lock.None? && p.slots == 0
    && FullInv(c, p, map[])
    && Distinct(p.dirty)
    && forall id: nat :: id in p.dirty ==> CanReturn(p, id)
  }

  // ---------------------------------------------------------------- GetTestDatabase

  function AfterGet(c: Config, p: Pool): (r: Pool)
    requires p.ready != [] && p.ready[0] < |p.dbs|
  {
    var id := p.ready[0];
    p.(ready := p.ready[1..],
       dbs := p.dbs[id := Grant(p.dbs[id], p.now + c.lifetime)],
       dirty := p.dirty + [id],
       history := p.history + [Granted(id, p.now, p.dbs[id].generation)])
  }

  /** Receive, lock and grant, send to `dirty`, decide on a task, and send it if there is one. */
  function GetSteps(n: nat, asks: bool): (r: seq<Step>) {
    [OfArrival(GetReceive), OfClient(Client(n), GetLock)] + GetEnd(n, asks)
  }

  function GetEnd(n: nat, asks: bool): (r: seq<Step>) {
    [OfClient(Client(n), GetSendDirty)] +
    if asks then [OfClient(Client(n), GetDecide), OfClient(Client(n), GetPushTask)] else [OfClient(Client(n), GetDecide)]
  }

  lemma GetEndIsExec(c: Config, p: Pool, d: Sched, n: nat, id: nat)
    requires p.lock == Some(Client(n)) && |p.dirty| < c.max && !p.closed && |d.tasks| <= c.max
    ensures
      var q := p.(dirty := p.dirty + [id]);
      var task := TaskAfterGrant(c, q);
      Exec(c, Solo(p, d, n + 1, Client(n), Some(GetSend(id))), GetEnd(n, task.Some?))
      == Some(Solo(q.(lock := None), Sent(d, task), n + 1, Client(n), None))
  {
    var g, q := Client(n), p.(dirty := p.dirty + [id]);
    var task := TaskAfterGrant(c, q);
    var s := Solo(p, d, n + 1, g, Some(GetSend(id)));
    var t := Solo(q, d, n + 1, g, Some(GetPush(id)));
    var v := Solo(q.(lock := None), Sent(d, task), n + 1, g, None);
    SoloClient(c, p, d, n + 1, g, GetSend(id), GetSendDirty, Turn(q, Some(GetPush(id)), None));
    if task.Some? {
      var u := Solo(q, d, n + 1, g, Some(GetTask(id, task.value)));
      SoloClient(c, q, d, n + 1, g, GetPush(id), GetDecide, Turn(q, Some(GetTask(id, task.value)), None));
      SoloClient(c, q, d, n + 1, g, GetTask(id, task.value), GetPushTask, Turn(q.(lock := None), None, task));
      ExecTwo(c, t, OfClient(g, GetDecide), u, OfClient(g, GetPushTask), v);
      ExecCons(c, s, OfClient(g, GetSendDirty), [OfClient(g, GetDecide), OfClient(g, GetPushTask)], t);
    } else {
      SoloClient(c, q, d, n + 1, g, GetPush(id), GetDecide, Turn(q.(lock := None), None, None));
      ExecTwo(c, s, OfClient(g, GetSendDirty), t, OfClient(g, GetDecide), v);
      assert [OfClient(g, GetSendDirty)] + [OfClient(g, GetDecide)] == [OfClient(g, GetSendDirty), OfClient(g, GetDecide)];
    }
  }

  lemma GetIsExec(c: Config, p: Pool, d: Sched, n: nat)
    requires AtRest(c, p) && p.ready != [] && |d.tasks| <= c.max
    ensures p.ready[0] < |p.dbs| && IsReady(p, p.ready[0]) && |p.dirty| < c.max && !p.closed
    ensures var task := TaskAfterGrant(c, AfterGet(c, p));
      Exec(c, Solo(p, d, n, Client(n), None), GetSteps(n, task.Some?))
      == Some(Solo(AfterGet(c, p), Sent(d, task), n + 1, Client(n), None))
  {
    var g, id := Client(n), p.ready[0];
    assert id in p.ready;
    assert id !in p.dirty;
    RoomFor(p.dirty, id, c.max);
    var p1 := p.(ready := p.ready[1..]);
    var p2 := p1.(dbs := AfterGet(c, p).dbs, lock := Some(g), history := AfterGet(c, p).history);
    var task := TaskAfterGrant(c, AfterGet(c, p));
    var s0 := Solo(p, d, n, g, None);
    var s1 := Solo(p1, d, n + 1, g, Some(GetWait(id)));
    var s2 := Solo(p2, d, n + 1, g, Some(GetSend(id)));
    SoloArrive(c, p, d, n, GetReceive, Turn(p1, Some(GetWait(id)), None));
    SoloClient(c, p1, d, n + 1, g, GetWait(id), GetLock, Turn(p2, Some(GetSend(id)), None));
    ExecTwo(c, s0, OfArrival(GetReceive), s1, OfClient(g, GetLock), s2);
    GetEndIsExec(c, p2, d, n, id);
    ExecConcat(c, s0, [OfArrival(GetReceive), OfClient(g, GetLock)], GetEnd(n, task.Some?), s2);
  }

  lemma GetRests(c: Config, p: Pool)
    requires AtRest(c, p) && p.ready != [] && p.ready[0] < |p.dbs| && IsReady(p, p.ready[0])
    ensures AtRest(c, AfterGet(c, p))
  {
    var id, q := p.ready[0], AfterGet(c, p);
    assert id in p.ready && id !in p.dirty;
    forall x: nat
      ensures IsReady(q, x) <==> IsReady(p, x) && x != id
      ensures x in q.ready <==> x in p.ready && x != id
    {
      if x in p.ready && x != id {
        var k :| 0 <= k < |p.ready| && p.ready[k] == x;
        assert q.ready[k - 1] == x;
      }
    }
    assert forall h, x: nat :: !Carries(map[], h, x);
    forall x: nat | IsReady(q, x)
      ensures x in q.ready
    {
      assert IsReady(p, x);
    }
  }

  // ---------------------------------------------------------------- ReturnTestDatabase

  function AfterReturn(p: Pool, id: nat): (r: Pool)
    requires id < |p.dbs|
  {
    Unlock(p, id).(dirty := Without(p.dirty, id), ready := p.ready + [id])
  }

  lemma ReturnIsExec(c: Config, p: Pool, d: Sched, n: nat, id: nat)
    requires AtRest(c, p) && CanReturn(p, id)
    ensures |p.ready| < c.max
    ensures Do(c, Solo(p, d, n, Client(n), None), OfArrival(ReturnAtomic(id))) == Some(Solo(AfterReturn(p, id), d, n + 1, Client(n), None))
  {
    RoomFor(p.ready, id, c.max);
    SoloArrive(c, p, d, n, ReturnAtomic(id), Turn(AfterReturn(p, id), None, None));
  }

  lemma QueueShrinks(c: Config, p: Pool, id: nat, q: Pool)
    requires AtRest(c, p) && q == p.(dirty := Without(p.dirty, id))
    ensures AtRest(c, q)
  {
    WithoutDistinct(p.dirty, id);
    BelowWithoutRemoval(p, id);
    assert forall x: nat :: IsReady(q, x) <==> IsReady(p, x);
    assert forall h, x: nat :: !Carries(map[], h, x);
    forall x: nat | IsReady(q, x)
      ensures x in q.ready
    {
      assert IsReady(p, x);
    }
  }

  lemma BelowWithoutRemoval(p: Pool, id: nat)
    requires DirtyInv(p, map[])
    ensures !p.removal ==> AllBelow(Without(p.dirty, id), |p.dbs|)
  {
    if !p.removal {
      BelowWithout(p.dirty, id, |p.dbs|);
    }
  }

  /** An id outside both queues becomes ready and is queued. */
  lemma ReadyRests(c: Config, p: Pool, id: nat, q: Pool, d: TestDb)
    requires AtRest(c, p) && id < |p.dbs| && !IsReady(p, id) && id !in p.dirty
    requires d.state == Ready && d.id == id
    requires q.dbs == p.dbs[id := d] && q.ready == p.ready + [id] && q.dirty == p.dirty
    requires q.cap == p.cap && q.closed == p.closed && q.removal == p.removal && q.slots == p.slots && q.lock == p.lock
    ensures AtRest(c, q)
  {
    assert forall x: nat :: IsReady(q, x) <==> IsReady(p, x) || x == id;
    assert forall h, x: nat :: !Carries(map[], h, x);
    forall x: nat | IsReady(q, x)
      ensures x in q.ready
    {
      if x != id {
        assert IsReady(p, x);
      }
    }
    forall x: nat | x in q.dirty
      ensures CanReturn(q, x)
    {
      assert CanReturn(p, x);
    }
  }

  lemma ReturnRests(c: Config, p: Pool, id: nat)
    requires AtRest(c, p) && CanReturn(p, id)
    ensures AtRest(c, AfterReturn(p, id))
  {
    var q := p.(dirty := Without(p.dirty, id));
    QueueShrinks(c, p, id, q);
    ReadyRests(c, q, id, AfterReturn(p, id), p.dbs[id].(state := Ready));
  }

  // ---------------------------------------------------------------- recreateDatabaseGracefully

  /** The history after `k` attempts that found the database still in use. */
  function Attempts(h: seq<Event>, id: nat, k: nat): (r: seq<Event>) {
    if k == 0 then h else Attempts(h, id, k - 1) + [CallStart(id), CallFailed(id)]
  }

  /** After `retries` attempts that found it in use, the call succeeds or fails for good. */
  function AfterRecreate(p: Pool, id: nat, retries: nat, created: bool): (r: Pool)
    requires id < |p.dbs|
  {
    var h, d := Attempts(p.history, id, retries), p.dbs[id];
    if created then
      p.(dbs := p.dbs[id := d.(generation := d.generation + 1, state := Ready)],
         ready := p.ready + [id],
         history := h + [CallStart(id), CallOk(id, |h|), Regenerated(id)])
    else
      p.(history := h + [CallStart(id), CallFailed(id)], abandoned := p.abandoned + {id})
  }

  function EndOf(kind: Kind): (r: Option<Proc>) {
    if kind == Manual then None else Some(Work(kind, Done))
  }

  function TrySteps(g: Gid, k: nat): (r: seq<Step>) {
    if k == 0 then [] else TrySteps(g, k - 1) + [OfWorker(g, DoRecLoop), OfWorker(g, DoRecCall(InUse))]
  }

  /** One try that finds the database in use. */
  lemma OneTry(c: Config, p: Pool, d: Sched, n: nat, g: Gid, kind: Kind, id: nat)
    requires !d.cancelled
    ensures Exec(c, Solo(p, d, n, g, Some(Work(kind, RecLoop(id)))), [OfWorker(g, DoRecLoop), OfWorker(g, DoRecCall(InUse))])
         == Some(Solo(p.(history := p.history + [CallStart(id), CallFailed(id)]), d, n, g, Some(Work(kind, RecLoop(id)))))
  {
    var h := p.history;
    var q1, q2 := p.(history := h + [CallStart(id)]), p.(history := h + [CallStart(id), CallFailed(id)]);
    assert h + [CallStart(id)] + [CallFailed(id)] == q2.history;
    SoloWork(c, p, d, n, g, kind, RecLoop(id), DoRecLoop, Turn(q1, Some(Work(kind, RecCall(id, |h|))), None));
    SoloWork(c, q1, d, n, g, kind, RecCall(id, |h|), DoRecCall(InUse), Turn(q2, Some(Work(kind, RecLoop(id))), None));
    ExecTwo(c, Solo(p, d, n, g, Some(Work(kind, RecLoop(id)))), OfWorker(g, DoRecLoop),
            Solo(q1, d, n, g, Some(Work(kind, RecCall(id, |h|)))), OfWorker(g, DoRecCall(InUse)),
            Solo(q2, d, n, g, Some(Work(kind, RecLoop(id)))));
  }

  lemma {:induction false} TriesExec(c: Config, p: Pool, d: Sched, n: nat, g: Gid, kind: Kind, id: nat, k: nat)
    requires !d.cancelled
    ensures Exec(c, Solo(p, d, n, g, Some(Work(kind, RecLoop(id)))), TrySteps(g, k))
         == Some(Solo(p.(history := Attempts(p.history, id, k)), d, n, g, Some(Work(kind, RecLoop(id)))))
    decreases k
  {
    if k > 0 {
      TriesExec(c, p, d, n, g, kind, id, k - 1);
      var q := p.(history := Attempts(p.history, id, k - 1));
      OneTry(c, q, d, n, g, kind, id);
      ExecConcat(c, Solo(p, d, n, g, Some(Work(kind, RecLoop(id)))), TrySteps(g, k - 1),
                 [OfWorker(g, DoRecLoop), OfWorker(g, DoRecCall(InUse))], Solo(q, d, n, g, Some(Work(kind, RecLoop(id)))));
    }
  }

  /** Claiming the id: context check, state check under the mutex, a recreating slot. */
  lemma ClaimExec(c: Config, p: Pool, d: Sched, n: nat, g: Gid, kind: Kind, id: nat)
    requires AtRest(c, p) && CanReturn(p, id) && !d.cancelled
    ensures Exec(c, Solo(p, d, n, g, Some(Work(kind, RecCheck(id)))),
                 [OfWorker(g, DoRecCheck)] + [OfWorker(g, DoRecLock(false)), OfWorker(g, DoRecSlot)])
         == Some(Solo(p.(slots := 1), d, n, g, Some(Work(kind, RecLoop(id)))))
  {
    assert p.dbs[id := p.dbs[id].(state := Dirty)] == p.dbs;
    SoloWork(c, p, d, n, g, kind, RecCheck(id), DoRecCheck, Turn(p, Some(Work(kind, RecLock(id))), None));
    SoloWork(c, p, d, n, g, kind, RecLock(id), DoRecLock(false), Turn(p, Some(Work(kind, RecSlot(id))), None));
    SoloWork(c, p, d, n, g, kind, RecSlot(id), DoRecSlot, Turn(p.(slots := 1), Some(Work(kind, RecLoop(id))), None));
    ExecTwo(c, Solo(p, d, n, g, Some(Work(kind, RecLock(id)))), OfWorker(g, DoRecLock(false)),
            Solo(p, d, n, g, Some(Work(kind, RecSlot(id)))), OfWorker(g, DoRecSlot),
            Solo(p.(slots := 1), d, n, g, Some(Work(kind, RecLoop(id)))));
    ExecCons(c, Solo(p, d, n, g, Some(Work(kind, RecCheck(id)))), OfWorker(g, DoRecCheck),
             [OfWorker(g, DoRecLock(false)), OfWorker(g, DoRecSlot)], Solo(p, d, n, g, Some(Work(kind, RecLock(id)))));
  }

  function LastSteps(g: Gid, created: bool): (r: seq<Step>) {
    if created then
      [OfWorker(g, DoRecLoop), OfWorker(g, DoRecCall(Created))] + ([OfWorker(g, DoMoveLock), OfWorker(g, DoMoveSend)] + [OfWorker(g, DoSlotRelease)])
    else
      [OfWorker(g, DoRecLoop), OfWorker(g, DoRecCall(Failed))] + [OfWorker(g, DoSlotRelease)]
  }

  lemma FailExec(c: Config, p: Pool, d: Sched, n: nat, g: Gid, kind: Kind, id: nat)
    requires !d.cancelled && p.slots == 1 && id < |p.dbs|
    ensures Exec(c, Solo(p, d, n, g, Some(Work(kind, RecLoop(id)))), LastSteps(g, false))
         == Some(Solo(AfterRecreate(p, id, 0, false).(slots := 0), d, n, g, EndOf(kind)))
  {
    var h := p.history;
    var q1 := p.(history := h + [CallStart(id)]);
    var q2 := p.(history := h + [CallStart(id), CallFailed(id)], abandoned := p.abandoned + {id});
    assert h + [CallStart(id)] + [CallFailed(id)] == q2.history;
    SoloWork(c, p, d, n, g, kind, RecLoop(id), DoRecLoop, Turn(q1, Some(Work(kind, RecCall(id, |h|))), None));
    SoloWork(c, q1, d, n, g, kind, RecCall(id, |h|), DoRecCall(Failed), Turn(q2, Some(Work(kind, SlotRelease)), None));
    SoloWork(c, q2, d, n, g, kind, SlotRelease, DoSlotRelease, Turn(q2.(slots := 0), EndOf(kind), None));
    var s := Solo(p, d, n, g, Some(Work(kind, RecLoop(id))));
    var t := Solo(q2, d, n, g, Some(Work(kind, SlotRelease)));
    ExecTwo(c, s, OfWorker(g, DoRecLoop), Solo(q1, d, n, g, Some(Work(kind, RecCall(id, |h|)))), OfWorker(g, DoRecCall(Failed)), t);
    ExecConcat(c, s, [OfWorker(g, DoRecLoop), OfWorker(g, DoRecCall(Failed))], [OfWorker(g, DoSlotRelease)], t);
    ExecCons(c, t, OfWorker(g, DoSlotRelease), [], Solo(q2.(slots := 0), d, n, g, EndOf(kind)));
    assert [OfWorker(g, DoSlotRelease)] + [] == [OfWorker(g, DoSlotRelease)];
  }

  lemma ReleaseDo(c: Config, p: Pool, d: Sched, n: nat, g: Gid, kind: Kind)
    requires p.slots == 1
    ensures Do(c, Solo(p, d, n, g, Some(Work(kind, SlotRelease))), OfWorker(g, DoSlotRelease))
         == Some(Solo(p.(slots := 0), d, n, g, EndOf(kind)))
  {
    SoloWork(c, p, d, n, g, kind, SlotRelease, DoSlotRelease, Turn(p.(slots := 0), EndOf(kind), None));
  }

  lemma PublishExec(c: Config, p: Pool, d: Sched, n: nat, g: Gid, kind: Kind, id: nat)
    requires !d.cancelled && p.slots == 1 && p.lock.None? && id < |p.dbs| && !IsReady(p, id) && p.dbs[id].id == id && |p.ready| < c.max
    ensures
      var e := p.dbs[id];
      Exec(c, Solo(p, d, n, g, Some(Work(kind, MoveLock(id)))), [OfWorker(g, DoMoveLock), OfWorker(g, DoMoveSend)] + [OfWorker(g, DoSlotRelease)])
      == Some(Solo(p.(dbs := p.dbs[id := e.(generation := e.generation + 1, state := Ready)], ready := p.ready + [id],
                      history := p.history + [Regenerated(id)], slots := 0), d, n, g, EndOf(kind)))
  {
    var e := p.dbs[id];
    var q1 := p.(dbs := p.dbs[id := e.(generation := e.generation + 1, state := Ready)], history := p.history + [Regenerated(id)], lock := Some(g));
    var q2 := q1.(ready := p.ready + [id], lock := None);
    SoloWork(c, p, d, n, g, kind, MoveLock(id), DoMoveLock, Turn(q1, Some(Work(kind, MoveSend(id))), None));
    SoloWork(c, q1, d, n, g, kind, MoveSend(id), DoMoveSend, Turn(q2, Some(Work(kind, SlotRelease)), None));
    var s := Solo(p, d, n, g, Some(Work(kind, MoveLock(id))));
    var t := Solo(q2, d, n, g, Some(Work(kind, SlotRelease)));
    ExecTwo(c, s, OfWorker(g, DoMoveLock), Solo(q1, d, n, g, Some(Work(kind, MoveSend(id)))), OfWorker(g, DoMoveSend), t);
    ReleaseDo(c, q2, d, n, g, kind);
    ExecSnoc(c, s, [OfWorker(g, DoMoveLock), OfWorker(g, DoMoveSend)], t, OfWorker(g, DoSlotRelease),
             Solo(q2.(slots := 0), d, n, g, EndOf(kind)));
  }

  /** The call that succeeds. */
  lemma CallExec(c: Config, p: Pool, d: Sched, n: nat, g: Gid, kind: Kind, id: nat)
    requires !d.cancelled
    ensures Exec(c, Solo(p, d, n, g, Some(Work(kind, RecLoop(id)))), [OfWorker(g, DoRecLoop), OfWorker(g, DoRecCall(Created))])
         == Some(Solo(p.(history := p.history + [CallStart(id), CallOk(id, |p.history|)]), d, n, g, Some(Work(kind, MoveLock(id)))))
  {
    var h := p.history;
    var q1 := p.(history := h + [CallStart(id)]);
    var q2 := p.(history := h + [CallStart(id), CallOk(id, |h|)]);
    assert h + [CallStart(id)] + [CallOk(id, |h|)] == q2.history;
    SoloWork(c, p, d, n, g, kind, RecLoop(id), DoRecLoop, Turn(q1, Some(Work(kind, RecCall(id, |h|))), None));
    SoloWork(c, q1, d, n, g, kind, RecCall(id, |h|), DoRecCall(Created), Turn(q2, Some(Work(kind, MoveLock(id))), None));
    var s := Solo(p, d, n, g, Some(Work(kind, RecLoop(id))));
    var t := Solo(q2, d, n, g, Some(Work(kind, MoveLock(id))));
    ExecTwo(c, s, OfWorker(g, DoRecLoop), Solo(q1, d, n, g, Some(Work(kind, RecCall(id, |h|)))), OfWorker(g, DoRecCall(Created)), t);
  }

  lemma CreatedPool(p: Pool, id: nat)
    requires id < |p.dbs|
    ensures
      var e, h := p.dbs[id], p.history;
      AfterRecreate(p, id, 0, true).(slots := 0)
      == p.(dbs := p.dbs[id := e.(generation := e.generation + 1, state := Ready)], ready := p.ready + [id],
            history := h + [CallStart(id), CallOk(id, |h|)] + [Regenerated(id)], slots := 0)
  {
    var h := p.history;
    assert h + [CallStart(id), CallOk(id, |h|)] + [Regenerated(id)] == h + [CallStart(id), CallOk(id, |h|), Regenerated(id)];
  }

  lemma ExecJoin(c: Config, s: State, a: seq<Step>, t: State, b: seq<Step>, u: State)
    requires Exec(c, s, a) == Some(t) && Exec(c, t, b) == Some(u)
    ensures Exec(c, s, a + b) == Some(u)
  {
    ExecConcat(c, s, a, b, t);
  }

  function Called(p: Pool, id: nat): (r: Pool) {
    p.(history := p.history + [CallStart(id), CallOk(id, |p.history|)])
  }

  lemma CalledExec(c: Config, p: Pool, d: Sched, n: nat, g: Gid, kind: Kind, id: nat)
    requires !d.cancelled && p.slots == 1 && p.lock.None? && id < |p.dbs| && !IsReady(p, id) && p.dbs[id].id == id && |p.ready| < c.max
    ensures Exec(c, Solo(Called(p, id), d, n, g, Some(Work(kind, MoveLock(id)))),
                 [OfWorker(g, DoMoveLock), OfWorker(g, DoMoveSend)] + [OfWorker(g, DoSlotRelease)])
         == Some(Solo(AfterRecreate(p, id, 0, true).(slots := 0), d, n, g, EndOf(kind)))
  {
    PublishExec(c, Called(p, id), d, n, g, kind, id);
    CreatedPool(p, id);
  }

  lemma CreateExec(c: Config, p: Pool, d: Sched, n: nat, g: Gid, kind: Kind, id: nat)
    requires !d.cancelled && p.slots == 1 && p.lock.None? && id < |p.dbs| && !IsReady(p, id) && p.dbs[id].id == id && |p.ready| < c.max
    ensures Exec(c, Solo(p, d, n, g, Some(Work(kind, RecLoop(id)))), LastSteps(g, true))
         == Some(Solo(AfterRecreate(p, id, 0, true).(slots := 0), d, n, g, EndOf(kind)))
  {
    var q := Called(p, id);
    CallExec(c, p, d, n, g, kind, id);
    CalledExec(c, p, d, n, g, kind, id);
    ExecJoin(c, Solo(p, d, n, g, Some(Work(kind, RecLoop(id)))), [OfWorker(g, DoRecLoop), OfWorker(g, DoRecCall(Created))],
             Solo(q, d, n, g, Some(Work(kind, MoveLock(id)))),
             [OfWorker(g, DoMoveLock), OfWorker(g, DoMoveSend)] + [OfWorker(g, DoSlotRelease)],
             Solo(AfterRecreate(p, id, 0, true).(slots := 0), d, n, g, EndOf(kind)));
  }

  function RecreateWork(g: Gid, retries: nat, created: bool): (r: seq<Step>) {
    ([OfWorker(g, DoRecCheck)] + [OfWorker(g, DoRecLock(false)), OfWorker(g, DoRecSlot)]) + (TrySteps(g, retries) + LastSteps(g, created))
  }

  lemma AttemptsThen(p: Pool, id: nat, retries: nat, created: bool)
    requires id < |p.dbs| && p.slots == 0
    ensures AfterRecreate(p.(slots := 1, history := Attempts(p.history, id, retries)), id, 0, created).(slots := 0)
         == AfterRecreate(p, id, retries, created)
  {
  }

  /** What recreateDatabaseGracefully leaves behind is what its steps arrive at. */
  lemma RecreateIsExec(c: Config, p: Pool, d: Sched, n: nat, g: Gid, kind: Kind, id: nat, retries: nat, created: bool)
    requires AtRest(c, p) && CanReturn(p, id) && !d.cancelled
    ensures |p.ready| < c.max
    ensures Exec(c, Solo(p, d, n, g, Some(Work(kind, RecCheck(id)))), RecreateWork(g, retries, created))
         == Some(Solo(AfterRecreate(p, id, retries, created), d, n, g, EndOf(kind)))
  {
    RoomFor(p.ready, id, c.max);
    var claim := [OfWorker(g, DoRecCheck)] + [OfWorker(g, DoRecLock(false)), OfWorker(g, DoRecSlot)];
    var s := Solo(p, d, n, g, Some(Work(kind, RecCheck(id))));
    var p1 := p.(slots := 1);
    var p2 := p1.(history := Attempts(p.history, id, retries));
    var t := Solo(p1, d, n, g, Some(Work(kind, RecLoop(id))));
    var u := Solo(p2, d, n, g, Some(Work(kind, RecLoop(id))));
    ClaimExec(c, p, d, n, g, kind, id);
    ExecConcat(c, s, claim, TrySteps(g, retries) + LastSteps(g, created), t);
    TriesExec(c, p1, d, n, g, kind, id, retries);
    ExecConcat(c, t, TrySteps(g, retries), LastSteps(g, created), u);
    if created {
      CreateExec(c, p2, d, n, g, kind, id);
    } else {
      FailExec(c, p2, d, n, g, kind, id);
    }
    AttemptsThen(p, id, retries, created);
  }

  lemma FailRests(c: Config, p: Pool, q: Pool)
    requires AtRest(c, p)
    requires q == p.(history := q.history, abandoned := q.abandoned, now := q.now)
    ensures AtRest(c, q)
  {
    assert forall x: nat :: IsReady(q, x) <==> IsReady(p, x);
    assert forall h, x: nat :: !Carries(map[], h, x);
    forall x: nat | IsReady(q, x)
      ensures x in q.ready
    {
      assert IsReady(p, x);
    }
    forall x: nat | x in q.dirty
      ensures CanReturn(q, x)
    {
      assert CanReturn(p, x);
    }
  }

  lemma RecreateRests(c: Config, p: Pool, id: nat, retries: nat, created: bool)
    requires AtRest(c, p) && CanReturn(p, id) && id !in p.dirty
    ensures AtRest(c, AfterRecreate(p, id, retries, created))
  {
    var q := AfterRecreate(p, id, retries, created);
    if created {
      ReadyRests(c, p, id, q, q.dbs[id]);
    } else {
      FailRests(c, p, q);
    }
  }

  /** With a cancelled context nothing is recreated; the id is given up. */
  lemma CancelledIsExec(c: Config, p: Pool, d: Sched, n: nat, g: Gid, kind: Kind, id: nat)
    requires d.cancelled
    ensures Exec(c, Solo(p, d, n, g, Some(Work(kind, RecCheck(id)))), [OfWorker(g, DoRecCheck)])
         == Some(Solo(Abandon(p, id), d, n, g, EndOf(kind)))
  {
    SoloWork(c, p, d, n, g, kind, RecCheck(id), DoRecCheck, Turn(Abandon(p, id), EndOf(kind), None));
    ExecCons(c, Solo(p, d, n, g, Some(Work(kind, RecCheck(id)))), OfWorker(g, DoRecCheck), [],
             Solo(Abandon(p, id), d, n, g, EndOf(kind)));
    assert [OfWorker(g, DoRecCheck)] + [] == [OfWorker(g, DoRecCheck)];
  }

  /** A database that is not dirty is left alone. */
  lemma SkippedIsExec(c: Config, p: Pool, d: Sched, n: nat, g: Gid, kind: Kind, id: nat)
    requires !d.cancelled && p.lock.None? && id < |p.dbs| && p.dbs[id].state != Dirty
    ensures Exec(c, Solo(p, d, n, g, Some(Work(kind, RecCheck(id)))), [OfWorker(g, DoRecCheck), OfWorker(g, DoRecLock(false))])
         == Some(Solo(p, d, n, g, EndOf(kind)))
  {
    SoloWork(c, p, d, n, g, kind, RecCheck(id), DoRecCheck, Turn(p, Some(Work(kind, RecLock(id))), None));
    SoloWork(c, p, d, n, g, kind, RecLock(id), DoRecLock(false), Turn(p, EndOf(kind), None));
    ExecTwo(c, Solo(p, d, n, g, Some(Work(kind, RecCheck(id)))), OfWorker(g, DoRecCheck),
            Solo(p, d, n, g, Some(Work(kind, RecLock(id)))), OfWorker(g, DoRecLock(false)), Solo(p, d, n, g, EndOf(kind)));
  }

  // ---------------------------------------------------------------- extend

  function Appended(p: Pool): (r: Pool) {
    p.(dbs := p.dbs + [TestDb(|p.dbs|, Dirty, 0, 0)])
  }

  lemma AppendRests(c: Config, p: Pool)
    requires AtRest(c, p) && |p.dbs| < p.cap && !p.removal
    ensures AtRest(c, Appended(p)) && CanReturn(Appended(p), |p.dbs|) && |p.dbs| !in p.dirty
  {
    var q := Appended(p);
    assert forall x: nat :: IsReady(q, x) <==> IsReady(p, x);
    assert forall h, x: nat :: !Carries(map[], h, x);
    forall x: nat | IsReady(q, x)
      ensures x in q.ready
    {
      assert IsReady(p, x);
    }
    forall x: nat | x in q.dirty
      ensures CanReturn(q, x)
    {
      assert CanReturn(p, x);
    }
  }

  /** extend appends a dirty database; what is left is the work of recreating it. */
  lemma AppendIsExec(c: Config, p: Pool, d: Sched, n: nat, g: Gid, work: seq<Step>)
    requires p.lock.None? && |p.dbs| < p.cap
    ensures Exec(c, Solo(p, d, n, g, Some(Work(Extend, ExtendLock))), [OfWorker(g, DoExtend)] + work)
         == Exec(c, Solo(Appended(p), d, n, g, Some(Work(Extend, RecCheck(|p.dbs|)))), work)
  {
    SoloWork(c, p, d, n, g, Extend, ExtendLock, DoExtend, Turn(Appended(p), Some(Work(Extend, RecCheck(|p.dbs|))), None));
    ExecCons(c, Solo(p, d, n, g, Some(Work(Extend, ExtendLock))), OfWorker(g, DoExtend), work,
             Solo(Appended(p), d, n, g, Some(Work(Extend, RecCheck(|p.dbs|)))));
  }

  lemma FullIsExec(c: Config, p: Pool, d: Sched, n: nat, g: Gid)
    requires p.lock.None? && |p.dbs| == p.cap
    ensures Exec(c, Solo(p, d, n, g, Some(Work(Extend, ExtendLock))), [OfWorker(g, DoExtend)]) == Some(Solo(p, d, n, g, EndOf(Extend)))
  {
    SoloWork(c, p, d, n, g, Extend, ExtendLock, DoExtend, Turn(p, EndOf(Extend), None));
    ExecCons(c, Solo(p, d, n, g, Some(Work(Extend, ExtendLock))), OfWorker(g, DoExtend), [], Solo(p, d, n, g, EndOf(Extend)));
    assert [OfWorker(g, DoExtend)] + [] == [OfWorker(g, DoExtend)];
  }

  /** extend appends a dirty database and recreates it; that is what its steps arrive at. */
  lemma ExtendIsExec(c: Config, p: Pool, d: Sched, n: nat, g: Gid, retries: nat, created: bool)
    requires AtRest(c, p) && |p.dbs| < p.cap && !p.removal && !d.cancelled
    ensures Exec(c, Solo(p, d, n, g, Some(Work(Extend, ExtendLock))), [OfWorker(g, DoExtend)] + RecreateWork(g, retries, created))
         == Some(Solo(AfterRecreate(Appended(p), |p.dbs|, retries, created), d, n, g, EndOf(Extend)))
  {
    AppendRests(c, p);
    AppendIsExec(c, p, d, n, g, RecreateWork(g, retries, created));
    RecreateIsExec(c, Appended(p), d, n, g, Extend, |p.dbs|, retries, created);
  }

  // ---------------------------------------------------------------- autoCleanDirty

  /** The oldest queued id is taken, and the clock has moved on until it may be cleaned. */
  function AfterPop(p: Pool): (r: Pool)
    requires p.dirty != [] && p.dirty[0] < |p.dbs|
  {
    var until := p.dbs[p.dirty[0]].blockUntil;
    Log(p.(dirty := p.dirty[1..]), Popped(p.dirty[0])).(now := if p.now < until then until else p.now)
  }

  function CleanWork(g: Gid, p: Pool): (r: seq<Step>)
    requires p.dirty != [] && p.dirty[0] < |p.dbs|
  {
    var until := p.dbs[p.dirty[0]].blockUntil;
    [OfWorker(g, DoCleanTake), OfWorker(g, DoCleanRead)] + (if p.now < until then [OfTick(until), OfWorker(g, DoCleanWake)] else [])
  }

  lemma PopRests(c: Config, p: Pool)
    requires AtRest(c, p) && p.dirty != []
    ensures CanReturn(p, p.dirty[0]) && AtRest(c, AfterPop(p)) && p.dirty[0] !in AfterPop(p).dirty
    ensures CanReturn(AfterPop(p), p.dirty[0])
  {
    var id := p.dirty[0];
    assert id in p.dirty;
    var q := p.(dirty := p.dirty[1..]);
    assert AtRest(c, q) by {
      assert forall x: nat :: IsReady(q, x) <==> IsReady(p, x);
      assert forall h, x: nat :: !Carries(map[], h, x);
      forall x: nat | IsReady(q, x)
        ensures x in q.ready
      {
        assert IsReady(p, x);
      }
      forall x: nat | x in q.dirty
        ensures CanReturn(q, x)
      {
        assert x in p.dirty;
      }
    }
    FailRests(c, q, AfterPop(p));
  }

  /** The oldest id is taken, after a sleep if need be; what is left is the work of recreating it. */
  lemma PopIsExec(c: Config, p: Pool, d: Sched, n: nat, g: Gid)
    requires AtRest(c, p) && p.dirty != []
    ensures CanReturn(p, p.dirty[0])
    ensures Exec(c, Solo(p, d, n, g, Some(Work(Clean, CleanTake))), CleanWork(g, p))
         == Some(Solo(AfterPop(p), d, n, g, Some(Work(Clean, RecCheck(p.dirty[0])))))
  {
    PopRests(c, p);
    var id, e := p.dirty[0], p.dbs[p.dirty[0]];
    var q := Log(p.(dirty := p.dirty[1..]), Popped(id));
    var s := Solo(p, d, n, g, Some(Work(Clean, CleanTake)));
    var t := Solo(q, d, n, g, Some(Work(Clean, CleanRead(id))));
    var v := Solo(AfterPop(p), d, n, g, Some(Work(Clean, RecCheck(id))));
    SoloWork(c, p, d, n, g, Clean, CleanTake, DoCleanTake, Turn(q, Some(Work(Clean, CleanRead(id))), None));
    var take := [OfWorker(g, DoCleanTake), OfWorker(g, DoCleanRead)];
    if p.now < e.blockUntil {
      var sleep := CleanSleep(id, e.generation, e.blockUntil);
      var u := Solo(q, d, n, g, Some(Work(Clean, sleep)));
      var w := Solo(AfterPop(p), d, n, g, Some(Work(Clean, sleep)));
      SoloWork(c, q, d, n, g, Clean, CleanRead(id), DoCleanRead, Turn(q, Some(Work(Clean, sleep)), None));
      ExecTwo(c, s, OfWorker(g, DoCleanTake), t, OfWorker(g, DoCleanRead), u);
      SoloWork(c, AfterPop(p), d, n, g, Clean, sleep, DoCleanWake, Turn(AfterPop(p), Some(Work(Clean, RecCheck(id))), None));
      ExecTwo(c, u, OfTick(e.blockUntil), w, OfWorker(g, DoCleanWake), v);
      ExecConcat(c, s, take, [OfTick(e.blockUntil), OfWorker(g, DoCleanWake)], u);
    } else {
      SoloWork(c, q, d, n, g, Clean, CleanRead(id), DoCleanRead, Turn(q, Some(Work(Clean, RecCheck(id))), None));
      ExecTwo(c, s, OfWorker(g, DoCleanTake), t, OfWorker(g, DoCleanRead), v);
      assert take + [] == take;
    }
  }

  lemma NothingIsExec(c: Config, p: Pool, d: Sched, n: nat, g: Gid)
    requires p.dirty == [] || d.cancelled
    ensures Exec(c, Solo(p, d, n, g, Some(Work(Clean, CleanTake))), [OfWorker(g, DoCleanSkip)]) == Some(Solo(p, d, n, g, EndOf(Clean)))
  {
    SoloWork(c, p, d, n, g, Clean, CleanTake, DoCleanSkip, Turn(p, EndOf(Clean), None));
    ExecCons(c, Solo(p, d, n, g, Some(Work(Clean, CleanTake))), OfWorker(g, DoCleanSkip), [], Solo(p, d, n, g, EndOf(Clean)));
    assert [OfWorker(g, DoCleanSkip)] + [] == [OfWorker(g, DoCleanSkip)];
  }

  lemma CleanIsExec(c: Config, p: Pool, d: Sched, n: nat, g: Gid, retries: nat, created: bool)
    requires AtRest(c, p) && p.dirty != [] && !d.cancelled
    ensures CanReturn(p, p.dirty[0])
    ensures Exec(c, Solo(p, d, n, g, Some(Work(Clean, CleanTake))), CleanWork(g, p) + RecreateWork(g, retries, created))
         == Some(Solo(AfterRecreate(AfterPop(p), p.dirty[0], retries, created), d, n, g, EndOf(Clean)))
  {
    PopRests(c, p);
    PopIsExec(c, p, d, n, g);
    ExecConcat(c, Solo(p, d, n, g, Some(Work(Clean, CleanTake))), CleanWork(g, p), RecreateWork(g, retries, created),
               Solo(AfterPop(p), d, n, g, Some(Work(Clean, RecCheck(p.dirty[0])))));
    RecreateIsExec(c, AfterPop(p), d, n, g, Clean, p.dirty[0], retries, created);
  }

  // ---------------------------------------------------------------- RecreateTestDatabase

  /** The id leaves `dirty` and a manual worker starts on it. */
  lemma SpawnIsExec(c: Config, p: Pool, d: Sched, n: nat, id: nat, work: seq<Step>)
    requires p.lock.None? && id < |p.dbs| && d.ctxSet
    ensures Exec(c, Solo(p, d, n, Client(n), None), [OfArrival(RecreateAtomic(id))] + work)
         == Exec(c, Solo(p.(dirty := Without(p.dirty, id)), d, n + 1, Client(n), Some(Work(Manual, RecCheck(id)))), work)
  {
    var q := p.(dirty := Without(p.dirty, id));
    SoloArrive(c, p, d, n, RecreateAtomic(id), Turn(q, Some(Work(Manual, RecCheck(id))), None));
    ExecCons(c, Solo(p, d, n, Client(n), None), OfArrival(RecreateAtomic(id)), work,
             Solo(q, d, n + 1, Client(n), Some(Work(Manual, RecCheck(id)))));
  }

  // ---------------------------------------------------------------- RemoveAll

  /** The ids of a queue below `n`, in order. */
  function KeepBelow(q: seq<nat>, n: nat): (r: seq<nat>) {
    if q == [] then []
    else
      var last := q[|q| - 1];
      KeepBelow(q[..|q| - 1], n) + (if last < n then [last] else [])
  }

  lemma {:induction false} KeepBelowMembers(q: seq<nat>, n: nat)
    ensures forall x :: x in KeepBelow(q, n) <==> x in q && x < n
    decreases |q|
  {
    if q != [] {
      var init, last := q[..|q| - 1], q[|q| - 1];
      KeepBelowMembers(init, n);
      assert q == init + [last];
    }
  }

  lemma {:induction false} KeepBelowStep(q: seq<nat>, n: nat)
    ensures Without(KeepBelow(q, n + 1), n) == KeepBelow(q, n)
    decreases |q|
  {
    if q != [] {
      var init, last := q[..|q| - 1], q[|q| - 1];
      KeepBelowStep(init, n);
      var k := KeepBelow(init, n + 1);
      if last < n + 1 {
        WithoutSnoc(k, last, n);
      } else {
        assert k + [] == k && KeepBelow(init, n) + [] == KeepBelow(init, n);
      }
    }
  }

  lemma {:induction false} KeepBelowAll(q: seq<nat>, n: nat)
    requires forall x :: x in q ==> x < n
    ensures KeepBelow(q, n) == q
    decreases |q|
  {
    if q != [] {
      var init, last := q[..|q| - 1], q[|q| - 1];
      assert q == init + [last];
      assert last in q;
      assert forall x :: x in init ==> x in q;
      KeepBelowAll(init, n);
    }
  }

  /** The removal loop has dropped every id from `n` up. */
  function Cut(p: Pool, n: nat): (r: Pool)
    requires n <= |p.dbs|
  {
    p.(dbs := p.dbs[..n], dirty := KeepBelow(p.dirty, n), ready := KeepBelow(p.ready, n), removal := true)
  }

  lemma KeepBelowDistinct(q: seq<nat>, n: nat)
    requires Distinct(q)
    ensures Distinct(KeepBelow(q, n)) && |KeepBelow(q, n)| <= |q|
    decreases |q|
  {
    if q != [] {
      var init, last := q[..|q| - 1], q[|q| - 1];
      KeepBelowDistinct(init, n);
      KeepBelowMembers(init, n);
      assert last !in init;
    }
  }

  lemma CutRests(c: Config, p: Pool, n: nat, q: Pool)
    requires AtRest(c, p) && n <= |p.dbs|
    requires q == Cut(p, n).(history := q.history, cap := q.cap, closed := q.closed)
    requires (q.cap == p.cap && q.closed == p.closed && (p.closed ==> n == 0)) || (n == 0 && q.cap == 0 && q.closed)
    ensures AtRest(c, q)
  {
    KeepBelowDistinct(p.ready, n);
    KeepBelowDistinct(p.dirty, n);
    KeepBelowMembers(p.ready, n);
    KeepBelowMembers(p.dirty, n);
    forall x: nat
      ensures IsReady(q, x) <==> IsReady(p, x) && x < n
    {
    }
    assert forall h, x: nat :: !Carries(map[], h, x);
    forall x: nat | IsReady(q, x)
      ensures x in q.ready
    {
      assert IsReady(p, x);
    }
    forall x: nat | x in q.dirty
      ensures CanReturn(q, x)
    {
      assert CanReturn(p, x);
    }
  }

  /** The drops of the `k` highest of `n` ids, from the top down. */
  function Falls(n: nat, k: nat): (r: seq<Event>)
    requires k <= n
  {
    if k == 0 then [] else Falls(n, k - 1) + [Dropped(n - k)]
  }

  /** The pool after the removal loop has dropped the `k` highest ids. */
  function AfterDrops(p: Pool, k: nat): (r: Pool)
    requires k <= |p.dbs|
  {
    Cut(p, |p.dbs| - k).(history := p.history + Falls(|p.dbs|, k))
  }

  lemma ExecSnoc(c: Config, s: State, a: seq<Step>, t: State, step: Step, u: State)
    requires Exec(c, s, a) == Some(t) && Do(c, t, step) == Some(u)
    ensures Exec(c, s, a + [step]) == Some(u)
  {
    ExecCons(c, t, step, [], u);
    assert [step] + [] == [step];
    ExecJoin(c, s, a, t, [step], u);
  }

  function Stage(p: Pool, d: Sched, n: nat, g: Gid, k: nat): (s: State)
    requires k < |p.dbs|
  {
    Solo(AfterDrops(p, k), d, n, g, Some(Remover(|p.dbs| - 1 - k)))
  }

  lemma DropPool(p: Pool, k: nat)
    requires k < |p.dbs|
    ensures var q := AfterDrops(p, k);
            Forget(q, |p.dbs| - 1 - k).(dbs := q.dbs[..|q.dbs| - 1]) == AfterDrops(p, k + 1)
  {
    var m := |p.dbs| - 1 - k;
    KeepBelowStep(p.ready, m);
    KeepBelowStep(p.dirty, m);
    assert p.history + Falls(|p.dbs|, k) + [Dropped(m)] == p.history + Falls(|p.dbs|, k + 1);
    assert p.dbs[..m + 1][..m] == p.dbs[..m];
  }

  lemma OneDrop(c: Config, p: Pool, d: Sched, n: nat, g: Gid, k: nat)
    requires k + 1 < |p.dbs|
    ensures Do(c, Stage(p, d, n, g, k), OfClient(g, RemoveDrop)) == Some(Stage(p, d, n, g, k + 1))
  {
    var m := |p.dbs| - 1 - k;
    DropPool(p, k);
    SoloClient(c, AfterDrops(p, k), d, n, g, Remover(m), RemoveDrop, Turn(AfterDrops(p, k + 1), Some(Remover(m - 1)), None));
  }

  lemma {:induction false} DropsExecFrom(c: Config, p: Pool, d: Sched, n: nat, g: Gid, j: nat, k: nat)
    requires j <= k < |p.dbs|
    ensures Exec(c, Stage(p, d, n, g, j), Times(k - j, OfClient(g, RemoveDrop))) == Some(Stage(p, d, n, g, k))
    decreases k - j
  {
    if j < k {
      OneDrop(c, p, d, n, g, j);
      DropsExecFrom(c, p, d, n, g, j + 1, k);
      ExecCons(c, Stage(p, d, n, g, j), OfClient(g, RemoveDrop), Times(k - j - 1, OfClient(g, RemoveDrop)), Stage(p, d, n, g, j + 1));
    }
  }

  lemma DropsExec(c: Config, p: Pool, d: Sched, n: nat, g: Gid, k: nat)
    requires k < |p.dbs|
    ensures Exec(c, Stage(p, d, n, g, 0), Times(k, OfClient(g, RemoveDrop))) == Some(Stage(p, d, n, g, k))
  {
    DropsExecFrom(c, p, d, n, g, 0, k);
  }

  /** Removal of the `k` highest ids, ended by a failure or by the last drop. */
  function RemoveSteps(n: nat, k: nat, end: ClientMove): (r: seq<Step>) {
    ([OfArrival(RemoveLock)] + Times(k, OfClient(Client(n), RemoveDrop))) + [OfClient(Client(n), end)]
  }

  function AfterRemoveAll(p: Pool): (r: Pool) {
    AfterDrops(p, |p.dbs|).(cap := 0, closed := true)
  }

  lemma BeginExec(c: Config, p: Pool, d: Sched, n: nat, k: nat)
    requires p.lock.None? && d.stop.Stopped? && k < |p.dbs|
    requires KeepBelow(p.ready, |p.dbs|) == p.ready && KeepBelow(p.dirty, |p.dbs|) == p.dirty
    ensures Exec(c, Solo(p, d, n, Client(n), None), [OfArrival(RemoveLock)] + Times(k, OfClient(Client(n), RemoveDrop)))
         == Some(Stage(p.(lock := Some(Client(n)), removal := true), d, n + 1, Client(n), k))
  {
    var g, q := Client(n), p.(lock := Some(Client(n)), removal := true);
    assert q.dbs[..|q.dbs|] == q.dbs && q.history + [] == q.history;
    assert AfterDrops(q, 0) == q;
    SoloArrive(c, p, d, n, RemoveLock, Turn(q, Some(Remover(|p.dbs| - 1)), None));
    ExecCons(c, Solo(p, d, n, g, None), OfArrival(RemoveLock), Times(k, OfClient(g, RemoveDrop)), Stage(q, d, n + 1, g, 0));
    DropsExec(c, q, d, n + 1, g, k);
  }

  lemma EndExec(c: Config, p: Pool, d: Sched, n: nat, k: nat, end: ClientMove, r: Pool)
    requires p.lock.None? && d.stop.Stopped? && k < |p.dbs|
    requires KeepBelow(p.ready, |p.dbs|) == p.ready && KeepBelow(p.dirty, |p.dbs|) == p.dirty
    requires var q := p.(lock := Some(Client(n)), removal := true);
             ClientTurn(c, AfterDrops(q, k), d, Remover(|p.dbs| - 1 - k), Client(n), end) == Some(Turn(r, None, None))
    ensures Exec(c, Solo(p, d, n, Client(n), None), RemoveSteps(n, k, end)) == Some(Solo(r, d, n + 1, Client(n), None))
  {
    var g, q := Client(n), p.(lock := Some(Client(n)), removal := true);
    BeginExec(c, p, d, n, k);
    SoloClient(c, AfterDrops(q, k), d, n + 1, g, Remover(|p.dbs| - 1 - k), end, Turn(r, None, None));
    ExecSnoc(c, Solo(p, d, n, g, None), [OfArrival(RemoveLock)] + Times(k, OfClient(g, RemoveDrop)), Stage(q, d, n + 1, g, k),
             OfClient(g, end), Solo(r, d, n + 1, g, None));
  }

  /** A removal that fails at the id below the `k` dropped ones. */
  lemma FailedRemovalIsExec(c: Config, p: Pool, d: Sched, n: nat, k: nat)
    requires p.dbs != [] && p.lock.None? && d.stop.Stopped? && k < |p.dbs|
    requires KeepBelow(p.ready, |p.dbs|) == p.ready && KeepBelow(p.dirty, |p.dbs|) == p.dirty
    ensures Exec(c, Solo(p, d, n, Client(n), None), RemoveSteps(n, k, RemoveFail))
         == Some(Solo(AfterDrops(p, k), d, n + 1, Client(n), None))
  {
    EndExec(c, p, d, n, k, RemoveFail, AfterDrops(p, k));
  }

  /** A removal that drops every id. */
  lemma WholeRemovalIsExec(c: Config, p: Pool, d: Sched, n: nat)
    requires p.dbs != [] && p.lock.None? && d.stop.Stopped?
    requires KeepBelow(p.ready, |p.dbs|) == p.ready && KeepBelow(p.dirty, |p.dbs|) == p.dirty
    ensures Exec(c, Solo(p, d, n, Client(n), None), RemoveSteps(n, |p.dbs| - 1, RemoveLast))
         == Some(Solo(AfterRemoveAll(p), d, n + 1, Client(n), None))
  {
    DropPool(p.(lock := Some(Client(n)), removal := true), |p.dbs| - 1);
    EndExec(c, p, d, n, |p.dbs| - 1, RemoveLast, AfterRemoveAll(p));
  }
}
