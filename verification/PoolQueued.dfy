/**
  What holds in every run in which manual returns and recreates hit only ids that still sit in
  `dirty`: every database is in exactly one place.
  */
module PoolQueued {
  import opened Queues
  import opened PoolMachine
  import opened PoolTasks
  import opened PoolFull

  /** The id a goroutine has claimed. */
  function TokenOf(q: Proc): (r: Option<nat>) {
    match q
    case GetWait(id) => Some(id)
    case GetSend(id) => Some(id)
    case Work(_, pc) => PcId(pc)
    case _ => None
  }

  function TokenAt(procs: map<Gid, Proc>, g: Gid): (r: Option<nat>) {
    if g in procs then TokenOf(procs[g]) else None
  }

  function TokenNext(next: Option<Proc>): (r: Option<nat>) {
    if next.Some? then TokenOf(next.value) else None
  }

  ghost predicate Holds(procs: map<Gid, Proc>, g: Gid, id: nat) {
    g in procs && TokenOf(procs[g]) == Some(id)
  }

  ghost predicate Somewhere(p: Pool, procs: map<Gid, Proc>, id: nat) {
    id in p.ready || id in p.dirty || id in p.abandoned || exists g :: Holds(procs, g, id)
  }

  predicate NoDrain(q: Proc) {
    !q.Drain? && !q.Refill? && !q.ReturnSend?
  }

  /** Every id below the table's size is in exactly one place, and no id is in two. */
  ghost predicate TokenInv(p: Pool, procs: map<Gid, Proc>) {
    && Distinct(p.ready) && Distinct(p.dirty)
    && (forall id: nat :: id in p.ready ==> id !in p.dirty && id !in p.abandoned)
    && (forall id: nat :: id in p.dirty ==> id !in p.abandoned)
    && (forall g, id: nat :: Holds(procs, g, id) ==> id !in p.ready && id !in p.dirty && id !in p.abandoned)
    && (forall g, h, id: nat :: Holds(procs, g, id) && Holds(procs, h, id) ==> g == h)
    && (forall id: nat :: id < |p.dbs| ==> Somewhere(p, procs, id))
    && (forall g <- procs :: NoDrain(procs[g]))
    && (!p.removal ==> forall id: nat :: id in p.abandoned ==> id < |p.dbs|)
  }

  // ---------------------------------------------------------------- how a token moves

  /** `x` leaves the place `from` for the place `to`; every other id stays. */
  ghost predicate Elsewhere(p: Pool, procs: map<Gid, Proc>, g: Gid, turn: Turn, x: nat) {
    && (forall id: nat :: id != x ==> (id in turn.pool.ready <==> id in p.ready))
    && (forall id: nat :: id != x ==> (id in turn.pool.dirty <==> id in p.dirty))
    && (forall id: nat :: id != x ==> (id in turn.pool.abandoned <==> id in p.abandoned))
    && (TokenAt(procs, g).None? || TokenAt(procs, g) == Some(x))
    && (TokenNext(turn.next).None? || TokenNext(turn.next) == Some(x))
  }

  ghost predicate OnePlace(turn: Turn, x: nat) {
    && (x in turn.pool.ready ==> x !in turn.pool.dirty && x !in turn.pool.abandoned && TokenNext(turn.next).None?)
    && (x in turn.pool.dirty ==> x !in turn.pool.abandoned && TokenNext(turn.next).None?)
    && (x in turn.pool.abandoned ==> TokenNext(turn.next).None?)
    && (x in turn.pool.ready || x in turn.pool.dirty || x in turn.pool.abandoned || TokenNext(turn.next).Some?)
  }

  /** The turn of `g` moves the token `x`, which no other goroutine holds, to exactly one place. */
  lemma TokenMoves(p: Pool, procs: map<Gid, Proc>, g: Gid, turn: Turn, x: nat)
    requires TokenInv(p, procs)
    requires Distinct(turn.pool.ready) && Distinct(turn.pool.dirty)
    requires forall h :: h != g ==> !Holds(procs, h, x)
    requires Elsewhere(p, procs, g, turn, x) && OnePlace(turn, x)
    requires |turn.pool.dbs| == |p.dbs| || (|turn.pool.dbs| == |p.dbs| + 1 && x == |p.dbs|)
    requires turn.next.Some? ==> NoDrain(turn.next.value)
    requires p.removal ==> turn.pool.removal
    requires !turn.pool.removal ==> x < |turn.pool.dbs|
    ensures TokenInv(turn.pool, Put(procs, g, turn.next))
  {
    var procs' := Put(procs, g, turn.next);
    forall h, id: nat
      ensures Holds(procs', h, id) <==> if h == g then TokenNext(turn.next) == Some(id) else Holds(procs, h, id)
    {
    }
    forall id: nat | id < |turn.pool.dbs|
      ensures Somewhere(turn.pool, procs', id)
    {
      if id == x {
        assert TokenNext(turn.next).Some? ==> Holds(procs', g, x);
      } else {
        assert Somewhere(p, procs, id);
        if h :| Holds(procs, h, id) {
          assert Holds(procs', h, id);
        }
      }
    }
  }

  /** A turn that moves no token. */
  lemma TokensStay(p: Pool, procs: map<Gid, Proc>, g: Gid, turn: Turn)
    requires TokenInv(p, procs)
    requires turn.pool.ready == p.ready && turn.pool.dirty == p.dirty && turn.pool.abandoned == p.abandoned
    requires |turn.pool.dbs| == |p.dbs|
    requires TokenNext(turn.next) == TokenAt(procs, g) || (TokenNext(turn.next).None? && TokenAt(procs, g).Some? && TokenAt(procs, g).value >= |p.dbs|)
    requires turn.next.Some? ==> NoDrain(turn.next.value)
    requires p.removal ==> turn.pool.removal
    ensures TokenInv(turn.pool, Put(procs, g, turn.next))
  {
    var procs' := Put(procs, g, turn.next);
    forall h, id: nat
      ensures Holds(procs', h, id) ==> Holds(procs, h, id)
      ensures Holds(procs, h, id) && id < |p.dbs| ==> Holds(procs', h, id)
    {
      if h == g {
        assert TokenAt(procs', g) == TokenNext(turn.next);
      }
    }
    forall id: nat | id < |turn.pool.dbs|
      ensures Somewhere(turn.pool, procs', id)
    {
      assert Somewhere(p, procs, id);
      if h :| Holds(procs, h, id) {
        assert Holds(procs', h, id);
      }
    }
  }

  /** The last id leaves the table and both queues. */
  lemma TokenShrinks(p: Pool, procs: map<Gid, Proc>, g: Gid, turn: Turn)
    requires TokenInv(p, procs) && p.dbs != [] && TokenAt(procs, g).None? && TokenNext(turn.next).None?
    requires turn.pool.ready == Without(p.ready, |p.dbs| - 1) && turn.pool.dirty == Without(p.dirty, |p.dbs| - 1)
    requires turn.pool.abandoned == p.abandoned && turn.pool.removal
    requires |turn.pool.dbs| == |p.dbs| - 1
    requires turn.next.Some? ==> NoDrain(turn.next.value)
    ensures TokenInv(turn.pool, Put(procs, g, turn.next))
  {
    WithoutDistinct(p.ready, |p.dbs| - 1);
    WithoutDistinct(p.dirty, |p.dbs| - 1);
    var procs' := Put(procs, g, turn.next);
    forall h, id: nat
      ensures Holds(procs', h, id) <==> Holds(procs, h, id)
    {
    }
    forall id: nat | id < |turn.pool.dbs|
      ensures Somewhere(turn.pool, procs', id)
    {
      assert Somewhere(p, procs, id);
      if h :| Holds(procs, h, id) {
        assert Holds(procs', h, id);
      }
    }
  }

  // ---------------------------------------------------------------- what the table says about a claimed id

  /** A cleaner's or recreator's id is still as the cleaner saw it. */
  predicate ProcFacts(p: Pool, q: Proc) {
    (q.GetSend? ==> CanReturn(p, q.id)) &&
    (q.Work? && PcId(q.pc).Some? && PcId(q.pc).value < |p.dbs| ==>
      var d := p.dbs[PcId(q.pc).value];
      match q.pc
      case CleanRead(_) => d.state == Dirty
      case CleanSleep(_, generation, until) => d.state == Dirty && d.generation == generation && d.blockUntil == until
      case RecCheck(_) => d.state == Dirty && (q.kind == Clean ==> d.blockUntil <= p.now)
      case RecLock(_) => d.state == Dirty && (q.kind == Clean ==> d.blockUntil <= p.now)
      case RecSlot(_) => q.kind == Clean ==> d.blockUntil <= p.now
      case RecLoop(_) => q.kind == Clean ==> d.blockUntil <= p.now
      case RecCall(_, _) => q.kind == Clean ==> d.blockUntil <= p.now
      case _ => true)
  }

  ghost predicate FactsInv(p: Pool, procs: map<Gid, Proc>) {
    && (forall g <- procs :: ProcFacts(p, procs[g]))
    && (forall id: nat :: id in p.dirty ==> CanReturn(p, id))
  }

  /** A turn that touches at most the table entry of `x`, which no other goroutine holds. */
  lemma FactsTurn(p: Pool, procs: map<Gid, Proc>, g: Gid, turn: Turn, x: nat)
    requires FactsInv(p, procs)
    requires forall h :: h != g ==> !Holds(procs, h, x)
    requires forall id: nat :: id < |turn.pool.dbs| && id != x ==> id < |p.dbs| && turn.pool.dbs[id] == p.dbs[id]
    requires p.now == turn.pool.now
    requires |p.dbs| <= |turn.pool.dbs|
    requires turn.next.Some? ==> ProcFacts(turn.pool, turn.next.value)
    requires forall id: nat :: id in turn.pool.dirty ==>
      (id in p.dirty && id != x && id < |turn.pool.dbs|) || CanReturn(turn.pool, id)
    ensures FactsInv(turn.pool, Put(procs, g, turn.next))
  {
    forall h | h in procs && h != g
      ensures ProcFacts(turn.pool, procs[h])
    {
      assert ProcFacts(p, procs[h]);
      assert !Holds(procs, h, x);
    }
  }

  /** The last id leaves the table while the remover holds the mutex. */
  lemma FactsShrink(p: Pool, procs: map<Gid, Proc>, g: Gid, turn: Turn)
    requires FactsInv(p, procs) && p.dbs != []
    requires turn.pool.dbs == p.dbs[..|p.dbs| - 1] && turn.pool.dirty == Without(p.dirty, |p.dbs| - 1)
    requires p.now == turn.pool.now
    requires forall h <- procs :: !procs[h].GetSend?
    requires turn.next.Some? ==> turn.next.value.Remover?
    ensures FactsInv(turn.pool, Put(procs, g, turn.next))
  {
    forall h | h in procs && h != g
      ensures ProcFacts(turn.pool, procs[h])
    {
      assert ProcFacts(p, procs[h]);
    }
  }

  // ---------------------------------------------------------------- client calls

  ghost predicate QueuedArrival(p: Pool, x: Arrival) {
    match x
    case ReturnLock(_) => false
    case RecreateCheck(_) => false
    case ReturnAtomic(id) => ReturnsQueued(p, id)
    case RecreateAtomic(id) => RecreatesQueued(p, id)
    case _ => true
  }

  ghost predicate LinearInv(p: Pool, procs: map<Gid, Proc>) {
    TokenInv(p, procs) && FactsInv(p, procs)
  }

  lemma ReceiveLinear(p: Pool, procs: map<Gid, Proc>, g: Gid, turn: Turn)
    requires LinearInv(p, procs) && g !in procs && p.ready != [] && p.ready[0] < |p.dbs|
    requires turn == Turn(p.(ready := p.ready[1..]), Some(GetWait(p.ready[0])), None)
    ensures LinearInv(turn.pool, Put(procs, g, turn.next))
  {
    assert p.ready[0] in p.ready;
    TokenMoves(p, procs, g, turn, p.ready[0]);
    FactsTurn(p, procs, g, turn, p.ready[0]);
  }

  lemma ReturnLinear(p: Pool, procs: map<Gid, Proc>, g: Gid, id: nat, turn: Turn)
    requires LinearInv(p, procs) && g !in procs && CanReturn(p, id) && id in p.dirty
    requires turn == Turn(Unlock(p, id).(dirty := Without(p.dirty, id), ready := p.ready + [id]), None, None)
    ensures LinearInv(turn.pool, Put(procs, g, turn.next))
  {
    WithoutDistinct(p.dirty, id);
    TokenMoves(p, procs, g, turn, id);
    FactsTurn(p, procs, g, turn, id);
  }

  lemma RecreateLinear(p: Pool, procs: map<Gid, Proc>, g: Gid, id: nat, turn: Turn)
    requires LinearInv(p, procs) && g !in procs && id in p.dirty
    requires turn == Turn(p.(dirty := Without(p.dirty, id)), Some(Work(Manual, RecCheck(id))), None)
    ensures LinearInv(turn.pool, Put(procs, g, turn.next))
  {
    WithoutDistinct(p.dirty, id);
    TokenMoves(p, procs, g, turn, id);
    FactsTurn(p, procs, g, turn, id);
  }

  /** A turn that touches neither the table, the queues nor any token. */
  lemma StayLinear(p: Pool, procs: map<Gid, Proc>, g: Gid, turn: Turn)
    requires LinearInv(p, procs)
    requires turn.pool.ready == p.ready && turn.pool.dirty == p.dirty && turn.pool.abandoned == p.abandoned
    requires turn.pool.dbs == p.dbs && turn.pool.now == p.now && (p.removal ==> turn.pool.removal)
    requires TokenNext(turn.next) == TokenAt(procs, g) || (TokenNext(turn.next).None? && TokenAt(procs, g).Some? && TokenAt(procs, g).value >= |p.dbs|)
    requires turn.next.Some? ==> NoDrain(turn.next.value) && ProcFacts(turn.pool, turn.next.value)
    ensures LinearInv(turn.pool, Put(procs, g, turn.next))
  {
    TokensStay(p, procs, g, turn);
    forall h | h in procs && h != g
      ensures ProcFacts(turn.pool, procs[h])
    {
      assert ProcFacts(p, procs[h]);
    }
  }

  lemma ArriveLinear(c: Config, p: Pool, d: Sched, procs: map<Gid, Proc>, g: Gid, x: Arrival, turn: Turn)
    requires LinearInv(p, procs) && g !in procs && QueuedArrival(p, x)
    requires p.ready != [] ==> p.ready[0] < |p.dbs|
    requires Arrive(c, p, d, g, x) == Some(turn)
    ensures LinearInv(turn.pool, Put(procs, g, turn.next))
  {
    match x
    case GetReceive => ReceiveLinear(p, procs, g, turn);
    case ReturnAtomic(id) => if CanReturn(p, id) { ReturnLinear(p, procs, g, id, turn); } else { StayLinear(p, procs, g, turn); }
    case RecreateAtomic(id) => if id < |p.dbs| { RecreateLinear(p, procs, g, id, turn); } else { StayLinear(p, procs, g, turn); }
    case RemoveLock => StayLinear(p, procs, g, turn);
  }

  lemma GrantLinear(p: Pool, procs: map<Gid, Proc>, g: Gid, turn: Turn)
    requires LinearInv(p, procs) && g in procs && procs[g].GetWait? && procs[g].id < |p.dbs|
    requires turn.next == Some(GetSend(procs[g].id))
    requires turn.pool.ready == p.ready && turn.pool.dirty == p.dirty && turn.pool.abandoned == p.abandoned
    requires exists until :: turn.pool.dbs == p.dbs[procs[g].id := Grant(p.dbs[procs[g].id], until)]
    requires turn.pool.now == p.now && turn.pool.removal == p.removal
    ensures LinearInv(turn.pool, Put(procs, g, turn.next))
  {
    assert Holds(procs, g, procs[g].id);
    TokensStay(p, procs, g, turn);
    FactsTurn(p, procs, g, turn, procs[g].id);
  }

  lemma SendLinear(p: Pool, procs: map<Gid, Proc>, g: Gid, turn: Turn)
    requires LinearInv(p, procs) && g in procs && procs[g].GetSend?
    requires turn == Turn(p.(dirty := p.dirty + [procs[g].id]), Some(GetPush(procs[g].id)), None)
    ensures LinearInv(turn.pool, Put(procs, g, turn.next))
  {
    assert Holds(procs, g, procs[g].id);
    assert ProcFacts(p, procs[g]);
    TokenMoves(p, procs, g, turn, procs[g].id);
    FactsTurn(p, procs, g, turn, procs[g].id);
  }

  lemma ClientLinear(c: Config, p: Pool, d: Sched, procs: map<Gid, Proc>, g: Gid, x: ClientMove, turn: Turn)
    requires LinearInv(p, procs) && g in procs && !procs[g].Work? && InRange(p, procs[g])
    requires procs[g].GetWait? && procs[g].id < |p.dbs| ==> IsReady(p, procs[g].id)
    requires procs[g].Remover? ==> p.removal && forall h <- procs :: !procs[h].GetSend?
    requires ClientTurn(c, p, d, procs[g], g, x) == Some(turn)
    ensures LinearInv(turn.pool, Put(procs, g, turn.next))
  {
    assert NoDrain(procs[g]);
    if x.RemoveDrop? || x.RemoveLast? {
      TokenShrinks(p, procs, g, turn);
      FactsShrink(p, procs, g, turn);
    } else if x.GetLock? && procs[g].id < |p.dbs| {
      GrantLinear(p, procs, g, turn);
    } else if x.GetSendDirty? {
      SendLinear(p, procs, g, turn);
    } else {
      StayLinear(p, procs, g, turn);
    }
  }

  // ---------------------------------------------------------------- workers

  lemma ExtendLinear(p: Pool, procs: map<Gid, Proc>, g: Gid, turn: Turn)
    requires LinearInv(p, procs) && g in procs && TokenAt(procs, g).None? && !p.removal
    requires forall h <- procs :: InRange(p, procs[h])
    requires forall id: nat :: id in p.ready ==> id < |p.dbs|
    requires turn.pool == p.(dbs := p.dbs + [TestDb(|p.dbs|, Dirty, 0, 0)])
    requires turn.next.Some? && turn.next.value.Work? && turn.next.value.kind != Clean && turn.next.value.pc == RecCheck(|p.dbs|)
    ensures LinearInv(turn.pool, Put(procs, g, turn.next))
  {
    forall h | h != g
      ensures !Holds(procs, h, |p.dbs|)
    {
      assert h in procs ==> InRange(p, procs[h]);
    }
    TokenMoves(p, procs, g, turn, |p.dbs|);
    FactsTurn(p, procs, g, turn, |p.dbs|);
  }

  lemma TakeLinear(p: Pool, procs: map<Gid, Proc>, g: Gid, kind: Kind, turn: Turn)
    requires LinearInv(p, procs) && g in procs && TokenAt(procs, g).None? && p.dirty != []
    requires turn == Turn(Log(p.(dirty := p.dirty[1..]), Popped(p.dirty[0])), Some(Work(kind, CleanRead(p.dirty[0]))), None)
    ensures LinearInv(turn.pool, Put(procs, g, turn.next))
  {
    var x := p.dirty[0];
    assert x in p.dirty;
    forall id: nat | id in turn.pool.dirty
      ensures id in p.dirty && id != x
    {
      var k :| 0 <= k < |turn.pool.dirty| && turn.pool.dirty[k] == id;
      assert p.dirty[k + 1] == id;
    }
    TokenMoves(p, procs, g, turn, x);
    FactsTurn(p, procs, g, turn, x);
  }

  lemma AbandonLinear(p: Pool, procs: map<Gid, Proc>, g: Gid, x: nat, turn: Turn)
    requires LinearInv(p, procs) && Holds(procs, g, x) && (!p.removal ==> x < |p.dbs|)
    requires turn.pool.ready == p.ready && turn.pool.dirty == p.dirty && turn.pool.abandoned == p.abandoned + {x}
    requires turn.pool.dbs == p.dbs && turn.pool.now == p.now && turn.pool.removal == p.removal
    requires TokenNext(turn.next).None? && (turn.next.Some? ==> turn.next.value.Work?)
    ensures LinearInv(turn.pool, Put(procs, g, turn.next))
  {
    TokenMoves(p, procs, g, turn, x);
    FactsTurn(p, procs, g, turn, x);
  }

  lemma PublishLinear(p: Pool, procs: map<Gid, Proc>, g: Gid, x: nat, turn: Turn)
    requires LinearInv(p, procs) && Holds(procs, g, x) && x < |p.dbs|
    requires turn.pool == p.(ready := p.ready + [x], lock := None)
    requires turn.next.Some? && turn.next.value.Work? && turn.next.value.pc == SlotRelease
    ensures LinearInv(turn.pool, Put(procs, g, turn.next))
  {
    TokenMoves(p, procs, g, turn, x);
    FactsTurn(p, procs, g, turn, x);
  }

  /** The holder of `x` rewrites its table entry. */
  lemma RewriteLinear(p: Pool, procs: map<Gid, Proc>, g: Gid, x: nat, d: TestDb, turn: Turn)
    requires LinearInv(p, procs) && Holds(procs, g, x) && x < |p.dbs|
    requires turn.pool.ready == p.ready && turn.pool.dirty == p.dirty && turn.pool.abandoned == p.abandoned
    requires turn.pool.dbs == p.dbs[x := d] && turn.pool.now == p.now && turn.pool.removal == p.removal
    requires TokenNext(turn.next) == Some(x) && turn.next.value.Work? && ProcFacts(turn.pool, turn.next.value)
    ensures LinearInv(turn.pool, Put(procs, g, turn.next))
  {
    TokensStay(p, procs, g, turn);
    FactsTurn(p, procs, g, turn, x);
  }

  /** A worker step that moves no token and touches neither the table nor the queues. */
  predicate Untouched(p: Pool, pc: Pc, turn: Turn) {
    && turn.pool.ready == p.ready && turn.pool.dirty == p.dirty && turn.pool.abandoned == p.abandoned
    && turn.pool.dbs == p.dbs && turn.pool.now == p.now && turn.pool.removal == p.removal
    && (turn.next.Some? ==> turn.next.value.Work? && ProcFacts(turn.pool, turn.next.value))
    && (TokenNext(turn.next) == PcId(pc) || (TokenNext(turn.next).None? && PcId(pc).Some? && PcId(pc).value >= |p.dbs|))
  }

  lemma QuietClean(c: Config, p: Pool, cancelled: bool, kind: Kind, pc: Pc, g: Gid, x: WorkMove, turn: Turn)
    requires WorkTurn(c, p, cancelled, kind, pc, g, x) == Some(turn) && (x.DoCleanSkip? || x.DoCleanRead? || x.DoCleanWake?)
    requires ProcFacts(p, Work(kind, pc))
    ensures Untouched(p, pc, turn)
  {
  }

  lemma QuietSlot(c: Config, p: Pool, cancelled: bool, kind: Kind, pc: Pc, g: Gid, x: WorkMove, turn: Turn)
    requires WorkTurn(c, p, cancelled, kind, pc, g, x) == Some(turn) && (x.DoRecSlot? || x.DoSlotRelease?)
    requires ProcFacts(p, Work(kind, pc))
    ensures Untouched(p, pc, turn)
  {
  }

  /** In the table, a claimed id that its worker has not published yet is not ready. */
  ghost predicate Unpublished(p: Pool, q: Proc) {
    q.Work? && q.pc.MoveLock? ==> !IsReady(p, q.pc.id)
  }

  /** A worker gives its id up. */
  predicate GivesUp(p: Pool, id: nat, turn: Turn) {
    && turn.pool.ready == p.ready && turn.pool.dirty == p.dirty && turn.pool.abandoned == p.abandoned + {id}
    && turn.pool.dbs == p.dbs && turn.pool.now == p.now && turn.pool.removal == p.removal
    && TokenNext(turn.next).None? && (turn.next.Some? ==> turn.next.value.Work?)
  }

  lemma CheckShape(c: Config, p: Pool, cancelled: bool, kind: Kind, pc: Pc, g: Gid, turn: Turn)
    requires WorkTurn(c, p, cancelled, kind, pc, g, DoRecCheck) == Some(turn) && ProcFacts(p, Work(kind, pc))
    ensures PcId(pc).Some?
    ensures if TokenNext(turn.next).Some? then Untouched(p, pc, turn) else GivesUp(p, PcId(pc).value, turn)
  {
  }

  lemma LoopShape(c: Config, p: Pool, cancelled: bool, kind: Kind, pc: Pc, g: Gid, turn: Turn)
    requires WorkTurn(c, p, cancelled, kind, pc, g, DoRecLoop) == Some(turn) && ProcFacts(p, Work(kind, pc))
    ensures PcId(pc).Some?
    ensures if TokenNext(turn.next).Some? then Untouched(p, pc, turn) else GivesUp(p, PcId(pc).value, turn)
  {
  }

  lemma CallShape(c: Config, p: Pool, cancelled: bool, kind: Kind, pc: Pc, g: Gid, outcome: Outcome, turn: Turn)
    requires WorkTurn(c, p, cancelled, kind, pc, g, DoRecCall(outcome)) == Some(turn) && ProcFacts(p, Work(kind, pc))
    ensures PcId(pc).Some?
    ensures if TokenNext(turn.next).Some? then Untouched(p, pc, turn) else GivesUp(p, PcId(pc).value, turn)
  {
  }

  /** The steps at which a worker may give its id up. */
  lemma GiveUpLinear(c: Config, p: Pool, cancelled: bool, procs: map<Gid, Proc>, g: Gid, x: WorkMove, turn: Turn)
    requires LinearInv(p, procs) && g in procs && procs[g].Work? && InRange(p, procs[g])
    requires x.DoRecCheck? || x.DoRecLoop? || x.DoRecCall?
    requires WorkTurn(c, p, cancelled, procs[g].kind, procs[g].pc, g, x) == Some(turn)
    ensures LinearInv(turn.pool, Put(procs, g, turn.next))
  {
    var q := procs[g];
    assert ProcFacts(p, q);
    if x.DoRecCheck? {
      CheckShape(c, p, cancelled, q.kind, q.pc, g, turn);
    } else if x.DoRecLoop? {
      LoopShape(c, p, cancelled, q.kind, q.pc, g, turn);
    } else {
      CallShape(c, p, cancelled, q.kind, q.pc, g, x.outcome, turn);
    }
    assert Holds(procs, g, q.pc.id);
    if TokenNext(turn.next).Some? {
      StayLinear(p, procs, g, turn);
    } else {
      AbandonLinear(p, procs, g, q.pc.id, turn);
    }
  }

  lemma QuietLinear(c: Config, p: Pool, cancelled: bool, procs: map<Gid, Proc>, g: Gid, x: WorkMove, turn: Turn)
    requires LinearInv(p, procs) && g in procs && procs[g].Work?
    requires x.DoCleanSkip? || x.DoCleanRead? || x.DoCleanWake? || x.DoRecSlot? || x.DoSlotRelease?
    requires WorkTurn(c, p, cancelled, procs[g].kind, procs[g].pc, g, x) == Some(turn)
    ensures LinearInv(turn.pool, Put(procs, g, turn.next))
  {
    var q := procs[g];
    assert ProcFacts(p, q);
    if x.DoRecSlot? || x.DoSlotRelease? {
      QuietSlot(c, p, cancelled, q.kind, q.pc, g, x, turn);
    } else {
      QuietClean(c, p, cancelled, q.kind, q.pc, g, x, turn);
    }
    StayLinear(p, procs, g, turn);
  }

  /** The steps that publish a recreated id. */
  lemma MoveLinear(c: Config, p: Pool, cancelled: bool, procs: map<Gid, Proc>, g: Gid, x: WorkMove, turn: Turn)
    requires LinearInv(p, procs) && TableInv(c, p, procs) && g in procs && procs[g].Work? && Unpublished(p, procs[g])
    requires x.DoMoveLock? || x.DoMoveSend?
    requires WorkTurn(c, p, cancelled, procs[g].kind, procs[g].pc, g, x) == Some(turn)
    ensures LinearInv(turn.pool, Put(procs, g, turn.next))
  {
    var id := procs[g].pc.id;
    assert InRange(p, procs[g]) && Holds(procs, g, id);
    if x.DoMoveSend? {
      PublishLinear(p, procs, g, id, turn);
    } else if cancelled {
      AbandonLinear(p, procs, g, id, turn);
    } else {
      RewriteLinear(p, procs, g, id, turn.pool.dbs[id], turn);
    }
  }

  lemma WorkLinear(c: Config, p: Pool, cancelled: bool, procs: map<Gid, Proc>, g: Gid, x: WorkMove, turn: Turn)
    requires LinearInv(p, procs) && TableInv(c, p, procs) && g in procs && procs[g].Work? && Unpublished(p, procs[g])
    requires procs[g].pc.ExtendLock? ==> !p.removal && procs[g].kind != Clean
    requires forall id: nat :: id in p.ready ==> id < |p.dbs|
    requires WorkTurn(c, p, cancelled, procs[g].kind, procs[g].pc, g, x) == Some(turn)
    ensures LinearInv(turn.pool, Put(procs, g, turn.next))
  {
    var q := procs[g];
    assert ProcFacts(p, q) && InRange(p, q);
    match x
    case DoExtend => if |p.dbs| == p.cap { StayLinear(p, procs, g, turn); } else { ExtendLinear(p, procs, g, turn); }
    case DoCleanTake => TakeLinear(p, procs, g, q.kind, turn);
    case DoRecLock(mark) =>
      assert Holds(procs, g, q.pc.id);
      RewriteLinear(p, procs, g, q.pc.id, turn.pool.dbs[q.pc.id], turn);
    case DoMoveLock => MoveLinear(c, p, cancelled, procs, g, x, turn);
    case DoMoveSend => MoveLinear(c, p, cancelled, procs, g, x, turn);
    case DoRecCheck => GiveUpLinear(c, p, cancelled, procs, g, x, turn);
    case DoRecLoop => GiveUpLinear(c, p, cancelled, procs, g, x, turn);
    case DoRecCall(outcome) => GiveUpLinear(c, p, cancelled, procs, g, x, turn);
    case _ => QuietLinear(c, p, cancelled, procs, g, x, turn);
  }

  // ---------------------------------------------------------------- all steps

  ghost predicate LinearState(c: Config, s: State) {
    FullState(c, s) && LinearInv(s.pool, s.procs)
  }

  /** A published or carried id has one claim, so an unpublished one is not ready. */
  lemma NotReadyYet(c: Config, s: State, g: Gid)
    requires LinearState(c, s) && g in s.procs && s.procs[g].Work? && PcId(s.procs[g].pc).Some? && !s.procs[g].pc.MoveSend?
    ensures !IsReady(s.pool, PcId(s.procs[g].pc).value)
  {
    var id := PcId(s.procs[g].pc).value;
    assert Holds(s.procs, g, id);
    if IsReady(s.pool, id) {
      var h :| Carries(s.procs, h, id);
      assert NoDrain(s.procs[h]);
      assert Holds(s.procs, h, id);
      assert false;
    }
  }

  lemma IdleLinear(p: Pool, procs: map<Gid, Proc>, g: Gid, next: Option<Proc>)
    requires LinearInv(p, procs) && TokenAt(procs, g).None? && TokenNext(next).None?
    requires next.Some? ==> next.value.Work?
    ensures LinearInv(p, Put(procs, g, next))
  {
    StayLinear(p, procs, g, Turn(p, next, None));
  }

  lemma TickLinear(s: State, time: int)
    requires LinearInv(s.pool, s.procs) && s.pool.now <= time
    ensures LinearInv(s.pool.(now := time), s.procs)
  {
    var p' := s.pool.(now := time);
    forall id: nat | id < |p'.dbs|
      ensures Somewhere(p', s.procs, id)
    {
      assert Somewhere(s.pool, s.procs, id);
    }
    forall h | h in s.procs
      ensures ProcFacts(p', s.procs[h])
    {
      assert ProcFacts(s.pool, s.procs[h]);
    }
  }

  lemma LinearArrival(c: Config, mode: Mode, s: State, x: Arrival, t: State)
    requires LinearState(c, s) && !mode.Full? && Allowed(mode, s, OfArrival(x)) && Do(c, s, OfArrival(x)) == Some(t)
    ensures LinearInv(t.pool, t.procs)
  {
    var g := Client(s.nextClient);
    assert s.pool.ready != [] ==> s.pool.ready[0] in s.pool.ready;
    ArriveLinear(c, s.pool, s.sched, s.procs, g, x, Arrive(c, s.pool, s.sched, g, x).value);
  }

  lemma LinearClient(c: Config, s: State, g: Gid, x: ClientMove, t: State)
    requires LinearState(c, s) && Do(c, s, OfClient(g, x)) == Some(t)
    ensures LinearInv(t.pool, t.procs)
  {
    var q := s.procs[g];
    assert InRange(s.pool, q);
    if q.GetWait? {
      assert Carries(s.procs, g, q.id);
    }
    if q.Remover? {
      assert HoldsLock(q);
      assert forall h <- s.procs :: HoldsLock(s.procs[h]) ==> h == g;
    }
    ClientLinear(c, s.pool, s.sched, s.procs, g, x, ClientTurn(c, s.pool, s.sched, q, g, x).value);
  }

  lemma LinearWork(c: Config, s: State, g: Gid, x: WorkMove, t: State)
    requires LinearState(c, s) && Do(c, s, OfWorker(g, x)) == Some(t)
    ensures LinearInv(t.pool, t.procs)
  {
    var q := s.procs[g];
    assert ProcOk(g, q, s.nextClient, s.pool.removal);
    if Live(q) {
      NoRemovalYet(c, s, g);
    }
    if q.pc.MoveLock? {
      NotReadyYet(c, s, g);
    }
    WorkLinear(c, s.pool, s.sched.cancelled, s.procs, g, x, WorkTurn(c, s.pool, s.sched.cancelled, q.kind, q.pc, g, x).value);
  }

  lemma LinearReport(c: Config, s: State, g: Gid, x: Report, t: State)
    requires LinearInv(s.pool, s.procs) && Do(c, s, OfReport(g, x)) == Some(t)
    ensures LinearInv(t.pool, t.procs)
  {
    IdleLinear(s.pool, s.procs, g, if x == ToWaitGroup then Some(Work(s.procs[g].kind, SemRelease)) else None);
  }

  lemma LinearSched(c: Config, s: State, x: SchedStep, t: State)
    requires LinearState(c, s) && Do(c, s, OfSched(x)) == Some(t)
    ensures LinearInv(t.pool, t.procs)
  {
    SchedShape(c, s, x, t);
    if x.LoopSpawn? {
      var j := s.sched.loop.job;
      assert s.sched.ledger[j.serial] == Picked;
      IdleLinear(s.pool, s.procs, TaskRun(j.serial), Some(StartPc(j.kind)));
    }
  }

  lemma LinearKeeps(c: Config, mode: Mode, s: State, step: Step, t: State)
    requires LinearState(c, s) && !mode.Full? && Allowed(mode, s, step) && Do(c, s, step) == Some(t)
    ensures LinearState(c, t)
  {
    FullKeeps(c, s, step, t);
    match step
    case OfTick(time) => TickLinear(s, time);
    case OfArrival(x) => LinearArrival(c, mode, s, x, t);
    case OfClient(g, x) => LinearClient(c, s, g, x, t);
    case OfWorker(g, x) => LinearWork(c, s, g, x, t);
    case OfReport(g, x) => LinearReport(c, s, g, x, t);
    case OfSched(x) => LinearSched(c, s, x, t);
  }

  lemma RunLinearStep(c: Config, mode: Mode, states: seq<State>, steps: seq<Step>, i: nat)
    requires Run(c, mode, states, steps) && !mode.Full? && i < |steps| && LinearState(c, states[i])
    ensures LinearState(c, states[i + 1])
  {
    RunStep(c, mode, states, steps, i);
    LinearKeeps(c, mode, states[i], steps[i], states[i + 1]);
  }

  lemma RunLinear(c: Config, mode: Mode, states: seq<State>, steps: seq<Step>, i: nat)
    requires Run(c, mode, states, steps) && !mode.Full? && i < |states|
    ensures LinearState(c, states[i])
  {
    var inv := s => LinearState(c, s);
    RunFull(c, mode, states, steps, 0);
    forall k: nat ensures KeptAt(inv, states, k) {
      if k < |steps| && inv(states[k]) {
        RunLinearStep(c, mode, states, steps, k);
      }
    }
    AlongRun(inv, states, i);
  }

  // ---------------------------------------------------------------- theorems

  function Holders(s: State, id: nat): (r: set<Gid>) {
    set g | g in s.procs && TokenOf(s.procs[g]) == Some(id)
  }

  lemma LinearHere(c: Config, s: State, id: nat)
    requires LinearState(c, s) && id < |s.pool.dbs|
    ensures multiset(s.pool.ready)[id] + multiset(s.pool.dirty)[id] + |Holders(s, id)| + (if id in s.pool.abandoned then 1 else 0) == 1
  {
    DistinctCount(s.pool.ready, id);
    DistinctCount(s.pool.dirty, id);
    assert Somewhere(s.pool, s.procs, id);
    if h: Gid :| Holds(s.procs, h, id) {
      forall g | g in Holders(s, id)
        ensures g == h
      {
        assert Holds(s.procs, g, id);
      }
      assert Holders(s, id) == {h};
    } else {
      forall g | g in Holders(s, id)
        ensures false
      {
        assert Holds(s.procs, g, id);
      }
      assert Holders(s, id) == {};
    }
  }

  /**
    Token linearity. In every run with manual operations on queued ids only, each tracked id is in
    exactly one place: once in `ready`, once in `dirty`, with one getter or worker, or abandoned.
    */
  lemma TokenLinearity(c: Config, mode: Mode, states: seq<State>, steps: seq<Step>, i: nat, id: nat)
    requires Run(c, mode, states, steps) && !mode.Full? && i < |states|
    requires id < |states[i].pool.dbs|
    ensures
      var s := states[i];
      multiset(s.pool.ready)[id] + multiset(s.pool.dirty)[id] + |Holders(s, id)| + (if id in s.pool.abandoned then 1 else 0) == 1
  {
    RunLinear(c, mode, states, steps, i);
    LinearHere(c, states[i], id);
  }

  /** The "already ready", "not dirty" and "generation changed" bailouts of the workers never fire. */
  lemma NoBailouts(c: Config, mode: Mode, states: seq<State>, steps: seq<Step>, i: nat, g: Gid)
    requires Run(c, mode, states, steps) && !mode.Full? && i < |states|
    requires g in states[i].procs && states[i].procs[g].Work? && PcId(states[i].procs[g].pc).Some?
    requires PcId(states[i].procs[g].pc).value < |states[i].pool.dbs|
    ensures
      var pc := states[i].procs[g].pc;
      var d := states[i].pool.dbs[PcId(pc).value];
      && (pc.MoveLock? ==> d.state != Ready)
      && (pc.RecLock? ==> d.state == Dirty)
      && (pc.CleanSleep? ==> d.generation == pc.generation && d.state == Dirty)
  {
    RunLinear(c, mode, states, steps, i);
    assert ProcFacts(states[i].pool, states[i].procs[g]);
    if states[i].procs[g].pc.MoveLock? {
      NotReadyYet(c, states[i], g);
    }
  }

  /** A getter about to send to `dirty` holds the mutex and never finds the channel full. */
  lemma DirtyHasRoom(c: Config, mode: Mode, states: seq<State>, steps: seq<Step>, i: nat, g: Gid)
    requires Run(c, mode, states, steps) && !mode.Full? && i < |states|
    requires g in states[i].procs && states[i].procs[g].GetSend?
    ensures states[i].pool.lock == Some(g)
    ensures |states[i].pool.dirty| < c.max
  {
    RunLinear(c, mode, states, steps, i);
    var s := states[i];
    var id := s.procs[g].id;
    assert Holds(s.procs, g, id);
    assert InRange(s.pool, s.procs[g]);
    RoomFor(s.pool.dirty, id, c.max);
  }

  /** An effective return keeps every id in exactly one place if and only if the id sits in `dirty`. */
  lemma ReturnKeepsLinearity(c: Config, s: State, id: nat, t: State)
    requires LinearState(c, s) && CanReturn(s.pool, id) && Do(c, s, OfArrival(ReturnAtomic(id))) == Some(t)
    ensures TokenInv(t.pool, t.procs) <==> id in s.pool.dirty
  {
    var g := Client(s.nextClient);
    assert g !in s.procs;
    if id in s.pool.dirty {
      ReturnLinear(s.pool, s.procs, g, id, Arrive(c, s.pool, s.sched, g, ReturnAtomic(id)).value);
    } else {
      assert Somewhere(s.pool, s.procs, id);
      assert id in t.pool.ready;
      if h :| Holds(s.procs, h, id) {
        assert Holds(t.procs, h, id);
      }
    }
  }

  /** A recreate of a tracked id keeps every id in exactly one place if and only if the id sits in `dirty`. */
  lemma RecreateKeepsLinearity(c: Config, s: State, id: nat, t: State)
    requires LinearState(c, s) && id < |s.pool.dbs| && Do(c, s, OfArrival(RecreateAtomic(id))) == Some(t)
    ensures TokenInv(t.pool, t.procs) <==> id in s.pool.dirty
  {
    var g := Client(s.nextClient);
    assert g !in s.procs;
    if id in s.pool.dirty {
      RecreateLinear(s.pool, s.procs, g, id, Arrive(c, s.pool, s.sched, g, RecreateAtomic(id)).value);
    } else {
      assert Somewhere(s.pool, s.procs, id);
      assert Holds(t.procs, g, id);
      if h :| Holds(s.procs, h, id) {
        assert Holds(t.procs, h, id);
      }
    }
  }
}
