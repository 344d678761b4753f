/**
  Isolation and the minimal lifetime, over every run in which manual operations hit only ids that
  still sit in `dirty`.
  */
module PoolIsolation {
  import opened Queues
  import opened PoolMachine
  import opened PoolFull
  import opened PoolQueued

  // ---------------------------------------------------------------- reading the history

  predicate Disturbs(e: Event, id: nat) {
    (e.CallStart? || e.CallFailed?) && e.id == id
  }

  predicate Grants(e: Event, id: nat) {
    e.Granted? && e.id == id
  }

  ghost predicate CreatedAt(h: seq<Event>, k: int, id: nat) {
    && 0 <= k < |h| && h[k].CallOk? && h[k].id == id
    && forall m :: k < m < |h| ==> !Disturbs(h[m], id)
  }

  /** The last recreation call for `id` succeeded and none has begun since. */
  ghost predicate CleanDb(h: seq<Event>, id: nat) {
    exists k :: CreatedAt(h, k, id)
  }

  /** Event `k` ends what the grant at `i` began: an unlock, or the success of a call begun after the grant. */
  predicate Resets(h: seq<Event>, k: int, i: int, id: nat)
    requires 0 <= k < |h|
  {
    || h[k] == Unlocked(id)
    || (h[k].CallOk? && h[k].id == id && i < h[k].began < k && h[h[k].began] == CallStart(id))
  }

  ghost predicate ResetBetween(h: seq<Event>, i: int, j: int, id: nat) {
    exists k :: i < k < j && 0 <= k < |h| && Resets(h, k, i, id)
  }

  /** Every grant of `id` so far has been ended. */
  ghost predicate Reset(h: seq<Event>, id: nat) {
    forall i :: 0 <= i < |h| && Grants(h[i], id) ==> ResetBetween(h, i, |h|, id)
  }

  ghost predicate Isolated(h: seq<Event>) {
    && (forall i, j :: 0 <= i < j < |h| && h[j].Granted? && Grants(h[i], h[j].id) ==> ResetBetween(h, i, j, h[j].id))
    && (forall j :: 0 <= j < |h| && h[j].Granted? ==> CleanDb(h[..j], h[j].id))
  }

  lemma CleanKept(h: seq<Event>, e: Event, id: nat)
    requires CleanDb(h, id) && !Disturbs(e, id)
    ensures CleanDb(h + [e], id)
  {
    var k :| CreatedAt(h, k, id);
    assert CreatedAt(h + [e], k, id);
  }

  lemma ResetStays(h: seq<Event>, e: Event, i: int, j: int, id: nat)
    requires ResetBetween(h, i, j, id) && j <= |h|
    ensures ResetBetween(h + [e], i, j, id) && ResetBetween(h + [e], i, |h| + 1, id)
  {
    var k :| i < k < j && 0 <= k < |h| && Resets(h, k, i, id);
    assert Resets(h + [e], k, i, id);
  }

  lemma ResetKept(h: seq<Event>, e: Event, id: nat)
    requires Reset(h, id) && !Grants(e, id)
    ensures Reset(h + [e], id)
  {
    forall i | 0 <= i < |h + [e]| && Grants((h + [e])[i], id)
      ensures ResetBetween(h + [e], i, |h| + 1, id)
    {
      ResetStays(h, e, i, |h|, id);
    }
  }

  lemma UnlockResets(h: seq<Event>, id: nat)
    ensures Reset(h + [Unlocked(id)], id)
  {
    var h' := h + [Unlocked(id)];
    forall i | 0 <= i < |h'| && Grants(h'[i], id)
      ensures ResetBetween(h', i, |h'|, id)
    {
      assert Resets(h', |h|, i, id);
    }
  }

  lemma CallResets(h: seq<Event>, id: nat, began: nat)
    requires began < |h| && h[began] == CallStart(id)
    requires forall i :: 0 <= i < |h| && Grants(h[i], id) ==> i < began
    ensures Reset(h + [CallOk(id, began)], id) && CleanDb(h + [CallOk(id, began)], id)
  {
    var h' := h + [CallOk(id, began)];
    forall i | 0 <= i < |h'| && Grants(h'[i], id)
      ensures ResetBetween(h', i, |h'|, id)
    {
      assert Resets(h', |h|, i, id);
    }
    assert CreatedAt(h', |h|, id);
  }

  lemma IsolatedSnoc(h: seq<Event>, e: Event)
    requires Isolated(h)
    requires e.Granted? ==> Reset(h, e.id) && CleanDb(h, e.id)
    ensures Isolated(h + [e])
  {
    var h' := h + [e];
    forall i, j | 0 <= i < j < |h'| && h'[j].Granted? && Grants(h'[i], h'[j].id)
      ensures ResetBetween(h', i, j, h'[j].id)
    {
      ResetStays(h, e, i, j, h'[j].id);
    }
    forall j | 0 <= j < |h'| && h'[j].Granted?
      ensures CleanDb(h'[..j], h'[j].id)
    {
      assert h'[..j] == h[..j];
      assert j == |h| ==> h[..j] == h;
    }
  }

  // ---------------------------------------------------------------- the invariant

  ghost predicate ProcHist(h: seq<Event>, q: Proc) {
    match q
    case GetWait(id) => CleanDb(h, id) && Reset(h, id)
    case GetSend(id) => CleanDb(h, id)
    case Work(_, MoveLock(id)) => CleanDb(h, id) && Reset(h, id)
    case Work(_, MoveSend(id)) => CleanDb(h, id) && Reset(h, id)
    case Work(_, RecCall(id, began)) =>
      && began < |h| && h[began] == CallStart(id)
      && forall i :: 0 <= i < |h| && Grants(h[i], id) ==> i < began
    case _ => true
  }

  ghost predicate HistInv(p: Pool, procs: map<Gid, Proc>) {
    && (forall id: nat :: id in p.ready ==> CleanDb(p.history, id) && Reset(p.history, id))
    && (forall id: nat :: id in p.dirty ==> CleanDb(p.history, id))
    && (forall g <- procs :: ProcHist(p.history, procs[g]))
    && Isolated(p.history)
  }

  lemma ProcHistKept(h: seq<Event>, e: Event, q: Proc)
    requires ProcHist(h, q) && TokenOf(q) != Some(e.id)
    ensures ProcHist(h + [e], q)
  {
    if TokenOf(q).Some? {
      var id := TokenOf(q).value;
      if CleanDb(h, id) { CleanKept(h, e, id); }
      if Reset(h, id) { ResetKept(h, e, id); }
    }
  }

  /** A turn of `g` that logs nothing. */
  lemma QuietHist(p: Pool, procs: map<Gid, Proc>, g: Gid, turn: Turn)
    requires HistInv(p, procs) && turn.pool.history == p.history
    requires forall id: nat :: id in turn.pool.ready ==> id in p.ready || (CleanDb(p.history, id) && Reset(p.history, id))
    requires forall id: nat :: id in turn.pool.dirty ==> id in p.dirty || CleanDb(p.history, id)
    requires turn.next.Some? ==> ProcHist(p.history, turn.next.value)
    ensures HistInv(turn.pool, Put(procs, g, turn.next))
  {
  }

  /** A turn of `g` that logs `e` about an id no other goroutine holds. */
  lemma LogHist(p: Pool, procs: map<Gid, Proc>, g: Gid, e: Event, turn: Turn)
    requires HistInv(p, procs) && turn.pool.history == p.history + [e]
    requires forall h :: h != g ==> !Holds(procs, h, e.id)
    requires forall id: nat :: id in turn.pool.ready ==>
      (id in p.ready && id != e.id) || (CleanDb(turn.pool.history, id) && Reset(turn.pool.history, id))
    requires forall id: nat :: id in turn.pool.dirty ==> (id in p.dirty && id != e.id) || CleanDb(turn.pool.history, id)
    requires turn.next.Some? ==> ProcHist(turn.pool.history, turn.next.value)
    requires e.Granted? ==> Reset(p.history, e.id) && CleanDb(p.history, e.id)
    ensures HistInv(turn.pool, Put(procs, g, turn.next))
  {
    var h := p.history;
    forall id: nat | id != e.id
      ensures CleanDb(h, id) ==> CleanDb(h + [e], id)
      ensures Reset(h, id) ==> Reset(h + [e], id)
    {
      if CleanDb(h, id) { CleanKept(h, e, id); }
      if Reset(h, id) { ResetKept(h, e, id); }
    }
    forall k | k in procs && k != g
      ensures ProcHist(h + [e], procs[k])
    {
      assert !Holds(procs, k, e.id);
      ProcHistKept(h, e, procs[k]);
    }
    IsolatedSnoc(h, e);
  }

  predicate Neutral(e: Event) {
    e.Popped? || e.Regenerated? || e.Dropped?
  }

  /** A turn of `g` that logs an event no grant or recreation depends on. */
  lemma NeutralHist(p: Pool, procs: map<Gid, Proc>, g: Gid, e: Event, turn: Turn)
    requires HistInv(p, procs) && turn.pool.history == p.history + [e] && Neutral(e)
    requires forall id: nat :: id in turn.pool.ready ==> id in p.ready
    requires forall id: nat :: id in turn.pool.dirty ==> id in p.dirty
    requires turn.next.Some? ==> ProcHist(p.history, turn.next.value)
    ensures HistInv(turn.pool, Put(procs, g, turn.next))
  {
    var h := p.history;
    forall id: nat
      ensures CleanDb(h, id) ==> CleanDb(h + [e], id)
      ensures Reset(h, id) ==> Reset(h + [e], id)
    {
      if CleanDb(h, id) { CleanKept(h, e, id); }
      if Reset(h, id) { ResetKept(h, e, id); }
    }
    IsolatedSnoc(h, e);
  }

  // ---------------------------------------------------------------- all steps

  lemma ArriveHist(c: Config, p: Pool, d: Sched, procs: map<Gid, Proc>, g: Gid, x: Arrival, turn: Turn)
    requires HistInv(p, procs) && TokenInv(p, procs) && g !in procs && QueuedArrival(p, x)
    requires Arrive(c, p, d, g, x) == Some(turn)
    ensures HistInv(turn.pool, Put(procs, g, turn.next))
  {
    match x
    case GetReceive =>
      assert p.ready[0] in p.ready;
      QuietHist(p, procs, g, turn);
    case ReturnAtomic(id) =>
      if CanReturn(p, id) {
        CleanKept(p.history, Unlocked(id), id);
        UnlockResets(p.history, id);
        LogHist(p, procs, g, Unlocked(id), turn);
      } else {
        QuietHist(p, procs, g, turn);
      }
    case _ => QuietHist(p, procs, g, turn);
  }

  lemma ClientHist(c: Config, p: Pool, d: Sched, procs: map<Gid, Proc>, g: Gid, x: ClientMove, turn: Turn)
    requires HistInv(p, procs) && TokenInv(p, procs) && g in procs && !procs[g].Work?
    requires ClientTurn(c, p, d, procs[g], g, x) == Some(turn)
    ensures HistInv(turn.pool, Put(procs, g, turn.next))
  {
    var q := procs[g];
    assert ProcHist(p.history, q) && NoDrain(q);
    if x.GetLock? && turn.next.Some? {
      assert Holds(procs, g, q.id);
      var e := Granted(q.id, p.now, p.dbs[q.id].generation);
      CleanKept(p.history, e, q.id);
      LogHist(p, procs, g, e, turn);
    } else if x.RemoveDrop? || x.RemoveLast? {
      NeutralHist(p, procs, g, Dropped(q.next), turn);
    } else {
      QuietHist(p, procs, g, turn);
    }
  }

  predicate PlainPc(q: Proc) {
    q.Work? && !q.pc.MoveLock? && !q.pc.MoveSend? && !q.pc.RecCall?
  }

  lemma WorkQuietShapeEarly(c: Config, p: Pool, cancelled: bool, kind: Kind, pc: Pc, g: Gid, x: WorkMove, turn: Turn)
    requires WorkTurn(c, p, cancelled, kind, pc, g, x) == Some(turn) && turn.pool.history == p.history && Early(x)
    ensures turn.pool.dirty == p.dirty && turn.pool.ready == p.ready
    ensures turn.next.Some? ==> PlainPc(turn.next.value)
  {
  }

  lemma WorkQuietShapeLate(c: Config, p: Pool, cancelled: bool, kind: Kind, pc: Pc, g: Gid, x: WorkMove, turn: Turn)
    requires WorkTurn(c, p, cancelled, kind, pc, g, x) == Some(turn) && turn.pool.history == p.history && !Early(x)
    requires !x.DoMoveSend?
    ensures turn.pool.dirty == p.dirty && turn.pool.ready == p.ready
    ensures turn.next.Some? ==> PlainPc(turn.next.value)
  {
  }

  lemma WorkQuietShapeSend(c: Config, p: Pool, cancelled: bool, kind: Kind, pc: Pc, g: Gid, turn: Turn)
    requires WorkTurn(c, p, cancelled, kind, pc, g, DoMoveSend) == Some(turn)
    ensures turn.pool.dirty == p.dirty && turn.pool.ready == p.ready + Published(p, pc)
    ensures turn.next.Some? ==> PlainPc(turn.next.value)
  {
  }

  /** What a worker at this point puts into `ready`. */
  function Published(p: Pool, pc: Pc): (r: seq<nat>) {
    if pc.MoveSend? && pc.id < |p.dbs| then [p.dbs[pc.id].id] else []
  }

  /** The worker steps that log nothing change the queues only by publishing the worker's own id. */
  lemma WorkQuietShape(c: Config, p: Pool, cancelled: bool, kind: Kind, pc: Pc, g: Gid, x: WorkMove, turn: Turn)
    requires WorkTurn(c, p, cancelled, kind, pc, g, x) == Some(turn)
    requires turn.pool.history == p.history
    ensures turn.pool.dirty == p.dirty
    ensures turn.pool.ready == p.ready || turn.pool.ready == p.ready + Published(p, pc)
    ensures turn.next.Some? ==> PlainPc(turn.next.value)
  {
    if Early(x) {
      WorkQuietShapeEarly(c, p, cancelled, kind, pc, g, x, turn);
    } else if x.DoMoveSend? {
      WorkQuietShapeSend(c, p, cancelled, kind, pc, g, turn);
    } else {
      WorkQuietShapeLate(c, p, cancelled, kind, pc, g, x, turn);
    }
  }

  lemma WorkQuietHist(c: Config, p: Pool, cancelled: bool, procs: map<Gid, Proc>, g: Gid, x: WorkMove, turn: Turn)
    requires HistInv(p, procs) && g in procs && procs[g].Work?
    requires forall i :: 0 <= i < |p.dbs| ==> p.dbs[i].id == i
    requires WorkTurn(c, p, cancelled, procs[g].kind, procs[g].pc, g, x) == Some(turn)
    requires turn.pool.history == p.history
    ensures HistInv(turn.pool, Put(procs, g, turn.next))
  {
    assert ProcHist(p.history, procs[g]);
    WorkQuietShape(c, p, cancelled, procs[g].kind, procs[g].pc, g, x, turn);
    QuietHist(p, procs, g, turn);
  }

  lemma CallHist(c: Config, p: Pool, cancelled: bool, procs: map<Gid, Proc>, g: Gid, x: WorkMove, turn: Turn)
    requires HistInv(p, procs) && TokenInv(p, procs) && g in procs && procs[g].Work?
    requires WorkTurn(c, p, cancelled, procs[g].kind, procs[g].pc, g, x) == Some(turn)
    requires x.DoRecCall? || (x.DoRecLoop? && !cancelled)
    ensures HistInv(turn.pool, Put(procs, g, turn.next))
  {
    var pc := procs[g].pc;
    assert ProcHist(p.history, procs[g]);
    assert Holds(procs, g, pc.id);
    if x.DoRecLoop? {
      LogHist(p, procs, g, CallStart(pc.id), turn);
    } else if x.outcome == Created {
      CallResets(p.history, pc.id, pc.began);
      LogHist(p, procs, g, CallOk(pc.id, pc.began), turn);
    } else {
      LogHist(p, procs, g, CallFailed(pc.id), turn);
    }
  }

  lemma WorkHist(c: Config, p: Pool, cancelled: bool, procs: map<Gid, Proc>, g: Gid, x: WorkMove, turn: Turn)
    requires HistInv(p, procs) && TokenInv(p, procs) && g in procs && procs[g].Work?
    requires forall i :: 0 <= i < |p.dbs| ==> p.dbs[i].id == i
    requires WorkTurn(c, p, cancelled, procs[g].kind, procs[g].pc, g, x) == Some(turn)
    ensures HistInv(turn.pool, Put(procs, g, turn.next))
  {
    assert ProcHist(p.history, procs[g]);
    if turn.pool.history == p.history {
      WorkQuietHist(c, p, cancelled, procs, g, x, turn);
    } else if x.DoCleanTake? {
      NeutralHist(p, procs, g, Popped(p.dirty[0]), turn);
    } else if x.DoMoveLock? {
      NeutralHist(p, procs, g, Regenerated(procs[g].pc.id), turn);
    } else {
      CallHist(c, p, cancelled, procs, g, x, turn);
    }
  }

  lemma HistKeeps(c: Config, mode: Mode, s: State, step: Step, t: State)
    requires TokenInv(s.pool, s.procs) && HistInv(s.pool, s.procs)
    requires Client(s.nextClient) !in s.procs
    requires forall i :: 0 <= i < |s.pool.dbs| ==> s.pool.dbs[i].id == i
    requires !mode.Full? && Allowed(mode, s, step) && Do(c, s, step) == Some(t)
    ensures HistInv(t.pool, t.procs)
  {
    match step
    case OfTick(time) =>
    case OfArrival(x) =>
      var g := Client(s.nextClient);
      ArriveHist(c, s.pool, s.sched, s.procs, g, x, Arrive(c, s.pool, s.sched, g, x).value);
    case OfClient(g, x) =>
      ClientHist(c, s.pool, s.sched, s.procs, g, x, ClientTurn(c, s.pool, s.sched, s.procs[g], g, x).value);
    case OfWorker(g, x) =>
      WorkHist(c, s.pool, s.sched.cancelled, s.procs, g, x,
               WorkTurn(c, s.pool, s.sched.cancelled, s.procs[g].kind, s.procs[g].pc, g, x).value);
    case OfReport(g, x) =>
    case OfSched(x) => SchedShape(c, s, x, t);
  }

  lemma LinearFacts(c: Config, s: State)
    requires LinearState(c, s)
    ensures TokenInv(s.pool, s.procs) && Client(s.nextClient) !in s.procs
    ensures forall i :: 0 <= i < |s.pool.dbs| ==> s.pool.dbs[i].id == i
  {
  }

  lemma RunHistStep(c: Config, mode: Mode, states: seq<State>, steps: seq<Step>, i: nat)
    requires Run(c, mode, states, steps) && !mode.Full? && i < |steps| && HistInv(states[i].pool, states[i].procs)
    ensures HistInv(states[i + 1].pool, states[i + 1].procs)
  {
    RunLinear(c, mode, states, steps, i);
    LinearFacts(c, states[i]);
    RunStep(c, mode, states, steps, i);
    HistKeeps(c, mode, states[i], steps[i], states[i + 1]);
  }

  lemma RunHist(c: Config, mode: Mode, states: seq<State>, steps: seq<Step>, i: nat)
    requires Run(c, mode, states, steps) && !mode.Full? && i < |states|
    ensures HistInv(states[i].pool, states[i].procs)
  {
    var inv := (s: State) => HistInv(s.pool, s.procs);
    forall k: nat ensures KeptAt(inv, states, k) {
      if k < |steps| && inv(states[k]) {
        RunHistStep(c, mode, states, steps, k);
      }
    }
    AlongRun(inv, states, i);
  }

  /**
    Isolation. Two grants of the same database are separated by an unlock of it or by a successful
    recreation that began after the first grant; and no database is granted unless its latest
    recreation succeeded and none has begun since.
    */
  lemma Isolation(c: Config, mode: Mode, states: seq<State>, steps: seq<Step>, n: nat, j: nat)
    requires Run(c, mode, states, steps) && !mode.Full? && n < |states|
    requires j < |states[n].pool.history| && states[n].pool.history[j].Granted?
    ensures
      var h, id := states[n].pool.history, states[n].pool.history[j].id;
      && CleanDb(h[..j], id)
      && forall i :: 0 <= i < j && Grants(h[i], id) ==> ResetBetween(h, i, j, id)
  {
    RunHist(c, mode, states, steps, n);
  }

  // ---------------------------------------------------------------- minimal lifetime

  /** From its claim of a database to the recreation call, retries included. */
  predicate Recreating(pc: Pc) {
    pc.RecLock? || pc.RecSlot? || pc.RecLoop? || pc.RecCall?
  }

  /**
    Minimal lifetime. While an automatic cleaner claims a database, begins to recreate it, or is
    recreating it, at least the minimal lifetime has passed since every grant of it, even if the
    cleaner slept in between.
    */
  lemma MinimalLifetime(c: Config, mode: Mode, states: seq<State>, steps: seq<Step>, i: nat, g: Gid, k: nat)
    requires Run(c, mode, states, steps) && !mode.Full? && i < |states|
    requires g in states[i].procs && states[i].procs[g].Work? && states[i].procs[g].kind == Clean
    requires Recreating(states[i].procs[g].pc)
    requires k < |states[i].pool.history| && Grants(states[i].pool.history[k], states[i].procs[g].pc.id)
    ensures states[i].pool.history[k].time + c.lifetime <= states[i].pool.now
  {
    RunLinear(c, mode, states, steps, i);
    NoRemovalYet(c, states[i], g);
    assert InRange(states[i].pool, states[i].procs[g]);
    assert ProcFacts(states[i].pool, states[i].procs[g]);
    assert GrantKnown(c, states[i].pool, states[i].pool.history, k);
  }
}
