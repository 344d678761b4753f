/**
  HashPool's methods as they run when nothing interferes. Each method's effect on the pool is the
  result of a sequence of steps of the concurrent machine, which most methods return as a ghost.
  */
module HashPools {
  import opened Queues
  import opened PoolMachine
  import opened PoolFull
  import opened PoolPanics
  import opened PoolRefine
  import opened PoolSequential

  datatype Error = ErrPoolFull | ErrInvalidIndex | ErrTimeout | ErrCancelled | ErrCreate | ErrRemove | ErrNilContext
  datatype Result<+T> = Ok(value: T) | Err(error: Error)

  /** An id channel of fixed capacity. */
  class Chan {
    const cap: nat
    var items: seq<nat>

    ghost predicate Valid()
      reads this
    {
      |items| <= cap
    }

    constructor (cap: nat)
      ensures Valid() && this.cap == cap && items == []
    {
      this.cap := cap;
      items := [];
    }

    method Send(x: nat)
      requires |items| < cap
      modifies this
      ensures Valid() && items == old(items) + [x]
    {
      items := items + [x];
    }

    method Receive() returns (x: nat)
      requires Valid() && items != []
      modifies this
      ensures Valid() && x == old(items)[0] && items == old(items)[1..]
    {
      x := items[0];
      items := items[1..];
    }
  }

  /** The first loop: move everything but `excludeID` into the buffer, until the channel is empty. */
  method DrainInto(ch: Chan, filtered: Chan, excludeID: nat)
    requires ch != filtered && ch.Valid() && filtered.items == [] && filtered.cap == ch.cap
    modifies ch, filtered
    ensures ch.items == [] && filtered.Valid() && filtered.items == Without(old(ch.items), excludeID)
  {
    ghost var all, n := ch.items, 0;
    while ch.items != []
      invariant 0 <= n <= |all| <= ch.cap && ch.items == all[n..]
      invariant filtered.items == Without(all[..n], excludeID)
      decreases |ch.items|
    {
      WithoutShorter(all[..n], excludeID);
      WithoutSnoc(all[..n], all[n], excludeID);
      assert all[..n] + [all[n]] == all[..n + 1];
      var id := ch.Receive();
      if id != excludeID {
        filtered.Send(id);
      }
      n := n + 1;
    }
    assert all[..n] == all;
    WithoutShorter(all, excludeID);
  }

  /** The second loop: send the buffer's ids to the channel in order. */
  method FlushInto(filtered: Chan, ch: Chan)
    requires ch != filtered && ch.items == [] && filtered.Valid() && filtered.cap == ch.cap
    modifies ch, filtered
    ensures ch.Valid() && ch.items == old(filtered.items)
  {
    while filtered.items != []
      invariant filtered.Valid() && ch.items + filtered.items == old(filtered.items)
      decreases |filtered.items|
    {
      var id := filtered.Receive();
      ch.Send(id);
    }
  }

  /** Takes every occurrence of one id out of the channel; neither loop ever blocks. */
  method ExcludeIDFromChannel(ch: Chan, excludeID: nat)
    requires ch.Valid()
    modifies ch
    ensures ch.Valid() && ch.items == Without(old(ch.items), excludeID)
  {
    var filtered := new Chan(ch.cap);
    DrainInto(ch, filtered, excludeID);
    FlushInto(filtered, ch);
  }

  lemma IdIsIndex(c: Config, p: Pool, id: nat)
    requires AtRest(c, p) && id < |p.dbs|
    ensures p.dbs[id].id == id
  {
  }

  function Started(c: Config, d: Sched): (r: Sched) {
    d.(running := true, ctxSet := true, control := Starting, wg := d.wg + 1,
       tasks := d.tasks + InitialJobs(d.nextJob, InitialCount(c)), nextJob := d.nextJob + InitialCount(c))
  }

  lemma StartIsDo(c: Config, p: Pool, d: Sched, n: nat)
    requires p.lock.None? && d.control.NotStarted? && |d.tasks| + InitialCount(c) <= c.max + 1
    ensures Do(c, Solo(p, d, n, Client(0), None), OfSched(Start)) == Some(Solo(p, Started(c, d), n, Client(0), None))
  {
  }

  /** None of the ids from `lo` to `hi` fails to be removed. */
  ghost predicate NoneFrom(failing: set<nat>, lo: nat, hi: nat) {
    forall x :: lo <= x < hi ==> x !in failing
  }

  class HashPool {
    const c: Config
    var dbs: seq<TestDb>
    var cap: nat
    const ready: Chan
    const dirty: Chan
    var slots: nat
    var tasks: seq<Job>
    var nextJob: nat
    var closed: bool
    var running: bool
    var ctxSet: bool
    var cancelled: bool
    var wg: nat
    var clock: int
    ghost var removal: bool
    ghost var history: seq<Event>
    ghost var abandoned: set<nat>
    ghost var clients: nat
    ghost var loops: Sched

    /** The pool as the concurrent machine sees it. */
    ghost function View(): (p: Pool)
      reads this, ready, dirty
    {
      Pool(dbs, cap, ready.items, dirty.items, slots, None, closed, removal, clock, history, abandoned)
    }

    /** The task system; `loops` is what the control loop and the worker loop have made of it. */
    ghost function TaskView(): (d: Sched)
      reads this
    {
      loops.(tasks := tasks, nextJob := nextJob, running := running, ctxSet := ctxSet, cancelled := cancelled, wg := wg)
    }

    /** The machine state with the goroutine `g` about to be at `next`, or with nothing in flight. */
    ghost function Snap(g: Gid, next: Option<Proc>): (s: State)
      reads this, ready, dirty
    {
      Solo(View(), TaskView(), clients, g, next)
    }

    ghost predicate Wired()
      reads this, ready, dirty
    {
      ready != dirty && ready.Valid() && dirty.Valid() && ready.cap == c.max && dirty.cap == c.max
    }

    ghost predicate Valid()
      reads this, ready, dirty
    {
      Wired() && AtRest(c, View())
    }

    constructor (cfg: Config, now: int)
      ensures Valid() && fresh(ready) && fresh(dirty) && c == cfg
      ensures Snap(Client(0), None) == Init(cfg, now)
    {
      c := cfg;
      dbs, cap, slots := [], cfg.max, 0;
      ready := new Chan(cfg.max);
      dirty := new Chan(cfg.max);
      tasks, nextJob, closed, running, ctxSet, clock := [], 0, false, false, false, now;
      cancelled, wg := false, 0;
      removal, history, abandoned, clients, loops := false, [], {}, 0, NoTasks;
    }

    /** The extend tasks for the initial databases. */
    method SendInitial()
      requires |tasks| + InitialCount(c) <= c.max + 1
      modifies this`tasks, this`nextJob
      ensures tasks == old(tasks) + InitialJobs(old(nextJob), InitialCount(c)) && nextJob == old(nextJob) + InitialCount(c)
    {
      var i := 0;
      while i < c.initial
        invariant 0 <= i <= InitialCount(c) && nextJob == old(nextJob) + i
        invariant tasks == old(tasks) + InitialJobs(old(nextJob), i)
      {
        assert InitialJobs(old(nextJob), i + 1) == InitialJobs(old(nextJob), i) + [Job(ExtendJob, nextJob)];
        tasks := tasks + [Job(ExtendJob, nextJob)];
        nextJob := nextJob + 1;
        i := i + 1;
      }
    }

    /** Sends the initial extend tasks and starts the control loop; a pool that already runs is left alone. */
    method Start()
      requires Valid()
      requires !running ==> loops.control.NotStarted? && |tasks| + InitialCount(c) <= c.max + 1
      modifies this`running, this`ctxSet, this`tasks, this`nextJob, this`wg, this`loops
      ensures Valid() && running
      ensures old(running) ==> Snap(Client(0), None) == old(Snap(Client(0), None))
      ensures !old(running) ==> Do(c, old(Snap(Client(0), None)), OfSched(PoolMachine.Start)) == Some(Snap(Client(0), None))
    {
      if running {
        return;
      }
      StartIsDo(c, View(), TaskView(), clients);
      StartLoops();
    }

    method StartLoops()
      requires |tasks| + InitialCount(c) <= c.max + 1
      modifies this`running, this`ctxSet, this`tasks, this`nextJob, this`wg, this`loops
      ensures View() == old(View()) && TaskView() == Started(c, old(TaskView()))
    {
      SendInitial();
      running, ctxSet, wg, loops := true, true, wg + 1, loops.(control := Starting);
      assert View() == old(View());
    }

    method PushTask(kind: JobKind)
      requires |tasks| <= c.max && !closed
      modifies this`tasks, this`nextJob
      ensures tasks == old(tasks) + [Job(kind, old(nextJob))] && nextJob == old(nextJob) + 1
    {
      tasks := tasks + [Job(kind, nextJob)];
      nextJob := nextJob + 1;
    }

    /** What GetTestDatabase does under the mutex with the id it received. */
    method GrantReceived(index: nat) returns (testDB: TestDb)
      requires Wired() && index < |dbs| && |dirty.items| < c.max && |tasks| <= c.max && !closed
      modifies this`dbs, this`history, this`tasks, this`nextJob, this`clients, dirty
      ensures Wired() && testDB == old(Grant(dbs[index], clock + c.lifetime))
      ensures View() == old(View().(dbs := dbs[index := Grant(dbs[index], clock + c.lifetime)],
                                    dirty := dirty.items + [index],
                                    history := history + [Granted(index, clock, dbs[index].generation)]))
      ensures TaskView() == Sent(old(TaskView()), TaskAfterGrant(c, View())) && clients == old(clients) + 1
    {
      testDB := Grant(dbs[index], clock + c.lifetime);
      history := history + [Granted(index, clock, dbs[index].generation)];
      dbs := dbs[index := testDB];
      dirty.Send(index);
      clients := clients + 1;
      assert TaskView() == old(TaskView());
      AskForMore();
    }

    /** The task a grant asks for, given the sizes it sees. */
    method AskForMore()
      requires |tasks| <= c.max && !closed
      modifies this`tasks, this`nextJob
      ensures View() == old(View()) && TaskView() == Sent(old(TaskView()), TaskAfterGrant(c, View()))
    {
      if |dbs| < c.max {
        PushTask(ExtendJob);
      } else if |ready.items| + slots < c.initial {
        PushTask(CleanJob);
      }
    }

    /** Takes the first ready id and grants its database. */
    method TakeReady() returns (testDB: TestDb, ghost steps: seq<Step>)
      requires Valid() && |tasks| <= c.max && ready.items != []
      modifies this`dbs, this`history, this`tasks, this`nextJob, this`clients, ready, dirty
      ensures Valid() && testDB.id == old(ready.items)[0] && testDB.state == Dirty
      ensures old(IsReady(View(), ready.items[0])) && View() == old(AfterGet(c, View()))
      ensures Exec(c, old(Snap(Client(clients), None)), steps) == Some(Snap(Client(old(clients)), None))
    {
      GetIsExec(c, View(), TaskView(), clients);
      GetRests(c, View());
      IdIsIndex(c, View(), ready.items[0]);
      ghost var p := AfterGet(c, View());
      steps := GetSteps(clients, TaskAfterGrant(c, p).Some?);
      var index := ready.Receive();
      testDB := GrantReceived(index);
      assert View() == p;
    }

    /**
      Waits for a ready id, unless the timeout or the client's context comes first, which `other`
      says; then flags the database as dirty, queues it for cleaning and asks for more databases.
      */
    method GetTestDatabase(other: Option<Error>) returns (r: Result<TestDb>, ghost steps: seq<Step>)
      requires Valid() && |tasks| <= c.max
      requires other == Some(ErrTimeout) || other == Some(ErrCancelled) || other == None
      modifies this, ready, dirty
      ensures Valid()
      ensures r.Err? <==> other.Some? || old(ready.items) == []
      ensures r.Err? ==> r.error == (if other.Some? then other.value else ErrTimeout) && Snap(Client(0), None) == old(Snap(Client(0), None))
      ensures r.Ok? ==>
        && r.value.id == old(ready.items)[0] && r.value.state == Dirty
        && old(IsReady(View(), ready.items[0])) && View() == old(AfterGet(c, View()))
        && Exec(c, old(Snap(Client(clients), None)), steps) == Some(Snap(Client(old(clients)), None))
    {
      steps := [];
      if other.Some? {
        r := Err(other.value);
      } else if ready.items == [] {
        r := Err(ErrTimeout);
      } else {
        var testDB;
        testDB, steps := TakeReady();
        r := Ok(testDB);
      }
    }

    /** A dirty database goes back to the ready ones, out of the dirty queue. */
    method Unlock(id: nat)
      requires Wired() && id < |dbs| && |ready.items| < c.max
      modifies this, ready, dirty
      ensures Wired() && View() == old(AfterReturn(View(), id))
      ensures TaskView() == old(TaskView()) && clients == old(clients) + 1
    {
      ghost var d := TaskView();
      dbs := dbs[id := dbs[id].(state := Ready)];
      history := history + [Unlocked(id)];
      ExcludeIDFromChannel(dirty, id);
      ready.Send(id);
      clients := clients + 1;
      assert TaskView() == d;
    }

    /** Puts a dirty database back into `ready` without cleaning it; a database in another state is left alone. */
    method ReturnTestDatabase(vanished: bool, id: int) returns (r: Result<()>)
      requires Valid()
      modifies this, ready, dirty
      ensures Valid()
      ensures r == (if vanished then Err(ErrCancelled) else if 0 <= id < old(|dbs|) then Ok(()) else Err(ErrInvalidIndex))
      ensures r.Ok? && old(CanReturn(View(), id)) ==>
        && View() == old(AfterReturn(View(), id))
        && Do(c, old(Snap(Client(clients), None)), OfArrival(ReturnAtomic(id))) == Some(Snap(Client(old(clients)), None))
      ensures r.Err? || !old(CanReturn(View(), id)) ==> Snap(Client(0), None) == old(Snap(Client(0), None))
    {
      if vanished {
        return Err(ErrCancelled);
      }
      if id < 0 || id >= |dbs| {
        return Err(ErrInvalidIndex);
      }
      if dbs[id].state != Dirty {
        return Ok(());
      }
      ghost var p, d, n := View(), TaskView(), clients;
      ReturnIsExec(c, p, d, n, id);
      ReturnRests(c, p, id);
      Unlock(id);
      r := Ok(());
    }

    /** The retry loop: calls until one does not report the database as in use. */
    method TryRecreate(id: nat, results: seq<Outcome>) returns (try: nat)
      requires exists k :: 0 <= k < |results| && results[k] != InUse
      modifies this`history
      ensures try < |results| && results[try] != InUse && forall k :: 0 <= k < try ==> results[k] == InUse
      ensures history == Attempts(old(history), id, try)
    {
      try := 0;
      while results[try] == InUse
        invariant 0 <= try < |results|
        invariant forall k :: 0 <= k < try ==> results[k] == InUse
        invariant exists k :: try <= k < |results| && results[k] != InUse
        invariant history == Attempts(old(history), id, try)
        decreases |results| - try
      {
        history := history + [CallStart(id), CallFailed(id)];
        try := try + 1;
      }
    }

    /** A slot is taken, the database is recreated and published or given up, and the slot is freed. */
    method RecreateClaimed(id: nat, results: seq<Outcome>) returns (created: bool, ghost tries: nat)
      requires Wired() && slots == 0 && id < |dbs| && dbs[id].id == id && |ready.items| < c.max
      requires exists k :: 0 <= k < |results| && results[k] != InUse
      modifies this`dbs, this`slots, this`history, this`abandoned, ready
      ensures Wired() && tries < |results| && results[tries] != InUse && (forall k :: 0 <= k < tries ==> results[k] == InUse)
      ensures created == (results[tries] == Created)
      ensures View() == old(AfterRecreate(View(), id, tries, results[tries] == Created))
    {
      slots := slots + 1;
      var try := TryRecreate(id, results);
      tries := try;
      created := results[try] == Created;
      if created {
        history := history + [CallStart(id), CallOk(id, |history|), Regenerated(id)];
        dbs := dbs[id := dbs[id].(generation := dbs[id].generation + 1, state := Ready)];
        ready.Send(dbs[id].id);
      } else {
        history := history + [CallStart(id), CallFailed(id)];
        abandoned := abandoned + {id};
      }
      slots := slots - 1;
    }

    /**
      Recreates a dirty database, trying again as long as it is in use, and publishes it; with a
      cancelled context it gives the database up. `results` are the outcomes of the recreation calls;
      the loop ends with the first that is not InUse.
      */
    method RecreateDatabaseGracefully(id: nat, results: seq<Outcome>, ghost g: Gid, ghost kind: Kind)
      returns (r: Result<()>, ghost tries: nat, ghost steps: seq<Step>)
      requires Valid() && id < |dbs| && id !in dirty.items
      requires exists k :: 0 <= k < |results| && results[k] != InUse
      modifies this`dbs, this`slots, this`history, this`abandoned, ready
      ensures Valid()
      ensures cancelled ==> r == Err(ErrCancelled) && View() == old(Abandon(View(), id))
      ensures !cancelled && old(dbs[id].state) != Dirty ==> r == Ok(()) && View() == old(View())
      ensures !cancelled && old(dbs[id].state) == Dirty ==>
        && tries < |results| && results[tries] != InUse && (forall k :: 0 <= k < tries ==> results[k] == InUse)
        && r == (if results[tries] == Created then Ok(()) else Err(ErrCreate))
        && View() == old(AfterRecreate(View(), id, tries, results[tries] == Created))
      ensures Exec(c, old(Snap(g, Some(Work(kind, RecCheck(id))))), steps) == Some(Snap(g, EndOf(kind)))
    {
      tries := 0;
      ghost var p, d := View(), TaskView();
      if cancelled {
        CancelledIsExec(c, p, d, clients, g, kind, id);
        FailRests(c, p, Abandon(p, id));
        steps := [OfWorker(g, DoRecCheck)];
        abandoned := abandoned + {id};
        assert View() == Abandon(p, id);
        r := Err(ErrCancelled);
      } else if dbs[id].state != Dirty {
        SkippedIsExec(c, p, d, clients, g, kind, id);
        steps := [OfWorker(g, DoRecCheck), OfWorker(g, DoRecLock(false))];
        r := Ok(());
      } else {
        IdIsIndex(c, p, id);
        RecreateIsExec(c, p, d, clients, g, kind, id, 0, true);
        var created;
        created, tries := RecreateClaimed(id, results);
        assert View() == AfterRecreate(p, id, tries, created);
        RecreateIsExec(c, p, d, clients, g, kind, id, tries, created);
        RecreateRests(c, p, id, tries, created);
        steps := RecreateWork(g, tries, created);
        r := if created then Ok(()) else Err(ErrCreate);
      }
    }

    /** Adds one database to the pool, unless it is full, and creates it. */
    method Extend(results: seq<Outcome>, ghost g: Gid) returns (r: Result<()>, ghost tries: nat, ghost steps: seq<Step>)
      requires Valid() && (!removal || |dbs| == cap)
      requires exists k :: 0 <= k < |results| && results[k] != InUse
      modifies this`dbs, this`slots, this`history, this`abandoned, ready
      ensures Valid()
      ensures old(|dbs|) == cap ==> r == Err(ErrPoolFull) && View() == old(View())
      ensures old(|dbs|) < cap && cancelled ==> r == Err(ErrCancelled) && View() == Abandon(Appended(old(View())), old(|dbs|))
      ensures old(|dbs|) < cap && !cancelled ==>
        && tries < |results| && results[tries] != InUse && (forall k :: 0 <= k < tries ==> results[k] == InUse)
        && r == (if results[tries] == Created then Ok(()) else Err(ErrCreate))
        && View() == AfterRecreate(Appended(old(View())), old(|dbs|), tries, results[tries] == Created)
      ensures Exec(c, old(Snap(g, Some(Work(PoolMachine.Extend, ExtendLock)))), steps) == Some(Snap(g, EndOf(PoolMachine.Extend)))
    {
      tries := 0;
      ghost var p, d := View(), TaskView();
      if |dbs| == cap {
        FullIsExec(c, p, d, clients, g);
        steps := [OfWorker(g, DoExtend)];
        r := Err(ErrPoolFull);
      } else {
        AppendRests(c, p);
        var index := |dbs|;
        dbs := dbs + [TestDb(index, Dirty, 0, 0)];
        ghost var work;
        r, tries, work := RecreateDatabaseGracefully(index, results, g, PoolMachine.Extend);
        AppendIsExec(c, p, d, clients, g, work);
        steps := [OfWorker(g, DoExtend)] + work;
      }
    }

    /** Takes the oldest queued id and sleeps until it may be cleaned. */
    method TakeOldest() returns (id: nat)
      requires Wired() && dirty.items != [] && dirty.items[0] < |dbs|
      modifies this`history, this`clock, dirty
      ensures Wired() && id == old(dirty.items)[0] && View() == old(AfterPop(View()))
      ensures dbs[id].blockUntil <= clock
    {
      id := dirty.Receive();
      history := history + [Popped(id)];
      if clock < dbs[id].blockUntil {
        clock := dbs[id].blockUntil;
      }
    }

    /**
      Cleans the oldest queued database, after sleeping until that is allowed; an empty queue means
      nothing to do. With a cancelled context `skip` says whether the cancellation is seen first.
      */
    method AutoCleanDirty(skip: bool, results: seq<Outcome>, ghost g: Gid)
      returns (r: Result<()>, ghost tries: nat, ghost steps: seq<Step>)
      requires Valid()
      requires exists k :: 0 <= k < |results| && results[k] != InUse
      modifies this`dbs, this`slots, this`history, this`abandoned, this`clock, ready, dirty
      ensures Valid()
      ensures old(dirty.items) == [] || (cancelled && skip) ==>
        r == (if cancelled then Err(ErrCancelled) else Ok(())) && View() == old(View())
      ensures old(dirty.items) != [] && cancelled && !skip ==>
        && r == Err(ErrCancelled) && old(CanReturn(View(), dirty.items[0]))
        && View() == Abandon(old(AfterPop(View())), old(dirty.items[0]))
      ensures old(dirty.items) != [] && !cancelled ==>
        && old(CanReturn(View(), dirty.items[0])) && old(dbs[dirty.items[0]].blockUntil) <= clock
        && tries < |results| && results[tries] != InUse && (forall k :: 0 <= k < tries ==> results[k] == InUse)
        && r == (if results[tries] == Created then Ok(()) else Err(ErrCreate))
        && View() == AfterRecreate(old(AfterPop(View())), old(dirty.items[0]), tries, results[tries] == Created)
      ensures Exec(c, old(Snap(g, Some(Work(Clean, CleanTake)))), steps) == Some(Snap(g, EndOf(Clean)))
    {
      tries := 0;
      ghost var p, d := View(), TaskView();
      if dirty.items == [] || (cancelled && skip) {
        NothingIsExec(c, p, d, clients, g);
        steps := [OfWorker(g, DoCleanSkip)];
        r := if cancelled then Err(ErrCancelled) else Ok(());
      } else {
        PopRests(c, p);
        PopIsExec(c, p, d, clients, g);
        var id := TakeOldest();
        ghost var t := Snap(g, Some(Work(Clean, RecCheck(id))));
        ghost var work;
        r, tries, work := RecreateDatabaseGracefully(id, results, g, Clean);
        ExecConcat(c, Solo(p, d, clients, g, Some(Work(Clean, CleanTake))), CleanWork(g, p), work, t);
        steps := CleanWork(g, p) + work;
      }
    }

    /** What a manual recreation of `id` makes of the pool `p`. */
    ghost predicate Recreated(p: Pool, id: nat, results: seq<Outcome>, tries: nat)
      reads this, ready, dirty
      requires id < |p.dbs|
    {
      if cancelled then View() == Abandon(p, id)
      else if !CanReturn(p, id) then View() == p
      else
        && tries < |results| && results[tries] != InUse && (forall k :: 0 <= k < tries ==> results[k] == InUse)
        && View() == AfterRecreate(p, id, tries, results[tries] == Created)
    }

    /** The manual worker of an id that has left the cleaning queue, run to its end. */
    method SpawnManual(id: nat, results: seq<Outcome>) returns (ghost tries: nat, ghost work: seq<Step>)
      requires Valid() && id < |dbs| && id !in dirty.items
      requires exists k :: 0 <= k < |results| && results[k] != InUse
      modifies this`dbs, this`slots, this`history, this`abandoned, this`clients, ready
      ensures Valid() && Recreated(old(View()), id, results, tries) && clients == old(clients) + 1
      ensures Exec(c, old(Solo(View(), TaskView(), clients + 1, Client(clients), Some(Work(Manual, RecCheck(id))))), work)
           == Some(Snap(Client(old(clients)), None))
    {
      ghost var n := clients;
      clients := clients + 1;
      var ignored;
      ignored, tries, work := RecreateDatabaseGracefully(id, results, Client(n), Manual);
    }

    /** Takes a tracked id out of the cleaning queue and spawns its manual worker, if there is a context for it. */
    method RecreateQueued(id: nat, results: seq<Outcome>) returns (ok: bool, ghost tries: nat, ghost steps: seq<Step>)
      requires Valid() && id < |dbs|
      requires exists k :: 0 <= k < |results| && results[k] != InUse
      modifies this`dbs, this`slots, this`history, this`abandoned, this`clients, ready, dirty
      ensures Valid() && ok == ctxSet
      ensures var queued := old(View()).(dirty := Without(old(dirty.items), id));
              if ok then Recreated(queued, id, results, tries) else View() == queued
      ensures ok ==> Exec(c, old(Snap(Client(clients), None)), steps) == Some(Snap(Client(old(clients)), None))
    {
      ghost var p, d, n := View(), TaskView(), clients;
      ghost var queued := p.(dirty := Without(p.dirty, id));
      tries, steps, ok := 0, [], ctxSet;
      QueueShrinks(c, p, id, queued);
      ExcludeIDFromChannel(dirty, id);
      assert View() == queued;
      if ok {
        ghost var work;
        ghost var s := Solo(queued, d, n + 1, Client(n), Some(Work(Manual, RecCheck(id))));
        assert Solo(View(), TaskView(), clients + 1, Client(clients), Some(Work(Manual, RecCheck(id)))) == s;
        tries, work := SpawnManual(id, results);
        assert Exec(c, s, work) == Some(Snap(Client(n), None));
        SpawnIsExec(c, p, d, n, id, work);
        steps := [OfArrival(RecreateAtomic(id))] + work;
      }
    }

    /**
      Takes a database out of the cleaning queue and recreates it at once in a worker of its own. After
      a stop there is no context for that worker, which is a nil dereference.
      */
    method RecreateTestDatabase(vanished: bool, id: int, results: seq<Outcome>)
      returns (r: Result<()>, ghost tries: nat, ghost steps: seq<Step>)
      requires Valid()
      requires exists k :: 0 <= k < |results| && results[k] != InUse
      modifies this, ready, dirty
      ensures Valid()
      ensures r == Err(ErrInvalidIndex) <==> id < 0 || id >= old(|dbs|)
      ensures r == Err(ErrCancelled) <==> 0 <= id < old(|dbs|) && vanished
      ensures r == Err(ErrNilContext) <==> !vanished && id >= 0 && old(Panics(Snap(Client(clients), None), OfArrival(RecreateAtomic(id))))
      ensures r.Err? ==> r.error == ErrInvalidIndex || r.error == ErrCancelled || r.error == ErrNilContext
      ensures r == Err(ErrInvalidIndex) || r == Err(ErrCancelled) ==> View() == old(View())
      ensures r.Ok? || r == Err(ErrNilContext) ==>
        var queued := old(View()).(dirty := Without(old(dirty.items), id));
        if r.Ok? then Recreated(queued, id, results, tries) else View() == queued
      ensures r.Ok? ==> Exec(c, old(Snap(Client(clients), None)), steps) == Some(Snap(Client(old(clients)), None))
      ensures cancelled == old(cancelled)
    {
      tries, steps := 0, [];
      if id < 0 || id >= |dbs| {
        r := Err(ErrInvalidIndex);
      } else if vanished {
        r := Err(ErrCancelled);
      } else {
        var ok;
        ok, tries, steps := RecreateQueued(id, results);
        r := if ok then Ok(()) else Err(ErrNilContext);
      }
    }

    /** One iteration of the removal loop, after the database `id` has been dropped. */
    method Forget(id: nat)
      requires Wired() && |dbs| == id + 1
      modifies this`dbs, this`history, ready, dirty
      ensures Wired()
      ensures dirty.items == Without(old(dirty.items), id) && ready.items == Without(old(ready.items), id)
      ensures dbs == (if id > 0 then old(dbs)[..id] else old(dbs)) && history == old(history) + [Dropped(id)]
    {
      if |dbs| > 1 {
        dbs := dbs[..|dbs| - 1];
      }
      ExcludeIDFromChannel(dirty, id);
      ExcludeIDFromChannel(ready, id);
      history := history + [Dropped(id)];
    }

    /** The removal loop: from the back, until the table is through or a removal fails at `id`. */
    method RemoveLoop(failing: set<nat>) returns (id: int)
      requires Wired() && |dbs| > 0
      requires KeepBelow(ready.items, |dbs|) == ready.items && KeepBelow(dirty.items, |dbs|) == dirty.items
      modifies this`dbs, this`history, ready, dirty
      ensures Wired() && -1 <= id < old(|dbs|)
      ensures id >= 0 ==> dbs == old(dbs)[..id + 1] && id in failing
      ensures NoneFrom(failing, id + 1, old(|dbs|))
      ensures dirty.items == KeepBelow(old(dirty.items), id + 1) && ready.items == KeepBelow(old(ready.items), id + 1)
      ensures history == old(history) + Falls(old(|dbs|), old(|dbs|) - 1 - id)
    {
      ghost var p := View();
      id := |dbs| - 1;
      while id >= 0
        invariant -1 <= id < |p.dbs| && Wired()
        invariant id >= 0 ==> dbs == p.dbs[..id + 1]
        invariant dirty.items == KeepBelow(p.dirty, id + 1) && ready.items == KeepBelow(p.ready, id + 1)
        invariant NoneFrom(failing, id + 1, |p.dbs|)
        invariant history == p.history + Falls(|p.dbs|, |p.dbs| - 1 - id)
      {
        if id in failing {
          return;
        }
        KeepBelowStep(p.dirty, id);
        KeepBelowStep(p.ready, id);
        assert p.dbs[..id + 1][..id] == p.dbs[..id];
        FallsSnoc(p.history, |p.dbs|, id);
        Forget(id);
        id := id - 1;
      }
    }

    /** RemoveAll under the mutex. */
    method RemoveTracked(failing: set<nat>) returns (failed: bool, ghost at: nat)
      requires Wired() && |dbs| > 0
      requires KeepBelow(ready.items, |dbs|) == ready.items && KeepBelow(dirty.items, |dbs|) == dirty.items
      modifies this`dbs, this`cap, this`closed, this`removal, this`history, this`clients, ready, dirty
      ensures Wired() && clients == old(clients) + 1
      ensures at < old(|dbs|) && (failed ==> at in failing && NoneFrom(failing, at + 1, old(|dbs|)))
      ensures !failed ==> NoneFrom(failing, 0, old(|dbs|))
      ensures View() == RemovalPool(old(View()), failed, at)
    {
      removal := true;
      clients := clients + 1;
      var id := RemoveLoop(failing);
      failed := id >= 0;
      at := if failed then id else 0;
      if !failed {
        dbs, cap, closed := [], 0, true;
      }
    }

    /** The removal of at least one database, with the machine's steps. */
    method RemoveRest(failing: set<nat>) returns (failed: bool, ghost at: nat, ghost steps: seq<Step>)
      requires Valid() && TaskView().stop.Stopped? && |dbs| > 0
      modifies this`dbs, this`cap, this`closed, this`removal, this`history, this`clients, ready, dirty
      ensures Valid() && at < old(|dbs|) && (failed ==> at in failing && NoneFrom(failing, at + 1, old(|dbs|)))
      ensures !failed ==> NoneFrom(failing, 0, old(|dbs|))
      ensures View() == RemovalPool(old(View()), failed, at)
      ensures Exec(c, old(Snap(Client(clients), None)), steps) == Some(Snap(Client(old(clients)), None))
      ensures !failed ==> dbs == [] && cap == 0 && closed && ready.items == [] && dirty.items == []
    {
      ghost var p, d, n := View(), TaskView(), clients;
      AllTracked(c, p);
      failed, at := RemoveTracked(failing);
      ghost var q := RemovalPool(p, failed, at);
      assert View() == q && TaskView() == d && clients == n + 1;
      steps := RemovalOutcome(c, p, d, n, failed, at);
    }

    /**
      Drops all databases from the back, once Stop has returned. `failing` are the ids whose removal
      fails; the loop stops at the highest of them, with exactly the ids up to it still tracked.
      */
    method RemoveAll(failing: set<nat>) returns (r: Result<()>, ghost at: nat, ghost steps: seq<Step>)
      requires Valid() && TaskView().stop.Stopped?
      modifies this`dbs, this`cap, this`closed, this`removal, this`history, this`clients, ready, dirty
      ensures Valid()
      ensures r.Ok? <==> NoneFrom(failing, 0, old(|dbs|))
      ensures r.Err? ==> r == Err(ErrRemove) && at < old(|dbs|) && at in failing && NoneFrom(failing, at + 1, old(|dbs|))
      ensures r.Ok? && old(|dbs|) == 0 ==> Snap(Client(0), None) == old(Snap(Client(0), None))
      ensures old(|dbs|) > 0 ==>
        && at < old(|dbs|) && View() == RemovalPool(old(View()), r.Err?, at)
        && Exec(c, old(Snap(Client(clients), None)), steps) == Some(Snap(Client(old(clients)), None))
      ensures r.Ok? && old(|dbs|) > 0 ==> dbs == [] && cap == 0 && closed && ready.items == [] && dirty.items == []
    {
      at, steps := 0, [];
      if |dbs| == 0 {
        r := Ok(());
      } else {
        var failed;
        failed, at, steps := RemoveRest(failing);
        r := if failed then Err(ErrRemove) else Ok(());
      }
    }
  }

  /** The pool a removal leaves behind when it fails at `at`, or not at all. */
  function RemovalPool(p: Pool, failed: bool, at: nat): (r: Pool)
    requires at < |p.dbs|
  {
    if failed then AfterDrops(p, |p.dbs| - 1 - at) else AfterRemoveAll(p)
  }

  /** One lock, a drop for each id above `at`, and a failure or the last drop lead to that pool. */
  lemma RemovalOutcome(c: Config, p: Pool, d: Sched, n: nat, failed: bool, at: nat) returns (steps: seq<Step>)
    requires AtRest(c, p) && d.stop.Stopped? && at < |p.dbs|
    ensures AtRest(c, RemovalPool(p, failed, at))
    ensures Exec(c, Solo(p, d, n, Client(n), None), steps) == Some(Solo(RemovalPool(p, failed, at), d, n + 1, Client(n), None))
    ensures !failed ==> var q := RemovalPool(p, failed, at); q.dbs == [] && q.ready == [] && q.dirty == [] && q.cap == 0 && q.closed
  {
    NothingAbove(c, p);
    if failed {
      FailedRemovalIsExec(c, p, d, n, |p.dbs| - 1 - at);
      DropsRest(c, p, |p.dbs| - 1 - at);
      steps := RemoveSteps(n, |p.dbs| - 1 - at, RemoveFail);
    } else {
      WholeRemovalIsExec(c, p, d, n);
      RemovedRests(c, p);
      steps := RemoveSteps(n, |p.dbs| - 1, RemoveLast);
    }
  }

  lemma FallsSnoc(h: seq<Event>, n: nat, id: nat)
    requires id < n
    ensures h + Falls(n, n - 1 - id) + [Dropped(id)] == h + Falls(n, n - id)
  {
  }

  lemma DropsRest(c: Config, p: Pool, k: nat)
    requires AtRest(c, p) && k < |p.dbs|
    ensures AtRest(c, AfterDrops(p, k))
  {
    CutRests(c, p, |p.dbs| - k, AfterDrops(p, k));
  }

  lemma RemovedRests(c: Config, p: Pool)
    requires AtRest(c, p)
    ensures var q := AfterRemoveAll(p);
            AtRest(c, q) && q.dbs == [] && q.ready == [] && q.dirty == []
  {
    NothingAbove(c, p);
    CutRests(c, p, 0, AfterRemoveAll(p));
  }

  lemma AllTracked(c: Config, p: Pool)
    requires AtRest(c, p)
    ensures KeepBelow(p.ready, |p.dbs|) == p.ready && KeepBelow(p.dirty, |p.dbs|) == p.dirty
  {
    KeepBelowAll(p.ready, |p.dbs|);
    KeepBelowAll(p.dirty, |p.dbs|);
  }

  lemma NothingAbove(c: Config, p: Pool)
    requires AtRest(c, p)
    ensures KeepBelow(p.ready, |p.dbs|) == p.ready && KeepBelow(p.dirty, |p.dbs|) == p.dirty
    ensures KeepBelow(p.ready, 0) == [] && KeepBelow(p.dirty, 0) == []
    ensures p.closed ==> p.dbs == []
  {
    AllTracked(c, p);
    KeepBelowMembers(p.ready, 0);
    KeepBelowMembers(p.dirty, 0);
    EmptyQueue(KeepBelow(p.ready, 0), 0);
    EmptyQueue(KeepBelow(p.dirty, 0), 0);
  }
}
