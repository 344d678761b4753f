/**
  Why isolation and the minimal lifetime need returns to hit queued ids. A cleaner sleeps on a
  database; its client returns it and another client is granted it; the cleaner wakes, finds the
  database dirty and in the generation it saw, and recreates it under the second client.
  */
module PoolRace {
  import opened Queues
  import opened PoolMachine
  import opened PoolRefine
  import opened PoolSequential
  import opened PoolScenarios

  /** One database, kept from automatic cleaning for ten units of time after a grant. */
  const Long := Config(1, 1, 1, 10)

  const Cleaner := Waiter

  /** Only the cleaner is in flight. */
  function Lurking(p: Pool, d: Sched, n: nat, pc: Pc): (s: State) {
    Solo(p, d, n, Cleaner, Some(Work(Clean, pc)))
  }

  const Sleeping := CleanSleep(0, 1, 10)

  /** The cleaner has taken the first client's database out of `dirty`. */
  const PoppedPool := Taken1(Long).(dirty := [], history := Taken1(Long).history + [Popped(0)])

  const SleepSteps: seq<Step> := [OfWorker(Cleaner, DoCleanTake), OfWorker(Cleaner, DoCleanRead)]

  lemma FallsAsleep()
    ensures Exec(Long, Lurking(Taken1(Long), SpawnedSched, 1, CleanTake), SleepSteps)
         == Some(Lurking(PoppedPool, SpawnedSched, 1, Sleeping))
  {
    var p, d := Taken1(Long), SpawnedSched;
    assert [0][1..] == [];
    SoloWork(Long, p, d, 1, Cleaner, Clean, CleanTake, DoCleanTake, Turn(PoppedPool, Some(Work(Clean, CleanRead(0))), None));
    SoloWork(Long, PoppedPool, d, 1, Cleaner, Clean, CleanRead(0), DoCleanRead, Turn(PoppedPool, Some(Work(Clean, Sleeping)), None));
    ExecTwo(Long, Lurking(p, d, 1, CleanTake), OfWorker(Cleaner, DoCleanTake), Lurking(PoppedPool, d, 1, CleanRead(0)),
            OfWorker(Cleaner, DoCleanRead), Lurking(PoppedPool, d, 1, Sleeping));
  }

  /** The first client has returned the database. */
  const ReturnedPool :=
    PoppedPool.(dbs := [TestDb(0, Ready, 1, 10)], ready := [0], history := PoppedPool.history + [Unlocked(0)])

  lemma HandsBack()
    ensures Do(Long, Lurking(PoppedPool, SpawnedSched, 1, Sleeping), OfArrival(ReturnAtomic(0)))
         == Some(Lurking(ReturnedPool, SpawnedSched, 2, Sleeping))
  {
    assert Without([], 0) == [];
    assert PoppedPool.dbs[0 := TestDb(0, Ready, 1, 10)] == [TestDb(0, Ready, 1, 10)] && [] + [0] == [0];
    var procs := One(Cleaner, Some(Work(Clean, Sleeping)));
    assert procs - {Client(1)} == procs;
  }

  const ReturnSteps: seq<Step> := [OfArrival(ReturnAtomic(0)), OfTick(5)]

  /** At time 5 the database is on offer again and the cleaner still asleep. */
  const OfferedAt5 := Lurking(ReturnedPool.(now := 5), SpawnedSched, 2, Sleeping)

  lemma ComesBack()
    ensures Exec(Long, Lurking(PoppedPool, SpawnedSched, 1, Sleeping), ReturnSteps) == Some(OfferedAt5)
  {
    HandsBack();
    ExecTwo(Long, Lurking(PoppedPool, SpawnedSched, 1, Sleeping), OfArrival(ReturnAtomic(0)),
            Lurking(ReturnedPool, SpawnedSched, 2, Sleeping), OfTick(5), OfferedAt5);
  }

  /** The second client has the database, and the clock stands at 10. */
  const UsedPool := Served(Long, OfferedAt5).pool.(now := 10)

  const UsedSched := PushTask(SpawnedSched, CleanJob)

  const UseSteps: seq<Step> := ServeSteps(2) + [OfClient(Client(2), GetPushTask), OfTick(10)]

  lemma IsUsed()
    ensures Exec(Long, OfferedAt5, UseSteps) == Some(Lurking(UsedPool, UsedSched, 3, Sleeping))
  {
    ServeRuns(Long, OfferedAt5);
    Sends(Long, OfferedAt5);
    var u := Serving(Long, OfferedAt5, GetTask(0, CleanJob), [0]);
    ExecTwo(Long, u, OfClient(Client(2), GetPushTask), Served(Long, OfferedAt5), OfTick(10), Lurking(UsedPool, UsedSched, 3, Sleeping));
    ExecJoin(Long, OfferedAt5, ServeSteps(2), u, [OfClient(Client(2), GetPushTask), OfTick(10)],
             Lurking(UsedPool, UsedSched, 3, Sleeping));
  }

  const WakeSteps: seq<Step> := [OfWorker(Cleaner, DoCleanWake), OfWorker(Cleaner, DoRecCheck)]

  /** The recheck after the sleep passes: same generation, and dirty. */
  lemma Wakes()
    ensures Exec(Long, Lurking(UsedPool, UsedSched, 3, Sleeping), WakeSteps) == Some(Lurking(UsedPool, UsedSched, 3, RecLock(0)))
  {
    var p, d := UsedPool, UsedSched;
    SoloWork(Long, p, d, 3, Cleaner, Clean, Sleeping, DoCleanWake, Turn(p, Some(Work(Clean, RecCheck(0))), None));
    SoloWork(Long, p, d, 3, Cleaner, Clean, RecCheck(0), DoRecCheck, Turn(p, Some(Work(Clean, RecLock(0))), None));
    ExecTwo(Long, Lurking(p, d, 3, Sleeping), OfWorker(Cleaner, DoCleanWake), Lurking(p, d, 3, RecCheck(0)),
            OfWorker(Cleaner, DoRecCheck), Lurking(p, d, 3, RecLock(0)));
  }

  const ClaimedPool := UsedPool.(dbs := [TestDb(0, Recreating, 1, 15)], slots := 1)

  const StrikeSteps: seq<Step> := [OfWorker(Cleaner, DoRecLock(true)), OfWorker(Cleaner, DoRecSlot)] + [OfWorker(Cleaner, DoRecLoop)]

  /** The cleaner has begun to recreate the database. */
  const Struck :=
    Lurking(ClaimedPool.(history := UsedPool.history + [CallStart(0)]), UsedSched, 3, RecCall(0, |UsedPool.history|))

  lemma Strikes()
    ensures Exec(Long, Lurking(UsedPool, UsedSched, 3, RecLock(0)), StrikeSteps) == Some(Struck)
  {
    var p, d := UsedPool, UsedSched;
    var p1 := p.(dbs := [TestDb(0, Recreating, 1, 15)]);
    assert p.dbs[0 := TestDb(0, Recreating, 1, 15)] == [TestDb(0, Recreating, 1, 15)];
    SoloWork(Long, p, d, 3, Cleaner, Clean, RecLock(0), DoRecLock(true), Turn(p1, Some(Work(Clean, RecSlot(0))), None));
    SoloWork(Long, p1, d, 3, Cleaner, Clean, RecSlot(0), DoRecSlot, Turn(ClaimedPool, Some(Work(Clean, RecLoop(0))), None));
    SoloWork(Long, ClaimedPool, d, 3, Cleaner, Clean, RecLoop(0), DoRecLoop,
             Turn(Struck.pool, Some(Work(Clean, RecCall(0, |p.history|))), None));
    ExecTwo(Long, Lurking(p, d, 3, RecLock(0)), OfWorker(Cleaner, DoRecLock(true)), Lurking(p1, d, 3, RecSlot(0)),
            OfWorker(Cleaner, DoRecSlot), Lurking(ClaimedPool, d, 3, RecLoop(0)));
    ExecSnoc(Long, Lurking(p, d, 3, RecLock(0)), [OfWorker(Cleaner, DoRecLock(true)), OfWorker(Cleaner, DoRecSlot)],
             Lurking(ClaimedPool, d, 3, RecLoop(0)), OfWorker(Cleaner, DoRecLoop), Struck);
  }

  const RaceSteps: seq<Step> := (SpawnSteps + (SleepSteps + ReturnSteps)) + (UseSteps + (WakeSteps + StrikeSteps))

  lemma Races()
    ensures Exec(Long, Granted1(Long), RaceSteps) == Some(Struck)
  {
    var s0, s1 := Lurking(Taken1(Long), SpawnedSched, 1, CleanTake), Lurking(PoppedPool, SpawnedSched, 1, Sleeping);
    var s2, s3 := Lurking(UsedPool, UsedSched, 3, Sleeping), Lurking(UsedPool, UsedSched, 3, RecLock(0));
    Spawns(Long, Taken1(Long), 1);
    FallsAsleep();
    ComesBack();
    IsUsed();
    Wakes();
    Strikes();
    ExecJoin(Long, s0, SleepSteps, s1, ReturnSteps, OfferedAt5);
    ExecJoin(Long, Granted1(Long), SpawnSteps, s0, SleepSteps + ReturnSteps, OfferedAt5);
    ExecJoin(Long, s2, WakeSteps, s3, StrikeSteps, Struck);
    ExecJoin(Long, OfferedAt5, UseSteps, s2, WakeSteps + StrikeSteps, Struck);
    ExecJoin(Long, Granted1(Long), SpawnSteps + (SleepSteps + ReturnSteps), OfferedAt5, UseSteps + (WakeSteps + StrikeSteps), Struck);
  }

  /**
    A run that grants the database at time 5 and recreates it at time 10, before its lifetime is over
    and while the second client has it: the grant and the call are the last two events.
    */
  lemma CleanerHitsNewGrant() returns (states: seq<State>, steps: seq<Step>)
    ensures Run(Long, Full, states, steps)
    ensures var s := states[|steps|];
            var n := |s.pool.history|;
            && n >= 2 && s.pool.history[n - 2] == Granted(0, 5, 1) && s.pool.history[n - 1] == CallStart(0)
            && s.procs == map[Cleaner := Work(Clean, RecCall(0, n - 1))]
            && s.pool.now < 5 + Long.lifetime
  {
    FirstGrant(Long);
    Races();
    ExecJoin(Long, Init(Long, 0), FirstSteps, Granted1(Long), RaceSteps, Struck);
    steps := FirstSteps + RaceSteps;
    states := ExecIsRun(Long, 0, steps, Struck);
  }
}
