# Verification of the IntegreSQL test database manager

IntegreSQL hands out isolated PostgreSQL test databases. For every template (known by a hash) it keeps a
pool of databases copied from the template, grants them to clients, and cleans them in the background.
This project models three parts of it in Dafny and proves properties of the models.

**The pool of one hash as a concurrent machine.** `PoolMachine` turns each critical section of the pool's
mutex and each channel operation outside of it into one step: client calls (get, return, recreate, remove),
workers (extend, automatic clean, manual recreate), control loop, worker loop, semaphore, wait group and stop
protocol. A run is any interleaving from the creation of the pool. Runs come in three modes:

- *full*: every operation, on any id, at any time;
- *queued*: a manual return or recreate is atomic and has no effect or hits an id that sits in `dirty`;
- *automatic*: no manual operation and no removal.

`PoolTasks`, `PoolFull`, `PoolQueued`, `PoolIsolation`, `PoolFifo` and `PoolStop` prove invariants of all runs of
these modes. `PoolRefine` shows that the atomic manual operations are runs of the fine-grained ones. It also gives a
run that breaks isolation outside the queued mode, and `PoolRace` one in which a cleaner that slept recreates a
database a client is using. `HashPools` has the pool's methods as a class with its queues,
table and loops; each method is proved to have the effect of a sequence of machine steps (`PoolSequential`).

Two things the code does not guarantee have their exact condition:

- *No panics.* `PoolPanics` says which steps of a run would panic: a manual worker that claims a database after a
  removal has dropped it, and a manual recreation once Stop has returned; nothing else, and nothing before that.
- *Stop returns.* The pool is stuck when the control loop takes no further task, the task channel is full, a getter
  holds the mutex and has a task to send or cannot avoid asking for one, and a tracked worker waits for the mutex.
  `PoolDeadlock` shows that this is for ever, whatever anyone does. `PoolReturn` shows that it is the only obstacle:
  from the call of Stop on, a queued run can go on to Stop's return without new calls if and only if it is not stuck.

`PoolScenarios` has runs that get there, with manual operations on queued ids only.

**Templates and the manager.** `ManagerMachine` does the same for initialise, finalise, discard, reset and get
calls on one manager: the collection lock is held across an initialisation, a template's lock across a
finalisation. `TemplateLifecycle` and `TemplateHistory` prove what every interleaving keeps. `TemplatePools` says
which pool a hash has, and when an initialisation that has removed the hash's pool leaves one all the same: when a
call on an older template has put its pool back before the collection is unlocked. `Templates` and `Managers` are the
objects the source updates, each call run to its end. `Managers.TrackedManager` puts the manager beside a state of the
machine and shows that each call answers as the manager's method does, while the machine's steps of that call lead to
the same template states and pools (`ManagerAtomic`).

**Names and connection strings.** `Names` prints and parses database names. `ConnectionStrings` has the string
builder with its in-place sort, `ConnectionTokens` what equal strings say about two configurations.

Where the code does not do what a comment says, the model follows the code:

- pkg/pool/pool.go:410-414 copies a record, marks it as recreating and writes the copy back, so the published
  state stays dirty. The step may leave either value; all results hold for both.
- pkg/manager/manager.go:280-281 reads the configuration of the popped template before checking that one was
  found, so discarding an unknown hash ends in a nil dereference, after its pool has been removed.

## Model

| member | source | states |
|---|---|---|
| `PoolMachine.Normalise` | pkg/manager/manager.go:58-69 | the sizes a new manager settles on: at least one task in parallel, one to max initial databases, and sensible sizes unchanged |
| `PoolTasks.StepKeeps` | pkg/pool/pool.go:209-284 | every step keeps the wait group and semaphore equal to the goroutines they count, the phases of both loops and the place of every task |
| `PoolTasks.TaskConservation` | pkg/pool/pool.go:219-251 | in every run a task taken from the task channel is in exactly one place: held, queued, picked, running, dropped, finished or discarded |
| `PoolTasks.TaskMoves` | pkg/pool/pool.go:219-282 | a step moves a task only onward along its places and forgets none |
| `PoolTasks.FinalPlaces` | pkg/pool/pool.go:238-251 | a dropped, finished or discarded task stays so for the rest of the run |
| `PoolTasks.Parallelism` | pkg/pool/pool.go:211-233 | at most MaxParallelTasks tracked tasks run at once, in every state of every run |
| `PoolTasks.InitialHasRoom` | pkg/pool/pool.go:261-281 | the worker channel, sized at loop start, has room whenever an initial task is forwarded, by counting serial numbers |
| `PoolTasks.StartUp` | pkg/pool/pool.go:94-123 | with normalised sizes the first start never blocks on the task channel and no run drops an initial extend |
| `PoolFull.FullKeeps` | pkg/pool/pool.go:144-207 | every step of the full mode keeps mutex ownership, table, ready and grant invariants |
| `PoolFull.ReadyAgreement` | pkg/pool/pool.go:159-183 | in every run, with the mutex free, an id is in `ready` plus the in-flight getters exactly once if it is ready and never otherwise; ids are positions; the table stays within the maximum |
| `PoolFull.GetSucceeds` | pkg/pool/pool.go:171-183 | before a removal an id received from `ready` is in the table and ready when the mutex is taken, so both sanity checks are unreachable and the get is granted |
| `PoolFull.ReadyHasRoom` | pkg/pool/pool.go:466-477 | a goroutine about to send to `ready` holds the mutex and finds room, in every run |
| `PoolFull.ReturnHasRoom` | pkg/pool/pool.go:312-318 | the atomic return has room in `ready` |
| `PoolFull.GrantsSeparated` | pkg/pool/pool.go:186-190 | two grants of one id have an unlock of it in between or a strictly newer generation, in every run |
| `PoolFull.NeverBackward` | pkg/pool/pool.go:466-477 | generations never decrease and the history is never rewritten along a run |
| `PoolQueued.TokenLinearity` | pkg/pool/pool.go:144-610 | in every queued run each tracked id is in exactly one place: `ready`, `dirty`, one goroutine, or abandoned |
| `PoolQueued.NoBailouts` | pkg/pool/pool.go:400-471 | in queued runs no worker finds its database already ready, not dirty, or with another generation |
| `PoolQueued.DirtyHasRoom` | pkg/pool/pool.go:186-190 | in queued runs a getter about to send to `dirty` holds the mutex and finds room |
| `PoolQueued.ReturnKeepsLinearity` | pkg/pool/pool.go:286-323 | an effective return keeps every id in one place if and only if the id sits in `dirty` |
| `PoolQueued.RecreateKeepsLinearity` | pkg/pool/pool.go:356-388 | a manual recreate keeps every id in one place if and only if the id sits in `dirty` |
| `PoolIsolation.Isolation` | pkg/pool/pool.go:177-206 | in queued runs two grants of an id are separated by an unlock or by a successful recreation begun after the first, and only a database whose last recreation succeeded is granted |
| `PoolIsolation.MinimalLifetime` | pkg/pool/pool.go:400-455 | in queued runs, whenever an automatic cleaner claims a database, begins a recreation call or is in one, the minimal lifetime has passed since every grant of it, even if the cleaner slept |
| `PoolFifo.FifoCleaning` | pkg/pool/pool.go:487-504 | in queued runs an automatic clean takes the id whose latest grant is the oldest of all queued ids |
| `PoolFifo.GrantHistoryIsQueue` | pkg/pool/pool.go:487-504 | without manual operations the granted ids are, in order, the ids taken for cleaning followed by `dirty` |
| `PoolStop.StopRunsOut` | pkg/pool/pool.go:222-251 | after cancellation a step of the worker loop or a tracked worker lowers a measure, any other step leaves it |
| `PoolStop.StopStepsBounded` | pkg/pool/pool.go:222-251 | once the stop task is consumed, the worker-side steps still to come are bounded by the measure, however the run goes on |
| `PoolProgress.StopProgress` | pkg/pool/pool.go:137-139 | in queued runs, after the cancellation and until the wait group is empty, a step that brings Stop closer is enabled, or a getter at the full task channel holds the mutex a tracked worker needs |
| `PoolProgress.HelpCloser` | pkg/pool/pool.go:222-251 | each such step lowers a well-founded order |
| `PoolReturn.StopCanReturn` | pkg/pool/pool.go:125-142 | once Stop has been called, a queued run has a continuation without new calls in which Stop returns, if and only if the pool is not stuck |
| `PoolDeadlock.StuckLasts` | pkg/pool/pool.go:186-202 | a stuck pool is stuck in every later state of any run, the worker waits where it did, and Stop cannot return |
| `PoolDeadlock.DeadlockLasts` | pkg/pool/pool.go:192-202 | so it is with the last stage: a getter before the full channel of a cancelled pool never moves again, and Stop has not returned |
| `PoolProgress.SlotOrRelease` | pkg/pool/pool.go:416-422 | in queued runs a worker waiting for a recreation slot finds one free or a goroutine about to free one |
| `PoolScenarios.StopCanHang` | pkg/pool/pool.go:137-139 | a queued run that reaches the deadlock: clients get and return one database while Stop waits |
| `PoolStop.StopReturnsLast` | pkg/pool/pool.go:125-142 | Stop returns only after both loops have ended and every tracked worker has reported to the wait group |
| `PoolStop.NoReadyAfterStop` | pkg/pool/pool.go:457-464 | from the first free mutex after cancellation no worker, tracked or manual, makes an id ready |
| `PoolStop.RemovalLoop` | pkg/pool/pool.go:624-645 | at each iteration the loop's id is the last of the table; the ids dropped so far are those above it, once each, and not in `ready` |
| `PoolStop.AfterRemoval` | pkg/pool/pool.go:645-652 | after a complete removal an extend finds the pool full, nobody is on the way to the closed channel, and a late getter fails |
| `PoolStop.IndexSafe` | pkg/pool/pool.go:171-175 | before a removal no goroutine's id is out of range, and the mutex holder's never is |
| `PoolPanics.IndexExactly` | pkg/pool/pool.go:401-403 | in every run an unchecked table access is out of range if and only if it is a manual worker claiming an id that a removal has dropped |
| `PoolPanics.PanicsExactly` | pkg/pool/pool.go:380-393 | in every run a step panics if and only if it is such a claim with the mutex free, or spawns a manual worker after Stop has returned; no send reaches a closed channel |
| `PoolPanics.NoPanicBeforeStopped` | pkg/pool/pool.go:125-142 | until Stop has returned no step of any run panics |
| `PoolScenarios.LateClaimPanics` | pkg/pool/pool.go:400-403 | a queued run, with a manual recreate, a stop and a removal, whose manual worker then indexes the removed table |
| `PoolScenarios.RecreateAfterStopPanics` | pkg/pool/pool.go:380-383 | a queued run after which a manual recreate of an id that sits in `dirty`, itself allowed in the queued mode, panics on the missing context |
| `PoolRefine.DrainRuns` | pkg/pool/pool.go:328-341 | the drain loop run alone empties the channel into its buffer, without the excluded id and in order |
| `PoolRefine.RefillRuns` | pkg/pool/pool.go:343-353 | the refill loop run alone sends the whole buffer back in order without blocking |
| `PoolRefine.ExcludeRuns` | pkg/pool/pool.go:325-354 | both loops together remove every occurrence of an id, keep the order and never block |
| `PoolRefine.AtomicReturn` | pkg/pool/pool.go:286-323 | the atomic return equals the fine-grained steps run without interference |
| `PoolRefine.AtomicRecreate` | pkg/pool/pool.go:356-388 | the atomic recreate equals the fine-grained steps run without interference |
| `PoolRefine.IsolationNeedsQueued` | pkg/pool/pool.go:307-318 | a full run in which a return of an unqueued id leads to the grant of a database whose creation failed |
| `PoolRace.CleanerHitsNewGrant` | pkg/pool/pool.go:537-552 | a full run in which a cleaner sleeps on a database that is returned and granted again, passes the recheck on waking, and recreates it under the second client and before its minimal lifetime is over |
| `PoolRefine.RemovalFinishes` | pkg/pool/pool.go:624-652 | wherever a removal is taken up, dropping the rest empties table and queues, drops each id once from the top down and closes the channel |
| `PoolRefine.QueuesAfterRemoval` | pkg/pool/pool.go:632-645 | in queued runs a dropped id is in neither queue, and after a complete removal both are empty |
| `PoolRefine.RemovalCanFinish` | pkg/pool/pool.go:624-652 | at any point of a removal in a queued run the rest of the loop completes it |
| `PoolSequential.GetIsExec` | pkg/pool/pool.go:144-207 | the effect of a get on a pool at rest is the result of the machine's steps |
| `PoolSequential.RecreateIsExec` | pkg/pool/pool.go:390-482 | a recreation with any number of retries, successful or not, is the result of the machine's steps |
| `PoolSequential.CancelledIsExec` | pkg/pool/pool.go:395-399 | a recreation with a cancelled context gives the id up, as the machine's step does |
| `PoolSequential.FailedRemovalIsExec` | pkg/pool/pool.go:624-637 | a removal that fails after k drops is the result of the machine's steps, with the k highest ids dropped once from the top down |
| `PoolSequential.WholeRemovalIsExec` | pkg/pool/pool.go:624-652 | a removal that drops every id is the result of the machine's steps |
| `PoolSequential.ExtendIsExec` | pkg/pool/pool.go:567-610 | an extend is the result of the machine's steps |
| `PoolSequential.CleanIsExec` | pkg/pool/pool.go:487-553 | an automatic clean, sleeping if it must, is the result of the machine's steps |
| `HashPools.ExcludeIDFromChannel` | pkg/pool/pool.go:325-354 | both loops terminate, the buffer never overflows, the channel ends up filtered in order |
| `HashPools.HashPool.constructor` | pkg/pool/pool.go:75-92 | a new pool is the machine's initial state |
| `HashPools.HashPool.Start` | pkg/pool/pool.go:94-123 | starting is the machine's start step: the initial extends in order, the context and the control loop; a running pool is left alone |
| `HashPools.HashPool.GetTestDatabase` | pkg/pool/pool.go:144-207 | timeout or cancelled client context: that error and nothing changed; otherwise the first ready id is granted and queued as the machine's steps say |
| `HashPools.HashPool.ReturnTestDatabase` | pkg/pool/pool.go:286-323 | invalid index, cancelled context, not dirty, or the machine's atomic return |
| `HashPools.HashPool.TryRecreate` | pkg/pool/pool.go:426-455 | retries exactly until the first outcome that is not in-use |
| `HashPools.HashPool.RecreateDatabaseGracefully` | pkg/pool/pool.go:390-482 | cancelled context: given up; not dirty: left alone; otherwise published with a new generation or abandoned; in each case as the machine's steps say |
| `HashPools.HashPool.Extend` | pkg/pool/pool.go:567-610 | full pool: error and nothing changed; otherwise one new id is appended and created, or given up with a cancelled context, as the machine's steps say |
| `HashPools.HashPool.AutoCleanDirty` | pkg/pool/pool.go:487-553 | empty queue or cancellation seen first: nothing; otherwise the oldest queued id is recreated, not before its deadline, as the machine's steps say |
| `HashPools.HashPool.RecreateTestDatabase` | pkg/pool/pool.go:356-388 | invalid index, cancelled client context, a panic exactly where the machine's step panics, or the id leaves `dirty` and is recreated if it is dirty, as the machine's steps say |
| `HashPools.HashPool.RemoveAll` | pkg/pool/pool.go:612-654 | fails at the highest id that cannot be dropped with exactly the ids up to it tracked, or leaves table and queues empty and the channel closed; each higher id is dropped once, from the top down, as the machine's steps say |
| `TemplateLifecycle.LifeKeeps` | pkg/templates/template_collection.go:28-101 | every step of every call keeps locks with their holders, and discarded templates out of the collection but for the one a reset is deleting |
| `TemplateHistory.HistoryKeeps` | pkg/manager/manager.go:203-392 | every step keeps what the history says about states, finalisations and initialisations |
| `TemplateHistory.LifecycleOnward` | pkg/templates/template.go:59-123 | over every interleaving a template moves only from init to finalised to discarded or from init to discarded |
| `TemplateHistory.CollectedIsLive` | pkg/templates/template_collection.go:52-101 | a template in an unlocked collection is not discarded; in a locked one at most the entry that a reset is about to delete is |
| `TemplateHistory.FinaliseOnce` | pkg/manager/manager.go:318-346 | at most one finalisation succeeds per template |
| `TemplateHistory.GateSound` | pkg/manager/manager.go:362-372 | a get passes the gate only if it read a finalised template during its call, whose pool had been installed before it was finalised |
| `TemplateHistory.InitialisationsSeparated` | pkg/manager/manager.go:223-230 | between two successful initialisations of a hash the first one's template is removed |
| `TemplateHistory.InitialisationEnds` | pkg/manager/manager.go:226-260 | an initialisation releases the collection and leaves its own template in init, or the hash absent, under every interleaving |
| `TemplatePools.PoolIsLastInstalled` | pkg/pool/pool_collection.go:61-76 | under every interleaving a hash has a template's pool if and only if that installation is the last installation or removal of a pool for the hash |
| `TemplatePools.PoolAtUnlock` | pkg/manager/manager.go:244-260 | when an initialisation is about to unlock the collection, its hash has a pool if and only if an older template's pool was installed since the initialisation removed the pool |
| `TemplatePools.NoOldCallNoPool` | pkg/manager/manager.go:226-260 | if no call in flight knows an older template of the hash while an initialisation has yet to remove the pool, there is none at the unlock |
| `TemplatePools.OldCallPutsBack` | pkg/manager/manager.go:377-382 | an older call that is about to install its pool can do so between the removal and the unlock, and then the initialisation succeeds with that pool |
| `TemplatePools.StalePoolAfterInitialise` | pkg/manager/manager.go:366-392 | a run that ends so: the hash has a new template in init and a pool of the discarded one |
| `ManagerAtomic.AtomicInitialise` | pkg/manager/manager.go:226-260 | the machine's steps of an undisturbed initialisation succeed exactly for an absent hash and a willing server; then they leave an init template and no pool, otherwise everything as it was |
| `ManagerAtomic.AtomicFinalize` | pkg/manager/manager.go:312-346 | the machine's steps of an undisturbed finalisation take effect exactly for a template in init, which is then finalised with its pool installed |
| `ManagerAtomic.AtomicDiscard` | pkg/manager/manager.go:275-303 | the machine's steps of an undisturbed discard leave neither template nor pool, and the template discarded, unless the pool cannot be removed |
| `ManagerAtomic.AtomicGet` | pkg/manager/manager.go:362-386 | the machine's steps of an undisturbed get pass exactly for a finalised template and leave a pool for its hash |
| `ManagerAtomic.AtomicReset` | pkg/manager/manager.go:473-476 | the machine's steps of an undisturbed reset, in any order of hashes, forget every template |
| `Managers.TrackedManager.Initialize` | pkg/manager/manager.go:203-260 | succeeds exactly for a ready manager, an absent hash and a willing server, with the manager method's answer, states and pools; the machine's initialisation steps for that outcome lead to the same states and pools |
| `Managers.TrackedManager.Finalize` | pkg/manager/manager.go:306-347 | succeeds exactly for a hash in init, with the manager method's answer, states and pools; the machine's finalisation steps for that outcome lead to the same states and pools |
| `Managers.TrackedManager.Discard` | pkg/manager/manager.go:262-304 | removes pool and template, or answers the nil dereference or the failure, as the manager method does; the machine's discard steps for that outcome lead to the same states and pools |
| `Managers.TrackedManager.Get` | pkg/manager/manager.go:350-392 | passes exactly for a finalised template and leaves a pool for it, as the manager method does; the machine's get steps for that outcome lead to the same states and pools |
| `Managers.TrackedManager.Reset` | pkg/manager/manager.go:462-477 | forgets every template and removes the pools it can, as the manager method does; the machine's reset steps, one mark and one deletion per hash in some order, lead to the same states and pools |
| `Templates.TemplateObject.SetState` | pkg/templates/template.go:60-70 | the state becomes the given one |
| `Templates.TemplateObject.WaitUntilFinalized` | pkg/templates/template.go:75-93 | the answer is finalised exactly if the state is, or was on waking; a timeout answers the old state |
| `Templates.TemplateObject.GetStateWithLock` | pkg/templates/template.go:97-101 | returns the state with the template left locked |
| `Templates.LockedTemplate.Unlock` | pkg/templates/template.go:108-113 | releases the lock once, keeps the state |
| `Templates.LockedTemplate.SetState` | pkg/templates/template.go:116-123 | sets the state while the lock is held |
| `Templates.Equals` | pkg/templates/template.go:125-127 | configurations are equal exactly if their connection strings are |
| `Templates.Collection.Push` | pkg/templates/template_collection.go:28-49 | a fresh init template is added unless one with an equal configuration is there; the lock is kept either way |
| `Templates.Collection.Pop` | pkg/templates/template_collection.go:52-65 | the template, if any, leaves the collection |
| `Templates.Collection.Get` | pkg/templates/template_collection.go:68-81 | the template under the hash, if any |
| `Templates.Collection.RemoveAll` | pkg/templates/template_collection.go:89-101 | every template ends up discarded and the collection empty |
| `Managers.PoolCollection.RemoveAllWithHash` | pkg/pool/pool_collection.go:133-149 | unknown hash, failure with the pool kept, or the pool removed |
| `Managers.PoolCollection.RemoveAll` | pkg/pool/pool_collection.go:152-165 | fails exactly if some pool cannot be removed, which then stays; otherwise no pool is left |
| `Managers.Manager.Connect` | pkg/manager/manager.go:95-121 | succeeds once, if the server can be reached, and makes the manager ready |
| `Managers.Manager.InitializeTemplateDatabase` | pkg/manager/manager.go:203-260 | succeeds only for an absent hash; success leaves an init template and no pool, every error the collection as it was |
| `Managers.Manager.FinalizeFound` | pkg/manager/manager.go:318-346 | finalises an init template after installing its pool; finalised and discarded templates are refused and unchanged |
| `Managers.Manager.FinalizeTemplateDatabase` | pkg/manager/manager.go:306-347 | succeeds exactly for a hash in init; then the template is finalised and the pool made from it is installed |
| `Managers.Manager.DiscardTemplateDatabase` | pkg/manager/manager.go:262-304 | removes the pool, then the template, which ends up discarded; an unknown hash ends in a nil dereference |
| `Managers.Manager.GetTestDatabase` | pkg/manager/manager.go:350-392 | passes exactly for a finalised template and then uses a pool made from that hash's template, installing it if it is missing |
| `Managers.Manager.ResetAllTracking` | pkg/manager/manager.go:462-477 | every template is discarded and forgotten, also when removing the pools fails |
| `Names.ParseInvertsPrint` | pkg/pool/pool_collection.go:175-178 | splitting at the last underscore accepts exactly the printed test names and returns their hash and id |
| `Names.TestNameInjective` | pkg/pool/pool_collection.go:175-178 | under one prefix a test name determines hash and id, for all hashes and ids |
| `Names.NamesMeetWhen` | pkg/manager/manager.go:40-48 | some test name equals some template name if and only if one fixed part is a prefix of the other |
| `Names.NamesDisjoint` | pkg/manager/manager.go:578-580 | distinct underscore-free prefixes, the test prefix not empty, keep test and template names apart, for every database prefix including the empty one |
| `Names.EmptyTestPrefixMeets` | pkg/manager/manager.go:44-46 | without a test prefix the two families always meet |
| `ConnectionStrings.SortedUnique` | pkg/db/database_config.go:28-33 | a set of keys has one sorted listing, so the order of collection does not show |
| `ConnectionStrings.Sort` | pkg/db/database_config.go:33 | sorting in place |
| `ConnectionStrings.CollectKeys` | pkg/db/database_config.go:28-31 | all parameter names once, in any order |
| `ConnectionStrings.ConnectionString` | pkg/db/database_config.go:19-41 | the builder's text is a function of the configuration, whatever order the map yields |
| `ConnectionTokens.TextIsSpaced` | pkg/db/database_config.go:19-41 | the text is the space-separated list of field and parameter tokens |
| `ConnectionTokens.EqualTextEqualSettings` | pkg/templates/template.go:125-127 | without spaces, and without `=` in parameter names, equal strings mean equal fields and equal effective parameters |
| `ConnectionTokens.EqualTextExactly` | pkg/templates/template.go:125-127 | the exact condition: equal settings, and `sslmode` written in the same place |
| `ConnectionTokens.ExplicitModeMoves` | pkg/db/database_config.go:23-25 | setting the default mode explicitly changes the string as soon as a smaller key exists |
| `ConnectionTokens.SpacesConfuse` | pkg/db/database_config.go:21 | with spaces two configurations with different databases can have one string |

## Left out

- SQL execution, `pg_stat_activity` and driver error texts: the outcome of a database call is an argument (success, in use, failure).
- The sweep over leftover databases when the manager initialises: it runs before any pool exists and its name pattern is not the one pools use.
- Identifier truncation and connection-string quoting: the code does neither; they belong to PostgreSQL.
- Lost wake-ups of a waiting get: a wake-up may come at any time or never; only the soundness of the answer is proved.
- Exclusive pools per hash: two gets may both install a pool after a removal; nothing is claimed about pools that are no longer in the map.
- Restart after a failed removal and repeated stops: Stop on a pool that does not run returns with the mutex held, so stopping is modelled from the running state and the retry claim is about the removal loop.
- The runs after a panic: the machine has no step where the program would panic; `PoolPanics.PanicsExactly` says where that is.
- Liveness of extends requested after start-up: the control loop may drop them.
- Progress of Stop in runs with fine-grained manual operations: there a send to `dirty` under the mutex can block as well, so `PoolProgress.StopProgress` and `PoolReturn.StopCanReturn` are about queued runs; `PoolDeadlock.StuckLasts` is about all.
- Room for the send to `recreating`: the slot is freed only after the id is back in `ready`, so that send may block and the machine lets it.
- The queue drains of the removal loop are one step per iteration: they run under the mutex, but clients receive from `ready` without it; a receive in the middle of a drain only changes which of the ready ids that client gets, the machine gives it the first.
- Generations are unbounded numbers; wrap-around of the machine integer is not modelled.
- Sleep durations between retries, logging, tracing, environment, HTTP handlers and the test client: none of them touches the state of a pool, a template or a manager.
- PoolRefine.IsolationNeedsQueued: for isolation the queued condition is shown to be sufficient and, here and in `PoolRace`, not superfluous; it is not exact. The if-and-only-if results of `PoolQueued` are about each id being in one place.
- HashPools.HashPool.Start: asks for room for the initial tasks, without which the source blocks with the mutex held; `PoolTasks.StartUp` shows that there is room.
- HashPools.HashPool.GetTestDatabase: asks for room in the task channel, without which the source blocks with the mutex held; `PoolScenarios.StopCanHang` is such a run.
- HashPools.HashPool.ReturnTestDatabase: the refill of `dirty` runs undisturbed; a getter that fills the queue meanwhile is in the machine.
- HashPools.HashPool.TryRecreate: the outcomes of the calls are given and one of them is not in-use, as the source loops without a bound; a cancellation between two tries is a step of another goroutine and is in the machine.
- HashPools.HashPool.RecreateDatabaseGracefully: the context does not change during the call; the bailouts for a context cancelled meanwhile are in the machine.
- HashPools.HashPool.Extend: the context does not change during the call, as for the recreation it ends with.
- HashPools.HashPool.AutoCleanDirty: nothing changes during the sleep, so the recheck after it always passes; the bailout is in the machine.
- HashPools.HashPool.RemoveAll: the stop it begins with involves the loops and is in the machine; the method starts when Stop has returned.
- TemplateHistory.InitialisationEnds: does not promise that the hash has no pool, because an older call can put one back between the removal of the pool and the unlock; `TemplatePools.PoolAtUnlock` says exactly when.
- TemplateHistory.CollectedIsLive: does not exclude a discarded entry from a locked collection, because a reset sets the state of a template before it deletes the entry.
- Templates.TemplateObject.SetState: does not model the broadcast to waiting gets, whose wake-ups are an argument of the wait.
- Templates.LockedTemplate.SetState: does not model the broadcast to waiting gets, as above.
- Managers.PoolCollection.RemoveAllWithHash: whether the pool's own removal succeeds is an argument; `HashPools.HashPool.RemoveAll` has it.
- Managers.PoolCollection.RemoveAll: which pools fail is an argument, as above.
- Managers.Manager.GetTestDatabase: what the pool answers is in the pool's own model; here a pool is known by the template it was made from.
- Managers.Manager.DiscardTemplateDatabase: the existence check for an unknown hash is not modelled, as the nil dereference comes first.
- Managers.TrackedManager.Get: about gets during which no other call finalises the template; the others are in the machine.
