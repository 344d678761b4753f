/**
  The manager's lifecycle calls, each run to its end. What the database server answers is an
  argument of the call.
  */
module Managers {
  import opened Queues
  import opened ManagerAtomic
  import opened ManagerMachine
  import opened ConnectionStrings
  import opened Names
  import opened Templates

  datatype Error =
    | ManagerNotReady
    | TemplateAlreadyInitialized
    | TemplateNotFound
    | TemplateDiscarded
    | InvalidTemplateState
    | ServerError
    | NilDereference

  datatype Result<T> = Ok(value: T) | Err(error: Error)

  /** A template database: its hash and where it is. */
  datatype Database = Database(hash: Hash, config: DatabaseConfig)

  datatype ManagerConfig = ManagerConfig(
    server: DatabaseConfig,
    databasePrefix: string,
    templateDatabasePrefix: string)

  /** The pools by hash; a pool is known here by the template it was made from. */
  class PoolCollection {
    var pools: map<Hash, Database>

    constructor ()
      ensures pools == map[]
    {
      pools := map[];
    }

    method InitHashPool(template: Database)
      modifies this
      ensures pools == old(pools)[template.hash := template]
    {
      pools := pools[template.hash := template];
    }

    /** Removes the pool of a hash; `removed` says whether all its databases could be dropped. */
    method RemoveAllWithHash(hash: Hash, removed: bool) returns (unknown: bool, failed: bool)
      modifies this
      ensures unknown <==> hash !in old(pools)
      ensures failed <==> hash in old(pools) && !removed
      ensures pools == if failed then old(pools) else old(pools) - {hash}
    {
      if hash !in pools {
        return true, false;
      }
      if !removed {
        return false, true;
      }
      pools := pools - {hash};
      return false, false;
    }

    /** Removes the pools one by one, in any order, up to the first that fails. */
    method RemoveAll(stuck: set<Hash>) returns (failed: bool)
      modifies this
      ensures failed <==> exists h <- stuck :: h in old(pools)
      ensures !failed ==> pools == map[]
      ensures pools.Keys <= old(pools).Keys && forall h <- pools :: pools[h] == old(pools)[h]
      ensures forall h <- old(pools) :: h in stuck ==> h in pools
    {
      ghost var was := pools;
      while pools.Keys != {}
        invariant pools.Keys <= was.Keys && forall h <- pools :: pools[h] == was[h]
        invariant forall h <- was :: h !in pools ==> h !in stuck
        decreases pools.Keys
      {
        var hash :| hash in pools;
        if hash in stuck {
          return true;
        }
        pools := pools - {hash};
      }
      return false;
    }
  }

  class Manager {
    const config: ManagerConfig
    const templates: Collection
    const pools: PoolCollection
    var ready: bool

    constructor (config: ManagerConfig)
      ensures this.config == config && fresh(templates) && fresh(pools)
      ensures Valid() && templates.templates == map[] && pools.pools == map[]
    {
      this.config := config;
      templates := new Collection();
      pools := new PoolCollection();
      ready := false;
    }

    /** Connecting makes the manager ready, once; `reached` is the server's answer. */
    method Connect(reached: bool) returns (r: Result<()>)
      modifies `ready
      ensures r.Ok? <==> !old(ready) && reached
      ensures ready == (old(ready) || reached)
    {
      if ready || !reached {
        return Err(ServerError);
      }
      ready := true;
      return Ok(());
    }

    /** The configuration of a template is the server's, with the template's own database. */
    function TemplateConfig(hash: Hash): (r: DatabaseConfig) {
      DatabaseConfig(config.server.host, config.server.port, config.server.username, config.server.password,
                     TemplateName(config.databasePrefix, config.templateDatabasePrefix, hash), map[])
    }

    ghost predicate Valid()
      reads this, templates, templates.templates.Values, pools
    {
      templates.Valid() && !templates.locked && Configured(templates.templates, pools.pools)
    }

    /** Templates and pools carry the configuration of their hash. */
    ghost predicate Configured(ts: map<Hash, TemplateObject>, ps: map<Hash, Database>) {
      && (forall h <- ts :: ts[h].config == TemplateConfig(h))
      && (forall h <- ps :: ps[h] == Database(h, TemplateConfig(h)))
    }

    lemma ConfiguredGrows(ts: map<Hash, TemplateObject>, ps: map<Hash, Database>, hash: Hash, t: TemplateObject)
      requires Configured(ts, ps) && t.config == TemplateConfig(hash)
      ensures Configured(ts[hash := t], ps - {hash})
    {
    }

    /** The states of the templates in the collection. */
    ghost function States(): (r: map<Hash, TemplateState>)
      reads templates, templates.templates.Values
    {
      map h | h in templates.templates :: templates.templates[h].state
    }

    /** After a failed initialisation the hash is absent; the server's answer is the error. */
    method GiveUp(hash: Hash)
      requires templates.Valid() && templates.locked
      modifies templates
      ensures templates.Valid() && !templates.locked
      ensures templates.templates == old(templates.templates) - {hash}
    {
      templates.RemoveUnsafe(hash);
      templates.Unlock();
    }

    /** Initialisation after the push: the database is created, an old pool removed and the lock released. */
    method InitializePushed(hash: Hash, created: bool, removed: bool) returns (ok: bool)
      requires templates.Valid() && templates.locked
      modifies templates, pools
      ensures templates.Valid() && !templates.locked
      ensures ok <==> created && (removed || hash !in old(pools.pools))
      ensures templates.templates == if ok then old(templates.templates) else old(templates.templates) - {hash}
      ensures pools.pools == if ok then old(pools.pools) - {hash} else old(pools.pools)
    {
      if !created {
        GiveUp(hash);
        return false;
      }
      var _, failed := pools.RemoveAllWithHash(hash, removed);
      if failed {
        GiveUp(hash);
        return false;
      }
      templates.Unlock();
      return true;
    }

    /** Initialisation under the collection's lock, from the push to the release. */
    method InitializeLocked(hash: Hash, c: DatabaseConfig, created: bool, removed: bool) returns (r: Result<Database>)
      requires templates.Valid() && !templates.locked
      modifies templates, pools
      ensures templates.Valid() && !templates.locked
      ensures var taken := hash in old(templates.templates) && Text(old(templates.templates)[hash].config) == Text(c);
              && (r == Err(TemplateAlreadyInitialized) <==> taken)
              && (r == Err(ServerError) <==> !taken && !(created && (removed || hash !in old(pools.pools))))
              && (taken ==> templates.templates == old(templates.templates))
      ensures r == Err(ServerError) ==> templates.templates == old(templates.templates) - {hash}
      ensures r.Err? ==> r.error == TemplateAlreadyInitialized || r.error == ServerError
      ensures r.Ok? ==>
                && r.value == Database(hash, c)
                && hash in templates.templates && fresh(templates.templates[hash])
                && templates.templates == old(templates.templates)[hash := templates.templates[hash]]
                && templates.templates[hash].state == Init && templates.templates[hash].config == c
      ensures pools.pools == if r.Ok? then old(pools.pools) - {hash} else old(pools.pools)
    {
      var added := templates.Push(hash, c);
      if !added {
        templates.Unlock();
        return Err(TemplateAlreadyInitialized);
      }
      var ok := InitializePushed(hash, created, removed);
      r := if ok then Ok(Database(hash, c)) else Err(ServerError);
    }

    method InitializeReady(hash: Hash, created: bool, removed: bool) returns (r: Result<Database>)
      requires Valid()
      modifies templates, pools
      ensures Valid()
      ensures r == Err(TemplateAlreadyInitialized) <==> hash in old(States())
      ensures r.Ok? <==> hash !in old(States()) && created && (removed || hash !in old(pools.pools))
      ensures r.Err? ==> r.error == TemplateAlreadyInitialized || r.error == ServerError
      ensures r.Ok? ==> r.value == Database(hash, TemplateConfig(hash))
      ensures r.Ok? ==> hash in templates.templates && fresh(templates.templates[hash])
      ensures States() == if r.Ok? then old(States())[hash := Init] else old(States())
      ensures pools.pools == if r.Ok? then old(pools.pools) - {hash} else old(pools.pools)
    {
      ghost var ts, ps := templates.templates, pools.pools;
      var c := TemplateConfig(hash);
      assert hash in ts ==> ts[hash].config == c;
      r := InitializeLocked(hash, c, created, removed);
      if r.Ok? {
        ConfiguredGrows(ts, ps, hash, templates.templates[hash]);
      } else {
        assert templates.templates == ts;
      }
    }

    /**
      A hash can be initialised only while it is absent; success leaves its template in init and no
      pool for it, failure of the server leaves the hash absent.
      */
    method InitializeTemplateDatabase(hash: Hash, created: bool, removed: bool) returns (r: Result<Database>)
      requires Valid()
      modifies templates, pools
      ensures Valid()
      ensures r == Err(ManagerNotReady) <==> !ready
      ensures r == Err(TemplateAlreadyInitialized) <==> ready && hash in old(States())
      ensures r.Ok? <==> ready && hash !in old(States()) && created && (removed || hash !in old(pools.pools))
      ensures r.Ok? ==> r.value == Database(hash, TemplateConfig(hash))
      ensures r.Ok? ==> States() == old(States())[hash := Init]
      ensures r.Ok? ==> hash in templates.templates && fresh(templates.templates[hash])
      ensures r.Err? ==> States() == old(States())
      ensures pools.pools == if r.Ok? then old(pools.pools) - {hash} else old(pools.pools)
    {
      if !ready {
        return Err(ManagerNotReady);
      }
      r := InitializeReady(hash, created, removed);
    }

    /** Finalisation of a template found before, in whatever state it is by now. */
    method FinalizeFound(t: TemplateObject) returns (r: Result<Database>)
      requires !t.locked
      modifies t, pools
      ensures !t.locked
      ensures r.Ok? <==> old(t.state) == Init
      ensures r == Err(TemplateAlreadyInitialized) <==> old(t.state) == Finalized
      ensures r == Err(TemplateDiscarded) <==> old(t.state) == Discarded
      ensures r.Ok? ==> t.state == Finalized && r.value == Database(t.hash, t.config)
      ensures r.Ok? ==> pools.pools == old(pools.pools)[t.hash := r.value]
      ensures r.Err? ==> t.state == old(t.state) && pools.pools == old(pools.pools)
    {
      var state, lock := t.GetStateWithLock();
      if state == Finalized {
        lock.Unlock();
        return Err(TemplateAlreadyInitialized);
      }
      if state == Discarded {
        lock.Unlock();
        return Err(TemplateDiscarded);
      }
      pools.InitHashPool(Database(t.hash, t.config));
      lock.SetState(Finalized);
      lock.Unlock();
      return Ok(Database(t.hash, t.config));
    }

    /** Finalisation succeeds once, and then the hash has a finalised template and a pool made from it. */
    method FinalizeTemplateDatabase(hash: Hash) returns (r: Result<Database>)
      requires Valid()
      modifies templates.templates.Values, pools
      ensures Valid()
      ensures r == Err(ManagerNotReady) <==> !ready
      ensures r == Err(TemplateNotFound) <==> ready && hash !in old(States())
      ensures r.Ok? <==> ready && hash in old(States()) && old(States())[hash] == Init
      ensures r.Ok? ==> States() == old(States())[hash := Finalized]
      ensures r.Ok? ==> r.value == Database(hash, TemplateConfig(hash)) && pools.pools == old(pools.pools)[hash := r.value]
      ensures r.Err? ==> States() == old(States()) && pools.pools == old(pools.pools)
    {
      if !ready {
        return Err(ManagerNotReady);
      }
      var found := templates.Get(hash);
      match found {
        case None => r := Err(TemplateNotFound);
        case Some(t) => r := FinalizeFound(t);
      }
    }

    /** Takes a template out of the collection and discards it. */
    method DiscardPopped(hash: Hash) returns (found: bool)
      requires templates.Valid() && !templates.locked
      modifies templates, templates.templates.Values
      ensures templates.Valid() && !templates.locked
      ensures found <==> hash in old(templates.templates)
      ensures found ==> old(templates.templates)[hash].state == Discarded
      ensures templates.templates == old(templates.templates) - {hash}
      ensures States() == old(States()) - {hash}
    {
      var popped := templates.Pop(hash);
      match popped
      case None => return false;
      case Some(t) =>
        t.SetState(Discarded);
        return true;
    }

    /**
      Discarding removes the pool first, then the template. A hash that is not in the collection ends
      in a nil dereference, its pool already gone.
      */
    method DiscardTemplateDatabase(hash: Hash, removed: bool, dropped: bool) returns (r: Result<()>)
      requires Valid()
      modifies templates, templates.templates.Values, pools
      ensures Valid()
      ensures r == Err(ManagerNotReady) <==> !ready
      ensures var gone := ready && (removed || hash !in old(pools.pools));
              && (r == Err(NilDereference) <==> gone && hash !in old(States()))
              && (r.Ok? <==> gone && hash in old(States()) && dropped)
              && pools.pools == (if gone then old(pools.pools) - {hash} else old(pools.pools))
              && States() == (if gone then old(States()) - {hash} else old(States()))
              && (gone && hash in old(templates.templates) ==> old(templates.templates)[hash].state == Discarded)
    {
      if !ready {
        return Err(ManagerNotReady);
      }
      var _, failed := pools.RemoveAllWithHash(hash, removed);
      if failed {
        return Err(ServerError);
      }
      var found := DiscardPopped(hash);
      r := if !found then Err(NilDereference) else if dropped then Ok(()) else Err(ServerError);
    }

    /** A get with a template found before passes only a finalised one, and then finds a pool for it. */
    method GetFound(t: TemplateObject, woken: Option<TemplateState>) returns (r: Result<Database>)
      requires !t.locked
      modifies pools
      ensures r.Ok? <==> t.state == Finalized || woken == Some(Finalized)
      ensures r.Err? ==> r == Err(InvalidTemplateState) && pools.pools == old(pools.pools)
      ensures r.Ok? ==> t.hash in pools.pools && r.value == pools.pools[t.hash]
      ensures r.Ok? ==> pools.pools == (if t.hash in old(pools.pools) then old(pools.pools)
                                        else old(pools.pools)[t.hash := Database(t.hash, t.config)])
    {
      var state := t.WaitUntilFinalized(woken);
      if state != Finalized {
        return Err(InvalidTemplateState);
      }
      if t.hash !in pools.pools {
        pools.InitHashPool(Database(t.hash, t.config));
      }
      return Ok(pools.pools[t.hash]);
    }

    /** The pool a get uses was made from the hash's own template. */
    method GetTestDatabase(hash: Hash, woken: Option<TemplateState>) returns (r: Result<Database>)
      requires Valid()
      modifies pools
      ensures Valid() && States() == old(States())
      ensures r == Err(ManagerNotReady) <==> !ready
      ensures r == Err(TemplateNotFound) <==> ready && hash !in States()
      ensures r.Ok? <==> ready && hash in States() && (States()[hash] == Finalized || woken == Some(Finalized))
      ensures r.Ok? ==> r.value == Database(hash, TemplateConfig(hash))
      ensures pools.pools == if r.Ok? then old(pools.pools)[hash := r.value] else old(pools.pools)
    {
      if !ready {
        return Err(ManagerNotReady);
      }
      var found := templates.Get(hash);
      match found {
        case None => r := Err(TemplateNotFound);
        case Some(t) => r := GetFound(t, woken);
      }
    }

    /** Every template is discarded and forgotten, also when removing the pools fails. */
    method ResetAllTracking(stuck: set<Hash>) returns (r: Result<()>)
      requires Valid()
      modifies templates, templates.templates.Values, pools
      ensures Valid()
      ensures r == Err(ManagerNotReady) <==> !ready
      ensures !ready ==> States() == old(States()) && pools.pools == old(pools.pools)
      ensures ready ==> States() == map[]
      ensures ready ==> forall h <- old(templates.templates) :: old(templates.templates)[h].state == Discarded
      ensures r.Ok? <==> ready && forall h <- old(pools.pools) :: h !in stuck
      ensures r.Ok? ==> pools.pools == map[]
      ensures pools.pools.Keys <= old(pools.pools).Keys && forall h <- pools.pools :: pools.pools[h] == old(pools.pools)[h]
    {
      if !ready {
        return Err(ManagerNotReady);
      }
      templates.RemoveAll();
      var failed := pools.RemoveAll(stuck);
      r := if failed then Err(ServerError) else Ok(());
    }
  }

  /** The machine is calm and shows these states and these hashes with a pool. */
  predicate Mirrors(s: MState, states: map<Hash, TemplateState>, pooled: set<Hash>) {
    Calm(s) && StatesOf(s) == states && s.pools.Keys == pooled
  }

  /** The steps of a call on a manager that may not be ready. */
  function IfReady(ready: bool, steps: seq<MStep>): (r: seq<MStep>) {
    if ready then steps else []
  }

  lemma InitialiseMirrored(s: MState, states: map<Hash, TemplateState>, pooled: set<Hash>, ready: bool, hash: Hash,
                           created: bool, removed: bool, ok: bool) returns (t: MState)
    requires Mirrors(s, states, pooled)
    requires ok <==> ready && hash !in states && created && (removed || hash !in pooled)
    ensures MExec(s, IfReady(ready, InitialiseTrace(s, hash, created, removed))) == Some(t)
    ensures if ok then Mirrors(t, states[hash := Init], pooled - {hash}) else Mirrors(t, states, pooled)
  {
    if ready {
      t := AtomicInitialise(s, hash, created, removed);
    } else {
      t := s;
    }
  }

  lemma FinalizeMirrored(s: MState, states: map<Hash, TemplateState>, pooled: set<Hash>, ready: bool, hash: Hash, ok: bool)
    returns (t: MState)
    requires Mirrors(s, states, pooled) && (ok <==> ready && hash in states && states[hash] == Init)
    ensures MExec(s, IfReady(ready, FinalizeTrace(s, hash))) == Some(t)
    ensures if ok then Mirrors(t, states[hash := Finalized], pooled + {hash}) else Mirrors(t, states, pooled)
  {
    if ready {
      t := AtomicFinalize(s, hash);
    } else {
      t := s;
    }
  }

  lemma DiscardMirrored(s: MState, states: map<Hash, TemplateState>, pooled: set<Hash>, ready: bool, hash: Hash,
                        removed: bool, gone: bool) returns (t: MState)
    requires Mirrors(s, states, pooled) && (gone <==> ready && (removed || hash !in pooled))
    ensures MExec(s, IfReady(ready, DiscardTrace(s, hash, removed))) == Some(t)
    ensures if gone then Mirrors(t, states - {hash}, pooled - {hash}) else Mirrors(t, states, pooled)
  {
    if ready {
      t := AtomicDiscard(s, hash, removed);
    } else {
      t := s;
    }
  }

  lemma GetMirrored(s: MState, states: map<Hash, TemplateState>, pooled: set<Hash>, ready: bool, hash: Hash, ok: bool)
    returns (t: MState)
    requires Mirrors(s, states, pooled) && (ok <==> ready && hash in states && states[hash] == Finalized)
    ensures MExec(s, IfReady(ready, GetTrace(s, hash))) == Some(t)
    ensures if ok then Mirrors(t, states, pooled + {hash}) else Mirrors(t, states, pooled)
  {
    if ready {
      t := AtomicGet(s, hash);
    } else {
      t := s;
    }
  }

  lemma ResetMirrored(s: MState, states: map<Hash, TemplateState>, pooled: set<Hash>, ready: bool, left: set<Hash>)
    returns (t: MState, order: seq<Hash>)
    requires Mirrors(s, states, pooled) && left <= pooled && (!ready ==> left == pooled)
    ensures Lists(order, states.Keys)
    ensures MExec(s, IfReady(ready, ResetTrace(s, order, pooled - left))) == Some(t)
    ensures Mirrors(t, if ready then map[] else states, left)
  {
    order := SomeOrder(states.Keys);
    assert s.coll.Keys == states.Keys;
    if ready {
      t := AtomicReset(s, order, pooled - left);
    } else {
      t := s;
    }
  }

  /**
    A manager beside a state of the concurrent machine. Each call answers and changes template states
    and pools as the manager's method does, and leads the machine to its new state by the given steps.
    */
  class TrackedManager {
    const manager: Manager

    constructor (config: ManagerConfig)
      ensures Shows(ManagerMachine.Fresh) && fresh(manager)
    {
      manager := new Manager(config);
    }

    ghost predicate Shows(s: MState)
      reads manager, manager.templates, manager.templates.templates.Values, manager.pools
    {
      && manager.Valid()
      && Mirrors(s, manager.States(), manager.pools.pools.Keys)
    }

    method Initialize(hash: Hash, created: bool, removed: bool, ghost s: MState)
      returns (r: Result<Database>, ghost t: MState)
      requires Shows(s)
      modifies manager.templates, manager.pools
      ensures Shows(t)
      ensures r == Err(ManagerNotReady) <==> !manager.ready
      ensures r == Err(TemplateAlreadyInitialized) <==> manager.ready && hash in old(manager.States())
      ensures r.Ok? <==>
                manager.ready && hash !in old(manager.States()) && created && (removed || hash !in old(manager.pools.pools))
      ensures r.Ok? ==> r.value == Database(hash, manager.TemplateConfig(hash))
      ensures manager.States() == if r.Ok? then old(manager.States())[hash := Init] else old(manager.States())
      ensures manager.pools.pools == if r.Ok? then old(manager.pools.pools) - {hash} else old(manager.pools.pools)
      ensures MExec(s, IfReady(manager.ready, InitialiseTrace(s, hash, created, removed))) == Some(t)
    {
      ghost var states, keys := manager.States(), manager.pools.pools.Keys;
      r := manager.InitializeTemplateDatabase(hash, created, removed);
      t := InitialiseMirrored(s, states, keys, manager.ready, hash, created, removed, r.Ok?);
    }

    method Finalize(hash: Hash, ghost s: MState) returns (r: Result<Database>, ghost t: MState)
      requires Shows(s)
      modifies manager.templates.templates.Values, manager.pools
      ensures Shows(t)
      ensures r == Err(ManagerNotReady) <==> !manager.ready
      ensures r == Err(TemplateNotFound) <==> manager.ready && hash !in old(manager.States())
      ensures r.Ok? <==> manager.ready && hash in old(manager.States()) && old(manager.States())[hash] == Init
      ensures r.Ok? ==> r.value == Database(hash, manager.TemplateConfig(hash))
      ensures manager.States() == if r.Ok? then old(manager.States())[hash := Finalized] else old(manager.States())
      ensures manager.pools.pools == if r.Ok? then old(manager.pools.pools)[hash := r.value] else old(manager.pools.pools)
      ensures MExec(s, IfReady(manager.ready, FinalizeTrace(s, hash))) == Some(t)
    {
      ghost var states, keys := manager.States(), manager.pools.pools.Keys;
      r := manager.FinalizeTemplateDatabase(hash);
      assert manager.pools.pools.Keys == if r.Ok? then keys + {hash} else keys;
      t := FinalizeMirrored(s, states, keys, manager.ready, hash, r.Ok?);
    }

    method Discard(hash: Hash, removed: bool, dropped: bool, ghost s: MState)
      returns (r: Result<()>, ghost t: MState)
      requires Shows(s)
      modifies manager.templates, manager.templates.templates.Values, manager.pools
      ensures Shows(t)
      ensures r == Err(ManagerNotReady) <==> !manager.ready
      ensures var gone := manager.ready && (removed || hash !in old(manager.pools.pools));
              && (r == Err(NilDereference) <==> gone && hash !in old(manager.States()))
              && (r.Ok? <==> gone && hash in old(manager.States()) && dropped)
              && manager.States() == (if gone then old(manager.States()) - {hash} else old(manager.States()))
              && manager.pools.pools == (if gone then old(manager.pools.pools) - {hash} else old(manager.pools.pools))
      ensures MExec(s, IfReady(manager.ready, DiscardTrace(s, hash, removed))) == Some(t)
    {
      ghost var states, keys := manager.States(), manager.pools.pools.Keys;
      ghost var gone := manager.ready && (removed || hash !in keys);
      r := manager.DiscardTemplateDatabase(hash, removed, dropped);
      t := DiscardMirrored(s, states, keys, manager.ready, hash, removed, gone);
    }

    /** A get during which no other call finalises the template. */
    method Get(hash: Hash, ghost s: MState) returns (r: Result<Database>, ghost t: MState)
      requires Shows(s)
      modifies manager.pools
      ensures Shows(t) && manager.States() == old(manager.States())
      ensures r == Err(ManagerNotReady) <==> !manager.ready
      ensures r == Err(TemplateNotFound) <==> manager.ready && hash !in manager.States()
      ensures r.Ok? <==> manager.ready && hash in manager.States() && manager.States()[hash] == Finalized
      ensures r.Ok? ==> r.value == Database(hash, manager.TemplateConfig(hash))
      ensures manager.pools.pools == if r.Ok? then old(manager.pools.pools)[hash := r.value] else old(manager.pools.pools)
      ensures MExec(s, IfReady(manager.ready, GetTrace(s, hash))) == Some(t)
    {
      ghost var states, keys := manager.States(), manager.pools.pools.Keys;
      r := manager.GetTestDatabase(hash, None);
      assert manager.pools.pools.Keys == if r.Ok? then keys + {hash} else keys;
      t := GetMirrored(s, states, keys, manager.ready, hash, r.Ok?);
    }

    /** The templates go in some order; `order` names it. */
    method Reset(stuck: set<Hash>, ghost s: MState) returns (r: Result<()>, ghost t: MState, ghost order: seq<Hash>)
      requires Shows(s)
      modifies manager.templates, manager.templates.templates.Values, manager.pools
      ensures Shows(t)
      ensures r == Err(ManagerNotReady) <==> !manager.ready
      ensures manager.States() == if manager.ready then map[] else old(manager.States())
      ensures r.Ok? <==> manager.ready && forall h <- old(manager.pools.pools) :: h !in stuck
      ensures r.Ok? ==> manager.pools.pools == map[]
      ensures !manager.ready ==> manager.pools.pools == old(manager.pools.pools)
      ensures manager.pools.pools.Keys <= old(manager.pools.pools).Keys
      ensures forall h <- manager.pools.pools :: manager.pools.pools[h] == old(manager.pools.pools)[h]
      ensures Lists(order, old(manager.States()).Keys)
      ensures var gone := old(manager.pools.pools).Keys - manager.pools.pools.Keys;
              MExec(s, IfReady(manager.ready, ResetTrace(s, order, gone))) == Some(t)
    {
      ghost var states, keys := manager.States(), manager.pools.pools.Keys;
      r := manager.ResetAllTracking(stuck);
      t, order := ResetMirrored(s, states, keys, manager.ready, manager.pools.pools.Keys);
    }
  }
}
