/**
  Templates and their collection as the objects a manager updates. Locks are flags: a method that
  takes a lock asks that it be free, and one that needs it held asks for that.
  */
module Templates {
  import opened Queues
  import opened ManagerMachine
  import opened ConnectionStrings

  /** A template's state changes in place; its hash and configuration do not. */
  class TemplateObject {
    const hash: Hash
    const config: DatabaseConfig
    var state: TemplateState
    var locked: bool

    constructor (hash: Hash, config: DatabaseConfig)
      ensures this.hash == hash && this.config == config && state == Init && !locked
    {
      this.hash, this.config, state, locked := hash, config, Init, false;
    }

    method SetState(newState: TemplateState)
      requires !locked
      modifies `state
      ensures state == newState
    {
      if state == newState {
        return;
      }
      state := newState;
    }

    /**
      The answer of a wait: the state if it is final already, otherwise the state read on waking, or
      the old one when the wait timed out.
      */
    method WaitUntilFinalized(woken: Option<TemplateState>) returns (exit: TemplateState)
      requires !locked
      ensures exit == Finalized <==> state == Finalized || woken == Some(Finalized)
      ensures state != Finalized && woken.None? ==> exit == state
    {
      if state == Finalized {
        return state;
      }
      match woken
      case Some(newState) => return newState;
      case None => return state;
    }

    method GetStateWithLock() returns (s: TemplateState, l: LockedTemplate)
      requires !locked
      modifies `locked
      ensures locked && s == state && fresh(l) && l.t == this
    {
      locked := true;
      s := state;
      l := new LockedTemplate(this);
    }
  }

  /** A held template lock; letting go twice is harmless. */
  class LockedTemplate {
    var t: TemplateObject?

    constructor (t: TemplateObject)
      ensures this.t == t
    {
      this.t := t;
    }

    method Unlock()
      requires t != null ==> t.locked
      modifies this, t
      ensures t == null
      ensures old(t) != null ==> !old(t).locked && old(t).state == old(if t != null then t.state else Init)
    {
      if t != null {
        t.locked := false;
        t := null;
      }
    }

    method SetState(newState: TemplateState)
      requires t != null && t.locked
      modifies t`state
      ensures t.state == newState
    {
      if t.state == newState {
        return;
      }
      t.state := newState;
    }
  }

  /** Configurations are compared by their connection strings. */
  method Equals(c: DatabaseConfig, d: DatabaseConfig) returns (r: bool)
    ensures r == (Text(c) == Text(d))
  {
    var x := ConnectionString(c);
    var y := ConnectionString(d);
    r := x == y;
  }

  class Collection {
    var templates: map<Hash, TemplateObject>
    var locked: bool

    constructor ()
      ensures templates == map[] && !locked
    {
      templates, locked := map[], false;
    }

    /** Each template stands under its own hash, is not locked and has not been discarded. */
    ghost predicate Valid()
      reads this, templates.Values
    {
      forall h <- templates ::
        templates[h].hash == h && !templates[h].locked && templates[h].state != Discarded
    }

    /** Adds a new template unless one with an equal configuration is there; keeps the lock. */
    method Push(hash: Hash, config: DatabaseConfig) returns (added: bool)
      requires Valid() && !locked
      modifies this
      ensures Valid() && locked
      ensures added <==> !(hash in old(templates) && Text(old(templates)[hash].config) == Text(config))
      ensures !added ==> templates == old(templates)
      ensures added ==>
                && hash in templates && fresh(templates[hash])
                && templates[hash].hash == hash && templates[hash].config == config && templates[hash].state == Init
                && templates == old(templates)[hash := templates[hash]]
    {
      locked := true;
      if hash in templates {
        var same := Equals(templates[hash].config, config);
        if same {
          return false;
        }
      }
      var t := new TemplateObject(hash, config);
      templates := templates[hash := t];
      return true;
    }

    method Unlock()
      requires locked
      modifies `locked
      ensures !locked
    {
      locked := false;
    }

    method Pop(hash: Hash) returns (r: Option<TemplateObject>)
      requires Valid() && !locked
      modifies `templates
      ensures Valid()
      ensures r == if hash in old(templates) then Some(old(templates)[hash]) else None
      ensures templates == old(templates) - {hash}
    {
      if hash !in templates {
        return None;
      }
      r := Some(templates[hash]);
      templates := templates - {hash};
    }

    method Get(hash: Hash) returns (r: Option<TemplateObject>)
      requires !locked
      ensures r == if hash in templates then Some(templates[hash]) else None
    {
      if hash !in templates {
        return None;
      }
      return Some(templates[hash]);
    }

    /** Only for a caller that holds the lock. */
    method RemoveUnsafe(hash: Hash)
      requires Valid() && locked
      modifies `templates
      ensures Valid() && templates == old(templates) - {hash}
    {
      templates := templates - {hash};
    }

    /** Discards every template, in any order, and leaves the collection empty. */
    method RemoveAll()
      requires Valid() && !locked
      modifies this, templates.Values
      ensures templates == map[] && !locked
      ensures forall h <- old(templates) :: old(templates)[h].state == Discarded
    {
      locked := true;
      ghost var was := templates;
      while templates.Keys != {}
        invariant templates.Keys <= was.Keys
        invariant forall h <- templates :: templates[h] == was[h]
        invariant forall h <- was :: was[h].hash == h && !was[h].locked
        invariant forall h <- was :: h !in templates ==> was[h].state == Discarded
        decreases templates.Keys
        modifies `templates, was.Values
      {
        var hash :| hash in templates;
        templates[hash].SetState(Discarded);
        templates := templates - {hash};
      }
      locked := false;
    }
  }
}
