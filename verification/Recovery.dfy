/** What survives a restart of the driver: the handle Nomad keeps for a task, and the task it stands for. */
module Recovery {
  import opened Options
  import opened Naming
  import opened Config
  import opened Plan
  import opened Host
  import D = Driver

  /** Nomad's own task handle: the configuration it hands over at every recovery, and the driver state the driver wrote
      into it, of which only the task configuration is read back. Encoding and decoding are taken to be inverse. */
  datatype Persisted = Persisted(config: TaskConfig, saved: TaskConfig)

  /** What the outside answers in one restart. */
  datatype Attempt = Attempt(d: DriverConfig, ports: seq<string>, names: seq<string>, saves: bool)

  ghost predicate Possible(t: TaskConfig, a: Attempt) {
    Preparable(t, a.d) && IsOrder(a.ports, a.d.portMap) && IsOrder(a.names, t.env)
  }

  /** Key and name agree: the store key that a recovery checks and its waiter looks up is the key it sets, and the
      handle it sets there names the pot of the task. */
  predicate Stable(p: Persisted) {
    p.saved.id == p.config.id
  }

  /** The store of the driver after a recovery: empty, or holding the task under the ID Nomad knows it by, with a handle
      of that ID. */
  predicate Retakes(driver: D.Driver, id: string)
    reads driver.tasks, set h | h in driver.tasks.store.Values
  {
    driver.tasks.store.Keys == {id} && driver.tasks.store[id].id == id
  }

  /** A driver that has just started takes up a task. Its waiter finds the handle exactly if key and name agreed. */
  method Restart(p: Persisted, a: Attempt, host: Machine) returns (next: Persisted, driver: D.Driver, retaken: bool)
    requires Possible(p.config, a)
    modifies host
    ensures next == if retaken then Persisted(p.config, p.config) else p
    ensures if retaken then Retakes(driver, p.saved.id) else driver.tasks.store == map[]
    ensures retaken ==> (p.config.id in driver.tasks.store <==> Stable(p))
  {
    hide PotName, Preparable, IsOrder;
    var tasks := new D.TaskStore();
    driver := new D.Driver(tasks, host);
    var r, written := driver.RecoverTask(p.config, Some(p.saved), a.d, a.ports, a.names, a.saves);
    next := if written.Some? then p.(saved := written.value) else p;
    retaken := r.Retaken?;
  }

  /** A start, and then any number of restarts, each of which may or may not take the task up. At every one of them the
      key that is checked is the key that would be set, and at the last one a handle that is set has the ID of the
      original start, so names the pot that start created. */
  method StartAndRestart(t: TaskConfig, start: Attempt, attempts: seq<Attempt>, host: Machine)
    returns (last: Option<Persisted>, driver: D.Driver, retaken: bool)
    requires Possible(t, start) && attempts != [] && forall a :: a in attempts ==> Possible(t, a)
    modifies host
    ensures last.Some? ==> last.value.config == t && Stable(last.value)
    ensures retaken ==> last.Some? && Retakes(driver, t.id)
  {
    hide PotName, Preparable, IsOrder, Possible;
    var tasks := new D.TaskStore();
    driver := new D.Driver(tasks, host);
    assert Preparable(t, start.d) && IsOrder(start.ports, start.d.portMap) && IsOrder(start.names, t.env) by {
      PossibleParts(t, start);
    }
    var r, written := driver.StartTask(t, Some(start.d), start.ports, start.names, true, start.saves);
    last, retaken := None, false;
    if written.None? { return; }
    var p := Persisted(t, written.value);
    for i := 0 to |attempts|
      invariant p.config == t && Stable(p)
      invariant retaken ==> i > 0 && Retakes(driver, t.id)
    {
      p, driver, retaken := Restart(p, attempts[i], host);
    }
    last := Some(p);
  }

  lemma PossibleParts(t: TaskConfig, a: Attempt)
    requires Possible(t, a)
    ensures Preparable(t, a.d) && IsOrder(a.ports, a.d.portMap) && IsOrder(a.names, t.env)
  {
  }
}
