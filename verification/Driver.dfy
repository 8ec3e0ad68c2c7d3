/** The driver's task store and its calls, each as one undisturbed caller sees it. */
module Driver {
  import opened Options
  import opened Naming
  import opened Config
  import opened ShellCommands
  import opened CreateArguments
  import opened Plan
  import opened Host
  import opened Steps
  import opened Pot
  import opened Prepare
  import opened Handles
  import opened Signals

  class TaskStore {
    var store: map<string, TaskHandle>

    constructor ()
      ensures store == map[]
    {
      store := map[];
    }

    method Set(id: string, handle: TaskHandle)
      modifies this
      ensures store == old(store)[id := handle]
    {
      store := store[id := handle];
    }

    method Get(id: string) returns (handle: Option<TaskHandle>)
      ensures handle.Some? <==> id in store
      ensures handle.Some? ==> handle.value == store[id]
    {
      handle := if id in store then Some(store[id]) else None;
    }

    method Delete(id: string)
      modifies this
      ensures store == old(store) - {id}
    {
      store := store - {id};
    }
  }

  /** What Nomad learns from a start. A start that found the pot already alive has no `run` goroutine. */
  datatype StartResult =
    | AlreadyStarted | Undecodable | Refused
    | Failed | Panicked
    | Registered(handle: TaskHandle, adopted: bool)

  datatype RecoverResult = AlreadyKnown | CannotPrepare | NotRunning | Unsaved | Retaken(handle: TaskHandle) | Panicked

  datatype SignalResult = NoTask | Unparsed | Undecoded | Untranslated | Unsuccessful | Delivered | Panicked

  datatype CallResult = TaskNotFound | StillRunning | Done | Panicked

  /** How a start has fared before its registration. */
  datatype Fate = Through | Failing | Panicking

  /** Launching the pot, if the output pipes open: the log afterwards, and how it went. */
  function Launch(answers: Answers, log: seq<Command>, pot: string, outputsOpen: bool): (seq<Command>, Fate) {
    if !outputsOpen then (log, Failing)
    else
      var launched := log + [StartCommand(pot)];
      (launched, if answers(launched).NotStarted? then Panicking else Through)
  }

  /** What a start does for a pot that is not alive: a pot that exists is launched; any other one is launched after its
      whole create plan has passed. */
  function Bring(answers: Answers, pids: seq<Command> -> int, log: seq<Command>, pot: string, plan: seq<Step>,
                 outputsOpen: bool): (seq<Command>, Fate) {
    var checked := log + [ExistsCheck(pot)];
    if pids(checked) != 0 then Launch(answers, checked, pot, outputsOpen)
    else
      var (created, ok) := Execute(answers, checked, plan);
      if ok then Launch(answers, created, pot, outputsOpen) else (created, Failing)
  }

  /** What a start does between its preparation and the registration of a handle. */
  function StartRun(answers: Answers, pids: seq<Command> -> int, log: seq<Command>, pot: string, plan: seq<Step>,
                    outputsOpen: bool): (seq<Command>, Fate) {
    var checked := log + [AliveCheck(pot)];
    if pids(checked) != 0 then (checked, Through) else Bring(answers, pids, checked, pot, plan, outputsOpen)
  }

  function Polls(n: nat, pot: string): seq<Command> {
    if n == 0 then [] else Polls(n - 1, pot) + [AliveCheck(pot)]
  }

  lemma NoPolls(pot: string)
    ensures Polls(0, pot) == []
  {
  }

  lemma OnePoll(n: nat, pot: string)
    ensures Polls(n + 1, pot) == Polls(n, pot) + [AliveCheck(pot)]
  {
  }

  class Driver {
    const tasks: TaskStore
    const host: Machine

    constructor (tasks: TaskStore, host: Machine)
      ensures this.tasks == tasks && this.host == host
    {
      this.tasks := tasks;
      this.host := host;
    }

    /** Creates the pot unless it exists, then launches it. */
    method CreateAndStart(se: Syexec, outputsOpen: bool, ghost plan: seq<Step>) returns (fate: Fate)
      requires HasParts(se.id) && se.exitCode == 0 && se.argvStart == StartArgv(PotName(se.id))
      requires plan == CreatePlan(se.Printed())
      modifies host, se`exitCode
      ensures fate.Through? ==> se.exitCode == 0
      ensures (host.log, fate) == Bring(host.answers, host.pids, old(host.log), PotName(se.id), plan, outputsOpen)
      ensures var checks := old(host.log) + [ExistsCheck(PotName(se.id))];
        if outputsOpen && (host.pids(checks) != 0 || Execute(host.answers, checks, plan).1) then
          && host.log == checks + (if host.pids(checks) != 0 then [] else Issued(plan)) + [StartCommand(PotName(se.id))]
          && fate == if host.answers(host.log).NotStarted? then Panicking else Through
        else
          fate.Failing? && exists n: nat ::
            n <= (if host.pids(checks) != 0 then 0 else |plan|) && host.log == checks + Issued(plan)[..n]
    {
      hide PotName, HasParts, CreatePlan, Execute, ExistsCheck, Issued;
      BringCases(host.answers, host.pids, host.log, PotName(se.id), plan, outputsOpen);
      assert Exec([POT_BIN] + se.argvStart) == StartCommand(PotName(se.id));
      var found := se.CheckContainerExists(host);
      if found == 0 {
        var created := se.CreateContainer(host);
        if !created {
          return Failing;
        }
      }
      ghost var before := host.log;
      var ok, crashed := se.StartContainer(host, outputsOpen);
      assert before + [] == before;
      fate := if crashed then Panicking else if ok then Through else Failing;
    }

    /** Starts a task. `decoded` is the job's configuration if it decodes, `outputsOpen` whether the output pipes open,
        `saves` whether the driver state can be written into the handle for Nomad. */
    method StartTask(t: TaskConfig, decoded: Option<DriverConfig>, ports: seq<string>, names: seq<string>,
                     outputsOpen: bool, saves: bool)
      returns (r: StartResult, written: Option<TaskConfig>)
      requires decoded.Some? ==> Preparable(t, decoded.value) && IsOrder(ports, decoded.value.portMap)
      requires IsOrder(names, t.env)
      modifies tasks, host
      ensures r.AlreadyStarted? <==> t.id in old(tasks.store)
      ensures !r.Registered? ==> tasks.store == old(tasks.store)
      ensures written == if r.Registered? then Some(t) else None
      ensures r.Undecodable? <==> !r.AlreadyStarted? && decoded.None?
      ensures r.Refused? <==>
        !r.AlreadyStarted? && decoded.Some? && decoded.value.args != [] && decoded.value.command == ""
      ensures r.AlreadyStarted? || r.Undecodable? || r.Refused? ==> host.log == old(host.log)
      ensures r.Registered? || r.Failed? || r.Panicked? ==>
        && decoded.Some?
        && var (after, fate) := StartRun(host.answers, host.pids, old(host.log), PotName(t.id),
                                         CreatePlan(Prepared(t, decoded.value, ports, names)), outputsOpen);
           if fate.Panicking? then r.Panicked? && host.log == after
           else if fate.Through? && saves then r.Registered? && host.log == after
           else
             && host.log == after + [DestroyCommand(PotName(t.id))]
             && if host.answers(host.log).NotStarted? then r.Panicked? else r.Failed?
      ensures r.Registered? || r.Failed? || r.Panicked? ==>
        && decoded.Some?
        && var pot, plan := PotName(t.id), CreatePlan(Prepared(t, decoded.value, ports, names));
           var checks := old(host.log) + [AliveCheck(pot), ExistsCheck(pot)];
           var launched := checks + (if host.pids(checks) != 0 then [] else Issued(plan)) + [StartCommand(pot)];
           var destroyed := if r.Registered? then [] else [DestroyCommand(pot)];
           if host.pids(old(host.log) + [AliveCheck(pot)]) != 0 then
             host.log == old(host.log) + [AliveCheck(pot)] + destroyed && (r.Registered? <==> saves)
           else if outputsOpen && (host.pids(checks) != 0 || Execute(host.answers, checks, plan).1) then
             if host.answers(launched).NotStarted? then host.log == launched && r.Panicked?
             else host.log == launched + destroyed && (r.Registered? <==> saves)
           else
             !r.Registered? && exists n: nat ::
               && n <= (if host.pids(checks) != 0 then 0 else |plan|)
               && host.log == checks + Issued(plan)[..n] + [DestroyCommand(pot)]
      ensures r.Registered? ==> (r.adopted <==> host.pids(old(host.log) + [AliveCheck(PotName(t.id))]) != 0)
      ensures r.Registered? ==>
        && fresh(r.handle) && r.handle.Value() == Handle(t.id, false, Running, None, 0, false)
        && tasks.store == old(tasks.store)[t.id := r.handle]
    {
      hide PotName, HasParts, CreatePlan, Prepared, AliveCheck, ExistsCheck, IsOrder, Preparable, Bring, Issued;
      hide Execute;
      var known := tasks.Get(t.id);
      written := None;
      if known.Some? { return AlreadyStarted, None; }
      if decoded.None? { return Undecodable, None; }
      var se, ok := PrepareContainer(t, decoded.value, ports, names);
      if !ok { return Refused, None; }
      PreparedFixed(t, decoded.value, ports, names);
      ghost var plan := CreatePlan(se.Printed());
      StartCases(host.answers, host.pids, host.log, PotName(t.id), plan, outputsOpen);
      var alive := se.CheckContainerAlive(host);
      if alive == 0 {
        var fate := CreateAndStart(se, outputsOpen, plan);
        if fate.Panicking? { return StartResult.Panicked, None; }
        if fate.Failing? {
          var crashed := se.DestroyContainer(host, null);
          return if crashed then StartResult.Panicked else Failed, None;
        }
      }
      var h := new TaskHandle(Started(t.id, se.exitCode));
      if !saves {
        var crashed := se.DestroyContainer(host, h.calledDestroy);
        return if crashed then StartResult.Panicked else Failed, None;
      }
      written := Some(t);
      tasks.Set(t.id, h);
      r := Registered(h, alive != 0);
    }

    /** Takes up a task again after a restart of the driver. `t` is the configuration Nomad hands over, `saved` the one
        in the driver state if that decodes, `d` the job's configuration decoded from it, or what has been filled in of
        an empty one when decoding fails, which is only logged. */
    method RecoverTask(t: TaskConfig, saved: Option<TaskConfig>, d: DriverConfig, ports: seq<string>,
                       names: seq<string>, saves: bool)
      returns (r: RecoverResult, written: Option<TaskConfig>)
      requires Preparable(t, d) && IsOrder(ports, d.portMap) && IsOrder(names, t.env)
      modifies tasks, host
      ensures r.AlreadyKnown? <==> t.id in old(tasks.store)
      ensures r.CannotPrepare? <==> !r.AlreadyKnown? && (saved.None? || (d.args != [] && d.command == ""))
      ensures r.AlreadyKnown? || r.CannotPrepare? ==> host.log == old(host.log)
      ensures r.NotRunning? || r.Unsaved? || r.Retaken? || r.Panicked? ==>
        var alive := host.pids(old(host.log) + [AliveCheck(PotName(t.id))]) != 0;
        (r.NotRunning? <==> !alive) && (r.Retaken? <==> alive && saves)
      ensures r.NotRunning? || r.Retaken? ==> host.log == old(host.log) + [AliveCheck(PotName(t.id))]
      ensures r.Unsaved? || r.Panicked? ==>
        && host.log == old(host.log) + [AliveCheck(PotName(t.id)), DestroyCommand(PotName(t.id))]
        && (r.Panicked? <==> host.answers(host.log).NotStarted?)
      ensures !r.Retaken? ==> tasks.store == old(tasks.store)
      ensures written == if r.Retaken? then Some(t) else None
      ensures r.Retaken? ==>
        && saved.Some?
        && fresh(r.handle) && r.handle.Value() == Handle(saved.value.id, false, Running, Some(0), 0, false)
        && tasks.store == old(tasks.store)[saved.value.id := r.handle]
    {
      hide PotName, HasParts, Prepared, AliveCheck, IsOrder, Preparable;
      var known := tasks.Get(t.id);
      if known.Some? { return AlreadyKnown, None; }
      if saved.None? { return CannotPrepare, None; }
      var se, ok := PrepareContainer(t, d, ports, names);
      if !ok { return CannotPrepare, None; }
      PreparedFixed(t, d, ports, names);
      ghost var pot := PotName(t.id);
      var alive := se.CheckContainerAlive(host);
      if alive == 0 {
        tasks.Delete(t.id);
        return NotRunning, None;
      }
      var h := new TaskHandle(Recovered(saved.value.id, se.exitCode));
      if !saves {
        var crashed := se.DestroyContainer(host, h.calledDestroy);
        assert host.log == old(host.log) + [AliveCheck(pot), DestroyCommand(pot)];
        return if crashed then RecoverResult.Panicked else Unsaved, None;
      }
      written := Some(t);
      tasks.Set(saved.value.id, h);
      h.procState := Running;
      h.exitResult := Some(h.exitCode);
      r := Retaken(h);
    }

    /** The waiter of a started task. */
    method PotWait(id: string, se: Syexec, wait: Outcome, parsed: Option<int>) returns (crashed: bool)
      modifies if id in tasks.store then {tasks.store[id], tasks.store[id].calledDestroy} else {}
      modifies se`argvDestroy, se`exitCode, host
      ensures id !in tasks.store ==> crashed && host.log == old(host.log) && se.argvDestroy == old(se.argvDestroy)
      ensures id in tasks.store ==>
        && var ask := Exec([POT_BIN] + se.argvLastRunStats);
        && var w := AfterPotWait(old(tasks.store[id].Value()), wait, host.answers(old(host.log) + [ask]), parsed,
                                 host.answers(host.log));
        && tasks.store[id].Value() == w.handle && crashed == w.crashed
        && se.argvDestroy == old(se.argvDestroy) + (if w.destroys then ["-F"] else [])
        && host.log == old(host.log) + (if w.asks then [ask] else [])
             + (if w.destroys then [Exec([POT_BIN] + se.argvDestroy)] else [])
    {
      var found := tasks.Get(id);
      if found.None? { return true; }
      var h := found.value;
      h.procState := Exited;
      if !wait.Success? {
        if h.exitResult == None { return true; }
        h.exitResult := Some(DEFAULT_FAILED_CODE);
        if wait.ExitError? && wait.status == ENCLOSED_FAILED {
          var stats, torn := se.GetContainerLastRunStats(host, parsed);
          if torn { return true; }
          if stats.Some? {
            h.exitResult := Some(stats.value);
          }
        }
      }
      crashed := se.DestroyContainer(host, h.calledDestroy);
    }

    /** Polls until the pot is gone, or until the driver shuts down after `ticks` ticks. */
    method PollUntilGone(se: Syexec, ticks: nat) returns (polls: nat)
      requires HasParts(se.id)
      modifies host
      ensures polls <= ticks && (polls < ticks ==> polls > 0)
      ensures forall i :: 0 < i <= polls ==>
        (host.pids(old(host.log) + Polls(i, PotName(se.id))) == 0 ==> i == polls)
      ensures polls < ticks ==> host.pids(old(host.log) + Polls(polls, PotName(se.id))) == 0
      ensures host.log == old(host.log) + Polls(polls, PotName(se.id))
    {
      hide PotName, HasParts, AliveCheck, Polls;
      polls := 0;
      assert Polls(0, PotName(se.id)) == [] by { NoPolls(PotName(se.id)); }
      while polls < ticks
        invariant polls <= ticks
        invariant forall i :: 0 < i <= polls ==> host.pids(old(host.log) + Polls(i, PotName(se.id))) != 0
        invariant host.log == old(host.log) + Polls(polls, PotName(se.id))
        modifies host
      {
        var code := se.CheckContainerAlive(host);
        OnePoll(polls, PotName(se.id));
        assert old(host.log) + Polls(polls + 1, PotName(se.id)) == host.log;
        polls := polls + 1;
        if code == 0 {
          break;
        }
      }
    }

    /** The waiter of a recovered task: polls, and then destroys the pot whether it is gone or not. */
    method RecoverWait(id: string, se: Syexec, ticks: nat, parsed: Option<int>) returns (polls: nat, crashed: bool)
      requires HasParts(se.id)
      modifies if id in tasks.store then {tasks.store[id], tasks.store[id].calledDestroy} else {}
      modifies se`argvDestroy, se`exitCode, host
      ensures polls <= ticks && (polls < ticks ==> polls > 0)
      ensures forall i :: 0 < i <= polls ==>
        (host.pids(old(host.log) + Polls(i, PotName(se.id))) == 0 ==> i == polls)
      ensures polls < ticks ==> host.pids(old(host.log) + Polls(polls, PotName(se.id))) == 0
      ensures id !in tasks.store ==> crashed && host.log == old(host.log) + Polls(polls, PotName(se.id))
      ensures id in tasks.store ==>
        && var asked := old(host.log) + Polls(polls, PotName(se.id)) + [Exec([POT_BIN] + se.argvLastRunStats)];
        && var w := AfterRecoverWait(old(tasks.store[id].Value()), host.answers(asked), parsed, host.answers(host.log));
        && tasks.store[id].Value() == w.handle && crashed == w.crashed
        && se.argvDestroy == old(se.argvDestroy) + (if w.destroys then ["-F"] else [])
        && host.log == asked + (if w.destroys then [Exec([POT_BIN] + se.argvDestroy)] else [])
    {
      hide PotName, HasParts, AliveCheck, Polls;
      polls := PollUntilGone(se, ticks);
      var found := tasks.Get(id);
      if found.None? { return polls, true; }
      var h := found.value;
      h.procState := Exited;
      var stats, torn := se.GetContainerLastRunStats(host, parsed);
      if torn || h.exitResult == None { return polls, true; }
      h.exitResult := Some(stats.GetOr(DEFAULT_FAILED_CODE));
      crashed := se.DestroyContainer(host, h.calledDestroy);
    }

    /** Launches the destroy unless someone else already has. */
    method StopTask(id: string) returns (r: CallResult)
      requires id in tasks.store ==> HasParts(tasks.store[id].id)
      modifies host, if id in tasks.store then {tasks.store[id].calledDestroy} else {}
      ensures r.TaskNotFound? <==> id !in tasks.store
      ensures r.TaskNotFound? ==> host.log == old(host.log)
      ensures !r.TaskNotFound? ==>
        && var w := Destroying(old(tasks.store[id].Value()), false, host.answers(host.log));
        && tasks.store[id].Value() == w.handle && r == (if w.crashed then CallResult.Panicked else Done)
        && host.log == old(host.log) + if w.destroys then [DestroyCommand(PotName(tasks.store[id].id))] else []
    {
      var found := tasks.Get(id);
      if found.None? { return TaskNotFound; }
      var h := found.value;
      var se := PrepareDestroy(h.id);
      DestroyIsForced(PotName(h.id));
      var crashed := se.DestroyContainer(host, h.calledDestroy);
      r := if crashed then CallResult.Panicked else Done;
    }

    /** `parsed` is the signal that the library reads out of the request, one of the table's; `decodes` says whether the
        job's configuration does. The error for a signal that has no name is never returned. */
    method SignalTask(id: string, parsed: Option<Signal>, decodes: bool, table: map<string, Signal>,
                      lookup: map<Signal, string>)
      returns (r: SignalResult)
      requires id in tasks.store ==> HasParts(tasks.store[id].id)
      requires Reverses(lookup, table) && (parsed.Some? ==> parsed.value in table.Values)
      modifies host
      ensures r.NoTask? <==> id !in tasks.store
      ensures r.Unparsed? <==> id in tasks.store && parsed.None?
      ensures r.Undecoded? <==> id in tasks.store && parsed.Some? && !decodes
      ensures !r.Untranslated?
      ensures r.Unsuccessful? || r.Delivered? || r.Panicked? ==>
        exists name :: name in table && table[name] == parsed.value
          && host.log == old(host.log) + [Exec([POT_BIN, "signal", "-s", name, "-p", PotName(tasks.store[id].id)])]
      ensures r.Delivered? <==> host.log != old(host.log) && host.answers(host.log).Success?
      ensures r.Panicked? <==> host.log != old(host.log) && host.answers(host.log).NotStarted?
      ensures r.NoTask? || r.Unparsed? || r.Undecoded? ==> host.log == old(host.log)
    {
      hide PotName, HasParts;
      var found := tasks.Get(id);
      if found.None? { return NoTask; }
      if parsed.None? { return Unparsed; }
      if !decodes { return Undecoded; }
      var argv := PrepareSignal(table, lookup, found.value.id, parsed.value);
      if argv.None? { return Untranslated; }
      ghost var name :| name in table && table[name] == parsed.value
                        && argv.value == ["signal", "-s", name, "-p", PotName(found.value.id)];
      assert [POT_BIN] + argv.value == [POT_BIN, "signal", "-s", name, "-p", PotName(found.value.id)];
      var o := host.Run(Exec([POT_BIN] + argv.value));
      if o.NotStarted? { return SignalResult.Panicked; }
      r := if CodeOf(o) != 0 then Unsuccessful else Delivered;
    }

    method DestroyTask(id: string, force: bool) returns (r: CallResult)
      modifies tasks
      ensures r.TaskNotFound? <==> id !in old(tasks.store)
      ensures r.StillRunning? <==> id in old(tasks.store) && old(tasks.store[id].procState) == Running && !force
      ensures tasks.store == if r.Done? then old(tasks.store) - {id} else old(tasks.store)
    {
      var found := tasks.Get(id);
      if found.None? { return TaskNotFound; }
      var running := found.value.IsRunning();
      if running && !force { return StillRunning; }
      tasks.Delete(id);
      r := Done;
    }
  }

  lemma BringCases(answers: Answers, pids: seq<Command> -> int, log: seq<Command>, pot: string, plan: seq<Step>,
                   outputsOpen: bool)
    ensures var (after, fate) := Bring(answers, pids, log, pot, plan, outputsOpen);
      var checks := log + [ExistsCheck(pot)];
      var launched := checks + (if pids(checks) != 0 then [] else Issued(plan)) + [StartCommand(pot)];
      if outputsOpen && (pids(checks) != 0 || Execute(answers, checks, plan).1) then
        after == launched && fate == if answers(launched).NotStarted? then Panicking else Through
      else
        fate.Failing? && exists n: nat ::
          n <= (if pids(checks) != 0 then 0 else |plan|) && after == checks + Issued(plan)[..n]
  {
    hide Execute, ExistsCheck;
    var checks := log + [ExistsCheck(pot)];
    var n := ExecutePrefix(answers, checks, plan);
    assert Issued(plan)[..|plan|] == Issued(plan);
    assert checks + [] == checks && checks + Issued(plan)[..0] == checks;
  }

  /** What a start does up to the registration of its handle, from the answers to its two checks: a living pot is taken
      as it is; one that exists is launched; any other one is launched after its whole create plan, and a failure leaves
      a prefix of that and launches nothing. */
  lemma StartCases(answers: Answers, pids: seq<Command> -> int, log: seq<Command>, pot: string, plan: seq<Step>,
                   outputsOpen: bool)
    ensures var (after, fate) := StartRun(answers, pids, log, pot, plan, outputsOpen);
      var checks := log + [AliveCheck(pot), ExistsCheck(pot)];
      var launched := checks + (if pids(checks) != 0 then [] else Issued(plan)) + [StartCommand(pot)];
      if pids(log + [AliveCheck(pot)]) != 0 then
        after == log + [AliveCheck(pot)] && fate.Through?
      else if outputsOpen && (pids(checks) != 0 || Execute(answers, checks, plan).1) then
        after == launched && fate == if answers(launched).NotStarted? then Panicking else Through
      else
        fate.Failing? && exists n: nat ::
          n <= (if pids(checks) != 0 then 0 else |plan|) && after == checks + Issued(plan)[..n]
  {
    hide Bring, AliveCheck, ExistsCheck, Issued, Execute;
    BringCases(answers, pids, log + [AliveCheck(pot)], pot, plan, outputsOpen);
    assert log + [AliveCheck(pot)] + [ExistsCheck(pot)] == log + [AliveCheck(pot), ExistsCheck(pot)];
  }

  /** Up to the registration of its handle a start destroys nothing; so a start that fails after its checks destroys
      exactly once, as its last command. */
  lemma StartConservation(t: TaskConfig, d: DriverConfig, ports: seq<string>, names: seq<string>, answers: Answers,
                          pids: seq<Command> -> int, log: seq<Command>, outputsOpen: bool)
    requires Preparable(t, d) && IsOrder(ports, d.portMap) && IsOrder(names, t.env)
    ensures var pot, plan := PotName(t.id), CreatePlan(Prepared(t, d, ports, names));
      var (after, fate) := StartRun(answers, pids, log, pot, plan, outputsOpen);
      && log <= after
      && Destroys(after) == Destroys(log)
      && Destroys(after + [DestroyCommand(pot)]) == Destroys(log) + 1
  {
    hide Destroys, CreatePlan, Prepared, PotName, HasParts, StartRun, IsDestroy, DestroyCommand, StartCommand;
    hide AliveCheck, ExistsCheck, Issued;
    var c := Prepared(t, d, ports, names);
    var plan, pot := CreatePlan(c), PotName(t.id);
    var (after, fate) := StartRun(answers, pids, log, pot, plan, outputsOpen);
    CreatePrepares(t, d, ports, names);
    SingleDestroys(pot);
    StartCases(answers, pids, log, pot, plan, outputsOpen);
    DestroysConcat(after, [DestroyCommand(pot)]);
    DestroysConcat(log, [AliveCheck(pot)]);
    if pids(log + [AliveCheck(pot)]) == 0 {
      var checks := log + [AliveCheck(pot), ExistsCheck(pot)];
      assert checks == log + [AliveCheck(pot)] + [ExistsCheck(pot)];
      DestroysConcat(log + [AliveCheck(pot)], [ExistsCheck(pot)]);
      PlanLaunchDestroysNothing(checks, after, pot, c);
    }
  }

  lemma PlanLaunchDestroysNothing(checks: seq<Command>, after: seq<Command>, pot: string, c: Commands)
    requires |c.create| >= 1 && c.create[0] != "destroy"
    requires var all := Issued(CreatePlan(c));
      || after == checks + [] + [StartCommand(pot)] || after == checks + all + [StartCommand(pot)]
      || exists n: nat :: n <= |all| && after == checks + all[..n]
    ensures Destroys(after) == Destroys(checks) && checks <= after
  {
    hide Destroys, CreatePlan, StartCommand, Issued;
    var all := Issued(CreatePlan(c));
    SingleDestroys(pot);
    assert checks + [] == checks;
    DestroysConcat(checks, [StartCommand(pot)]);
    DestroysConcat(checks + all, [StartCommand(pot)]);
    assert all[..|all|] == all;
    forall n: nat | n <= |all|
      ensures Destroys(checks + all[..n]) == Destroys(checks)
    {
      DestroysConcat(checks, all[..n]);
      PlanDestroysNothing(c, n);
    }
  }

  lemma CreatePrepares(t: TaskConfig, d: DriverConfig, ports: seq<string>, names: seq<string>)
    requires Preparable(t, d) && IsOrder(ports, d.portMap) && IsOrder(names, t.env)
    ensures |Prepared(t, d, ports, names).create| >= 1 && Prepared(t, d, ports, names).create[0] != "destroy"
  {
    hide Flatten, CreatePairs, Attributes, Copies, Mounts, ReadOnlyMounts, EnvCommand, HostsCommand, PotName, HasParts;
    assert "prepare"[0] != "destroy"[0];
  }

  lemma SingleDestroys(pot: string)
    ensures Destroys([AliveCheck(pot)]) == Destroys([ExistsCheck(pot)]) == Destroys([StartCommand(pot)]) == 0
    ensures Destroys([DestroyCommand(pot)]) == 1 && IsDestroy(DestroyCommand(pot))
    ensures Destroys([]) == 0
  {
    assert [AliveCheck(pot)][..0] == [] == [ExistsCheck(pot)][..0];
    assert [StartCommand(pot)][..0] == [] == [DestroyCommand(pot)][..0];
    assert "start"[0] != "destroy"[0];
  }

  /** The fields of the prepared commands that a start relies on. */
  lemma PreparedFixed(t: TaskConfig, d: DriverConfig, ports: seq<string>, names: seq<string>)
    requires Preparable(t, d) && IsOrder(ports, d.portMap) && IsOrder(names, t.env)
    ensures HasParts(t.id)
    ensures Prepared(t, d, ports, names).start == StartArgv(PotName(t.id))
    ensures Prepared(t, d, ports, names).destroy == DestroyArgv(PotName(t.id))
    ensures Prepared(t, d, ports, names).lastRunStats == LastRunStatsArgv(PotName(t.id))
    ensures Exec([POT_BIN] + (DestroyArgv(PotName(t.id)) + ["-F"])) == DestroyCommand(PotName(t.id))
  {
    hide CreateArgv, Attributes, Copies, Mounts, ReadOnlyMounts, EnvCommand, HostsCommand, PotName, HasParts;
    hide LocalMountCommand, SecretMountCommand, MemoryCommand, StartArgv, LastRunStatsArgv, IsOrder, WellFormed;
    DestroyIsForced(PotName(t.id));
  }

  lemma DestroyIsForced(pot: string)
    ensures Exec([POT_BIN] + (DestroyArgv(pot) + ["-F"])) == DestroyCommand(pot)
  {
    var argv := [POT_BIN] + (DestroyArgv(pot) + ["-F"]);
    assert argv == [POT_BIN, "destroy", "-p", pot, "-F"];
  }
}
