/** The source's `syexec`: the prepared commands of one task, and the methods that run them. */
module Pot {
  import opened Options
  import opened Text
  import opened Naming
  import opened Shell
  import opened Config
  import opened ShellCommands
  import opened CreateArguments
  import opened Plan
  import opened Host
  import opened Steps

  class AtomicBool {
    var value: bool

    constructor ()
      ensures !value
    {
      value := false;
    }

    method CompareAndSwap(expected: bool, wanted: bool) returns (swapped: bool)
      modifies this
      ensures swapped == (old(value) == expected)
      ensures value == if swapped then wanted else old(value)
    {
      swapped := value == expected;
      if swapped { value := wanted; }
    }
  }

  /** The line of the liveness check, with the pot name spliced between single quotes. */
  function AliveCheck(pot: string): Command {
    Sh("/bin/pgrep -f '" + ("/bin/sh /usr/local/bin/pot start " + pot) + "'")
  }

  function ExistsCheck(pot: string): Command {
    Sh("/usr/local/bin/pot ls -q | grep " + pot)
  }

  function StartCommand(pot: string): Command {
    Exec([POT_BIN, "start", pot])
  }

  /** A destroy also stops the pot. */
  function DestroyCommand(pot: string): Command {
    Exec([POT_BIN, "destroy", "-p", pot, "-F"])
  }

  class Syexec {
    const id: string
    var argvCreate: seq<string>
    var argvAttributes: seq<string>
    var argvCopy: seq<string>
    var argvMount: seq<string>
    var argvMountReadOnly: seq<string>
    var argvEnv: string
    var argvExtraHosts: string
    var argvMem: string
    var argvStart: seq<string>
    var argvStats: seq<string>
    var argvLastRunStats: seq<string>
    var argvDestroy: seq<string>
    var exitCode: int

    constructor (id: string)
      ensures this.id == id && exitCode == 0
      ensures argvCreate == argvAttributes == argvCopy == argvMount == argvMountReadOnly == []
      ensures argvStart == argvStats == argvLastRunStats == argvDestroy == []
      ensures argvEnv == argvExtraHosts == argvMem == ""
    {
      this.id := id;
      argvCreate, argvAttributes, argvCopy, argvMount, argvMountReadOnly := [], [], [], [], [];
      argvStart, argvStats, argvLastRunStats, argvDestroy := [], [], [], [];
      argvEnv, argvExtraHosts, argvMem := "", "", "";
      exitCode := 0;
    }

    function Printed(): Commands
      reads this
    {
      Commands(argvCreate, argvAttributes, argvCopy, argvMount, argvMountReadOnly, argvEnv, argvExtraHosts, argvMem,
               argvStart, argvStats, argvLastRunStats, argvDestroy)
    }

    /** One of the four loops: stops at the first exit error, passes over other errors. */
    method RunEach(host: Machine, commands: seq<string>) returns (ok: bool)
      modifies host
      ensures (host.log, ok) == Execute(host.answers, old(host.log), Tolerant(Invocations(commands)))
      ensures old(host.log) <= host.log && |host.log| <= |old(host.log)| + |commands|
      ensures forall k :: |old(host.log)| <= k < |host.log| ==>
        host.log[k] == Sh(Quote(POT_BIN) + " " + commands[k - |old(host.log)|])
      ensures if ok then
          && |host.log| == |old(host.log)| + |commands|
          && (forall k :: |old(host.log)| < k <= |host.log| ==> !host.answers(host.log[..k]).ExitError?)
        else
          && |old(host.log)| < |host.log| && host.answers(host.log).ExitError?
          && (forall k :: |old(host.log)| < k < |host.log| ==> !host.answers(host.log[..k]).ExitError?)
    {
      hide Quote, Execute, Invocations;
      ghost var steps := Tolerant(Invocations(commands));
      InvocationCount(commands);
      assert steps[0..] == steps;
      for i := 0 to |commands|
        invariant Execute(host.answers, old(host.log), steps) == Execute(host.answers, host.log, steps[i..])
        invariant old(host.log) <= host.log && |host.log| == |old(host.log)| + i
        invariant forall k :: |old(host.log)| <= k < |host.log| ==>
          host.log[k] == Sh(Quote(POT_BIN) + " " + commands[k - |old(host.log)|])
        invariant forall k :: |old(host.log)| < k <= |host.log| ==> !host.answers(host.log[..k]).ExitError?
      {
        ghost var before := host.log;
        assert before[..|before|] == before;
        assert steps[i..][0] == Step(Sh(Invocation(commands[i])), false) by { InvocationAt(commands, i); }
        assert steps[i..][1..] == steps[i + 1..];
        ExecuteFirst(host.answers, host.log, steps[i..]);
        var o := host.Run(Sh(Quote(POT_BIN) + " " + commands[i]));
        assert host.log[..|host.log|] == host.log;
        assert forall k :: 0 <= k <= |before| ==> host.log[..k] == before[..k];
        if o.ExitError? {
          return false;
        }
      }
      ok := true;
      assert steps[|commands|..] == [];
      ExecuteNone(host.answers, host.log);
    }

    /** Runs the create plan in order, to its end or to its first failure. */
    method CreateContainer(host: Machine) returns (ok: bool)
      modifies this`exitCode, host
      ensures (host.log, ok) == Execute(host.answers, old(host.log), CreatePlan(Printed()))
      ensures var log, cs := old(host.log), Issued(CreatePlan(Printed()));
        && |cs| >= 4
        && (ok <==>
              && host.answers(log + cs[..1]).Success?
              && (forall k :: 1 < k <= |cs| - 3 ==> !host.answers(log + cs[..k]).ExitError?)
              && (forall k :: |cs| - 3 < k <= |cs| ==> host.answers(log + cs[..k]).Success?))
      ensures exitCode == match host.answers(old(host.log) + [Exec([POT_BIN] + argvCreate)])
                          case Success => 0
                          case ExitError(status) => status
                          case _ => 255
      ensures ok ==> exitCode == 0
    {
      hide CreatePlan, LoopLines, Execute, Tolerant, Strict, Invocations, Quote, Issued;
      ghost var log, answers, c := host.log, host.answers, Printed();
      CreateStages(answers, log, c);
      CreateSucceedsIff(answers, log, c);
      var o := host.Run(Exec([POT_BIN] + argvCreate));
      exitCode := CodeOf(o);
      if exitCode != 0 {
        return false;
      }
      ok := RunEach(host, argvAttributes);
      if !ok { return; }
      ok := RunEach(host, argvCopy);
      if !ok { return; }
      ok := RunEach(host, argvMount);
      if !ok { return; }
      ok := RunEach(host, argvMountReadOnly);
      if !ok { return; }
      o := host.Run(Sh(argvEnv));
      if !o.Success? { return false; }
      o := host.Run(Sh(argvExtraHosts));
      if !o.Success? { return false; }
      o := host.Run(Sh(argvMem));
      ok := o.Success?;
    }

    /** Opens the output pipes and launches the pot; the launch itself is not waited for, and its error not looked at:
        the process is dereferenced all the same. */
    method StartContainer(host: Machine, outputsOpen: bool) returns (ok: bool, crashed: bool)
      modifies host
      ensures crashed <==> outputsOpen && host.answers(host.log).NotStarted?
      ensures ok == (outputsOpen && !crashed && exitCode == 0)
      ensures host.log == old(host.log) + if outputsOpen then [Exec([POT_BIN] + argvStart)] else []
    {
      if !outputsOpen {
        return false, false;
      }
      var o := host.Run(Exec([POT_BIN] + argvStart));
      if o.NotStarted? {
        return false, true;
      }
      ok, crashed := exitCode == 0, false;
    }

    /** Without a flag, always destroys; with one, only the caller that turns it. Crashes over a destroy that cannot be
        started. */
    method DestroyContainer(host: Machine, calledDestroy: AtomicBool?) returns (crashed: bool)
      modifies this`argvDestroy, this`exitCode, host, calledDestroy
      ensures calledDestroy != null ==> calledDestroy.value
      ensures calledDestroy != null && old(calledDestroy.value) ==>
                !crashed && host.log == old(host.log) && argvDestroy == old(argvDestroy) && exitCode == old(exitCode)
      ensures calledDestroy == null || !old(calledDestroy.value) ==>
                && argvDestroy == old(argvDestroy) + ["-F"]
                && host.log == old(host.log) + [Exec([POT_BIN] + argvDestroy)]
                && (crashed <==> host.answers(host.log).NotStarted?)
                && exitCode == match host.answers(host.log)
                               case Success => 0
                               case ExitError(status) => status
                               case _ => 255
    {
      if calledDestroy != null {
        var won := calledDestroy.CompareAndSwap(false, true);
        if !won { return false; }
      }
      argvDestroy := argvDestroy + ["-F"];
      var o := host.Run(Exec([POT_BIN] + argvDestroy));
      exitCode := CodeOf(o);
      crashed := o.NotStarted?;
    }

    /** The exit code of the last run, if the command succeeds and its output parses. Crashes over a command that cannot
        be started. */
    method GetContainerLastRunStats(host: Machine, parsed: Option<int>) returns (stats: Option<int>, crashed: bool)
      modifies this`exitCode, host
      ensures host.log == old(host.log) + [Exec([POT_BIN] + argvLastRunStats)]
      ensures exitCode == match host.answers(host.log)
                          case Success => 0
                          case ExitError(status) => status
                          case _ => 255
      ensures crashed <==> host.answers(host.log).NotStarted?
      ensures stats == if host.answers(host.log).Success? then parsed else None
    {
      var o := host.Run(Exec([POT_BIN] + argvLastRunStats));
      exitCode := CodeOf(o);
      if o.NotStarted? {
        return None, true;
      }
      if exitCode != 0 {
        return None, false;
      }
      stats, crashed := parsed, false;
    }

    method CheckContainerAlive(host: Machine) returns (pid: int)
      requires HasParts(id)
      modifies host
      ensures host.log == old(host.log) + [AliveCheck(PotName(id))] && pid == host.pids(host.log)
    {
      var parts := Split(id, '/');
      var potName := parts[1] + "_" + parts[2] + "_" + parts[0];
      pid := host.Query(Sh("/bin/pgrep -f '" + ("/bin/sh /usr/local/bin/pot start " + potName) + "'"));
    }

    method CheckContainerExists(host: Machine) returns (found: int)
      requires HasParts(id)
      modifies host
      ensures host.log == old(host.log) + [ExistsCheck(PotName(id))] && found == host.pids(host.log)
    {
      var parts := Split(id, '/');
      var potName := parts[1] + "_" + parts[2] + "_" + parts[0];
      found := host.Query(Sh("/usr/local/bin/pot ls -q | grep " + potName));
    }
  }

  /** The commands with a fixed spelling, as the prepared argument vectors give them: each its own verb, and the task's
      own pot. A destroy adds its flag only when it is launched. */
  lemma CommandsSpelled(t: TaskConfig, d: DriverConfig, ports: seq<string>, names: seq<string>)
    requires Preparable(t, d) && IsOrder(ports, d.portMap) && IsOrder(names, t.env)
    ensures var c, pot := Prepared(t, d, ports, names), PotName(t.id);
      && Exec([POT_BIN] + c.start) == StartCommand(pot) == Exec(["/usr/local/bin/pot", "start", pot])
      && Exec([POT_BIN] + c.stats) == Exec(["/usr/local/bin/pot", "get-rss", "-p", pot, "-J"])
      && Exec([POT_BIN] + c.lastRunStats) == Exec(["/usr/local/bin/pot", "last-run-stats", "-p", pot])
      && Exec([POT_BIN] + (c.destroy + ["-F"])) == DestroyCommand(pot)
      && DestroyCommand(pot) == Exec(["/usr/local/bin/pot", "destroy", "-p", pot, "-F"])
      && c.create == CreateArgv(t, d, ports)
  {
    hide CreateArgv, Attributes, Copies, Mounts, ReadOnlyMounts, EnvCommand, HostsCommand, PotName, HasParts;
    hide LocalMountCommand, SecretMountCommand, MemoryCommand;
    var c, pot := Prepared(t, d, ports, names), PotName(t.id);
    assert [POT_BIN] + c.start == ["/usr/local/bin/pot", "start", pot];
    assert [POT_BIN] + c.stats == ["/usr/local/bin/pot", "get-rss", "-p", pot, "-J"];
    assert [POT_BIN] + c.lastRunStats == ["/usr/local/bin/pot", "last-run-stats", "-p", pot];
    assert [POT_BIN] + (c.destroy + ["-F"]) == ["/usr/local/bin/pot", "destroy", "-p", pot, "-F"];
  }

  lemma ExecuteFirst(answers: Answers, log: seq<Command>, steps: seq<Step>)
    requires steps != []
    ensures var next := log + [steps[0].command];
      Execute(answers, log, steps) ==
      if Passes(steps[0], answers(next)) then Execute(answers, next, steps[1..]) else (next, false)
  {
  }

  lemma ExecuteNone(answers: Answers, log: seq<Command>)
    ensures Execute(answers, log, []) == (log, true)
  {
  }

  lemma InvocationCount(commands: seq<string>)
    ensures |Invocations(commands)| == |commands|
  {
  }

  lemma InvocationAt(commands: seq<string>, i: nat)
    requires i < |commands|
    ensures |Invocations(commands)| == |commands| && Invocations(commands)[i] == Invocation(commands[i])
  {
  }

  lemma TolerantConcat(a: seq<string>, b: seq<string>)
    ensures Tolerant(a + b) == Tolerant(a) + Tolerant(b)
  {
  }

  /** The plan taken apart at the places where the source's method stands between two loops. */
  lemma CreateStages(answers: Answers, log: seq<Command>, c: Commands)
    ensures var all := Execute(answers, log, CreatePlan(c));
            var log0 := log + [Exec([POT_BIN] + c.create)];
            var (log1, ok1) := Execute(answers, log0, Tolerant(Invocations(c.attributes)));
            var (log2, ok2) := Execute(answers, log1, Tolerant(Invocations(c.copies)));
            var (log3, ok3) := Execute(answers, log2, Tolerant(Invocations(c.mounts)));
            var (log4, ok4) := Execute(answers, log3, Tolerant(Invocations(c.mountsReadOnly)));
            var log5 := log4 + [Sh(c.env)];
            var log6 := log5 + [Sh(c.hosts)];
            var log7 := log6 + [Sh(c.memory)];
            all == if !answers(log0).Success? then (log0, false)
                   else if !ok1 then (log1, false)
                   else if !ok2 then (log2, false)
                   else if !ok3 then (log3, false)
                   else if !ok4 then (log4, false)
                   else if !answers(log5).Success? then (log5, false)
                   else if !answers(log6).Success? then (log6, false)
                   else (log7, answers(log7).Success?)
  {
    var log0 := log + [Exec([POT_BIN] + c.create)];
    var loops := Tolerant(LoopLines(c));
    assert CreatePlan(c)[1..] == loops + Strict(LastLines(c));
    ExecuteConcat(answers, log0, loops, Strict(LastLines(c)));
    LoopStages(answers, log0, c);
    LastStages(answers, Execute(answers, log0, loops).0, c);
  }

  lemma LoopStages(answers: Answers, log0: seq<Command>, c: Commands)
    ensures var (log1, ok1) := Execute(answers, log0, Tolerant(Invocations(c.attributes)));
            var (log2, ok2) := Execute(answers, log1, Tolerant(Invocations(c.copies)));
            var (log3, ok3) := Execute(answers, log2, Tolerant(Invocations(c.mounts)));
            Execute(answers, log0, Tolerant(LoopLines(c)))
            == if !ok1 then (log1, false) else if !ok2 then (log2, false) else if !ok3 then (log3, false)
               else Execute(answers, log3, Tolerant(Invocations(c.mountsReadOnly)))
  {
    hide Execute, Tolerant, Invocations;
    var a, b := Invocations(c.attributes), Invocations(c.copies);
    var m, r := Invocations(c.mounts), Invocations(c.mountsReadOnly);
    TolerantConcat(a, b);
    TolerantConcat(a + b, m);
    TolerantConcat(a + b + m, r);
    ExecuteConcat(answers, log0, Tolerant(a + b + m), Tolerant(r));
    ExecuteConcat(answers, log0, Tolerant(a + b), Tolerant(m));
    ExecuteConcat(answers, log0, Tolerant(a), Tolerant(b));
  }

  lemma LastStages(answers: Answers, log: seq<Command>, c: Commands)
    ensures var log5 := log + [Sh(c.env)];
            var log6 := log5 + [Sh(c.hosts)];
            var log7 := log6 + [Sh(c.memory)];
            Execute(answers, log, Strict(LastLines(c)))
            == if !answers(log5).Success? then (log5, false)
               else if !answers(log6).Success? then (log6, false)
               else (log7, answers(log7).Success?)
  {
    var steps := Strict(LastLines(c));
    var log6 := log + [Sh(c.env)] + [Sh(c.hosts)];
    assert steps[1..][1..] == [Step(Sh(c.memory), true)];
    assert steps[1..][1..][1..] == [];
    assert Execute(answers, log6, [Step(Sh(c.memory), true)])
        == (log6 + [Sh(c.memory)], answers(log6 + [Sh(c.memory)]).Success?);
  }

  // ---- printing

  lemma {:induction false} JoinAppend(parts: seq<string>, last: string, sep: char)
    requires |parts| >= 1
    ensures Join(parts + [last], sep) == Join(parts, sep) + [sep] + last
  {
    if |parts| == 1 {
      assert (parts + [last])[1..] == [last];
    } else {
      assert (parts + [last])[1..] == parts[1..] + [last];
      JoinAppend(parts[1..], last, sep);
      assert parts[0] + [sep] + (Join(parts[1..], sep) + [sep] + last)
          == parts[0] + [sep] + Join(parts[1..], sep) + [sep] + last;
    }
  }

  /** Appending an option and its argument appends a pair. */
  lemma FlattenAppend(pairs: seq<Pair>, letter: char, value: string)
    ensures Flatten(pairs + [(letter, value)]) == Flatten(pairs) + [['-', letter], value]
  {
    FlattenConcat(pairs, [(letter, value)]);
    assert Flatten([(letter, value)]) == [['-', letter], value] + Flatten([]);
  }

  /** Command and arguments with a blank before each argument; arguments without a command are refused. */
  method PrintCommand(d: DriverConfig) returns (command: Option<string>)
    ensures command.None? <==> d.args != [] && d.command == ""
    ensures command.Some? ==> command.value == Join([d.command] + d.args, ' ')
    ensures command.Some? ==> (command.value == "" <==> d.command == "")
  {
    var text := d.command;
    if |d.args| > 0 && d.command == "" {
      return None;
    }
    for i := 0 to |d.args|
      invariant text == Join([d.command] + d.args[..i], ' ')
    {
      JoinAppend([d.command] + d.args[..i], d.args[i], ' ');
      assert [d.command] + d.args[..i] + [d.args[i]] == [d.command] + d.args[..i + 1];
      text := text + " " + d.args[i];
    }
    assert d.args[..|d.args|] == d.args;
    JoinNotEmpty([d.command] + d.args, ' ');
    command := Some(text);
  }

  /** One `-e` for every port mapping, in the order the loop visits the map. */
  method PrintExports(t: TaskConfig, d: DriverConfig, ports: seq<string>, before: seq<string>, ghost pairs: seq<Pair>)
    returns (args: seq<string>)
    requires IsOrder(ports, d.portMap)
    requires before == ["prepare"] + Flatten(pairs)
    ensures args == ["prepare"] + Flatten(pairs + ExportPairs(Exports(ports, d, t.env)))
  {
    hide Flatten;
    args := before;
    assert pairs + ExportPairs(Exports(ports[..0], d, t.env)) == pairs;
    for i := 0 to |ports|
      invariant args == ["prepare"] + Flatten(pairs + ExportPairs(Exports(ports[..i], d, t.env)))
    {
      var key := "NOMAD_HOST_PORT_" + ports[i];
      var port := d.portMap[ports[i]] + ":" + (if key in t.env then t.env[key] else "");
      assert ports[..i + 1][..i] == ports[..i];
      var sofar := pairs + ExportPairs(Exports(ports[..i], d, t.env));
      FlattenAppend(sofar, 'e', port);
      assert sofar + [('e', port)] == pairs + ExportPairs(Exports(ports[..i + 1], d, t.env));
      args := args + ["-e", port];
    }
    assert ports[..|ports|] == ports;
  }

  lemma ImageFlattens(d: DriverConfig)
    ensures ["prepare", "-U", d.image, "-p", d.pot, "-t", d.tag] == ["prepare"] + Flatten(ImagePairs(d))
  {
    FlattenAppend([], 'U', d.image);
    FlattenAppend([('U', d.image)], 'p', d.pot);
    FlattenAppend([('U', d.image), ('p', d.pot)], 't', d.tag);
    assert [] + [('U', d.image)] == [('U', d.image)];
    assert [('U', d.image)] + [('p', d.pot)] == [('U', d.image), ('p', d.pot)];
    assert ImagePairs(d) == [('U', d.image), ('p', d.pot)] + [('t', d.tag)];
  }

  /** The create argument vector, option by option; arguments without a command are refused. */
  method PrintCreate(t: TaskConfig, d: DriverConfig, ports: seq<string>) returns (argv: Option<seq<string>>)
    requires HasParts(t.id) && IsOrder(ports, d.portMap)
    ensures argv.None? <==> d.args != [] && d.command == ""
    ensures argv.Some? ==> argv.value == CreateArgv(t, d, ports)
  {
    hide Flatten, Join, Exports, PotName, Split, ExportPairs;
    ghost var pairs := ImagePairs(d);
    var args := ["prepare", "-U", d.image, "-p", d.pot, "-t", d.tag];
    ImageFlattens(d);

    var command := PrintCommand(d);
    if command.None? {
      return None;
    }
    if command.value != "" {
      var quoted := "\"" + command.value + "\"";
      FlattenAppend(pairs, 'c', quoted);
      pairs := pairs + [('c', quoted)];
      args := args + ["-c", quoted];
    }
    assert pairs == ImagePairs(d) + CommandPairs(d);

    if d.networkMode != "" {
      FlattenAppend(pairs, 'N', d.networkMode);
      pairs := pairs + [('N', d.networkMode)];
      args := args + ["-N", d.networkMode];
    } else if |d.portMap| > 0 {
      FlattenAppend(pairs, 'N', "public-bridge");
      FlattenAppend(pairs + [('N', "public-bridge")], 'i', "auto");
      pairs := pairs + [('N', "public-bridge")] + [('i', "auto")];
      args := args + ["-N", "public-bridge", "-i", "auto"];
    }
    ghost var front := ImagePairs(d) + CommandPairs(d) + NetworkPairs(d);
    assert pairs == front;

    if d.networkMode != "host" {
      args := PrintExports(t, d, ports, args, front);
      pairs := front + ExportPairs(Exports(ports, d, t.env));
    }
    ghost var exports := if d.networkMode == "host" then [] else Exports(ports, d, t.env);
    assert pairs == front + ExportPairs(exports) by {
      NoExportPairs();
    }

    args := PrintNames(t.id, args, pairs);
    assert front + ExportPairs(exports) + NamePairs(t.id) == CreatePairs(t, d, ports);
    argv := Some(args);
  }

  lemma NoExportPairs()
    ensures ExportPairs([]) == []
  {
  }

  method PrintNames(id: string, before: seq<string>, ghost pairs: seq<Pair>) returns (args: seq<string>)
    requires HasParts(id)
    requires before == ["prepare"] + Flatten(pairs)
    ensures args == ["prepare"] + Flatten(pairs + NamePairs(id)) + ["-v"]
  {
    hide Flatten, Split;
    args := before;
    var parts := Split(id, '/');
    var baseName := parts[1];
    var jobIDAllocID := parts[2] + "_" + parts[0];
    if jobIDAllocID != "" {
      args := args + ["-a", jobIDAllocID];
    }
    args := args + ["-n", baseName, "-v"];
    FlattenAppend(pairs, 'a', jobIDAllocID);
    FlattenAppend(pairs + [('a', jobIDAllocID)], 'n', baseName);
    assert pairs + NamePairs(id) == pairs + [('a', jobIDAllocID)] + [('n', baseName)];
  }

  lemma JoinNotEmpty(parts: seq<string>, sep: char)
    requires |parts| >= 1
    ensures Join(parts, sep) == "" <==> parts == [""]
  {
  }
}
