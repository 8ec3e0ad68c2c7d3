/** `prepareContainer` and `prepareDestroy`: from a task configuration to a filled `syexec`. */
module Prepare {
  import opened Text
  import opened Naming
  import opened Shell
  import opened Config
  import opened ShellCommands
  import opened CreateArguments
  import opened Plan
  import opened Pot

  method PrintCopies(pot: string, files: seq<string>) returns (commands: seq<string>)
    requires Colons(files)
    ensures commands == Copies(pot, files)
  {
    hide Quote;
    commands := [];
    for i := 0 to |files|
      invariant commands == Copies(pot, files)[..i]
    {
      var split := CutFirst(files[i], ':');
      var source := split.0;
      var destination := split.1;
      commands := commands + ["copy-in -p " + Quote(pot) + " -s " + Quote(source) + " -d " + Quote(destination)];
    }
  }

  method PrintMounts(pot: string, files: seq<string>, before: seq<string>) returns (commands: seq<string>)
    requires Colons(files)
    ensures commands == before + Mounts(pot, files)
  {
    hide Quote;
    commands := before;
    for i := 0 to |files|
      invariant commands == before + Mounts(pot, files)[..i]
    {
      SplitInTwo(files[i], ':');
      var split := Split(files[i], ':');
      var source := split[0];
      var destination := split[1];
      commands := commands + ["mount-in -p " + Quote(pot) + " -d " + Quote(source) + " -m " + Quote(destination)];
    }
  }

  method PrintReadOnlyMounts(pot: string, files: seq<string>) returns (commands: seq<string>)
    requires Colons(files)
    ensures commands == ReadOnlyMounts(pot, files)
  {
    hide Quote;
    commands := [];
    for i := 0 to |files|
      invariant commands == ReadOnlyMounts(pot, files)[..i]
    {
      SplitInTwo(files[i], ':');
      var split := Split(files[i], ':');
      var source := split[0];
      var destination := split[1];
      commands := commands
        + ["mount-in -p " + Quote(pot) + " -d " + Quote(source) + " -m " + Quote(destination) + " -r"];
    }
  }

  method PrintAttributes(pot: string, attributes: seq<string>) returns (commands: seq<string>)
    requires Colons(attributes)
    ensures commands == Attributes(pot, attributes)
  {
    hide Quote;
    commands := [];
    for i := 0 to |attributes|
      invariant commands == Attributes(pot, attributes)[..i]
    {
      SplitInTwo(attributes[i], ':');
      var split := Split(attributes[i], ':');
      var attribute := split[0];
      var value := split[1];
      commands := commands + ["set-attribute -p " + Quote(pot) + " -A " + Quote(attribute) + " -V " + Quote(value)];
    }
  }

  /** Visits the environment in the given order. */
  method PrintEnv(pot: string, env: map<string, string>, names: seq<string>) returns (command: string)
    requires IsOrder(names, env)
    ensures command == EnvCommand(pot, names, env)
  {
    hide Quote;
    command := Quote(POT_BIN) + " set-env -p " + Quote(pot) + " ";
    for i := 0 to |names|
      invariant command == EnvCommand(pot, names[..i], env)
    {
      assert names[..i + 1][..i] == names[..i];
      command := command + " -E " + Quote(names[i]) + "=" + Quote(env[names[i]]);
    }
    assert names[..|names|] == names;
  }

  method PrintHosts(pot: string, hosts: seq<string>) returns (command: string)
    ensures command == HostsCommand(pot, hosts)
  {
    hide Quote;
    command := Quote(POT_BIN) + " set-hosts -p " + Quote(pot);
    for i := 0 to |hosts|
      invariant command == HostsCommand(pot, hosts[..i])
    {
      assert hosts[..i + 1][..i] == hosts[..i];
      command := command + " -H " + Quote(hosts[i]);
    }
    assert hosts[..|hosts|] == hosts;
  }

  method SpellPotName(id: string) returns (potName: string)
    requires HasParts(id)
    ensures potName == PotName(id)
  {
    var parts := Split(id, '/');
    var baseName := parts[1];
    var jobIDAllocID := parts[2] + "_" + parts[0];
    potName := baseName + "_" + jobIDAllocID;
    NamingSitesAgree(id);
  }

  method PrintOwnMounts(potName: string, t: TaskConfig) returns (commands: seq<string>)
    ensures commands == [LocalMountCommand(potName, t.localDir), SecretMountCommand(potName, t.secretsDir)]
  {
    hide Quote;
    commands := [];
    var commandLocal := "mount-in -p " + Quote(potName) + " -d " + Quote(t.localDir) + " -m /local";
    commands := commands + [commandLocal];
    var commandSecret := "mount-in -p " + Quote(potName) + " -d " + Quote(t.secretsDir) + " -m /secrets";
    commands := commands + [commandSecret];
  }

  method PrintMemory(potName: string, memoryLimit: int) returns (command: string)
    ensures command == MemoryCommand(potName, memoryLimit)
  {
    hide Quote, Decimal;
    var sMemoryLimit := Decimal(memoryLimit);
    command := Quote(POT_BIN) + " set-rss -M " + sMemoryLimit + "M -p " + potName;
  }

  /** Refuses arguments without a command; otherwise every field holds what `Prepared` says, for the orders in which
      the two `range` loops over maps happen to run. */
  method PrepareContainer(t: TaskConfig, d: DriverConfig, ports: seq<string>, names: seq<string>)
    returns (se: Syexec, ok: bool)
    requires Preparable(t, d) && IsOrder(ports, d.portMap) && IsOrder(names, t.env)
    ensures fresh(se) && se.id == t.id && se.exitCode == 0
    ensures ok <==> d.args == [] || d.command != ""
    ensures ok ==> se.Printed() == Prepared(t, d, ports, names)
  {
    hide CreateArgv, Attributes, Copies, Mounts, ReadOnlyMounts, EnvCommand, HostsCommand;
    hide LocalMountCommand, SecretMountCommand, MemoryCommand, PotName, HasParts;
    hide StartArgv, StatsArgv, LastRunStatsArgv, DestroyArgv;
    se := new Syexec(t.id);
    var argv := PrintCreate(t, d, ports);
    if argv.None? {
      return se, false;
    }
    se.argvCreate := argv.value;
    var potName := SpellPotName(t.id);
    se.argvMount := PrintOwnMounts(potName, t);
    FillLists(se, d, potName);
    FillLines(se, t, d, potName, names);
    se.argvMem := PrintMemory(potName, t.memoryMB);
    FillFixed(se, potName);
    ok := true;
  }

  method FillFixed(se: Syexec, potName: string)
    modifies se`argvStart, se`argvStats, se`argvLastRunStats, se`argvDestroy
    ensures se.argvStart == StartArgv(potName) && se.argvStats == StatsArgv(potName)
    ensures se.argvLastRunStats == LastRunStatsArgv(potName) && se.argvDestroy == DestroyArgv(potName)
  {
    se.argvStart := ["start", potName];
    se.argvStats := ["get-rss", "-p", potName, "-J"];
    se.argvLastRunStats := ["last-run-stats", "-p", potName];
    se.argvDestroy := ["destroy", "-p", potName];
  }

  /** The lists of commands, each left as it is when the job asks for none. */
  method FillLists(se: Syexec, d: DriverConfig, pot: string)
    requires WellFormed(d)
    requires se.argvCopy == se.argvMountReadOnly == se.argvAttributes == []
    modifies se`argvCopy, se`argvMount, se`argvMountReadOnly, se`argvAttributes
    ensures se.argvCopy == Copies(pot, d.copy) && se.argvMount == old(se.argvMount) + Mounts(pot, d.mount)
    ensures se.argvMountReadOnly == ReadOnlyMounts(pot, d.mountReadOnly)
    ensures se.argvAttributes == Attributes(pot, d.attributes)
  {
    hide Attributes, Copies, Mounts, ReadOnlyMounts;
    NothingPrinted(pot);
    if |d.copy| > 0 {
      se.argvCopy := PrintCopies(pot, d.copy);
    }
    if |d.mount| > 0 {
      se.argvMount := PrintMounts(pot, d.mount, se.argvMount);
    }
    if |d.mountReadOnly| > 0 {
      se.argvMountReadOnly := PrintReadOnlyMounts(pot, d.mountReadOnly);
    }
    if |d.attributes| > 0 {
      se.argvAttributes := PrintAttributes(pot, d.attributes);
    }
  }

  /** The environment line and the hosts line, each left empty when there is nothing to set. */
  method FillLines(se: Syexec, t: TaskConfig, d: DriverConfig, pot: string, names: seq<string>)
    requires IsOrder(names, t.env) && se.argvEnv == se.argvExtraHosts == ""
    modifies se`argvEnv, se`argvExtraHosts
    ensures se.argvEnv == if t.env == map[] then "" else EnvCommand(pot, names, t.env)
    ensures se.argvExtraHosts == if d.extraHosts == [] then "" else HostsCommand(pot, d.extraHosts)
  {
    hide EnvCommand, HostsCommand;
    if |t.env| > 0 {
      se.argvEnv := PrintEnv(pot, t.env, names);
    }
    if |d.extraHosts| > 0 {
      se.argvExtraHosts := PrintHosts(pot, d.extraHosts);
    }
  }

  lemma NothingPrinted(pot: string)
    ensures Copies(pot, []) == Mounts(pot, []) == ReadOnlyMounts(pot, []) == Attributes(pot, []) == []
  {
  }

  /** The `syexec` of a stop: nothing but the destroy command. */
  method PrepareDestroy(id: string) returns (se: Syexec)
    requires HasParts(id)
    ensures fresh(se) && se.id == id
    ensures se.argvDestroy == DestroyArgv(PotName(id)) == ["destroy", "-p", PotName(id)]
  {
    se := new Syexec(id);
    var argv := ["destroy"];
    var parts := Split(id, '/');
    var completeName := parts[1] + "_" + parts[2] + "_" + parts[0];
    se.argvDestroy := argv + ["-p", completeName];
  }
}
