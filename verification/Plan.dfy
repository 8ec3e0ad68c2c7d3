/** Everything `prepareContainer` prints, as one value, and the plan that `createContainer` runs from it. */
module Plan {
  import opened Options
  import opened Text
  import opened Naming
  import opened Shell
  import opened Config
  import opened ShellCommands
  import opened CreateArguments

  /** The `argv*` fields of the source's `syexec`. */
  datatype Commands = Commands(
    create: seq<string>, attributes: seq<string>, copies: seq<string>, mounts: seq<string>,
    mountsReadOnly: seq<string>, env: string, hosts: string, memory: string,
    start: seq<string>, stats: seq<string>, lastRunStats: seq<string>, destroy: seq<string>)

  predicate Preparable(t: TaskConfig, d: DriverConfig) {
    HasParts(t.id) && WellFormed(d)
  }

  function Attributes(pot: string, entries: seq<string>): seq<string>
    requires Colons(entries)
  {
    seq(|entries|, i requires 0 <= i < |entries| => AttributeCommand(pot, entries[i]))
  }

  function Copies(pot: string, entries: seq<string>): seq<string>
    requires Colons(entries)
  {
    seq(|entries|, i requires 0 <= i < |entries| => CopyCommand(pot, entries[i]))
  }

  function Mounts(pot: string, entries: seq<string>): seq<string>
    requires Colons(entries)
  {
    seq(|entries|, i requires 0 <= i < |entries| => MountCommand(pot, entries[i]))
  }

  function ReadOnlyMounts(pot: string, entries: seq<string>): seq<string>
    requires Colons(entries)
  {
    seq(|entries|, i requires 0 <= i < |entries| => ReadOnlyMountCommand(pot, entries[i]))
  }

  function StartArgv(pot: string): seq<string> { ["start", pot] }

  function StatsArgv(pot: string): seq<string> { ["get-rss", "-p", pot, "-J"] }

  function LastRunStatsArgv(pot: string): seq<string> { ["last-run-stats", "-p", pot] }

  function DestroyArgv(pot: string): seq<string> { ["destroy", "-p", pot] }

  /** The printed commands for one order of iteration over each of the two maps. */
  function Prepared(t: TaskConfig, d: DriverConfig, ports: seq<string>, names: seq<string>): Commands
    requires Preparable(t, d)
    requires forall n :: n in ports ==> n in d.portMap
    requires forall n :: n in names ==> n in t.env
  {
    var pot := PotName(t.id);
    Commands(
      CreateArgv(t, d, ports),
      Attributes(pot, d.attributes),
      Copies(pot, d.copy),
      [LocalMountCommand(pot, t.localDir), SecretMountCommand(pot, t.secretsDir)] + Mounts(pot, d.mount),
      ReadOnlyMounts(pot, d.mountReadOnly),
      if t.env == map[] then "" else EnvCommand(pot, names, t.env),
      if d.extraHosts == [] then "" else HostsCommand(pot, d.extraHosts),
      MemoryCommand(pot, t.memoryMB),
      StartArgv(pot), StatsArgv(pot), LastRunStatsArgv(pot), DestroyArgv(pot))
  }

  function Invocations(commands: seq<string>): seq<string> {
    seq(|commands|, i requires 0 <= i < |commands| => Invocation(commands[i]))
  }

  /** The lines of the four loops, in the order of the loops. */
  function LoopLines(c: Commands): seq<string> {
    Invocations(c.attributes) + Invocations(c.copies) + Invocations(c.mounts) + Invocations(c.mountsReadOnly)
  }

  function LastLines(c: Commands): seq<string> {
    [c.env, c.hosts, c.memory]
  }

  // ---- what the plan is meant to say

  function FieldWords(name: string, pot: string, flag1: string, flag2: string, entry: string): seq<string>
    requires !Free(entry, ':')
  {
    SplitInTwo(entry, ':');
    [POT_BIN, name, "-p", pot, flag1, Split(entry, ':')[0], flag2, Split(entry, ':')[1]]
  }

  function AttributesMeant(pot: string, entries: seq<string>): seq<seq<string>>
    requires Colons(entries)
  {
    seq(|entries|, i requires 0 <= i < |entries| => FieldWords("set-attribute", pot, "-A", "-V", entries[i]))
  }

  function CopiesMeant(pot: string, entries: seq<string>): seq<seq<string>>
    requires Colons(entries)
  {
    seq(|entries|, i requires 0 <= i < |entries| =>
      [POT_BIN, "copy-in", "-p", pot, "-s", CutFirst(entries[i], ':').0, "-d", CutFirst(entries[i], ':').1])
  }

  function MountsMeant(pot: string, entries: seq<string>): seq<seq<string>>
    requires Colons(entries)
  {
    seq(|entries|, i requires 0 <= i < |entries| => FieldWords("mount-in", pot, "-d", "-m", entries[i]))
  }

  function ReadOnlyMountsMeant(pot: string, entries: seq<string>): seq<seq<string>>
    requires Colons(entries)
  {
    seq(|entries|, i requires 0 <= i < |entries| => FieldWords("mount-in", pot, "-d", "-m", entries[i]) + ["-r"])
  }

  function LoopsMeant(t: TaskConfig, d: DriverConfig): seq<seq<string>>
    requires Preparable(t, d)
  {
    var pot := PotName(t.id);
    AttributesMeant(pot, d.attributes) + CopiesMeant(pot, d.copy)
      + ([[POT_BIN, "mount-in", "-p", pot, "-d", t.localDir, "-m", "/local"],
          [POT_BIN, "mount-in", "-p", pot, "-d", t.secretsDir, "-m", "/secrets"]] + MountsMeant(pot, d.mount))
      + ReadOnlyMountsMeant(pot, d.mountReadOnly)
  }

  /** An empty line runs nothing. */
  function EnvMeant(t: TaskConfig, names: seq<string>): seq<string>
    requires HasParts(t.id) && forall n :: n in names ==> n in t.env
  {
    if t.env == map[] then [] else [POT_BIN, "set-env", "-p", PotName(t.id)] + EnvWords(names, t.env)
  }

  function HostsMeant(t: TaskConfig, d: DriverConfig): seq<string>
    requires HasParts(t.id)
  {
    if d.extraHosts == [] then [] else [POT_BIN, "set-hosts", "-p", PotName(t.id)] + HostWords(d.extraHosts)
  }

  function MemoryMeant(t: TaskConfig): seq<string>
    requires HasParts(t.id)
  {
    [POT_BIN, "set-rss", "-M", Decimal(t.memoryMB) + "M", "-p", PotName(t.id)]
  }

  /** Line by line, the shell reads what is meant. */
  predicate ReadAs(lines: seq<string>, meant: seq<seq<string>>) {
    |lines| == |meant| && forall i :: 0 <= i < |lines| ==> Words(lines[i]) == Some(meant[i])
  }

  lemma ReadAsConcat(a: seq<string>, x: seq<seq<string>>, b: seq<string>, y: seq<seq<string>>)
    requires ReadAs(a, x) && ReadAs(b, y)
    ensures ReadAs(a + b, x + y)
  {
  }

  lemma AttributesRead(pot: string, entries: seq<string>)
    requires Colons(entries)
    ensures ReadAs(Invocations(Attributes(pot, entries)), AttributesMeant(pot, entries))
  {
    hide Words, Invocation, AttributeCommand;
    forall i | 0 <= i < |entries|
      ensures Words(Invocation(AttributeCommand(pot, entries[i]))) == Some(AttributesMeant(pot, entries)[i])
    {
      AttributeWordsRead(pot, entries[i]);
    }
  }

  lemma CopiesRead(pot: string, entries: seq<string>)
    requires Colons(entries)
    ensures ReadAs(Invocations(Copies(pot, entries)), CopiesMeant(pot, entries))
  {
    hide Words, Invocation, CopyCommand;
    forall i | 0 <= i < |entries|
      ensures Words(Invocation(CopyCommand(pot, entries[i]))) == Some(CopiesMeant(pot, entries)[i])
    {
      CopyWordsRead(pot, entries[i]);
    }
  }

  lemma MountsRead(pot: string, entries: seq<string>)
    requires Colons(entries)
    ensures ReadAs(Invocations(Mounts(pot, entries)), MountsMeant(pot, entries))
    ensures ReadAs(Invocations(ReadOnlyMounts(pot, entries)), ReadOnlyMountsMeant(pot, entries))
  {
    hide Words, Invocation, MountCommand, ReadOnlyMountCommand;
    forall i | 0 <= i < |entries|
      ensures Words(Invocation(MountCommand(pot, entries[i]))) == Some(MountsMeant(pot, entries)[i])
      ensures Words(Invocation(ReadOnlyMountCommand(pot, entries[i]))) == Some(ReadOnlyMountsMeant(pot, entries)[i])
    {
      MountWordsRead(pot, entries[i]);
      var split := Split(entries[i], ':');
      assert [POT_BIN, "mount-in", "-p", pot, "-d", split[0], "-m", split[1]] + ["-r"]
          == [POT_BIN, "mount-in", "-p", pot, "-d", split[0], "-m", split[1], "-r"];
    }
  }

  lemma OwnMountsReadAs(pot: string, localDir: string, secretsDir: string)
    ensures ReadAs(Invocations([LocalMountCommand(pot, localDir), SecretMountCommand(pot, secretsDir)]),
                   [[POT_BIN, "mount-in", "-p", pot, "-d", localDir, "-m", "/local"],
                    [POT_BIN, "mount-in", "-p", pot, "-d", secretsDir, "-m", "/secrets"]])
  {
    hide Words, Invocation, LocalMountCommand, SecretMountCommand;
    OwnMountsRead(pot, localDir);
    OwnMountsRead(pot, secretsDir);
  }

  lemma InvocationsConcat(a: seq<string>, b: seq<string>)
    ensures Invocations(a + b) == Invocations(a) + Invocations(b)
  {
    hide Invocation;
  }

  /** Every line of the four loops is read back as the argument list it was printed from,
      whatever the quoted texts hold. */
  lemma LoopsRead(t: TaskConfig, d: DriverConfig, ports: seq<string>, names: seq<string>)
    requires Preparable(t, d)
    requires forall n :: n in ports ==> n in d.portMap
    requires forall n :: n in names ==> n in t.env
    ensures ReadAs(LoopLines(Prepared(t, d, ports, names)), LoopsMeant(t, d))
  {
    hide ReadAs, Attributes, Copies, Mounts, ReadOnlyMounts, Invocations, LocalMountCommand, SecretMountCommand;
    hide AttributesMeant, CopiesMeant, MountsMeant, ReadOnlyMountsMeant, MemoryCommand, EnvCommand, HostsCommand;
    hide CreateArgv, PotName;
    var c := Prepared(t, d, ports, names);
    var pot := PotName(t.id);
    var own := [LocalMountCommand(pot, t.localDir), SecretMountCommand(pot, t.secretsDir)];
    var ownMeant := [[POT_BIN, "mount-in", "-p", pot, "-d", t.localDir, "-m", "/local"],
                     [POT_BIN, "mount-in", "-p", pot, "-d", t.secretsDir, "-m", "/secrets"]];
    AttributesRead(pot, d.attributes);
    CopiesRead(pot, d.copy);
    MountsRead(pot, d.mount);
    MountsRead(pot, d.mountReadOnly);
    OwnMountsReadAs(pot, t.localDir, t.secretsDir);
    InvocationsConcat(own, Mounts(pot, d.mount));
    ReadAsConcat(Invocations(own), ownMeant, Invocations(Mounts(pot, d.mount)), MountsMeant(pot, d.mount));
    ReadAsConcat(Invocations(c.attributes), AttributesMeant(pot, d.attributes),
                 Invocations(c.copies), CopiesMeant(pot, d.copy));
    ReadAsConcat(Invocations(c.attributes) + Invocations(c.copies),
                 AttributesMeant(pot, d.attributes) + CopiesMeant(pot, d.copy),
                 Invocations(c.mounts), ownMeant + MountsMeant(pot, d.mount));
    ReadAsConcat(Invocations(c.attributes) + Invocations(c.copies) + Invocations(c.mounts),
                 AttributesMeant(pot, d.attributes) + CopiesMeant(pot, d.copy) + (ownMeant + MountsMeant(pot, d.mount)),
                 Invocations(c.mountsReadOnly), ReadOnlyMountsMeant(pot, d.mountReadOnly));
  }

  lemma NothingRead()
    ensures Words("") == Some([])
  {
  }

  /** The three last lines are read back as well: the memory line exactly when the pot name is a plain word. */
  lemma LastLinesRead(t: TaskConfig, d: DriverConfig, ports: seq<string>, names: seq<string>)
    requires Preparable(t, d)
    requires forall n :: n in ports ==> n in d.portMap
    requires forall n :: n in names ==> n in t.env
    ensures var read, meant := Words(Prepared(t, d, ports, names).env), EnvMeant(t, names);
      && read == Some(meant) && (t.env == map[] ==> meant == [])
      && (t.env != map[] ==> meant == ["/usr/local/bin/pot", "set-env", "-p", PotName(t.id)] + EnvWords(names, t.env))
    ensures var read, meant := Words(Prepared(t, d, ports, names).hosts), HostsMeant(t, d);
      && read == Some(meant) && (d.extraHosts == [] ==> meant == [])
      && (d.extraHosts != [] ==>
            meant == ["/usr/local/bin/pot", "set-hosts", "-p", PotName(t.id)] + HostWords(d.extraHosts))
    ensures Words(Prepared(t, d, ports, names).memory) == Some(MemoryMeant(t)) <==> PlainWord(PotName(t.id))
    ensures MemoryMeant(t) == ["/usr/local/bin/pot", "set-rss", "-M", Decimal(t.memoryMB) + "M", "-p", PotName(t.id)]
  {
    hide Words, MemoryCommand, EnvCommand, HostsCommand, CreateArgv, PotName, PlainWord, Decimal;
    hide Attributes, Copies, Mounts, ReadOnlyMounts, LocalMountCommand, SecretMountCommand, EnvWords, HostWords;
    NothingRead();
    EnvReads(PotName(t.id), names, t.env);
    HostsRead(PotName(t.id), d.extraHosts);
    MemoryReads(PotName(t.id), t.memoryMB);
  }

  /** The whole plan is read back as meant exactly when the pot name is a plain word. */
  lemma PlanReads(t: TaskConfig, d: DriverConfig, ports: seq<string>, names: seq<string>)
    requires Preparable(t, d)
    requires forall n :: n in ports ==> n in d.portMap
    requires forall n :: n in names ==> n in t.env
    ensures PlainWord(PotName(t.id))
       <==> ReadAs(LoopLines(Prepared(t, d, ports, names)) + LastLines(Prepared(t, d, ports, names)),
                   LoopsMeant(t, d) + [EnvMeant(t, names), HostsMeant(t, d), MemoryMeant(t)])
  {
    hide Words, Prepared, LoopsMeant, EnvMeant, HostsMeant, MemoryMeant, PlainWord, PotName, LoopLines;
    var c := Prepared(t, d, ports, names);
    var lines, meant := LoopLines(c), LoopsMeant(t, d);
    LoopsRead(t, d, ports, names);
    LastLinesRead(t, d, ports, names);
    var last := [EnvMeant(t, names), HostsMeant(t, d), MemoryMeant(t)];
    assert (lines + LastLines(c))[|lines| + 2] == c.memory;
    assert (meant + last)[|meant| + 2] == MemoryMeant(t);
    if PlainWord(PotName(t.id)) {
      assert ReadAs(LastLines(c), last);
      ReadAsConcat(lines, meant, LastLines(c), last);
    }
  }
}
