/** The `sh -c` lines that `prepareContainer` prints, and what the shell reads them as. */
module ShellCommands {
  import opened Options
  import opened Text
  import opened Shell
  import opened Config

  // ---- the lines, as the source concatenates them

  /** What `createContainer` hands to `sh -c` for a stored command. */
  function Invocation(command: string): string {
    Quote(POT_BIN) + " " + command
  }

  function LocalMountCommand(pot: string, dir: string): string {
    "mount-in -p " + Quote(pot) + " -d " + Quote(dir) + " -m /local"
  }

  function SecretMountCommand(pot: string, dir: string): string {
    "mount-in -p " + Quote(pot) + " -d " + Quote(dir) + " -m /secrets"
  }

  function CopyCommand(pot: string, entry: string): string
    requires !Free(entry, ':')
  {
    var split := CutFirst(entry, ':');
    "copy-in -p " + Quote(pot) + " -s " + Quote(split.0) + " -d " + Quote(split.1)
  }

  function MountCommand(pot: string, entry: string): string
    requires !Free(entry, ':')
  {
    SplitInTwo(entry, ':');
    var split := Split(entry, ':');
    "mount-in -p " + Quote(pot) + " -d " + Quote(split[0]) + " -m " + Quote(split[1])
  }

  function ReadOnlyMountCommand(pot: string, entry: string): string
    requires !Free(entry, ':')
  {
    SplitInTwo(entry, ':');
    var split := Split(entry, ':');
    "mount-in -p " + Quote(pot) + " -d " + Quote(split[0]) + " -m " + Quote(split[1]) + " -r"
  }

  function AttributeCommand(pot: string, entry: string): string
    requires !Free(entry, ':')
  {
    SplitInTwo(entry, ':');
    var split := Split(entry, ':');
    "set-attribute -p " + Quote(pot) + " -A " + Quote(split[0]) + " -V " + Quote(split[1])
  }

  /** Grows the way the loop grows it: the last visited name is printed last. */
  function EnvCommand(pot: string, order: seq<string>, env: map<string, string>): string
    requires forall k :: k in order ==> k in env
  {
    if order == [] then Quote(POT_BIN) + " set-env -p " + Quote(pot) + " "
    else
      var n := |order| - 1;
      EnvCommand(pot, order[..n], env) + " -E " + Quote(order[n]) + "=" + Quote(env[order[n]])
  }

  function HostsCommand(pot: string, hosts: seq<string>): string {
    if hosts == [] then Quote(POT_BIN) + " set-hosts -p " + Quote(pot)
    else HostsCommand(pot, hosts[..|hosts| - 1]) + " -H " + Quote(hosts[|hosts| - 1])
  }

  /** `strconv.FormatInt(n, 10)`. */
  function Decimal(n: int): string
    decreases n < 0, if n < 0 then -n else n
  {
    if n < 0 then "-" + Decimal(-n)
    else if n < 10 then ['0' + n as char]
    else Decimal(n / 10) + ['0' + (n % 10) as char]
  }

  /** The pot name is spliced in without quoting. */
  function MemoryCommand(pot: string, memoryMB: int): string {
    Quote(POT_BIN) + " set-rss -M " + Decimal(memoryMB) + "M -p " + pot
  }

  // ---- what they are meant to say

  function EnvWords(order: seq<string>, env: map<string, string>): seq<string>
    requires forall k :: k in order ==> k in env
  {
    if order == [] then []
    else
      var n := |order| - 1;
      EnvWords(order[..n], env) + ["-E", order[n] + "=" + env[order[n]]]
  }

  function HostWords(hosts: seq<string>): seq<string> {
    if hosts == [] then [] else HostWords(hosts[..|hosts| - 1]) + ["-H", hosts[|hosts| - 1]]
  }

  /** The i-th visited variable is the i-th binding, after its own `-E`, and there is nothing else. */
  lemma {:induction false} EnvBindings(order: seq<string>, env: map<string, string>, i: nat)
    requires i < |order| && forall k :: k in order ==> k in env
    ensures |EnvWords(order, env)| == 2 * |order|
    ensures EnvWords(order, env)[2 * i] == "-E" && EnvWords(order, env)[2 * i + 1] == order[i] + "=" + env[order[i]]
    decreases |order|
  {
    var n := |order| - 1;
    if n > 0 {
      EnvBindings(order[..n], env, if i < n then i else 0);
    }
  }

  lemma {:induction false} HostBindings(hosts: seq<string>, i: nat)
    requires i < |hosts|
    ensures |HostWords(hosts)| == 2 * |hosts|
    ensures HostWords(hosts)[2 * i] == "-H" && HostWords(hosts)[2 * i + 1] == hosts[i]
    decreases |hosts|
  {
    var n := |hosts| - 1;
    if n > 0 {
      HostBindings(hosts[..n], if i < n then i else 0);
    }
  }

  /** A text with a separator has at least two parts. */
  lemma {:induction false} SplitInTwo(s: string, sep: char)
    requires !Free(s, sep)
    ensures |Split(s, sep)| >= 2
  {
    if s[0] != sep { SplitInTwo(s[1..], sep); }
  }

  // ---- reading a line piece by piece

  /** From `r`, the line adds exactly these words (the last of which may still be growing). */
  predicate Says(r: Reader, line: string, words: seq<string>) {
    && r.Unquoted()
    && Read(r, line).Unquoted()
    && Read(r, line).Delimit().words == r.words + words
  }

  lemma SaysWords(line: string, words: seq<string>)
    requires Says(START, line, words)
    ensures Words(line) == Some(words)
  {
    hide Read;
    assert [] + words == words;
  }

  /** The command names, flags and fixed paths the driver writes into its lines. */
  lemma NamesArePlain()
    ensures PlainWord("copy-in") && PlainWord("mount-in") && PlainWord("set-attribute")
    ensures PlainWord("set-env") && PlainWord("set-hosts") && PlainWord("set-rss")
  {
    hide PlainWord;
    InNamesArePlain();
    SetNamesArePlain();
    LongNamesArePlain();
  }

  lemma InNamesArePlain()
    ensures PlainWord("copy-in") && PlainWord("mount-in")
  {
  }

  lemma SetNamesArePlain()
    ensures PlainWord("set-env") && PlainWord("set-rss")
  {
  }

  lemma LongNamesArePlain()
    ensures PlainWord("set-attribute") && PlainWord("set-hosts")
  {
    hide PlainWord;
    HostsNameIsPlain();
    AttributeNameIsPlain();
  }

  lemma HostsNameIsPlain()
    ensures PlainWord("set-hosts")
  {
  }

  lemma AttributeNameIsPlain()
    ensures PlainWord("set-attribute")
  {
  }

  lemma PathsArePlain()
    ensures PlainWord("/local") && PlainWord("/secrets")
  {
  }

  lemma FlagIsPlain(letter: char)
    requires Literal(letter)
    ensures PlainWord(['-', letter])
  {
  }

  lemma FlagsArePlain()
    ensures PlainWord("-p") && PlainWord("-d") && PlainWord("-s") && PlainWord("-m") && PlainWord("-r")
    ensures PlainWord("-A") && PlainWord("-V") && PlainWord("-E") && PlainWord("-H") && PlainWord("-M")
  {
    hide PlainWord;
    FlagIsPlain('p'); FlagIsPlain('d'); FlagIsPlain('s'); FlagIsPlain('m'); FlagIsPlain('r');
    FlagIsPlain('A'); FlagIsPlain('V'); FlagIsPlain('E'); FlagIsPlain('H'); FlagIsPlain('M');
  }

  /** A blank and a plain word. */
  lemma SaysText(r: Reader, line: string, words: seq<string>, text: string, word: string)
    requires Says(r, line, words) && PlainWord(word) && text == " " + word
    ensures Says(r, line + text, words + [word])
  {
    var mid := Read(r, line);
    ReadConcat(r, line, text);
    ReadConcat(mid, " ", word);
    ReadOne(mid, ' ');
    LiteralReads(mid.Delimit(), word);
    assert "" + word == word;
  }

  /** A plain flag between blanks, and a quoted value. */
  lemma SaysFlag(r: Reader, line: string, words: seq<string>, text: string, flag: string, value: string)
    requires Says(r, line, words) && PlainWord(flag) && text == " " + flag + " "
    ensures Says(r, line + text + Quote(value), words + [flag, value])
  {
    SaysText(r, line, words, " " + flag, flag);
    assert line + text == line + (" " + flag) + " ";
    var mid := Read(r, line + (" " + flag));
    ReadConcat(r, line + (" " + flag), " ");
    ReadOne(mid, ' ');
    ReadConcat(r, line + text, Quote(value));
    QuoteReads(mid.Delimit(), value);
    assert "" + value == value;
    assert words + [flag] + [value] == words + [flag, value];
  }

  /** A command name, a flag, and a quoted value. */
  lemma SaysStart(r: Reader, text: string, name: string, flag: string, value: string)
    requires r.Unquoted() && r.word.None? && PlainWord(name) && PlainWord(flag)
    requires text == name + (" " + flag + " ")
    ensures Says(r, text + Quote(value), [name, flag, value])
  {
    LiteralReads(r, name);
    assert "" + name == name;
    SaysFlag(r, name, [name], " " + flag + " ", flag, value);
    assert [name] + [flag, value] == [name, flag, value];
  }

  /** The program path and a stored command. */
  lemma InvocationSays(command: string, words: seq<string>)
    requires Says(Reading(Plain, None, [POT_BIN]), command, words)
    ensures Words(Invocation(command)) == Some([POT_BIN] + words)
  {
    hide Read, Quote, PlainWord;
    ReadConcat(START, Quote(POT_BIN) + " ", command);
    ReadConcat(START, Quote(POT_BIN), " ");
    QuoteReads(START, POT_BIN);
    assert "" + POT_BIN == POT_BIN;
    ReadOne(START.Append(POT_BIN), ' ');
    assert [] + [POT_BIN] == [POT_BIN];
  }

  const AFTER_PATH := Reading(Plain, None, [POT_BIN])

  lemma TwoFlagCommandSays(
      text1: string, name: string, text2: string, flag2: string, text3: string, flag3: string,
      pot: string, a: string, b: string)
    requires PlainWord(name) && text1 == name + " -p "
    requires PlainWord(flag2) && text2 == " " + flag2 + " "
    requires PlainWord(flag3) && text3 == " " + flag3 + " "
    ensures Says(AFTER_PATH, text1 + Quote(pot) + text2 + Quote(a) + text3 + Quote(b),
                 [name, "-p", pot, flag2, a, flag3, b])
  {
    hide Says, Quote, PlainWord;
    FlagsArePlain();
    SaysStart(AFTER_PATH, text1, name, "-p", pot);
    SaysFlag(AFTER_PATH, text1 + Quote(pot), [name, "-p", pot], text2, flag2, a);
    SaysFlag(AFTER_PATH, text1 + Quote(pot) + text2 + Quote(a), [name, "-p", pot] + [flag2, a], text3, flag3, b);
    assert [name, "-p", pot] + [flag2, a] + [flag3, b] == [name, "-p", pot, flag2, a, flag3, b];
  }

  /** Copying: the source is what stands before the first colon, the destination everything after it. */
  lemma CopyReads(pot: string, source: string, destination: string)
    requires Free(source, ':')
    ensures !Free(source + ":" + destination, ':')
    ensures Words(Invocation(CopyCommand(pot, source + ":" + destination)))
         == Some([POT_BIN, "copy-in", "-p", pot, "-s", source, "-d", destination])
  {
    var entry := source + ":" + destination;
    assert entry[|source|] == ':';
    CutFirstUnique(source, destination, ':');
    CopyWordsRead(pot, entry);
  }

  lemma CopyWordsRead(pot: string, entry: string)
    requires !Free(entry, ':')
    ensures Words(Invocation(CopyCommand(pot, entry)))
         == Some([POT_BIN, "copy-in", "-p", pot, "-s", CutFirst(entry, ':').0, "-d", CutFirst(entry, ':').1])
  {
    hide Says, Quote, Words, PlainWord;
    NamesArePlain();
    FlagsArePlain();
    var split := CutFirst(entry, ':');
    TwoFlagCommandSays("copy-in -p ", "copy-in", " -s ", "-s", " -d ", "-d", pot, split.0, split.1);
    var words := ["copy-in", "-p", pot, "-s", split.0, "-d", split.1];
    InvocationSays(CopyCommand(pot, entry), words);
    assert [POT_BIN] + words == [POT_BIN, "copy-in", "-p", pot, "-s", split.0, "-d", split.1];
  }

  lemma MountWordsRead(pot: string, entry: string)
    requires !Free(entry, ':')
    ensures |Split(entry, ':')| >= 2
    ensures Words(Invocation(MountCommand(pot, entry)))
         == Some([POT_BIN, "mount-in", "-p", pot, "-d", Split(entry, ':')[0], "-m", Split(entry, ':')[1]])
    ensures Words(Invocation(ReadOnlyMountCommand(pot, entry)))
         == Some([POT_BIN, "mount-in", "-p", pot, "-d", Split(entry, ':')[0], "-m", Split(entry, ':')[1], "-r"])
  {
    hide Says, Quote, Words, PlainWord;
    NamesArePlain();
    FlagsArePlain();
    SplitInTwo(entry, ':');
    var split := Split(entry, ':');
    var words := ["mount-in", "-p", pot, "-d", split[0], "-m", split[1]];
    TwoFlagCommandSays("mount-in -p ", "mount-in", " -d ", "-d", " -m ", "-m", pot, split[0], split[1]);
    InvocationSays(MountCommand(pot, entry), words);
    SaysText(AFTER_PATH, MountCommand(pot, entry), words, " -r", "-r");
    InvocationSays(ReadOnlyMountCommand(pot, entry), words + ["-r"]);
    var mount := [POT_BIN, "mount-in", "-p", pot, "-d", split[0], "-m", split[1]];
    assert [POT_BIN] + words == mount;
    assert [POT_BIN] + (words + ["-r"])
        == [POT_BIN, "mount-in", "-p", pot, "-d", split[0], "-m", split[1], "-r"];
    assert MountCommand(pot, entry) + " -r" == ReadOnlyMountCommand(pot, entry);
  }

  /** Mounting keeps two fields of the entry only, so the pair is what the job wrote exactly when the
      destination holds no colon of its own. */
  lemma MountReads(pot: string, source: string, destination: string)
    requires Free(source, ':')
    ensures !Free(source + ":" + destination, ':')
    ensures Free(destination, ':')
       <==> Words(Invocation(MountCommand(pot, source + ":" + destination)))
            == Some([POT_BIN, "mount-in", "-p", pot, "-d", source, "-m", destination])
    ensures Free(destination, ':')
       <==> Words(Invocation(ReadOnlyMountCommand(pot, source + ":" + destination)))
            == Some([POT_BIN, "mount-in", "-p", pot, "-d", source, "-m", destination, "-r"])
  {
    var entry := source + ":" + destination;
    assert entry[|source|] == ':';
    MountWordsRead(pot, entry);
    SplitHead(source, destination, ':');
    FirstPart(destination, ':');
    var m := [POT_BIN, "mount-in", "-p", pot, "-d", source, "-m", destination];
    assert m[7] == destination;
    var ro := [POT_BIN, "mount-in", "-p", pot, "-d", source, "-m", destination, "-r"];
    assert ro[7] == destination;
  }

  lemma FirstPart(s: string, sep: char)
    ensures Split(s, sep)[0] == s <==> Free(s, sep)
  {
    if Free(s, sep) { SplitFree(s, sep); }
  }

  lemma AttributeWordsRead(pot: string, entry: string)
    requires !Free(entry, ':')
    ensures |Split(entry, ':')| >= 2
    ensures Words(Invocation(AttributeCommand(pot, entry)))
         == Some([POT_BIN, "set-attribute", "-p", pot, "-A", Split(entry, ':')[0], "-V", Split(entry, ':')[1]])
  {
    hide Says, Quote, Words, PlainWord;
    NamesArePlain();
    FlagsArePlain();
    SplitInTwo(entry, ':');
    var split := Split(entry, ':');
    TwoFlagCommandSays("set-attribute -p ", "set-attribute", " -A ", "-A", " -V ", "-V", pot, split[0], split[1]);
    var words := ["set-attribute", "-p", pot, "-A", split[0], "-V", split[1]];
    InvocationSays(AttributeCommand(pot, entry), words);
    assert [POT_BIN] + words == [POT_BIN, "set-attribute", "-p", pot, "-A", split[0], "-V", split[1]];
  }

  /** Attributes too keep two fields of the entry only. */
  lemma AttributeReads(pot: string, attribute: string, value: string)
    requires Free(attribute, ':')
    ensures !Free(attribute + ":" + value, ':')
    ensures Free(value, ':')
       <==> Words(Invocation(AttributeCommand(pot, attribute + ":" + value)))
            == Some([POT_BIN, "set-attribute", "-p", pot, "-A", attribute, "-V", value])
  {
    var entry := attribute + ":" + value;
    assert entry[|attribute|] == ':';
    AttributeWordsRead(pot, entry);
    SplitHead(attribute, value, ':');
    FirstPart(value, ':');
    var words := [POT_BIN, "set-attribute", "-p", pot, "-A", attribute, "-V", value];
    assert words[7] == value;
  }

  lemma OwnMountsRead(pot: string, dir: string)
    ensures Words(Invocation(LocalMountCommand(pot, dir)))
         == Some([POT_BIN, "mount-in", "-p", pot, "-d", dir, "-m", "/local"])
    ensures Words(Invocation(SecretMountCommand(pot, dir)))
         == Some([POT_BIN, "mount-in", "-p", pot, "-d", dir, "-m", "/secrets"])
  {
    hide Says, Quote, Words, PlainWord;
    NamesArePlain();
    FlagsArePlain();
    PathsArePlain();
    SaysStart(AFTER_PATH, "mount-in -p ", "mount-in", "-p", pot);
    var line := "mount-in -p " + Quote(pot) + " -d " + Quote(dir);
    SaysFlag(AFTER_PATH, "mount-in -p " + Quote(pot), ["mount-in", "-p", pot], " -d ", "-d", dir);
    var words := ["mount-in", "-p", pot] + ["-d", dir];
    forall dest | dest in {"/local", "/secrets"}
      ensures Words(Invocation(line + (" -m " + dest))) == Some([POT_BIN, "mount-in", "-p", pot, "-d", dir, "-m", dest])
    {
      SaysText(AFTER_PATH, line, words, " -m", "-m");
      SaysText(AFTER_PATH, line + " -m", words + ["-m"], " " + dest, dest);
      assert line + " -m" + (" " + dest) == line + (" -m " + dest);
      assert words + ["-m"] + [dest] == ["mount-in", "-p", pot, "-d", dir, "-m", dest];
      InvocationSays(line + (" -m " + dest), ["mount-in", "-p", pot, "-d", dir, "-m", dest]);
      assert [POT_BIN] + ["mount-in", "-p", pot, "-d", dir, "-m", dest]
          == [POT_BIN, "mount-in", "-p", pot, "-d", dir, "-m", dest];
    }
    assert " -m /local" == " -m " + "/local" && " -m /secrets" == " -m " + "/secrets";
  }

  lemma PathSays()
    ensures Says(START, Quote(POT_BIN), [POT_BIN])
  {
    QuoteReads(START, POT_BIN);
    assert "" + POT_BIN == POT_BIN;
  }

  /** A line that begins with the program path, a command name, a flag and a quoted value. */
  lemma PathCommandSays(text: string, name: string, flag: string, value: string)
    requires PlainWord(name) && PlainWord(flag) && text == " " + name + (" " + flag + " ")
    ensures Says(START, Quote(POT_BIN) + text + Quote(value), [POT_BIN, name, flag, value])
  {
    hide Says, Quote;
    PathSays();
    SaysText(START, Quote(POT_BIN), [POT_BIN], " " + name, name);
    SaysFlag(START, Quote(POT_BIN) + (" " + name), [POT_BIN] + [name], " " + flag + " ", flag, value);
    assert Quote(POT_BIN) + (" " + name) + (" " + flag + " ") == Quote(POT_BIN) + text;
    assert [POT_BIN] + [name] + [flag, value] == [POT_BIN, name, flag, value];
  }

  /** `-E`, then name and value joined by a bare `=` into one word. */
  lemma SaysBinding(r: Reader, line: string, words: seq<string>, name: string, value: string)
    requires Says(r, line, words)
    ensures Says(r, line + " -E " + Quote(name) + "=" + Quote(value), words + ["-E", name + "=" + value])
  {
    hide Read, Quote, PlainWord;
    FlagsArePlain();
    var head := line + " -E " + Quote(name);
    assert line + " -E" + " " == line + " -E ";
    SaysText(r, line, words, " -E", "-E");
    ReadConcat(r, line + " -E", " ");
    var mid := Read(r, line + " -E");
    ReadOne(mid, ' ');
    var start := mid.Delimit();
    ReadConcat(r, line + " -E ", Quote(name));
    QuoteReads(start, name);
    ReadConcat(r, head, "=");
    ReadOne(start.Append(name), '=');
    ReadConcat(r, head + "=", Quote(value));
    QuoteReads(start.Append(name).Append("="), value);
    assert "" + name + "=" + value == name + "=" + value;
    assert words + ["-E"] + [name + "=" + value] == words + ["-E", name + "=" + value];
  }

  lemma {:induction false} EnvSays(pot: string, order: seq<string>, env: map<string, string>)
    requires forall k :: k in order ==> k in env
    ensures Says(START, EnvCommand(pot, order, env), [POT_BIN, "set-env", "-p", pot] + EnvWords(order, env))
    decreases |order|
  {
    hide Read, Quote, PlainWord;
    NamesArePlain();
    FlagsArePlain();
    if order == [] {
      PathCommandSays(" set-env -p ", "set-env", "-p", pot);
      var line := Quote(POT_BIN) + " set-env -p " + Quote(pot);
      ReadConcat(START, line, " ");
      ReadOne(Read(START, line), ' ');
      assert [POT_BIN, "set-env", "-p", pot] + [] == [POT_BIN, "set-env", "-p", pot];
    } else {
      var n := |order| - 1;
      EnvSays(pot, order[..n], env);
      var words := [POT_BIN, "set-env", "-p", pot] + EnvWords(order[..n], env);
      SaysBinding(START, EnvCommand(pot, order[..n], env), words, order[n], env[order[n]]);
      assert words + ["-E", order[n] + "=" + env[order[n]]]
          == [POT_BIN, "set-env", "-p", pot] + EnvWords(order, env);
    }
  }

  lemma EnvReads(pot: string, order: seq<string>, env: map<string, string>)
    requires forall k :: k in order ==> k in env
    ensures Words(EnvCommand(pot, order, env)) == Some([POT_BIN, "set-env", "-p", pot] + EnvWords(order, env))
  {
    hide Says, Quote, Words;
    EnvSays(pot, order, env);
    SaysWords(EnvCommand(pot, order, env), [POT_BIN, "set-env", "-p", pot] + EnvWords(order, env));
  }

  lemma {:induction false} HostsSays(pot: string, hosts: seq<string>)
    ensures Says(START, HostsCommand(pot, hosts), [POT_BIN, "set-hosts", "-p", pot] + HostWords(hosts))
    decreases |hosts|
  {
    hide Says, Quote, PlainWord;
    NamesArePlain();
    FlagsArePlain();
    if hosts == [] {
      PathCommandSays(" set-hosts -p ", "set-hosts", "-p", pot);
      assert [POT_BIN, "set-hosts", "-p", pot] + [] == [POT_BIN, "set-hosts", "-p", pot];
    } else {
      var n := |hosts| - 1;
      HostsSays(pot, hosts[..n]);
      var words := [POT_BIN, "set-hosts", "-p", pot] + HostWords(hosts[..n]);
      SaysFlag(START, HostsCommand(pot, hosts[..n]), words, " -H ", "-H", hosts[n]);
      assert words + ["-H", hosts[n]] == [POT_BIN, "set-hosts", "-p", pot] + HostWords(hosts);
    }
  }

  lemma HostsRead(pot: string, hosts: seq<string>)
    ensures Words(HostsCommand(pot, hosts)) == Some([POT_BIN, "set-hosts", "-p", pot] + HostWords(hosts))
  {
    hide Says, Quote, Words;
    HostsSays(pot, hosts);
    SaysWords(HostsCommand(pot, hosts), [POT_BIN, "set-hosts", "-p", pot] + HostWords(hosts));
  }

  lemma {:induction false} DecimalIsPlain(n: int)
    ensures PlainWord(Decimal(n))
    decreases n < 0, if n < 0 then -n else n
  {
    if n < 0 {
      DecimalIsPlain(-n);
    } else if n >= 10 {
      DecimalIsPlain(n / 10);
    }
  }

  function DecimalValue(s: string): int
    requires s != ""
  {
    if s[0] == '-' && |s| > 1 then -DecimalValue(s[1..])
    else if |s| == 1 then s[0] as int - '0' as int
    else 10 * DecimalValue(s[..|s| - 1]) + (s[|s| - 1] as int - '0' as int)
  }

  /** The number printed is the number read. */
  lemma {:induction false} DecimalRoundTrip(n: int)
    ensures Decimal(n) != "" && DecimalValue(Decimal(n)) == n
    ensures n >= 0 ==> Decimal(n)[0] != '-'
    decreases n < 0, if n < 0 then -n else n
  {
    if n < 0 {
      DecimalRoundTrip(-n);
      assert Decimal(n)[1..] == Decimal(-n);
    } else if n >= 10 {
      DecimalRoundTrip(n / 10);
      var s := Decimal(n);
      assert s[..|s| - 1] == Decimal(n / 10);
    }
  }

  lemma SizeIsPlain(n: int)
    ensures PlainWord(Decimal(n) + "M")
  {
    DecimalIsPlain(n);
  }

  function MemoryPrefix(memoryMB: int): string {
    Quote(POT_BIN) + " set-rss" + " -M" + (" " + (Decimal(memoryMB) + "M")) + " -p"
  }

  lemma MemoryPrefixSays(memoryMB: int)
    ensures Says(START, MemoryPrefix(memoryMB), [POT_BIN, "set-rss", "-M", Decimal(memoryMB) + "M", "-p"])
  {
    hide Says, Read, Quote, Decimal, PlainWord;
    NamesArePlain();
    FlagsArePlain();
    SizeIsPlain(memoryMB);
    PathSays();
    var size := Decimal(memoryMB) + "M";
    SaysText(START, Quote(POT_BIN), [POT_BIN], " set-rss", "set-rss");
    SaysText(START, Quote(POT_BIN) + " set-rss", [POT_BIN] + ["set-rss"], " -M", "-M");
    var line := Quote(POT_BIN) + " set-rss" + " -M";
    var words := [POT_BIN] + ["set-rss"] + ["-M"];
    SaysText(START, line, words, " " + size, size);
    SaysText(START, line + (" " + size), words + [size], " -p", "-p");
    assert words + [size] + ["-p"] == [POT_BIN, "set-rss", "-M", size, "-p"];
  }

  /** The memory line names the pot exactly when the pot name is a plain word: it is the one line that
      splices it in unquoted. */
  lemma MemoryReads(pot: string, memoryMB: int)
    ensures PlainWord(pot)
       <==> Words(MemoryCommand(pot, memoryMB))
            == Some([POT_BIN, "set-rss", "-M", Decimal(memoryMB) + "M", "-p", pot])
  {
    hide Read, Quote, Decimal, PlainWord;
    var size := Decimal(memoryMB) + "M";
    var prefix := MemoryPrefix(memoryMB);
    var before := [POT_BIN, "set-rss", "-M", size, "-p"];
    MemoryPrefixSays(memoryMB);
    ReadConcat(START, prefix, " ");
    ReadOne(Read(START, prefix), ' ');
    ReadConcat(START, prefix + " ", pot);
    assert prefix + " " == Quote(POT_BIN) + " set-rss -M " + Decimal(memoryMB) + "M -p ";
    assert MemoryCommand(pot, memoryMB) == prefix + " " + pot;
    SpliceReads(Read(START, prefix + " "), pot);
    assert [] + before == before;
    assert before + [pot] == [POT_BIN, "set-rss", "-M", size, "-p", pot];
  }
}
