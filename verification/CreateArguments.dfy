/**
 The argument vector of the create command, and the option parser that undoes it:
 the Utility Syntax Guidelines of IEEE Std 1003.1-2017, Base Definitions, section 12.2.
 */
module CreateArguments {
  import opened Options
  import opened Text
  import opened Naming
  import opened Config

  // ---- printing

  /** Command and arguments, joined by blanks inside a pair of double quotes. */
  function QuotedCommand(d: DriverConfig): string {
    "\"" + Join([d.command] + d.args, ' ') + "\""
  }

  /** The value of a port mapping is the port inside the pot; Nomad's environment names the port outside. */
  function Export(name: string, d: DriverConfig, env: map<string, string>): string
    requires name in d.portMap
  {
    var key := "NOMAD_HOST_PORT_" + name;
    d.portMap[name] + ":" + (if key in env then env[key] else "")
  }

  function Exports(order: seq<string>, d: DriverConfig, env: map<string, string>): (r: seq<string>)
    requires forall n :: n in order ==> n in d.portMap
    ensures |r| == |order|
    ensures forall i :: 0 <= i < |order| ==> r[i] == Export(order[i], d, env)
  {
    if order == [] then []
    else Exports(order[..|order| - 1], d, env) + [Export(order[|order| - 1], d, env)]
  }

  type Pair = (char, string)

  function ImagePairs(d: DriverConfig): seq<Pair> {
    [('U', d.image), ('p', d.pot), ('t', d.tag)]
  }

  function CommandPairs(d: DriverConfig): seq<Pair> {
    if d.command == "" then [] else [('c', QuotedCommand(d))]
  }

  function NetworkPairs(d: DriverConfig): seq<Pair> {
    if d.networkMode != "" then [('N', d.networkMode)]
    else if d.portMap != map[] then [('N', "public-bridge"), ('i', "auto")]
    else []
  }

  function ExportPairs(exports: seq<string>): seq<Pair> {
    seq(|exports|, i requires 0 <= i < |exports| => ('e', exports[i]))
  }

  function NamePairs(id: string): seq<Pair>
    requires HasParts(id)
  {
    [('a', AllocSuffix(id)), ('n', BaseName(id))]
  }

  function CreatePairs(t: TaskConfig, d: DriverConfig, order: seq<string>): seq<Pair>
    requires HasParts(t.id) && forall n :: n in order ==> n in d.portMap
  {
    ImagePairs(d) + CommandPairs(d) + NetworkPairs(d)
      + ExportPairs(if d.networkMode == "host" then [] else Exports(order, d, t.env))
      + NamePairs(t.id)
  }

  /** Each pair is an option letter and, as the next argument, its option-argument. */
  function Flatten(pairs: seq<Pair>): seq<string> {
    if pairs == [] then [] else [['-', pairs[0].0], pairs[0].1] + Flatten(pairs[1..])
  }

  function CreateArgv(t: TaskConfig, d: DriverConfig, order: seq<string>): seq<string>
    requires HasParts(t.id) && forall n :: n in order ==> n in d.portMap
  {
    ["prepare"] + Flatten(CreatePairs(t, d, order)) + ["-v"]
  }

  lemma {:induction false} FlattenConcat(a: seq<Pair>, b: seq<Pair>)
    ensures Flatten(a + b) == Flatten(a) + Flatten(b)
  {
    if a == [] {
      assert a + b == b;
    } else {
      assert (a + b)[1..] == a[1..] + b;
      FlattenConcat(a[1..], b);
    }
  }

  // ---- parsing

  datatype Opt = Opt(letter: char, argument: Option<string>)

  datatype Parsed = Usage | Parsed(options: seq<Opt>, operands: seq<string>)

  function Prepend(o: Opt, p: Parsed): Parsed {
    match p
    case Usage => Usage
    case Parsed(options, operands) => Parsed([o] + options, operands)
  }

  /** Guidelines 5 to 10: flags may share a hyphen, an option-argument is the rest of its argument or the next one,
      `--` and the first operand end the options. */
  function GetOpt(args: seq<string>, flags: set<char>, taking: set<char>): Parsed
    decreases |args|, 0
  {
    if args == [] then Parsed([], [])
    else if args[0] == "--" then Parsed([], args[1..])
    else if |args[0]| < 2 || args[0][0] != '-' then Parsed([], args)
    else Cluster(args[0][1..], args[1..], flags, taking)
  }

  function Cluster(letters: string, rest: seq<string>, flags: set<char>, taking: set<char>): Parsed
    decreases |rest|, 1 + |letters|
  {
    if letters == "" then GetOpt(rest, flags, taking)
    else if letters[0] in flags then Prepend(Opt(letters[0], None), Cluster(letters[1..], rest, flags, taking))
    else if letters[0] !in taking then Usage
    else if |letters| > 1 then Prepend(Opt(letters[0], Some(letters[1..])), GetOpt(rest, flags, taking))
    else if rest == [] then Usage
    else Prepend(Opt(letters[0], Some(rest[0])), GetOpt(rest[1..], flags, taking))
  }

  const CREATE_FLAGS := {'v'}
  const CREATE_TAKING := {'U', 'p', 't', 'c', 'N', 'i', 'e', 'a', 'n'}

  function PairOptions(pairs: seq<Pair>): seq<Opt> {
    seq(|pairs|, i requires 0 <= i < |pairs| => Opt(pairs[i].0, Some(pairs[i].1)))
  }

  lemma VerboseParses()
    ensures GetOpt(["-v"], CREATE_FLAGS, CREATE_TAKING) == Parsed([Opt('v', None)], [])
  {
    assert ["-v"][1..] == [];
    assert "-v"[1..] == "v" && "v"[1..] == "";
    assert Cluster("v", [], CREATE_FLAGS, CREATE_TAKING)
        == Prepend(Opt('v', None), Cluster("", [], CREATE_FLAGS, CREATE_TAKING));
  }

  /** An option letter by itself takes the next argument, whatever it looks like. */
  lemma PairParses(letter: char, value: string, rest: seq<string>)
    requires letter in CREATE_TAKING
    ensures GetOpt([['-', letter], value] + rest, CREATE_FLAGS, CREATE_TAKING)
         == Prepend(Opt(letter, Some(value)), GetOpt(rest, CREATE_FLAGS, CREATE_TAKING))
  {
    var args, head := [['-', letter], value] + rest, ['-', letter];
    assert args[1..] == [value] + rest && args[1..][1..] == rest;
    assert head[1..] == [letter];
    assert args[0] == head && head != "--";
  }

  /** Whatever the option-arguments hold, even a leading hyphen, the parser takes them for what they are. */
  lemma {:induction false} FlattenedParses(pairs: seq<Pair>)
    requires forall p :: p in pairs ==> p.0 in CREATE_TAKING
    ensures GetOpt(Flatten(pairs) + ["-v"], CREATE_FLAGS, CREATE_TAKING)
         == Parsed(PairOptions(pairs) + [Opt('v', None)], [])
  {
    hide GetOpt;
    if pairs == [] {
      VerboseParses();
      assert Flatten(pairs) + ["-v"] == ["-v"];
      assert PairOptions(pairs) + [Opt('v', None)] == [Opt('v', None)];
    } else {
      assert pairs[0] in pairs && forall p :: p in pairs[1..] ==> p in pairs;
      FlattenedParses(pairs[1..]);
      PairParses(pairs[0].0, pairs[0].1, Flatten(pairs[1..]) + ["-v"]);
      assert Flatten(pairs) + ["-v"] == [['-', pairs[0].0], pairs[0].1] + (Flatten(pairs[1..]) + ["-v"]);
      assert PairOptions(pairs) == [Opt(pairs[0].0, Some(pairs[0].1))] + PairOptions(pairs[1..]);
      assert [Opt(pairs[0].0, Some(pairs[0].1))] + (PairOptions(pairs[1..]) + [Opt('v', None)])
          == PairOptions(pairs) + [Opt('v', None)];
    }
  }

  // ---- what the options ask for

  /** A create request: the last value of each option, every export, and the verbose flag. */
  datatype Request = Request(
    image: Option<string>, pot: Option<string>, tag: Option<string>, command: Option<string>,
    network: Option<string>, ip: Option<string>, exports: seq<string>,
    suffix: Option<string>, base: Option<string>, verbose: bool)

  const NO_REQUEST := Request(None, None, None, None, None, None, [], None, None, false)

  function Apply(r: Request, o: Opt): Request {
    match o
    case Opt('U', Some(v)) => r.(image := Some(v))
    case Opt('p', Some(v)) => r.(pot := Some(v))
    case Opt('t', Some(v)) => r.(tag := Some(v))
    case Opt('c', Some(v)) => r.(command := Some(v))
    case Opt('N', Some(v)) => r.(network := Some(v))
    case Opt('i', Some(v)) => r.(ip := Some(v))
    case Opt('e', Some(v)) => r.(exports := r.exports + [v])
    case Opt('a', Some(v)) => r.(suffix := Some(v))
    case Opt('n', Some(v)) => r.(base := Some(v))
    case Opt('v', None) => r.(verbose := true)
    case _ => r
  }

  function ApplyAll(r: Request, options: seq<Opt>): Request
    decreases |options|
  {
    if options == [] then r else ApplyAll(Apply(r, options[0]), options[1..])
  }

  function ParseCreate(argv: seq<string>): Option<Request> {
    if argv == [] || argv[0] != "prepare" then None
    else
      var p := GetOpt(argv[1..], CREATE_FLAGS, CREATE_TAKING);
      if p.Usage? || p.operands != [] then None else Some(ApplyAll(NO_REQUEST, p.options))
  }

  lemma {:induction false} ApplyConcat(r: Request, a: seq<Opt>, b: seq<Opt>)
    ensures ApplyAll(r, a + b) == ApplyAll(ApplyAll(r, a), b)
    decreases |a|
  {
    if a == [] {
      assert a + b == b;
    } else {
      assert (a + b)[1..] == a[1..] + b;
      ApplyConcat(Apply(r, a[0]), a[1..], b);
    }
  }

  lemma PairOptionsConcat(a: seq<Pair>, b: seq<Pair>)
    ensures PairOptions(a + b) == PairOptions(a) + PairOptions(b)
  {
  }

  lemma {:induction false} ApplyExports(r: Request, exports: seq<string>)
    ensures ApplyAll(r, PairOptions(ExportPairs(exports))) == r.(exports := r.exports + exports)
    decreases |exports|
  {
    var options := PairOptions(ExportPairs(exports));
    if exports != [] {
      assert options[1..] == PairOptions(ExportPairs(exports[1..]));
      ApplyExports(Apply(r, options[0]), exports[1..]);
      assert r.exports + [exports[0]] + exports[1..] == r.exports + exports;
    } else {
      assert r.exports + exports == r.exports;
    }
  }

  /** The create argument vector parses back into exactly the request the configuration makes. The driver leaves the
      choice of a network to `pot` when the job names neither a mode nor a port. */
  lemma CreateParses(t: TaskConfig, d: DriverConfig, order: seq<string>)
    requires HasParts(t.id) && forall n :: n in order ==> n in d.portMap
    ensures ParseCreate(CreateArgv(t, d, order)) == Some(Request(
        Some(d.image), Some(d.pot), Some(d.tag),
        if d.command == "" then None else Some("\"" + Join([d.command] + d.args, ' ') + "\""),
        if d.networkMode != "" then Some(d.networkMode)
        else if d.portMap != map[] then Some("public-bridge") else None,
        if d.networkMode == "" && d.portMap != map[] then Some("auto") else None,
        if d.networkMode == "host" then [] else Exports(order, d, t.env),
        Some(Split(t.id, '/')[2] + "_" + Split(t.id, '/')[0]), Some(Split(t.id, '/')[1]), true))
  {
    hide Flatten, GetOpt, ApplyAll, Exports, PairOptions, Split, Join;
    hide ImagePairs, CommandPairs, NetworkPairs, ExportPairs, NamePairs;
    var exports := if d.networkMode == "host" then [] else Exports(order, d, t.env);
    var pairs := CreatePairs(t, d, order);
    PairLetters(t, d, exports);
    var front := ImagePairs(d) + CommandPairs(d) + NetworkPairs(d);
    assert CreateArgv(t, d, order)[1..] == Flatten(pairs) + ["-v"];
    FlattenedParses(pairs);
    PairOptionsConcat(front, ExportPairs(exports));
    PairOptionsConcat(front + ExportPairs(exports), NamePairs(t.id));
    var r1 := ApplyFront(d);
    ApplyConcat(NO_REQUEST, PairOptions(front), PairOptions(ExportPairs(exports)));
    ApplyExports(r1, exports);
    assert [] + exports == exports;
    var r2 := r1.(exports := exports);
    ApplyConcat(NO_REQUEST, PairOptions(front + ExportPairs(exports)), PairOptions(NamePairs(t.id)));
    ApplyNames(r2, t.id);
    ApplyConcat(NO_REQUEST, PairOptions(pairs), [Opt('v', None)]);
    ApplyTwo(r2.(suffix := Some(AllocSuffix(t.id)), base := Some(BaseName(t.id))), [Opt('v', None)]);
  }

  /** The exports of the parsed vector, mapping by mapping: the value in the port map, a colon, and the port outside
      that the environment names; they come apart at the first colon into these two exactly when the value holds none.
      The host network has no exports. */
  lemma ExportsRead(t: TaskConfig, d: DriverConfig, order: seq<string>)
    requires HasParts(t.id) && forall n :: n in order ==> n in d.portMap
    ensures var request := ParseCreate(CreateArgv(t, d, order));
      && request.Some?
      && var exports := request.value.exports;
      && (d.networkMode == "host" ==> exports == [])
      && (d.networkMode != "host" ==>
            && |exports| == |order|
            && forall i :: 0 <= i < |order| ==>
                 var key := "NOMAD_HOST_PORT_" + order[i];
                 var inside, outside := d.portMap[order[i]], if key in t.env then t.env[key] else "";
                 && exports[i] == inside + ":" + outside && !Free(exports[i], ':')
                 && (CutFirst(exports[i], ':') == (inside, outside) <==> Free(inside, ':')))
  {
    hide CreateArgv, ParseCreate, CutFirst, Split, Join;
    CreateParses(t, d, order);
    forall i | 0 <= i < |order|
      ensures var key := "NOMAD_HOST_PORT_" + order[i];
        var inside, outside := d.portMap[order[i]], if key in t.env then t.env[key] else "";
        var e := Exports(order, d, t.env)[i];
        e == inside + ":" + outside && !Free(e, ':') && (CutFirst(e, ':') == (inside, outside) <==> Free(inside, ':'))
    {
      var key := "NOMAD_HOST_PORT_" + order[i];
      var inside, outside := d.portMap[order[i]], if key in t.env then t.env[key] else "";
      assert (inside + ":" + outside)[|inside|] == ':';
      if Free(inside, ':') { CutFirstUnique(inside, outside, ':'); }
    }
  }

  lemma PairLetters(t: TaskConfig, d: DriverConfig, exports: seq<string>)
    requires HasParts(t.id)
    ensures forall p :: p in ImagePairs(d) + CommandPairs(d) + NetworkPairs(d) + ExportPairs(exports) + NamePairs(t.id)
              ==> p.0 in CREATE_TAKING
  {
    hide QuotedCommand, AllocSuffix, BaseName;
  }

  lemma ApplyTwo(r: Request, options: seq<Opt>)
    ensures |options| == 0 ==> ApplyAll(r, options) == r
    ensures |options| == 1 ==> ApplyAll(r, options) == Apply(r, options[0])
    ensures |options| == 2 ==> ApplyAll(r, options) == Apply(Apply(r, options[0]), options[1])
    decreases |options|
  {
    hide Apply;
    if |options| == 1 {
      assert options[1..] == [];
    } else if |options| == 2 {
      ApplyTwo(Apply(r, options[0]), options[1..]);
    }
  }

  lemma ApplyNames(r: Request, id: string)
    requires HasParts(id)
    ensures ApplyAll(r, PairOptions(NamePairs(id))) == r.(suffix := Some(AllocSuffix(id)), base := Some(BaseName(id)))
  {
    ApplyTwo(r, PairOptions(NamePairs(id)));
  }

  lemma ApplyFront(d: DriverConfig) returns (r: Request)
    ensures r == ApplyAll(NO_REQUEST, PairOptions(ImagePairs(d) + CommandPairs(d) + NetworkPairs(d)))
    ensures r == Request(Some(d.image), Some(d.pot), Some(d.tag),
                         if d.command == "" then None else Some(QuotedCommand(d)),
                         if d.networkMode != "" then Some(d.networkMode)
                         else if d.portMap != map[] then Some("public-bridge") else None,
                         if d.networkMode == "" && d.portMap != map[] then Some("auto") else None,
                         [], None, None, false)
  {
    r := ApplyAll(NO_REQUEST, PairOptions(ImagePairs(d) + CommandPairs(d) + NetworkPairs(d)));
    var image := PairOptions(ImagePairs(d));
    PairOptionsConcat(ImagePairs(d), CommandPairs(d));
    PairOptionsConcat(ImagePairs(d) + CommandPairs(d), NetworkPairs(d));
    ApplyConcat(NO_REQUEST, image + PairOptions(CommandPairs(d)), PairOptions(NetworkPairs(d)));
    ApplyConcat(NO_REQUEST, image, PairOptions(CommandPairs(d)));
    var r0 := Apply(NO_REQUEST, image[0]);
    ApplyTwo(r0, image[1..]);
    var r1 := ApplyAll(NO_REQUEST, image);
    ApplyTwo(r1, PairOptions(CommandPairs(d)));
    var r2 := ApplyAll(r1, PairOptions(CommandPairs(d)));
    ApplyTwo(r2, PairOptions(NetworkPairs(d)));
  }

  /** The names whose export is spelled `e`. */
  function Exporting(d: DriverConfig, env: map<string, string>, e: string): set<string> {
    set n | n in d.portMap && Export(n, d, env) == e
  }

  function Visited(order: seq<string>, d: DriverConfig, env: map<string, string>, e: string): set<string>
    requires forall n :: n in order ==> n in d.portMap
  {
    set n | n in order && Export(n, d, env) == e
  }

  /** Whatever order the loop visits the port map in, each export is printed once per mapping that spells it. */
  lemma ExportsCounted(order: seq<string>, d: DriverConfig, env: map<string, string>, e: string)
    requires IsOrder(order, d.portMap)
    ensures multiset(Exports(order, d, env))[e] == |Exporting(d, env, e)|
  {
    PrefixCounted(order, d, env, e);
    assert Visited(order, d, env, e) == Exporting(d, env, e);
  }

  lemma {:induction false} PrefixCounted(order: seq<string>, d: DriverConfig, env: map<string, string>, e: string)
    requires forall n :: n in order ==> n in d.portMap
    requires forall i, j :: 0 <= i < j < |order| ==> order[i] != order[j]
    ensures multiset(Exports(order, d, env))[e] == |Visited(order, d, env, e)|
    decreases |order|
  {
    hide Export;
    if order == [] {
      assert Visited(order, d, env, e) == {};
    } else {
      var init, last := order[..|order| - 1], order[|order| - 1];
      PrefixCounted(init, d, env, e);
      assert order == init + [last];
      LastVisited(init, last, d, env, e);
      LastExport(init, last, d, env, e);
    }
  }

  lemma LastExport(init: seq<string>, last: string, d: DriverConfig, env: map<string, string>, e: string)
    requires forall n :: n in init + [last] ==> n in d.portMap
    ensures forall n :: n in init ==> n in d.portMap
    ensures last in d.portMap
    ensures multiset(Exports(init + [last], d, env))[e]
         == multiset(Exports(init, d, env))[e] + if Export(last, d, env) == e then 1 else 0
  {
    hide Export;
    assert last in init + [last] && forall n :: n in init ==> n in init + [last];
    assert (init + [last])[..|init + [last]| - 1] == init;
    assert Exports(init + [last], d, env) == Exports(init, d, env) + [Export(last, d, env)];
  }

  lemma LastVisited(init: seq<string>, last: string, d: DriverConfig, env: map<string, string>, e: string)
    requires last !in init && last in d.portMap && forall n :: n in init ==> n in d.portMap
    ensures forall n :: n in init + [last] ==> n in d.portMap
    ensures |Visited(init + [last], d, env, e)|
         == |Visited(init, d, env, e)| + if Export(last, d, env) == e then 1 else 0
  {
    hide Export;
    var before := Visited(init, d, env, e);
    assert Visited(init + [last], d, env, e) == if Export(last, d, env) == e then before + {last} else before;
  }

  /** The words of the quoted command are the command and its arguments exactly when none of them holds a blank:
      the source joins them without quoting. */
  lemma CommandWords(d: DriverConfig)
    ensures |QuotedCommand(d)| >= 2 && QuotedCommand(d)[0] == QuotedCommand(d)[|QuotedCommand(d)| - 1] == '"'
    ensures Split(QuotedCommand(d)[1..|QuotedCommand(d)| - 1], ' ') == [d.command] + d.args
       <==> forall w :: w in [d.command] + d.args ==> Free(w, ' ')
  {
    var joined := Join([d.command] + d.args, ' ');
    assert QuotedCommand(d)[1..|QuotedCommand(d)| - 1] == joined;
    SplitJoin([d.command] + d.args, ' ');
  }
}
