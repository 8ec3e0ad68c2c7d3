/** How the shell reads the two checks that a start makes on its pot. */
module Checks {
  import opened Options
  import opened Text
  import opened Shell
  import opened Config
  import opened Host
  import opened Pot

  /** What a reader has taken over into words, with the character that a backslash may still add. */
  function Owed(r: Reader): nat
    requires r.Reading?
  {
    Taken(r) + if r.mode == Backslash then 1 else 0
  }

  lemma FeedOwes(r: Reader, c: char)
    requires r.Reading? && Feed(r, c).Reading?
    ensures Owed(Feed(r, c)) <= Owed(r) + 1
    ensures r.mode == Single && c == '\'' ==> Owed(Feed(r, c)) <= Owed(r)
  {
    if r.word.Some? { TextLengthConcat(r.words, [r.word.value]); }
  }

  lemma {:induction false} ReadOwes(r: Reader, s: string)
    requires r.Reading? && Read(r, s).Reading?
    ensures Owed(Read(r, s)) <= Owed(r) + |s|
    ensures r.mode == Single && !Free(s, '\'') ==> Owed(Read(r, s)) < Owed(r) + |s|
    decreases |s|
  {
    if s != "" {
      var next := Feed(r, s[0]);
      if next.Refused? {
        RefusedStays(s[1..]);
      } else {
        FeedOwes(r, s[0]);
        ReadOwes(next, s[1..]);
        assert s == [s[0]] + s[1..];
        FreeConcat([s[0]], s[1..], '\'');
      }
    }
  }

  lemma {:induction false} FreeSingleReads(r: Reader, s: string)
    requires r.Reading? && r.mode == Single && r.word.Some? && Free(s, '\'')
    ensures Read(r, s) == r.Append(s)
    decreases |s|
  {
    if s == "" {
      assert r.Current() + s == r.Current();
    } else {
      assert s == [s[0]] + s[1..];
      FreeConcat([s[0]], s[1..], '\'');
      FreeSingleReads(r.Append([s[0]]), s[1..]);
      assert r.Current() + [s[0]] + s[1..] == r.Current() + s;
    }
  }

  /** Text spliced in between two single quotes is read as itself exactly when it holds none. */
  lemma SingleSpliceReads(r: Reader, s: string)
    requires r.Reading? && r.mode == Single && r.word.Some?
    ensures Finish(Read(r, s + "'")) == Some(r.words + [r.Current() + s]) <==> Free(s, '\'')
  {
    ReadConcat(r, s, "'");
    var mid := Read(r, s);
    ReadOne(mid, '\'');
    if Free(s, '\'') {
      FreeSingleReads(r, s);
    } else if Finish(Read(r, s + "'")) == Some(r.words + [r.Current() + s]) {
      var end := Read(r, s + "'");
      TextLengthConcat(r.words, [r.Current() + s]);
      TextLengthConcat(end.words, [end.Current()]);
      ReadOwes(r, s);
    }
  }

  /** A plain word after a finished one. */
  lemma NextWord(r: Reader, text: string)
    requires r.Unquoted() && PlainWord(text)
    ensures Read(r, " " + text) == Reading(Plain, Some(text), r.Delimit().words)
  {
    ReadConcat(r, " ", text);
    ReadOne(r, ' ');
    LiteralReads(r.Delimit(), text);
    assert "" + text == text;
  }

  lemma PgrepReads()
    ensures Read(START, "/bin/pgrep -f '") == Reading(Single, Some(""), ["/bin/pgrep", "-f"])
  {
    hide Read, PlainWord;
    CheckWordsPlain();
    LiteralStart("/bin/pgrep");
    var r1 := Reading(Plain, Some("/bin/pgrep"), []);
    NextWord(r1, "-f");
    ReadConcat(START, "/bin/pgrep", " -f");
    var r2 := Reading(Plain, Some("-f"), ["/bin/pgrep"]);
    assert " " + "-f" == " -f" && [] + ["/bin/pgrep"] == ["/bin/pgrep"];
    assert Read(START, "/bin/pgrep" + " -f") == r2;
    ReadConcat(START, "/bin/pgrep" + " -f", " '");
    ReadConcat(r2, " ", "'");
    assert " " + "'" == " '";
    ReadOne(r2, ' ');
    var r3 := Reading(Plain, None, ["/bin/pgrep", "-f"]);
    assert ["/bin/pgrep"] + ["-f"] == r3.words;
    ReadOne(r3, '\'');
    assert r3.Append("") == Reading(Plain, Some(""), r3.words) by { assert "" + "" == ""; }
    assert [] + ["/bin/pgrep"] + ["-f"] == r3.words;
    assert "/bin/pgrep" + " -f" + " '" == "/bin/pgrep -f '";
  }

  lemma LiteralStart(text: string)
    requires PlainWord(text)
    ensures Read(START, text) == Reading(Plain, Some(text), [])
  {
    LiteralReads(START, text);
    assert "" + text == text;
  }

  lemma CheckWordsPlain()
    ensures PlainWord("/bin/pgrep") && PlainWord("-f") && PlainWord("ls") && PlainWord("-q") && PlainWord("grep")
    ensures PlainWord(POT_BIN)
  {
    hide PlainWord;
    PgrepIsPlain();
    PotIsPlain();
    ShortWordsPlain();
  }

  lemma PgrepIsPlain()
    ensures PlainWord("/bin/pgrep")
  {
  }

  lemma PotIsPlain()
    ensures PlainWord(POT_BIN)
  {
  }

  lemma ShortWordsPlain()
    ensures PlainWord("-f") && PlainWord("ls") && PlainWord("-q") && PlainWord("grep")
  {
  }

  const START_TEXT := "/bin/sh /usr/local/bin/pot start "

  /** The liveness check asks for the process of the pot exactly when the pot name holds no single quote. */
  lemma AliveCheckReads(pot: string)
    ensures AliveCheck(pot).Sh?
    ensures Words(AliveCheck(pot).line) == Some(["/bin/pgrep", "-f", START_TEXT + pot]) <==> Free(pot, '\'')
  {
    hide Read;
    PgrepReads();
    var r := Reading(Single, Some(""), ["/bin/pgrep", "-f"]);
    SingleSpliceReads(r, START_TEXT + pot);
    FreeConcat(START_TEXT, pot, '\'');
    ReadConcat(START, "/bin/pgrep -f '", START_TEXT + pot + "'");
    assert AliveCheck(pot).line == "/bin/pgrep -f '" + (START_TEXT + pot + "'");
    assert "" + (START_TEXT + pot) == START_TEXT + pot;
    assert r.words + [r.Current() + (START_TEXT + pot)] == ["/bin/pgrep", "-f", START_TEXT + pot];
  }

  /** The existence check is a pipeline of two commands; the second looks for the pot name exactly when that is a plain
      word. */
  lemma ExistsCheckReads(pot: string)
    ensures ExistsCheck(pot) == Sh("/usr/local/bin/pot ls -q" + " | " + ("grep " + pot))
    ensures Words("/usr/local/bin/pot ls -q") == Some([POT_BIN, "ls", "-q"])
    ensures Words("grep " + pot) == Some(["grep", pot]) <==> PlainWord(pot)
  {
    hide Read, PlainWord;
    CheckWordsPlain();
    ListReads();
    LiteralStart("grep");
    var r := Reading(Plain, Some("grep"), []);
    ReadConcat(START, "grep", " ");
    ReadOne(r, ' ');
    assert "grep" + " " == "grep ";
    var after := Reading(Plain, None, ["grep"]);
    assert [] + ["grep"] == ["grep"];
    ReadConcat(START, "grep ", pot);
    SpliceReads(after, pot);
    assert ["grep"] + [pot] == ["grep", pot];
    assert "/usr/local/bin/pot ls -q" + " | " + ("grep " + pot) == "/usr/local/bin/pot ls -q | grep " + pot;
  }

  lemma ListReads()
    ensures Words("/usr/local/bin/pot ls -q") == Some([POT_BIN, "ls", "-q"])
  {
    hide Read, PlainWord;
    CheckWordsPlain();
    LiteralStart(POT_BIN);
    NextWord(Reading(Plain, Some(POT_BIN), []), "ls");
    ReadConcat(START, POT_BIN, " " + "ls");
    NextWord(Reading(Plain, Some("ls"), [POT_BIN]), "-q");
    ReadConcat(START, POT_BIN + (" " + "ls"), " " + "-q");
    assert [] + [POT_BIN] == [POT_BIN] && [POT_BIN] + ["ls"] == [POT_BIN, "ls"];
    assert POT_BIN + (" " + "ls") + (" " + "-q") == "/usr/local/bin/pot ls -q";
    assert [POT_BIN, "ls"] + ["-q"] == [POT_BIN, "ls", "-q"];
  }
}
