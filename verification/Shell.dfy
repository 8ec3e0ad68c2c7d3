/**
 Word splitting of one shell command line, after IEEE Std 1003.1-2017, Shell Command Language:
 section 2.2.1 (backslash), 2.2.2 (single quotes), 2.2.3 (double quotes) and 2.3 (token recognition).

 The reader knows words only. It refuses a line on the first character that would make the shell do anything
 else: an operator, a newline, an expansion, a pattern, a comment or a tilde prefix.
 */
module Shell {
  import opened Options

  datatype Mode = Plain | Backslash | Single | Double | DoubleBackslash

  /** `word` is the token being delimited, absent between tokens; `words` are the finished ones. */
  datatype Reader =
    | Refused
    | Reading(mode: Mode, word: Option<string>, words: seq<string>)
  {
    function Current(): string
      requires Reading?
    {
      word.GetOr("")
    }

    /** The same reader with `text` appended to its token. */
    function Append(text: string): (r: Reader)
      requires Reading?
      ensures r.Reading?
    {
      Reading(mode, Some(Current() + text), words)
    }

    /** The same reader inside or outside quotes. */
    function In(m: Mode): (r: Reader)
      requires Reading?
      ensures r.Reading?
    {
      Reading(m, word, words)
    }

    /** The same reader after the end of its token, if it has one. */
    function Delimit(): Reader
      requires Reading?
    {
      match word
      case None => this
      case Some(w) => this.(word := None, words := words + [w])
    }

    predicate Unquoted() {
      Reading? && mode == Plain
    }
  }

  const START := Reading(Plain, None, [])

  predicate Blank(c: char) { c == ' ' || c == '\t' }

  /** Characters that mean something to the shell wherever they stand unquoted. */
  predicate Active(c: char) {
    || c == '\n' || c == ';' || c == '|' || c == '&' || c == '<' || c == '>' || c == '(' || c == ')'
    || c == '$' || c == '`' || c == '*' || c == '?' || c == '['
  }

  predicate Quoting(c: char) { c == '\'' || c == '"' || c == '\\' }

  /** Characters that mean something only where a token begins: a comment, a tilde prefix. */
  predicate ActiveFirst(c: char) { c == '#' || c == '~' }

  function Feed(r: Reader, c: char): Reader {
    match r
    case Refused => Refused
    case Reading(Plain, word, _) =>
      if c == '\'' then r.Append("").In(Single)
      else if c == '"' then r.Append("").In(Double)
      else if c == '\\' then r.In(Backslash)
      else if Blank(c) then r.Delimit()
      else if Active(c) || (word.None? && ActiveFirst(c)) then Refused
      else r.Append([c])
    case Reading(Backslash, _, _) =>
      if c == '\n' then r.In(Plain) else r.Append([c]).In(Plain)
    case Reading(Single, _, _) =>
      if c == '\'' then r.In(Plain) else r.Append([c])
    case Reading(Double, _, _) =>
      if c == '"' then r.In(Plain)
      else if c == '\\' then r.In(DoubleBackslash)
      else if c == '$' || c == '`' then Refused
      else r.Append([c])
    case Reading(DoubleBackslash, _, _) =>
      if c == '\n' then r.In(Double)
      else if c == '$' || c == '`' || c == '"' || c == '\\' then r.Append([c]).In(Double)
      else r.Append(['\\', c]).In(Double)
  }

  function Read(r: Reader, s: string): Reader
    decreases |s|
  {
    if s == "" then r else Read(Feed(r, s[0]), s[1..])
  }

  /** The words once the line has ended, provided no quote is left open. */
  function Finish(r: Reader): Option<seq<string>> {
    if r.Unquoted() then Some(r.Delimit().words) else None
  }

  /** The words of a whole command line: its command name and arguments; empty for an empty command. */
  function Words(line: string): Option<seq<string>> {
    Finish(Read(START, line))
  }

  lemma {:induction false} ReadConcat(r: Reader, a: string, b: string)
    ensures Read(r, a + b) == Read(Read(r, a), b)
    decreases |a|
  {
    if a == "" {
      assert a + b == b;
    } else {
      assert (a + b)[1..] == a[1..] + b;
      ReadConcat(Feed(r, a[0]), a[1..], b);
    }
  }

  lemma {:induction false} RefusedStays(s: string)
    ensures Read(Refused, s) == Refused
  {
    if s != "" { RefusedStays(s[1..]); }
  }

  // ---- text that stands for itself

  predicate Literal(c: char) {
    !Blank(c) && !Active(c) && !Quoting(c)
  }

  predicate AllLiteral(s: string) {
    forall c :: c in s ==> Literal(c)
  }

  /** A token that the shell reads as itself, unquoted. */
  predicate PlainWord(s: string) {
    s != "" && AllLiteral(s) && !ActiveFirst(s[0])
  }

  lemma {:induction false} LiteralReads(r: Reader, s: string)
    requires r.Unquoted() && AllLiteral(s)
    requires r.word.None? ==> PlainWord(s)
    ensures Read(r, s) == r.Append(s)
    decreases |s|
  {
    if s == "" {
      assert r.Current() + s == r.Current();
    } else {
      var next := Feed(r, s[0]);
      assert s[0] in s;
      assert next == r.Append([s[0]]);
      LiteralReads(next, s[1..]);
      assert r.Current() + [s[0]] + s[1..] == r.Current() + s;
    }
  }

  function TextLength(words: seq<string>): nat {
    if words == [] then 0 else |words[0]| + TextLength(words[1..])
  }

  lemma {:induction false} TextLengthConcat(a: seq<string>, b: seq<string>)
    ensures TextLength(a + b) == TextLength(a) + TextLength(b)
  {
    if a == [] {
      assert a + b == b;
    } else {
      assert (a + b)[1..] == a[1..] + b;
      TextLengthConcat(a[1..], b);
    }
  }

  /** The characters a reader has taken over into words, with the backslash a double-quoted one may still owe. */
  function Taken(r: Reader): nat
    requires r.Reading?
  {
    TextLength(r.words) + |r.Current()| + if r.mode == DoubleBackslash then 1 else 0
  }

  lemma FeedTakes(r: Reader, c: char)
    requires r.Reading? && Feed(r, c).Reading?
    ensures Taken(Feed(r, c)) <= Taken(r) + 1
    ensures r.mode == Plain && !Literal(c) ==> Taken(Feed(r, c)) <= Taken(r)
  {
    if r.word.Some? {
      TextLengthConcat(r.words, [r.word.value]);
    }
  }

  lemma {:induction false} ReadTakes(r: Reader, s: string)
    requires r.Reading? && Read(r, s).Reading?
    ensures Taken(Read(r, s)) <= Taken(r) + |s|
    ensures r.mode == Plain && !AllLiteral(s) ==> Taken(Read(r, s)) < Taken(r) + |s|
    decreases |s|
  {
    if s != "" {
      var next := Feed(r, s[0]);
      if next.Refused? {
        RefusedStays(s[1..]);
      } else {
        FeedTakes(r, s[0]);
        ReadTakes(next, s[1..]);
      }
    }
  }

  /** At the start of a token, text is read as one word spelled like itself exactly when it is a plain word. */
  lemma SpliceReads(r: Reader, s: string)
    requires r.Unquoted() && r.word.None?
    ensures Finish(Read(r, s)) == Some(r.words + [s]) <==> PlainWord(s)
  {
    if PlainWord(s) {
      LiteralReads(r, s);
      assert "" + s == s;
    } else if Finish(Read(r, s)) == Some(r.words + [s]) {
      var end := Read(r, s);
      TextLengthConcat(r.words, [s]);
      TextLengthConcat(end.words, [end.Current()]);
      ReadTakes(r, s);
      if AllLiteral(s) && s != "" {
        RefusedStays(s[1..]);
      }
    }
  }

  // ---- shellescape.Quote

  /** The characters the library leaves alone: `[\w@%+=:,./-]`. */
  predicate SafeChar(c: char) {
    || 'a' <= c <= 'z' || 'A' <= c <= 'Z' || '0' <= c <= '9' || c == '_' || c == '@' || c == '%' || c == '+'
    || c == '=' || c == ':' || c == ',' || c == '.' || c == '/' || c == '-'
  }

  predicate AllSafe(s: string) {
    forall c :: c in s ==> SafeChar(c)
  }

  /** Replaces every single quote by: close, a double-quoted single quote, reopen. */
  function EscapeSingle(s: string): string {
    if s == "" then ""
    else (if s[0] == '\'' then "'\"'\"'" else [s[0]]) + EscapeSingle(s[1..])
  }

  function Quote(s: string): string {
    if s == "" then "''"
    else if AllSafe(s) then s
    else "'" + EscapeSingle(s) + "'"
  }

  lemma SafeIsLiteral(s: string)
    requires AllSafe(s)
    ensures AllLiteral(s)
  {
  }

  lemma ReadOne(r: Reader, c: char)
    ensures Read(r, [c]) == Feed(r, c)
  {
    assert [c][1..] == "";
  }

  /** Inside single quotes, the escape leaves and re-enters the quotes and appends one quote character. */
  lemma EscapeOfQuoteReads(r: Reader)
    requires r.Reading? && r.mode == Single && r.word.Some?
    ensures Read(r, "'\"'\"'") == r.Append("'")
  {
    var s := "'\"'\"'";
    assert s == ((("'" + "\"") + "'") + "\"") + "'";
    ReadConcat(r, (("'" + "\"") + "'") + "\"", "'");
    ReadConcat(r, ("'" + "\"") + "'", "\"");
    ReadConcat(r, "'" + "\"", "'");
    ReadConcat(r, "'", "\"");
    ReadOne(r, '\'');
    var r1 := Feed(r, '\'');
    ReadOne(r1, '"');
    var r2 := Feed(r1, '"');
    ReadOne(r2, '\'');
    var r3 := Feed(r2, '\'');
    ReadOne(r3, '"');
    var r4 := Feed(r3, '"');
    ReadOne(r4, '\'');
    assert r.Current() + "" == r.Current();
    assert r.Current() + "" + "'" + "" == r.Current() + "'";
  }

  lemma {:induction false} EscapeSingleReads(r: Reader, s: string)
    requires r.Reading? && r.mode == Single && r.word.Some?
    ensures Read(r, EscapeSingle(s)) == r.Append(s)
    decreases |s|
  {
    if s == "" {
      assert r.Current() + s == r.Current();
    } else {
      var head := if s[0] == '\'' then "'\"'\"'" else [s[0]];
      ReadConcat(r, head, EscapeSingle(s[1..]));
      if s[0] == '\'' {
        EscapeOfQuoteReads(r);
      } else {
        ReadOne(r, s[0]);
      }
      var next := Read(r, head);
      assert next == r.Append([s[0]]);
      EscapeSingleReads(next, s[1..]);
      assert r.Current() + [s[0]] + s[1..] == r.Current() + s;
    }
  }

  /** The contract of `shellescape.Quote`: read unquoted, it appends exactly `s` to the token and ends unquoted. */
  lemma QuoteReads(r: Reader, s: string)
    requires r.Unquoted()
    ensures Read(r, Quote(s)) == r.Append(s)
  {
    if s == "" {
      ReadConcat(r, "'", "'");
      assert "''" == "'" + "'";
      ReadOne(r, '\'');
      ReadOne(r.Append("").In(Single), '\'');
    } else if AllSafe(s) {
      SafeIsLiteral(s);
      assert s[0] in s;
      LiteralReads(r, s);
    } else {
      var open := r.Append("").In(Single);
      ReadConcat(r, "'" + EscapeSingle(s), "'");
      ReadConcat(r, "'", EscapeSingle(s));
      ReadOne(r, '\'');
      assert Read(r, "'") == open;
      EscapeSingleReads(open, s);
      assert r.Current() + "" + s == r.Current() + s;
      ReadOne(open.Append(s), '\'');
    }
  }

  /** Two different texts are never quoted alike. */
  lemma QuoteInjective(a: string, b: string)
    ensures Quote(a) == Quote(b) <==> a == b
  {
    QuoteReads(START, a);
    QuoteReads(START, b);
    assert "" + a == a && "" + b == b;
  }
}
