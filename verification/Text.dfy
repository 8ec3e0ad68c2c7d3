/** Go's `strings.Split`, `strings.SplitN(_, _, 2)` and `+`-joining, for one-character separators. */
module Text {

  predicate Free(s: string, sep: char) {
    sep !in s
  }

  lemma FreeConcat(a: string, b: string, sep: char)
    ensures Free(a + b, sep) <==> Free(a, sep) && Free(b, sep)
  {
    assert forall c :: c in a + b <==> c in a || c in b;
  }

  /** `strings.Split(s, sep)`: never empty, one part more than there are separators. */
  function Split(s: string, sep: char): (parts: seq<string>)
    ensures |parts| >= 1
    ensures forall i :: 0 <= i < |parts| ==> Free(parts[i], sep)
  {
    if s == "" then [""]
    else
      var rest := Split(s[1..], sep);
      if s[0] == sep then [""] + rest
      else
        FreeConcat([s[0]], rest[0], sep);
        [[s[0]] + rest[0]] + rest[1..]
  }

  function Join(parts: seq<string>, sep: char): string
    requires |parts| >= 1
  {
    if |parts| == 1 then parts[0] else parts[0] + [sep] + Join(parts[1..], sep)
  }

  /** Splitting loses nothing. */
  lemma {:induction false} JoinSplit(s: string, sep: char)
    ensures Join(Split(s, sep), sep) == s
  {
    if s != "" {
      JoinSplit(s[1..], sep);
      var rest := Split(s[1..], sep);
      if s[0] == sep {
        assert ([""] + rest)[1..] == rest;
      } else {
        assert ([[s[0]] + rest[0]] + rest[1..])[1..] == rest[1..];
      }
    }
  }

  lemma {:induction false} SplitFree(s: string, sep: char)
    requires Free(s, sep)
    ensures Split(s, sep) == [s]
  {
    if s != "" {
      assert s == [s[0]] + s[1..];
      FreeConcat([s[0]], s[1..], sep);
      SplitFree(s[1..], sep);
      assert s[0] in s;
    }
  }

  lemma {:induction false} SplitHead(head: string, tail: string, sep: char)
    requires Free(head, sep)
    ensures Split(head + [sep] + tail, sep) == [head] + Split(tail, sep)
  {
    var s := head + [sep] + tail;
    if head == "" {
      assert s[1..] == tail;
    } else {
      assert head == [head[0]] + head[1..];
      FreeConcat([head[0]], head[1..], sep);
      assert s[1..] == head[1..] + [sep] + tail;
      SplitHead(head[1..], tail, sep);
      assert s[0] in head;
    }
  }

  /** Joined parts split back into themselves exactly when no part holds the separator. */
  lemma {:induction false} SplitJoin(parts: seq<string>, sep: char)
    requires |parts| >= 1
    ensures Split(Join(parts, sep), sep) == parts <==> forall p :: p in parts ==> Free(p, sep)
  {
    if forall p :: p in parts ==> Free(p, sep) {
      SplitJoinFree(parts, sep);
    }
  }

  lemma {:induction false} SplitJoinFree(parts: seq<string>, sep: char)
    requires |parts| >= 1
    requires forall p :: p in parts ==> Free(p, sep)
    ensures Split(Join(parts, sep), sep) == parts
  {
    if |parts| == 1 {
      SplitFree(parts[0], sep);
    } else {
      SplitJoinFree(parts[1..], sep);
      SplitHead(parts[0], Join(parts[1..], sep), sep);
    }
  }

  /** The text before the first separator and the text after it, as `strings.SplitN(s, sep, 2)` gives them. */
  function CutFirst(s: string, sep: char): (r: (string, string))
    requires !Free(s, sep)
    ensures s == r.0 + [sep] + r.1 && Free(r.0, sep)
  {
    if s[0] == sep then ("", s[1..])
    else
      var (a, b) := CutFirst(s[1..], sep);
      ([s[0]] + a, b)
  }

  /** The text before the last separator and the text after it. */
  function CutLast(s: string, sep: char): (r: (string, string))
    requires !Free(s, sep)
    ensures s == r.0 + [sep] + r.1 && Free(r.1, sep)
    decreases |s|
  {
    var n := |s| - 1;
    if s[n] == sep then (s[..n], "")
    else
      var (a, b) := CutLast(s[..n], sep);
      (a, b + [s[n]])
  }

  /** Only one cut of a text leaves no separator behind it. */
  lemma {:induction false} CutLastUnique(a: string, b: string, sep: char)
    requires Free(b, sep)
    ensures CutLast(a + [sep] + b, sep) == (a, b)
    decreases |b|
  {
    var s := a + [sep] + b;
    var n := |s| - 1;
    assert s[|a|] == sep;
    if b == "" {
      assert s[..n] == a;
    } else {
      var m := |b| - 1;
      assert b == b[..m] + [b[m]];
      FreeConcat(b[..m], [b[m]], sep);
      assert s[..n] == a + [sep] + b[..m];
      assert s[n] in b;
      CutLastUnique(a, b[..m], sep);
    }
  }

  /** Only one cut of a text leaves no separator before it. */
  lemma {:induction false} CutFirstUnique(a: string, b: string, sep: char)
    requires Free(a, sep)
    ensures CutFirst(a + [sep] + b, sep) == (a, b)
  {
    var s := a + [sep] + b;
    assert s[|a|] == sep;
    if a == "" {
      assert s[1..] == b;
    } else {
      assert a == [a[0]] + a[1..];
      FreeConcat([a[0]], a[1..], sep);
      assert s[1..] == a[1..] + [sep] + b;
      assert s[0] in a;
      CutFirstUnique(a[1..], b, sep);
    }
  }
}
