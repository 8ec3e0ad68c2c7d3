/** The reversed signal table, and the argument vectors that name one pot and nothing else. */
module Signals {
  import opened Options
  import opened Naming
  import opened Config

  type Signal = int

  /** `n` sends every signal that `m` knows, and no other, to a name that `m` reads as that signal. */
  ghost predicate Reverses<K, V>(n: map<V, K>, m: map<K, V>) {
    && n.Keys == m.Values
    && forall v :: v in n ==> n[v] in m && m[n[v]] == v
  }

  /** Fills the reversed map in whatever order the loop visits the table; a later alias overwrites an earlier one. */
  method ReverseSignalMap(m: map<string, Signal>, order: seq<string>) returns (n: map<Signal, string>)
    requires IsOrder(order, m)
    ensures Reverses(n, m)
  {
    n := map[];
    for i := 0 to |order|
      invariant forall v :: v in n ==> n[v] in m && m[n[v]] == v
      invariant forall j :: 0 <= j < i ==> m[order[j]] in n
    {
      n := n[m[order[i]] := order[i]];
    }
    forall v | v in m.Values
      ensures v in n
    {
      var k :| k in m && m[k] == v;
      assert k in order;
    }
    forall v | v in n
      ensures v in m.Values
    {
      assert m[n[v]] == v;
    }
  }

  /** Reversing twice gives the table back exactly when it holds no aliases. */
  lemma ReverseTwice<K(!new), V(!new)>(m: map<K, V>, n: map<V, K>, back: map<K, V>)
    requires Reverses(n, m) && Reverses(back, n)
    ensures back == m <==> forall a, b :: a in m && b in m && m[a] == m[b] ==> a == b
  {
    if forall a, b :: a in m && b in m && m[a] == m[b] ==> a == b {
      forall k | k in m
        ensures k in back && back[k] == m[k]
      {
        assert m[k] in m.Values;
        assert n[m[k]] == k;
        assert k in n.Values;
        assert n[back[k]] == k;
      }
      forall k | k in back
        ensures k in m
      {
        assert k in n.Values;
      }
      assert back == m;
    }
    if back == m {
      forall a, b | a in m && b in m && m[a] == m[b]
        ensures a == b
      {
        assert n[back[a]] == a && n[back[b]] == b;
      }
    }
  }

  /** Fails exactly on a signal that no name of the table denotes; otherwise the name it prints denotes the signal. */
  method PrepareSignal(table: map<string, Signal>, lookup: map<Signal, string>, id: string, sig: Signal)
    returns (argv: Option<seq<string>>)
    requires HasParts(id) && Reverses(lookup, table)
    ensures argv.None? <==> forall name :: name in table ==> table[name] != sig
    ensures argv.Some? ==>
      exists name :: name in table && table[name] == sig && argv.value == ["signal", "-s", name, "-p", PotName(id)]
  {
    var args := ["signal"];
    args := args + ["-s"];
    if sig in lookup {
      args := args + [lookup[sig]];
    } else {
      assert forall name :: name in table ==> table[name] in table.Values;
      return None;
    }
    args := args + ["-p"];
    args := args + [PotName(id)];
    assert table[lookup[sig]] == sig;
    assert args == ["signal", "-s", lookup[sig], "-p", PotName(id)];
    return Some(args);
  }

  /** Refuses the empty command; otherwise runs exactly the given words in the pot of the task. */
  method PrepareExec(id: string, cmd: seq<string>) returns (argv: Option<seq<string>>)
    requires HasParts(id)
    ensures argv.None? <==> cmd == []
    ensures argv.Some? ==> |argv.value| == 3 + |cmd| && argv.value[..3] == ["exec", "-p", PotName(id)]
    ensures argv.Some? ==> argv.value[3..] == cmd
  {
    var args := ["exec"];
    if cmd == [] {
      return None;
    }
    args := args + ["-p"];
    args := args + [PotName(id)];
    args := args + cmd;
    return Some(args);
  }
}
