/** Ordered steps that stop at the first one that fails: what `createContainer` does with its plan. */
module Steps {
  import opened Host
  import opened Config
  import opened Plan

  /** A strict step fails on every error; a tolerant one logs errors that carry no exit status and goes on. */
  datatype Step = Step(command: Command, strict: bool)

  predicate Passes(s: Step, o: Outcome) {
    o.Success? || (!s.strict && (o.OtherError? || o.NotStarted?))
  }

  function Tolerant(lines: seq<string>): seq<Step> {
    seq(|lines|, i requires 0 <= i < |lines| => Step(Sh(lines[i]), false))
  }

  function Strict(lines: seq<string>): seq<Step> {
    seq(|lines|, i requires 0 <= i < |lines| => Step(Sh(lines[i]), true))
  }

  /** Create, attributes, copies, mounts, read-only mounts, environment, hosts, memory. */
  function CreatePlan(c: Commands): seq<Step> {
    [Step(Exec([POT_BIN] + c.create), true)] + Tolerant(LoopLines(c)) + Strict(LastLines(c))
  }

  function Issued(steps: seq<Step>): (cs: seq<Command>)
    ensures |cs| == |steps| && forall i :: 0 <= i < |steps| ==> cs[i] == steps[i].command
  {
    seq(|steps|, i requires 0 <= i < |steps| => steps[i].command)
  }

  /** The log afterwards, and whether every step passed. */
  function Execute(answers: Answers, log: seq<Command>, steps: seq<Step>): (seq<Command>, bool)
    decreases |steps|
  {
    if steps == [] then (log, true)
    else
      var next := log + [steps[0].command];
      if Passes(steps[0], answers(next)) then Execute(answers, next, steps[1..]) else (next, false)
  }

  lemma {:induction false} ExecuteConcat(answers: Answers, log: seq<Command>, a: seq<Step>, b: seq<Step>)
    ensures var (mid, ok) := Execute(answers, log, a);
            Execute(answers, log, a + b) == if ok then Execute(answers, mid, b) else (mid, false)
    decreases |a|
  {
    if a == [] {
      assert a + b == b;
    } else {
      assert (a + b)[1..] == a[1..] + b;
      ExecuteConcat(answers, log + [a[0].command], a[1..], b);
    }
  }

  /** How far a run of the steps got: the first `n` were attempted, each once and in order. */
  predicate Attempted(answers: Answers, log: seq<Command>, steps: seq<Step>, n: nat, after: seq<Command>, ok: bool) {
    && n <= |steps|
    && after == log + Issued(steps)[..n]
    && (forall i :: 0 <= i < n - 1 ==> Passes(steps[i], answers(log + Issued(steps)[..i + 1])))
    && (n == |steps| || (n > 0 && !ok))
    && (n > 0 ==> ok == Passes(steps[n - 1], answers(log + Issued(steps)[..n])))
  }

  /** Execution attempts a prefix of the steps, each at most once and in order, and stops at the first failure. */
  lemma {:induction false} ExecutePrefix(answers: Answers, log: seq<Command>, steps: seq<Step>) returns (n: nat)
    ensures Attempted(answers, log, steps, n, Execute(answers, log, steps).0, Execute(answers, log, steps).1)
    decreases |steps|
  {
    hide Passes;
    if steps == [] {
      n := 0;
      assert log + Issued(steps)[..0] == log;
    } else {
      var next := log + [steps[0].command];
      var all := Issued(steps);
      assert next == log + all[..1];
      if Passes(steps[0], answers(next)) {
        var m := ExecutePrefix(answers, next, steps[1..]);
        var rest := Issued(steps[1..]);
        n := m + 1;
        assert forall i :: 0 <= i <= m ==> all[..i + 1] == [steps[0].command] + rest[..i];
        forall i | 0 <= i <= m
          ensures next + rest[..i] == log + all[..i + 1]
        {
          assert next + rest[..i] == log + ([steps[0].command] + rest[..i]);
        }
        forall i | 0 <= i < n - 1
          ensures Passes(steps[i], answers(log + all[..i + 1]))
        {
          if i > 0 {
            assert Passes(steps[1..][i - 1], answers(next + rest[..i]));
          }
        }
        if m > 0 {
          assert steps[1..][m - 1] == steps[m];
        }
      } else {
        n := 1;
      }
    }
  }

  /** The plan succeeds exactly when every step passes; then every step was attempted. */
  lemma PlanSucceedsIff(answers: Answers, log: seq<Command>, steps: seq<Step>)
    ensures Execute(answers, log, steps).1
       <==> forall i :: 0 <= i < |steps| ==> Passes(steps[i], answers(log + Issued(steps)[..i + 1]))
    ensures Execute(answers, log, steps).1 ==> Execute(answers, log, steps).0 == log + Issued(steps)
  {
    var n := ExecutePrefix(answers, log, steps);
    var all := Issued(steps);
    assert all[..|steps|] == all;
    var ok := Execute(answers, log, steps).1;
    if ok {
      forall i | 0 <= i < |steps|
        ensures Passes(steps[i], answers(log + all[..i + 1]))
      {
      }
    } else {
      assert n > 0 && !Passes(steps[n - 1], answers(log + all[..n - 1 + 1]));
    }
  }

  /** The commands of a create plan, one by one. */
  lemma CreateIssues(c: Commands)
    ensures var cs := Issued(CreatePlan(c));
      && |cs| == |LoopLines(c)| + 4
      && cs[0] == Exec([POT_BIN] + c.create)
      && (forall k :: 0 <= k < |LoopLines(c)| ==> cs[k + 1] == Sh(LoopLines(c)[k]))
      && cs[|cs| - 3..] == [Sh(c.env), Sh(c.hosts), Sh(c.memory)]
  {
    hide LoopLines;
  }

  /** A create plan succeeds exactly when the creation and the last three lines succeed and no line of the loops ends
      with an exit status other than zero: a loop passes over an error that has none. */
  lemma CreateSucceedsIff(answers: Answers, log: seq<Command>, c: Commands)
    ensures var cs := Issued(CreatePlan(c));
      && |cs| >= 4
      && (Execute(answers, log, CreatePlan(c)).1 <==>
            && answers(log + cs[..1]).Success?
            && (forall k :: 1 < k <= |cs| - 3 ==> !answers(log + cs[..k]).ExitError?)
            && (forall k :: |cs| - 3 < k <= |cs| ==> answers(log + cs[..k]).Success?))
  {
    hide LoopLines, Execute, Issued;
    var steps := CreatePlan(c);
    var cs := Issued(steps);
    PlanSucceedsIff(answers, log, steps);
    assert forall i :: 0 <= i < |steps| ==> (steps[i].strict <==> i == 0 || |steps| - 3 <= i);
    var ok := Execute(answers, log, steps).1;
    if ok {
      forall k | 0 < k <= |cs|
        ensures Passes(steps[k - 1], answers(log + cs[..k]))
      {
        assert Passes(steps[k - 1], answers(log + cs[..k - 1 + 1]));
      }
    } else {
      var i :| 0 <= i < |steps| && !Passes(steps[i], answers(log + cs[..i + 1]));
      var k := i + 1;
      assert !answers(log + cs[..k]).Success?;
    }
  }

  /** No step of the plan destroys a pot. */
  lemma PlanDestroysNothing(c: Commands, n: nat)
    requires n <= |CreatePlan(c)| && |c.create| >= 1 && c.create[0] != "destroy"
    ensures Destroys(Issued(CreatePlan(c))[..n]) == 0
  {
    hide Destroys, LoopLines, LastLines;
    var all := Issued(CreatePlan(c));
    assert ([POT_BIN] + c.create)[1] == c.create[0];
    forall x | x in all[..n]
      ensures !IsDestroy(x)
    {
      var i :| 0 <= i < n && all[i] == x;
      assert i > 0 ==> CreatePlan(c)[i].command.Sh?;
    }
    NoDestroys(all[..n]);
  }
}
