/** The machine the driver runs commands on: it answers every command as it likes, and remembers them all. */
module Host {

  /** A program with an argument vector, or a line handed to `sh -c`. */
  datatype Command = Exec(argv: seq<string>) | Sh(line: string)

  /** `exec.ExitError` stands for an unsuccessful exit, so its status is never zero; a signal shows as -1. */
  type FailedStatus = n: int | n != 0 witness 1

  /** How a command went. `NotStarted` leaves no process behind, and the source dereferences the process of some
      commands without looking at the error first. */
  datatype Outcome = Success | ExitError(status: FailedStatus) | OtherError | NotStarted

  const DEFAULT_FAILED_CODE := 255

  /** What the driver stores in `exitCode` after a command. */
  function CodeOf(o: Outcome): int {
    match o
    case Success => 0
    case ExitError(status) => status
    case _ => DEFAULT_FAILED_CODE
  }

  /** An answer may depend on everything run before. */
  type Answers = seq<Command> -> Outcome

  class Machine {
    const answers: Answers
    const pids: seq<Command> -> int
    var log: seq<Command>

    constructor (answers: Answers, pids: seq<Command> -> int)
      ensures log == [] && this.answers == answers && this.pids == pids
    {
      this.answers := answers;
      this.pids := pids;
      log := [];
    }

    method Run(c: Command) returns (o: Outcome)
      modifies this
      ensures log == old(log) + [c] && o == answers(log)
    {
      log := log + [c];
      o := answers(log);
    }

    /** A command that prints a number; zero stands for every way of getting none. */
    method Query(c: Command) returns (n: int)
      modifies this
      ensures log == old(log) + [c] && n == pids(log)
    {
      log := log + [c];
      n := pids(log);
    }
  }

  predicate IsDestroy(c: Command) {
    c.Exec? && |c.argv| >= 2 && c.argv[1] == "destroy"
  }

  function Destroys(log: seq<Command>): nat {
    if log == [] then 0
    else Destroys(log[..|log| - 1]) + if IsDestroy(log[|log| - 1]) then 1 else 0
  }

  lemma {:induction false} DestroysConcat(a: seq<Command>, b: seq<Command>)
    ensures Destroys(a + b) == Destroys(a) + Destroys(b)
    decreases |b|
  {
    if b == [] {
      assert a + b == a;
    } else {
      var n := |b| - 1;
      assert (a + b)[..|a + b| - 1] == a + b[..n];
      DestroysConcat(a, b[..n]);
    }
  }

  lemma {:induction false} NoDestroys(log: seq<Command>)
    requires forall c :: c in log ==> !IsDestroy(c)
    ensures Destroys(log) == 0
  {
    if log != [] {
      assert log[|log| - 1] in log && forall c :: c in log[..|log| - 1] ==> c in log;
      NoDestroys(log[..|log| - 1]);
    }
  }
}
