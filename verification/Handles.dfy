/** The state of one task: the value that the locked sections transform, and the class whose methods hold the lock. */
module Handles {
  import opened Options
  import opened Host
  import opened Pot

  datatype ProcState = Running | Exited | Unknown

  /** The fields waiters, `run` and the API calls race on. `exitResult` is the exit code of the source's result
      record, absent while its pointer is nil; `exitCode` and `exitError` belong to the handle's copy of `syexec`. */
  datatype Handle = Handle(
    id: string, calledDestroy: bool, procState: ProcState, exitResult: Option<int>, exitCode: int, exitError: bool)

  /** A handle as `StartTask` registers it. */
  function Started(id: string, exitCode: int): Handle {
    Handle(id, false, Running, None, exitCode, false)
  }

  /** A handle as `RecoverTask` registers it. */
  function Recovered(id: string, exitCode: int): Handle {
    Handle(id, false, Running, Some(0), exitCode, false)
  }

  /** First locked section of `run`. */
  function Allocate(h: Handle): Handle {
    if h.exitResult.None? then h.(exitResult := Some(0)) else h
  }

  /** Second locked section of `run`. */
  function Publish(h: Handle): Handle
    requires h.exitResult.Some?
  {
    if h.exitError then h.(exitResult := Some(h.exitCode), procState := Unknown)
    else h.(procState := Running, exitResult := Some(h.exitCode))
  }

  /** The exit status with which `pot start` reports that the enclosed process failed. */
  const ENCLOSED_FAILED := 125

  /** The exit code `potWait` leaves, from the one it finds, the result of `Wait` and that of last-run-stats. */
  function CodeAfterWait(found: int, wait: Outcome, stats: Option<int>): int {
    match wait
    case Success => found
    case ExitError(status) =>
      if status == ENCLOSED_FAILED then stats.GetOr(DEFAULT_FAILED_CODE) else DEFAULT_FAILED_CODE
    case _ => DEFAULT_FAILED_CODE
  }

  /** Whether `potWait` asks for the statistics of the last run. */
  predicate AsksStats(wait: Outcome) {
    wait.ExitError? && wait.status == ENCLOSED_FAILED
  }

  /** The code is zero exactly when the pot exited cleanly (and `run` had stored zero), or when it reported a failed
      enclosed process whose last run, successfully asked for, had exited with zero. */
  lemma CleanExit(found: int, wait: Outcome, stats: Option<int>)
    requires found == 0
    ensures CodeAfterWait(found, wait, stats) == 0
       <==> wait.Success? || (wait == ExitError(125) && stats == Some(0))
    ensures !wait.Success? && !(wait == ExitError(125) && stats.Some?) ==> CodeAfterWait(found, wait, stats) == 255
  {
  }

  // ---- undisturbed calls

  /** What a waiter makes of the handle it has found: the handle, whether it asked for statistics, whether it tried to
      destroy the pot, and whether it crashed. */
  datatype Waited = Waited(handle: Handle, asks: bool, destroys: bool, crashed: bool)

  /** The end of either waiter: a destroy, if the flag is down. */
  function Destroying(v: Handle, asks: bool, launch: Outcome): Waited {
    Waited(v.(calledDestroy := true), asks, !v.calledDestroy, !v.calledDestroy && launch.NotStarted?)
  }

  /** `potWait` from the answer of `Wait` on; `asked` and `launch` answer the statistics command and the destroy. It
      crashes when it has no record to store a failure in, and over a command that cannot be started. */
  function AfterPotWait(v: Handle, wait: Outcome, asked: Outcome, parsed: Option<int>, launch: Outcome): (w: Waited)
    ensures w.asks <==> wait == ExitError(125) && v.exitResult.Some?
    ensures var torn := (!wait.Success? && v.exitResult.None?) || (w.asks && asked.NotStarted?);
      && (w.destroys <==> !torn && !v.calledDestroy)
      && (w.crashed <==> torn || (w.destroys && launch.NotStarted?))
    ensures w.handle == v.(procState := Exited, calledDestroy := v.calledDestroy || w.destroys, exitResult :=
        if v.exitResult.None? || wait.Success? then v.exitResult
        else if wait == ExitError(125) && asked.Success? && parsed.Some? then parsed else Some(255))
  {
    var exited := v.(procState := Exited);
    if !wait.Success? && v.exitResult.None? then Waited(exited, false, false, true)
    else if AsksStats(wait) && asked.NotStarted? then
      Waited(exited.(exitResult := Some(DEFAULT_FAILED_CODE)), true, false, true)
    else
      var stats := if AsksStats(wait) && asked.Success? then parsed else None;
      var result := if v.exitResult.None? then None else Some(CodeAfterWait(v.exitResult.value, wait, stats));
      Destroying(exited.(exitResult := result), AsksStats(wait), launch)
  }

  /** `recoverWait` once it has stopped polling. */
  function AfterRecoverWait(v: Handle, asked: Outcome, parsed: Option<int>, launch: Outcome): (w: Waited)
    ensures w.asks
    ensures var torn := v.exitResult.None? || asked.NotStarted?;
      && (w.destroys <==> !torn && !v.calledDestroy)
      && (w.crashed <==> torn || (w.destroys && launch.NotStarted?))
      && w.handle == v.(procState := Exited, calledDestroy := v.calledDestroy || w.destroys, exitResult :=
           if torn then v.exitResult else if asked.Success? && parsed.Some? then parsed else Some(255))
  {
    var exited := v.(procState := Exited);
    if asked.NotStarted? || v.exitResult.None? then Waited(exited, true, false, true)
    else
      var code := (if asked.Success? then parsed else None).GetOr(DEFAULT_FAILED_CODE);
      Destroying(exited.(exitResult := Some(code)), true, launch)
  }

  /** Whether a destroy call leaves the task alone. */
  predicate Refuses(v: Handle, force: bool) {
    v.procState == Running && !force
  }

  // ---- waiting for the result

  /** What a tick of `handleWait` sees: the state, under the lock, and the result record. */
  datatype Glimpse = Glimpse(state: ProcState, result: Option<int>)

  /** The results that `handleWait` has to send: one for every tick that finds the task exited. */
  function Due(glimpses: seq<Glimpse>): seq<Option<int>> {
    if glimpses == [] then []
    else
      var last := glimpses[|glimpses| - 1];
      Due(glimpses[..|glimpses| - 1]) + if last.state == Exited then [last.result] else []
  }

  lemma {:induction false} DueGrows(glimpses: seq<Glimpse>, i: nat)
    requires i <= |glimpses|
    ensures Due(glimpses[..i]) <= Due(glimpses)
    decreases |glimpses| - i
  {
    if i == |glimpses| {
      assert glimpses[..i] == glimpses;
    } else {
      DueGrows(glimpses, i + 1);
      assert glimpses[..i + 1][..i] == glimpses[..i];
    }
  }

  /** Ticks until the context is done, or until a send that nobody takes: the channel is not buffered, and the send does
      not watch the context, so that it blocks for good. `takes` is how many results the other end receives. */
  method HandleWait(glimpses: seq<Glimpse>, takes: nat) returns (sent: seq<Option<int>>, blocked: bool)
    ensures blocked <==> |Due(glimpses)| > takes
    ensures sent == if blocked then Due(glimpses)[..takes] else Due(glimpses)
  {
    sent := [];
    for i := 0 to |glimpses|
      invariant sent == Due(glimpses[..i]) && |sent| <= takes
    {
      assert glimpses[..i + 1][..i] == glimpses[..i];
      if glimpses[i].state == Exited {
        if |sent| == takes {
          DueGrows(glimpses, i);
          DueGrows(glimpses, i + 1);
          return sent, true;
        }
        sent := sent + [glimpses[i].result];
      }
    }
    assert glimpses[..|glimpses|] == glimpses;
    blocked := false;
  }

  /** On a handle that stays exited once it is, as in orderly runs: nothing is due before, and then a result at every
      tick, for `handleWait` does not stop at the first. So if the other end takes one result only, the second tick
      after the exit blocks. */
  lemma {:induction false} DeliversFromExitOn(glimpses: seq<Glimpse>, first: nat)
    requires first <= |glimpses|
    requires forall i :: 0 <= i < |glimpses| ==> (glimpses[i].state == Exited <==> first <= i)
    ensures |Due(glimpses)| == |glimpses| - first
    ensures forall i :: first <= i < |glimpses| ==> Due(glimpses)[i - first] == glimpses[i].result
  {
    if glimpses != [] {
      var n := |glimpses| - 1;
      DeliversFromExitOn(glimpses[..n], if first <= n then first else n);
    }
  }

  class TaskHandle {
    const id: string
    const calledDestroy: AtomicBool
    var procState: ProcState
    var exitResult: Option<int>
    var exitCode: int
    var exitError: bool

    constructor (value: Handle)
      requires !value.calledDestroy
      ensures Value() == value && fresh(calledDestroy)
    {
      id := value.id;
      calledDestroy := new AtomicBool();
      procState, exitResult := value.procState, value.exitResult;
      exitCode, exitError := value.exitCode, value.exitError;
    }

    function Value(): Handle
      reads this, calledDestroy
    {
      Handle(id, calledDestroy.value, procState, exitResult, exitCode, exitError)
    }

    method IsRunning() returns (r: bool)
      ensures r <==> Value().procState == Running
    {
      r := procState == Running;
    }

    method TaskStatus() returns (status: (ProcState, Option<int>))
      ensures status == (Value().procState, Value().exitResult)
    {
      status := (procState, exitResult);
    }

    method RunAllocate()
      modifies this`exitResult
      ensures Value() == Allocate(old(Value()))
      ensures exitResult == if old(exitResult).None? then Some(0) else old(exitResult)
    {
      if exitResult == None {
        exitResult := Some(0);
      }
    }

    method RunPublish()
      requires exitResult.Some?
      modifies this`exitResult, this`procState
      ensures Value() == Publish(old(Value()))
      ensures exitResult == Some(exitCode) && procState == if exitError then Unknown else Running
    {
      if exitError {
        exitResult := Some(exitCode);
        procState := Unknown;
        return;
      }
      procState := Running;
      exitResult := Some(exitCode);
    }

    /** The goroutine of a fresh start, undisturbed. */
    method Run()
      modifies this`exitResult, this`procState
      ensures Value() == Publish(Allocate(old(Value())))
      ensures !exitError ==> procState == Running && exitResult == Some(exitCode)
    {
      RunAllocate();
      RunPublish();
    }
  }
}
