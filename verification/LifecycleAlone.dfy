/**
 The step system and the class methods tell the same story: the steps of one waiter or one call, if nobody else comes in
 between, do what the method does in one go.
 */
module LifecycleAlone {
  import opened Options
  import opened Naming
  import opened Host
  import opened Handles
  import opened Lifecycle
  import opened LifecycleSound
  import opened LifecycleOwn
  import opened LifecycleRuns
  import opened LifecycleRaces

  /** Nothing but the life `h`, the log and the crash may be different. */
  predicate Only(t: State, next: State, h: nat) {
    && h < |t.lives| && |next.lives| == |t.lives| && next.lives[h].id == t.lives[h].id
    && (forall k :: 0 <= k < |t.lives| && k != h ==> next.lives[k] == t.lives[k])
    && next.store == t.store && next.starters == t.starters && next.callers == t.callers
  }

  lemma OnlySame(t: State, next: State, h: nat)
    requires Only(t, next, h)
    ensures h < |t.lives| == |next.lives| && next.lives[h].id == t.lives[h].id
  {
  }

  lemma OnlyBoth(t: State, mid: State, next: State, h: nat)
    requires Only(t, mid, h) && Only(mid, next, h)
    ensures Only(t, next, h)
  {
  }

  /** The entry of a command on behalf of the handle, if it was launched. */
  function Logged(t: State, h: nat, verb: Verb, launched: bool): seq<Entry>
    requires h < |t.lives|
  {
    if launched then [Entry(verb, PotName(t.lives[h].id), OfHandle(h))] else []
  }

  /** A step of a waiter on its own handle. */
  lemma WaiterGoes(s: State, before: seq<Label>, t: State, h: nat, wait: Outcome, stats: Option<int>)
    returns (labels: seq<Label>, next: State)
    requires Runs(s, before, t) && !t.crashed && h < |t.lives| && t.lives[h].waiter.Fetched()
    requires t.lives[h].waiter.target == h && WaiterAct(h, t.lives[h], t.lives[h], wait, stats).Acting?
    ensures Runs(s, labels, next) && !next.crashed && Only(t, next, h)
    ensures var a := WaiterAct(h, t.lives[h], t.lives[h], wait, stats);
      && next.lives[h] == Left(t.lives[h], a)
      && next.log == if a.verb.None? then t.log else t.log + Logged(t, h, a.verb.value, true)
  {
    hide PotName, HasParts, Sound, After, Runs, WaiterAct, Perform;
    var a, l := WaiterAct(h, t.lives[h], t.lives[h], wait, stats), WaiterStep(h, wait, stats, false);
    RunsSound(s, before, t);
    LifeSound(t, h);
    PerformOnOwn(t, h, a);
    labels := RunsMore(s, before, t, l);
    next := Next(t, l).value;
  }

  lemma CrashGoes(s: State, before: seq<Label>, t: State, l: Label) returns (labels: seq<Label>)
    requires Runs(s, before, t) && Sound(t) && Next(t, l) == Some(t.Crash()) && !l.CallDestroy?
    ensures Runs(s, labels, t.Crash())
  {
    hide Sound, Next, Runs;
    labels := RunsMore(s, before, t, l);
  }

  /** The end of either waiter. */
  lemma ClaimsAlone(s: State, before: seq<Label>, t: State, h: nat, launch: Outcome)
    returns (labels: seq<Label>, next: State)
    requires Runs(s, before, t) && !t.crashed && h < |t.lives| && t.lives[h].waiter == Claiming(h)
    ensures Runs(s, labels, next) && Only(t, next, h)
    ensures var w := Destroying(t.lives[h].handle, true, launch);
      && next.lives[h].handle == w.handle && next.crashed == w.crashed
      && (!w.crashed ==> next.lives[h].waiter == Finished(h))
      && next.log == t.log + Logged(t, h, Destroy, w.destroys && !launch.NotStarted?)
  {
    hide PotName, HasParts, Sound, After, Runs;
    labels, next := WaiterGoes(s, before, t, h, Success, None);
    if !t.lives[h].handle.calledDestroy {
      if launch.NotStarted? {
        RunsSound(s, labels, next);
        labels := CrashGoes(s, labels, next, CannotStart(WaiterOf(h)));
        next := next.Crash();
      } else {
        labels, next := WaiterGoes(s, labels, next, h, Success, None);
      }
    }
  }

  /** From the question for statistics to the claim, or to a crash. */
  lemma StatsAlone(s: State, before: seq<Label>, t: State, h: nat, asked: Outcome, parsed: Option<int>)
    returns (labels: seq<Label>, next: State)
    requires Runs(s, before, t) && !t.crashed && h < |t.lives| && t.lives[h].waiter == PotAsking(h)
    requires t.lives[h].handle.exitResult.Some?
    ensures Runs(s, labels, next) && Only(t, next, h) && (next.crashed <==> asked.NotStarted?)
    ensures var v := t.lives[h].handle;
      var stats := if asked.Success? then parsed else None;
      && next.lives[h].handle == v.(exitResult := if stats.Some? then stats else v.exitResult)
      && next.log == t.log + Logged(t, h, LastRunStats, !asked.NotStarted?)
      && (!next.crashed ==> next.lives[h].waiter == Claiming(h))
  {
    hide PotName, HasParts, Sound, After, Runs;
    if asked.NotStarted? {
      RunsSound(s, before, t);
      labels := CrashGoes(s, before, t, CannotStart(WaiterOf(h)));
      next := t.Crash();
    } else {
      var stats := if asked.Success? then parsed else None;
      labels, next := WaiterGoes(s, before, t, h, Success, stats);
      if stats.Some? { labels, next := WaiterGoes(s, labels, next, h, Success, None); }
    }
  }

  /** From the failure of `Wait` to the claim, or to a crash. */
  lemma FailsAlone(s: State, before: seq<Label>, t: State, h: nat, wait: Outcome, asked: Outcome, parsed: Option<int>)
    returns (labels: seq<Label>, next: State)
    requires Runs(s, before, t) && !t.crashed && h < |t.lives| && t.lives[h].waiter == PotFailing(h, wait)
    requires !wait.Success?
    ensures Runs(s, labels, next) && Only(t, next, h)
    ensures var v, asks := t.lives[h].handle, wait == ExitError(125);
      if v.exitResult.None? then next.crashed && next.lives[h].handle == v && next.log == t.log
      else if asks && asked.NotStarted? then
        next.crashed && next.lives[h].handle == v.(exitResult := Some(255)) && next.log == t.log
      else
        && !next.crashed && next.lives[h].waiter == Claiming(h)
        && next.lives[h].handle
           == v.(exitResult := if asks && asked.Success? && parsed.Some? then parsed else Some(255))
        && next.log == t.log + Logged(t, h, LastRunStats, asks)
  {
    hide PotName, HasParts, Sound, After, Runs;
    RunsSound(s, before, t);
    LifeSound(t, h);
    if t.lives[h].handle.exitResult.None? {
      labels := CrashGoes(s, before, t, WaiterStep(h, Success, None, false));
      next := t.Crash();
    } else {
      labels, next := WaiterGoes(s, before, t, h, Success, None);
      if AsksStats(wait) { labels, next := StatsAlone(s, labels, next, h, asked, parsed); }
    }
  }

  lemma ExitsAlone(s: State, before: seq<Label>, t: State, h: nat, wait: Outcome)
    returns (labels: seq<Label>, next: State)
    requires Runs(s, before, t) && !t.crashed && h < |t.lives| && t.lives[h].waiter == PotWaiting(h)
    ensures Runs(s, labels, next) && !next.crashed && Only(t, next, h) && next.log == t.log
    ensures next.lives[h].handle == t.lives[h].handle.(procState := Exited)
    ensures next.lives[h].waiter == if wait.Success? then Claiming(h) else PotFailing(h, wait)
  {
    hide PotName, HasParts, Sound, After, Runs;
    labels, next := WaiterGoes(s, before, t, h, wait, None);
    labels, next := WaiterGoes(s, labels, next, h, wait, None);
  }

  /** What an undisturbed waiter has made of its handle, the log and the plugin; a command that cannot be started is not
      in the log of the step system. */
  predicate Made(t: State, next: State, h: nat, w: Waited, asked: Outcome, launch: Outcome) {
    && Only(t, next, h)
    && next.lives[h].handle == w.handle && next.crashed == w.crashed
    && (!w.crashed ==> next.lives[h].waiter == Finished(h))
    && next.log == t.log + Logged(t, h, LastRunStats, w.asks && !asked.NotStarted?)
         + Logged(t, h, Destroy, w.destroys && !launch.NotStarted?)
  }

  lemma SuccessAlone(s: State, before: seq<Label>, t: State, h: nat, asked: Outcome, parsed: Option<int>,
                     launch: Outcome) returns (labels: seq<Label>, next: State)
    requires Runs(s, before, t) && !t.crashed && h < |t.lives| && t.lives[h].waiter == PotWaiting(h)
    ensures Runs(s, labels, next)
    ensures Made(t, next, h, AfterPotWait(t.lives[h].handle, Success, asked, parsed, launch), asked, launch)
  {
    hide PotName, HasParts, Sound, After, Runs, WaiterAct;
    labels, next := ExitsAlone(s, before, t, h, Success);
    labels, next := ClaimsAlone(s, labels, next, h, launch);
  }

  lemma FailureStages(v: Handle, wait: Outcome, asked: Outcome, parsed: Option<int>, launch: Outcome)
    requires !wait.Success?
    ensures var exited, asks := v.(procState := Exited), wait == ExitError(125);
      AfterPotWait(v, wait, asked, parsed, launch) ==
      if v.exitResult.None? then Waited(exited, false, false, true)
      else if asks && asked.NotStarted? then Waited(exited.(exitResult := Some(255)), true, false, true)
      else
        var stored := exited.(exitResult := if asks && asked.Success? && parsed.Some? then parsed else Some(255));
        Destroying(stored, asks, launch)
  {
  }

  lemma FailureAlone(s: State, before: seq<Label>, t: State, h: nat, wait: Outcome, asked: Outcome, parsed: Option<int>,
                     launch: Outcome) returns (labels: seq<Label>, next: State)
    requires Runs(s, before, t) && !t.crashed && h < |t.lives| && t.lives[h].waiter == PotWaiting(h) && !wait.Success?
    ensures Runs(s, labels, next)
    ensures Made(t, next, h, AfterPotWait(t.lives[h].handle, wait, asked, parsed, launch), asked, launch)
  {
    hide PotName, HasParts, Sound, After, Runs, WaiterAct, CodeAfterWait, AsksStats, Only, AfterPotWait;
    FailureStages(t.lives[h].handle, wait, asked, parsed, launch);
    labels, next := ExitsAlone(s, before, t, h, wait);
    var exited := next;
    OnlySame(t, exited, h);
    labels, next := FailsAlone(s, labels, exited, h, wait, asked, parsed);
    OnlyBoth(t, exited, next, h);
    OnlySame(t, next, h);
    if !next.crashed {
      var failed := next;
      labels, next := ClaimsAlone(s, labels, failed, h, launch);
      OnlyBoth(t, failed, next, h);
    }
  }

  /** The steps of an undisturbed `potWait`, once it has found its handle, do what the method does. */
  lemma PotWaitAlone(s: State, before: seq<Label>, t: State, h: nat, wait: Outcome, asked: Outcome, parsed: Option<int>,
                     launch: Outcome) returns (labels: seq<Label>, next: State)
    requires Runs(s, before, t) && !t.crashed && h < |t.lives| && t.lives[h].waiter == PotWaiting(h)
    ensures Runs(s, labels, next)
    ensures Made(t, next, h, AfterPotWait(t.lives[h].handle, wait, asked, parsed, launch), asked, launch)
  {
    hide Runs, Made, AfterPotWait;
    if wait.Success? {
      labels, next := SuccessAlone(s, before, t, h, asked, parsed, launch);
    } else {
      labels, next := FailureAlone(s, before, t, h, wait, asked, parsed, launch);
    }
  }

  lemma AsksAlone(s: State, before: seq<Label>, t: State, h: nat, asked: Outcome, parsed: Option<int>)
    returns (labels: seq<Label>, next: State)
    requires Runs(s, before, t) && !t.crashed && h < |t.lives| && t.lives[h].waiter == RecExiting(h)
    ensures Runs(s, labels, next) && Only(t, next, h)
    ensures next.lives[h].handle == t.lives[h].handle.(procState := Exited)
    ensures next.crashed <==> asked.NotStarted?
    ensures next.log == t.log + Logged(t, h, LastRunStats, !asked.NotStarted?)
    ensures !next.crashed ==>
      next.lives[h].waiter == RecStoring(h, (if asked.Success? then parsed else None).GetOr(DEFAULT_FAILED_CODE))
  {
    hide PotName, HasParts, Sound, After, Runs;
    labels, next := WaiterGoes(s, before, t, h, Success, None);
    if asked.NotStarted? {
      RunsSound(s, labels, next);
      labels := CrashGoes(s, labels, next, CannotStart(WaiterOf(h)));
      next := next.Crash();
    } else {
      labels, next := WaiterGoes(s, labels, next, h, Success, if asked.Success? then parsed else None);
    }
  }

  lemma StoresAlone(s: State, before: seq<Label>, t: State, h: nat) returns (labels: seq<Label>, next: State)
    requires Runs(s, before, t) && !t.crashed && h < |t.lives|
    requires t.lives[h].waiter.RecStoring? && t.lives[h].waiter.target == h
    ensures Runs(s, labels, next) && Only(t, next, h) && next.log == t.log
    ensures var v, code := t.lives[h].handle, t.lives[h].waiter.code;
      if v.exitResult.None? then next.crashed && next.lives[h].handle == v
      else
        !next.crashed && next.lives[h].waiter == Claiming(h) && next.lives[h].handle == v.(exitResult := Some(code))
  {
    hide PotName, HasParts, Sound, After, Runs;
    if t.lives[h].handle.exitResult.None? {
      RunsSound(s, before, t);
      LifeSound(t, h);
      labels := CrashGoes(s, before, t, WaiterStep(h, Success, None, false));
      next := t.Crash();
    } else {
      labels, next := WaiterGoes(s, before, t, h, Success, None);
    }
  }

  /** So do those of an undisturbed `recoverWait`, once it has found its handle. */
  lemma RecoverWaitAlone(s: State, before: seq<Label>, t: State, h: nat, asked: Outcome, parsed: Option<int>,
                         launch: Outcome) returns (labels: seq<Label>, next: State)
    requires Runs(s, before, t) && !t.crashed && h < |t.lives| && t.lives[h].waiter == RecExiting(h)
    ensures Runs(s, labels, next)
    ensures Made(t, next, h, AfterRecoverWait(t.lives[h].handle, asked, parsed, launch), asked, launch)
  {
    hide PotName, HasParts, Sound, After, Runs, WaiterAct;
    labels, next := AsksAlone(s, before, t, h, asked, parsed);
    if !next.crashed { labels, next := StoresAlone(s, labels, next, h); }
    if !next.crashed { labels, next := ClaimsAlone(s, labels, next, h, launch); }
  }

  /** The steps of an undisturbed stop do what the method does. */
  lemma StopAlone(s: State, before: seq<Label>, t: State, n: nat, id: TaskId, launch: Outcome)
    returns (labels: seq<Label>, next: State)
    requires Runs(s, before, t) && !t.crashed && n !in t.callers && id in t.store && t.store[id] < |t.lives|
    ensures Runs(s, labels, next)
    ensures var h := t.store[id]; var w := Destroying(t.lives[h].handle, false, launch);
      && |next.lives| == |t.lives| && next.store == t.store
      && next.lives[h].handle == w.handle && next.crashed == w.crashed
      && next.log == t.log + Logged(t, h, Destroy, w.destroys && !launch.NotStarted?)
  {
    hide PotName, HasParts, Sound, After, Runs;
    var h := t.store[id];
    RunsSound(s, before, t);
    labels := RunsMore(s, before, t, CallStop(n, id));
    next := Next(t, CallStop(n, id)).value;
    labels, next := StopStep(s, labels, next, n, 0);
    if !t.lives[h].handle.calledDestroy {
      if launch.NotStarted? {
        RunsSound(s, labels, next);
        labels := CrashGoes(s, labels, next, CannotStart(CallerNo(n)));
        next := next.Crash();
      } else {
        labels, next := StopStep(s, labels, next, n, 0);
      }
    }
  }

  lemma StopStep(s: State, before: seq<Label>, t: State, n: nat, code: int) returns (labels: seq<Label>, next: State)
    requires Runs(s, before, t) && !t.crashed && n in t.callers && t.callers[n].h < |t.lives|
    ensures Runs(s, labels, next) && next == CallerNext(t, n, code)
  {
    hide PotName, HasParts, Sound, After, Runs, CallerNext;
    RunsSound(s, before, t);
    labels := RunsMore(s, before, t, CallerStep(n, code));
    next := Next(t, CallerStep(n, code)).value;
  }

  /** And those of an undisturbed destroy call. */
  lemma DestroyAlone(t: State, n: nat, id: TaskId, force: bool) returns (labels: seq<Label>, next: State)
    requires Sound(t) && !t.crashed && n !in t.callers && id in t.store && t.store[id] < |t.lives|
    ensures After(t, labels) == Some(next) && next.lives == t.lives && next.log == t.log && next.callers == t.callers
    ensures next.store == if Refuses(t.lives[t.store[id]].handle, force) then t.store else t.store - {id}
  {
    hide PotName, HasParts, Sound, After;
    AfterNothing(t);
    labels, next := [], t;
    labels, next := StepAlone(t, labels, next, CallDestroy(n, id, force));
    labels, next := StepAlone(t, labels, next, CallerStep(n, 0));
    assert t.callers[n := DestroyInspecting(id, force, t.store[id])] - {n} == t.callers;
    if !Refuses(t.lives[t.store[id]].handle, force) {
      labels, next := StepAlone(t, labels, next, CallerStep(n, 0));
    }
  }

  lemma StepAlone(s: State, before: seq<Label>, t: State, l: Label) returns (labels: seq<Label>, next: State)
    requires Sound(s) && Sound(t) && After(s, before) == Some(t) && Next(t, l).Some?
    ensures After(s, labels) == Some(next) && Next(t, l) == Some(next) && Sound(next)
  {
    hide Sound, Next;
    labels, next := before + [l], Next(t, l).value;
    AfterMore(s, before, l);
    SoundStep(t, l);
  }
}
