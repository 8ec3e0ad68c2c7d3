/**
 The beginning of a task in the step system: the steps of one start or one recovery, and the polls of its waiter, with
 nobody else coming in between.
 */
module LifecycleBegins {
  import opened Options
  import opened Naming
  import opened Host
  import opened Handles
  import opened Lifecycle
  import opened LifecycleSound
  import opened LifecycleDestroy
  import opened LifecycleRuns
  import opened LifecycleAlone

  /** A command on behalf of the task itself. */
  function OfItself(id: TaskId, verb: Verb): Entry {
    Entry(verb, PotName(id), OfTask(id))
  }

  lemma StarterGoes(s: State, before: seq<Label>, t: State, id: TaskId, yes: bool)
    returns (labels: seq<Label>, next: State)
    requires Sound(s) && Sound(t) && After(s, before) == Some(t) && !t.crashed && id in t.starters
    ensures After(s, labels) == Some(next) && Sound(next) && next == StarterNext(t, id, yes) && !next.crashed
  {
    hide PotName, HasParts, Sound, After, StarterAct;
    labels, next := StepAlone(s, before, t, StarterStep(id, yes));
  }

  /** The commands of a start before its launch, and whether it gets to the launch or has no need of one. */
  function Prelude(id: TaskId, alive: bool, found: bool): seq<Entry> {
    if alive then [OfItself(id, CheckAlive)]
    else if found then [OfItself(id, CheckAlive), OfItself(id, CheckExists)]
    else [OfItself(id, CheckAlive), OfItself(id, CheckExists), OfItself(id, Create)]
  }

  /** A start on its way: nothing but the log and its own place is different. */
  predicate Begun(t: State, next: State, id: TaskId, st: Starter, entries: seq<Entry>) {
    next == t.(starters := t.starters[id := st], log := t.log + entries)
  }

  lemma BegunStep(s: State, before: seq<Label>, t: State, mid: State, id: TaskId, st: Starter, entries: seq<Entry>,
                  yes: bool) returns (labels: seq<Label>, next: State)
    requires Sound(s) && Sound(mid) && After(s, before) == Some(mid) && !t.crashed && Begun(t, mid, id, st, entries)
    requires StarterAct(mid, id, st, yes).0.change.Keep? && StarterAct(mid, id, st, yes).0.drop.None?
    requires StarterAct(mid, id, st, yes).1.Some?
    ensures After(s, labels) == Some(next) && Sound(next)
    ensures var (e, onward) := StarterAct(mid, id, st, yes);
      Begun(t, next, id, onward.value, if e.entry.Some? then entries + [e.entry.value] else entries)
  {
    hide PotName, HasParts, Sound, After, StarterAct;
    labels, next := StarterGoes(s, before, mid, id, yes);
    var e := StarterAct(mid, id, st, yes).0;
    if e.entry.Some? { assert t.log + entries + [e.entry.value] == t.log + (entries + [e.entry.value]); }
  }

  /** From the call to the launch, to the saving of the driver state, or to the undoing. */
  lemma PreludeAlone(t: State, id: TaskId, alive: bool, found: bool, created: bool)
    returns (labels: seq<Label>, next: State)
    requires Sound(t) && !t.crashed && id !in t.starters && id !in t.store
    ensures After(t, labels) == Some(next) && Sound(next)
    ensures var st := if alive then StartSaving(true) else if found || created then StartLaunching else Undoing;
      Begun(t, next, id, st, Prelude(id, alive, found))
  {
    hide PotName, HasParts, Sound, After;
    AfterNothing(t);
    labels, next := StepAlone(t, [], t, CallStart(id));
    assert t.log + [] == t.log;
    labels, next := BegunStep(t, labels, t, next, id, StartGetting, [], true);
    labels, next := BegunStep(t, labels, t, next, id, StartChecking, [], alive);
    if !alive {
      labels, next := BegunStep(t, labels, t, next, id, StartLooking, [OfItself(id, CheckAlive)], found);
      if !found {
        labels, next := BegunStep(t, labels, t, next, id, StartCreating,
                                  [OfItself(id, CheckAlive), OfItself(id, CheckExists)], created);
      }
    }
  }

  /** The last command of a start or recovery that has failed, or the crash over it. */
  lemma UndoneAlone(t: State, before: seq<Label>, mid: State, id: TaskId, entries: seq<Entry>, undo: Outcome)
    returns (labels: seq<Label>, next: State)
    requires Sound(t) && Sound(mid) && After(t, before) == Some(mid) && !t.crashed
    requires id !in t.starters && Begun(t, mid, id, Undoing, entries)
    ensures After(t, labels) == Some(next)
    ensures if undo.NotStarted? then next.crashed && next.log == t.log + entries && next.store == t.store
            else next == t.(log := t.log + entries + [OfItself(id, Destroy)])
  {
    hide PotName, HasParts, Sound, After;
    if undo.NotStarted? {
      labels, next := StepAlone(t, before, mid, CannotStart(StarterFor(id)));
    } else {
      labels, next := StarterGoes(t, before, mid, id, true);
      assert t.starters[id := Undoing] - {id} == t.starters;
    }
  }

  /** The state once the task is registered, with one life more, and its starter somewhere or done. */
  function Registered(t: State, id: TaskId, life: Life, st: Option<Starter>, entries: seq<Entry>): State {
    t.(log := t.log + entries, store := t.store[id := |t.lives|], lives := t.lives + [life],
       starters := if st.Some? then t.starters[id := st.value] else t.starters)
  }

  /** Steps of a starter on the life it has registered. */
  lemma LifeStep(t: State, before: seq<Label>, mid: State, id: TaskId, life: Life, st: Starter, entries: seq<Entry>)
    returns (labels: seq<Label>, next: State)
    requires Sound(t) && Sound(mid) && After(t, before) == Some(mid) && !t.crashed && id !in t.starters
    requires mid == Registered(t, id, life, Some(st), entries)
    requires st == SpawningRun(|t.lives|) || st == SpawningWait(|t.lives|) || st == RecTouching(|t.lives|)
    ensures After(t, labels) == Some(next) && Sound(next)
    ensures next == match st
                    case SpawningRun(h) =>
                      Registered(t, id, life.(run := Allocating), Some(SpawningWait(|t.lives|)), entries)
                    case RecTouching(h) =>
                      var touched := life.handle.(procState := Running, exitResult := Some(life.handle.exitCode));
                      Registered(t, id, life.(handle := touched, runCode := life.handle.exitCode),
                                 Some(SpawningWait(|t.lives|)), entries)
                    case _ =>
                      Registered(t, id, life.(waiter := if life.kind.Retaken? then Polling else PotFetching),
                                 None, entries)
  {
    hide PotName, HasParts, Sound, After;
    labels, next := StarterGoes(t, before, mid, id, true);
    assert (t.lives + [life])[|t.lives| := next.lives[|t.lives|]] == t.lives + [next.lives[|t.lives|]];
    assert t.starters[id := st] - {id} == t.starters;
  }

  /** A registration and the goroutines it spawns, from the state in which it is due. */
  lemma RegisteredAlone(t: State, before: seq<Label>, mid: State, id: TaskId, adopted: bool, entries: seq<Entry>)
    returns (labels: seq<Label>, next: State)
    requires Sound(t) && Sound(mid) && After(t, before) == Some(mid) && !t.crashed
    requires id !in t.starters && Begun(t, mid, id, StartSetting(adopted), entries)
    ensures After(t, labels) == Some(next)
    ensures next == t.(
      log := t.log + entries, store := t.store[id := |t.lives|],
      lives := t.lives + [Life(id, Handle(id, false, Running, None, 0, false), if adopted then Adopted else Kind.Fresh,
                               if adopted then NoRun else Allocating, PotFetching, None, 0, None, None, false)])
  {
    hide PotName, HasParts, Sound, After;
    labels, next := StarterGoes(t, before, mid, id, true);
    var life := next.lives[|t.lives|];
    if adopted {
      labels, next := LifeStep(t, labels, next, id, life, SpawningWait(|t.lives|), entries);
    } else {
      labels, next := LifeStep(t, labels, next, id, life, SpawningRun(|t.lives|), entries);
      labels, next := LifeStep(t, labels, next, id, life.(run := Allocating), SpawningWait(|t.lives|), entries);
    }
  }

  lemma LaunchedAlone(t: State, before: seq<Label>, mid: State, id: TaskId, entries: seq<Entry>, opens: bool,
                      launch: Outcome) returns (labels: seq<Label>, next: State)
    requires Sound(t) && Sound(mid) && After(t, before) == Some(mid) && !t.crashed
    requires Begun(t, mid, id, StartLaunching, entries)
    ensures After(t, labels) == Some(next)
    ensures if opens && launch.NotStarted? then next.crashed && next.log == t.log + entries && next.store == t.store
            else
              && Sound(next)
              && Begun(t, next, id, if opens then StartSaving(false) else Undoing,
                       if opens then entries + [OfItself(id, Start)] else entries)
  {
    hide PotName, HasParts, Sound, After;
    if opens && launch.NotStarted? {
      labels, next := StepAlone(t, before, mid, CannotStart(StarterFor(id)));
    } else {
      labels, next := BegunStep(t, before, t, mid, id, StartLaunching, entries, opens);
    }
  }

  /** From the saving of the driver state to the registration. */
  lemma SavedAlone(t: State, before: seq<Label>, mid: State, id: TaskId, adopted: bool, entries: seq<Entry>,
                   saves: bool, undo: Outcome) returns (labels: seq<Label>, next: State)
    requires Sound(t) && Sound(mid) && After(t, before) == Some(mid) && !t.crashed
    requires id !in t.starters && Begun(t, mid, id, StartSaving(adopted), entries)
    ensures After(t, labels) == Some(next)
    ensures if saves then next == t.(
              log := t.log + entries, store := t.store[id := |t.lives|],
              lives := t.lives + [Life(id, Handle(id, false, Running, None, 0, false),
                                       if adopted then Adopted else Kind.Fresh, if adopted then NoRun else Allocating,
                                       PotFetching, None, 0, None, None, false)])
            else if undo.NotStarted? then next.crashed && next.log == t.log + entries && next.store == t.store
            else next == t.(log := t.log + entries + [OfItself(id, Destroy)])
  {
    hide PotName, HasParts, Sound, After;
    labels, next := BegunStep(t, before, t, mid, id, StartSaving(adopted), entries, saves);
    if saves {
      labels, next := RegisteredAlone(t, labels, next, id, adopted, entries);
    } else {
      labels, next := UndoneAlone(t, labels, next, id, entries, undo);
    }
  }

  /** The steps of an undisturbed start, for all answers: a living pot is taken as it is, one that exists is launched,
      any other one is created and launched; whatever fails on the way is undone. */
  lemma StartAlone(t: State, id: TaskId, alive: bool, found: bool, created: bool, opens: bool, launch: Outcome,
                   saves: bool, undo: Outcome) returns (labels: seq<Label>, next: State)
    requires Sound(t) && !t.crashed && id !in t.starters && id !in t.store
    ensures After(t, labels) == Some(next)
    ensures var launches := !alive && opens && (found || created);
      var prelude := if alive then [OfItself(id, CheckAlive)]
                     else if found then [OfItself(id, CheckAlive), OfItself(id, CheckExists)]
                     else [OfItself(id, CheckAlive), OfItself(id, CheckExists), OfItself(id, Create)];
      var begun := t.log + if launches && !launch.NotStarted? then prelude + [OfItself(id, Start)] else prelude;
      if launches && launch.NotStarted? then next.crashed && next.log == begun && next.store == t.store
      else if (alive || launches) && saves then
        next == t.(
          log := begun, store := t.store[id := |t.lives|],
          lives := t.lives + [Life(id, Handle(id, false, Running, None, 0, false),
                                   if alive then Adopted else Kind.Fresh, if alive then NoRun else Allocating,
                                   PotFetching, None, 0, None, None, false)])
      else if undo.NotStarted? then next.crashed && next.log == begun && next.store == t.store
      else next == t.(log := begun + [OfItself(id, Destroy)])
  {
    hide PotName, HasParts, Sound, After, Begun;
    labels, next := PreludeAlone(t, id, alive, found, created);
    var prelude := Prelude(id, alive, found);
    if alive {
      labels, next := SavedAlone(t, labels, next, id, true, prelude, saves, undo);
    } else if found || created {
      labels, next := LaunchedAlone(t, labels, next, id, prelude, opens, launch);
      if !opens {
        labels, next := UndoneAlone(t, labels, next, id, prelude, undo);
      } else if !launch.NotStarted? {
        labels, next := SavedAlone(t, labels, next, id, false, prelude + [OfItself(id, Start)], saves, undo);
      }
    } else {
      labels, next := UndoneAlone(t, labels, next, id, prelude, undo);
    }
  }

  /** The steps of an undisturbed recovery, for all answers: a living pot is taken up with a result record that says
      zero, one that is gone is left alone. */
  lemma RecoverAlone(t: State, id: TaskId, alive: bool, saves: bool, undo: Outcome)
    returns (labels: seq<Label>, next: State)
    requires Sound(t) && !t.crashed && id !in t.starters && id !in t.store
    ensures After(t, labels) == Some(next)
    ensures var checked := t.log + [OfItself(id, CheckAlive)];
      if !alive then next == t.(log := checked)
      else if saves then
        next == t.(
          log := checked, store := t.store[id := |t.lives|],
          lives := t.lives + [Life(id, Handle(id, false, Running, Some(0), 0, false), Retaken, NoRun, Polling, None,
                                   0, None, None, false)])
      else if undo.NotStarted? then next.crashed && next.log == checked && next.store == t.store
      else next == t.(log := checked + [OfItself(id, Destroy)])
  {
    hide PotName, HasParts, Sound, After;
    var checks := [OfItself(id, CheckAlive)];
    AfterNothing(t);
    labels, next := StepAlone(t, [], t, CallRecover(id));
    assert t.log + [] == t.log;
    labels, next := BegunStep(t, labels, t, next, id, RecGetting, [], true);
    labels, next := BegunStep(t, labels, t, next, id, RecChecking, [], alive);
    if !alive {
      labels, next := StarterGoes(t, labels, next, id, true);
      assert t.store - {id} == t.store && t.starters[id := RecDropping] - {id} == t.starters;
    } else {
      labels, next := BegunStep(t, labels, t, next, id, RecSaving, checks, saves);
      if saves {
        labels, next := RetakenAlone(t, labels, next, id, checks);
      } else {
        labels, next := UndoneAlone(t, labels, next, id, checks, undo);
      }
    }
  }

  lemma RetakenAlone(t: State, before: seq<Label>, mid: State, id: TaskId, entries: seq<Entry>)
    returns (labels: seq<Label>, next: State)
    requires Sound(t) && Sound(mid) && After(t, before) == Some(mid) && !t.crashed
    requires id !in t.starters && Begun(t, mid, id, RecSetting, entries)
    ensures After(t, labels) == Some(next)
    ensures next == t.(
      log := t.log + entries, store := t.store[id := |t.lives|],
      lives := t.lives + [Life(id, Handle(id, false, Running, Some(0), 0, false), Retaken, NoRun, Polling, None,
                               0, None, None, false)])
  {
    hide PotName, HasParts, Sound, After;
    labels, next := StarterGoes(t, before, mid, id, true);
    var life := next.lives[|t.lives|];
    labels, next := LifeStep(t, labels, next, id, life, RecTouching(|t.lives|), entries);
    labels, next := LifeStep(t, labels, next, id, next.lives[|t.lives|], SpawningWait(|t.lives|), entries);
  }

  /** The commands of so many polls. */
  function Polled(t: State, h: nat, n: nat): seq<Entry>
    requires h < |t.lives|
  {
    seq(n, _ => Entry(CheckAlive, PotName(t.lives[h].id), OfHandle(h)))
  }

  /** A waiter that polls undisturbed goes on until the first poll that finds the pot gone. */
  lemma {:induction false} PollsAlone(s: State, before: seq<Label>, t: State, h: nat, alive: nat)
    returns (labels: seq<Label>, next: State)
    requires Sound(s) && Sound(t) && After(s, before) == Some(t) && !t.crashed
    requires h < |t.lives| && t.lives[h].waiter.Polling?
    ensures After(s, labels) == Some(next)
    ensures next == t.(
      lives := t.lives[h := t.lives[h].(waiter := RecFetching)], log := t.log + Polled(t, h, alive + 1))
    decreases alive
  {
    hide PotName, HasParts, Sound, After;
    labels, next := StepAlone(s, before, t, WaiterStep(h, Success, None, alive > 0));
    if alive > 0 {
      assert next.lives == t.lives;
      labels, next := PollsAlone(s, labels, next, h, alive - 1);
      assert t.log + Polled(t, h, 1) + Polled(t, h, alive) == t.log + Polled(t, h, alive + 1);
    }
  }

  lemma PerformElsewhere(s: State, k: nat, t: nat, a: Act, h: nat)
    requires k < |s.lives| && t < |s.lives| && a.Acting? && h < |s.lives| && h != k
    ensures |Perform(s, k, t, a).lives| == |s.lives| && Perform(s, k, t, a).lives[h].waiter == s.lives[h].waiter
  {
    hide PotName, HasParts;
  }

  lemma WaiterPolls(s: State, k: nat, wait: Outcome, stats: Option<int>, alive: bool, h: nat)
    requires k < |s.lives| && SoundLife(s, k) && h < |s.lives| && s.lives[h].waiter.Polling?
    ensures var next := WaiterNext(s, k, wait, stats, alive);
      next.Some? ==>
        && |next.value.lives| == |s.lives|
        && (next.value.lives[h].waiter != Polling <==> k == h && !alive)
  {
    hide PotName, HasParts, WaiterAct, Perform;
    var w := s.lives[k].waiter;
    if w.Fetched() && k != h {
      var a := WaiterAct(k, s.lives[k], s.lives[w.target], wait, stats);
      if a.Acting? { PerformElsewhere(s, k, w.target, a, h); }
    }
  }

  lemma StarterPolls(s: State, id: TaskId, yes: bool, h: nat)
    requires id in s.starters && (Touching(s.starters[id]) ==> AwaitsSpawn(s, id, s.starters[id]))
    requires h < |s.lives| && s.lives[h].waiter.Polling?
    ensures |StarterNext(s, id, yes).lives| >= |s.lives| && StarterNext(s, id, yes).lives[h].waiter == Polling
  {
    hide PotName, HasParts;
  }

  lemma PollEnds(s: State, l: Label, h: nat)
    requires Always(s) && Next(s, l).Some? && h < |s.lives| && s.lives[h].waiter.Polling?
    ensures |Next(s, l).value.lives| >= |s.lives|
    ensures Next(s, l).value.lives[h].waiter != Polling
       <==> (l.WaiterStep? && l.h == h && !l.alive) || (l == WaiterQuits(h) && s.shutdown)
  {
    hide PotName, HasParts, SoundLog, SoundStore, SoundLives, DestroyInv, WaiterNext, StarterNext;
    match l
    case WaiterStep(k, wait, stats, alive) =>
      LifeSound(s, k);
      WaiterPolls(s, k, wait, stats, alive, h);
    case StarterStep(id, yes) => StarterPolls(s, id, yes, h);
    case _ =>
  }

  /** In every run, the polls of a waiter are ended by one that finds the pot gone, or by the driver's shutdown, and by
      no other step. */
  lemma PollsEnd(labels: seq<Label>, s: State, l: Label, h: nat)
    requires Sound(INITIAL) && After(INITIAL, labels) == Some(s) && Sound(s) && Next(s, l).Some?
    requires h < |s.lives| && s.lives[h].waiter.Polling?
    ensures |Next(s, l).value.lives| >= |s.lives|
    ensures Next(s, l).value.lives[h].waiter != Polling
       <==> (l.WaiterStep? && l.h == h && !l.alive) || (l == WaiterQuits(h) && s.shutdown)
  {
    hide PotName, HasParts, Sound, After, Always, Next;
    InitialSound();
    AlwaysAfter(INITIAL, labels);
    PollEnds(s, l, h);
  }
}
