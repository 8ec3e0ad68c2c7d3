/** Runs that show why the premises of the orderly runs are needed: each is a run of the driver in which one fails. */
module LifecycleRaces {
  import opened Options
  import opened Naming
  import opened Host
  import opened Handles
  import opened Lifecycle
  import opened LifecycleSound
  import opened LifecycleOwn
  import opened LifecycleRuns

  /** A run of enabled steps, none of which is the start of a forced destroy. */
  predicate Runs(s: State, labels: seq<Label>, t: State) {
    Sound(s) && Sound(t) && After(s, labels) == Some(t) && forall l :: l in labels && l.CallDestroy? ==> !l.force
  }

  lemma RunsNone(s: State)
    requires Sound(s)
    ensures Runs(s, [], s)
  {
  }

  lemma RunsMore(s: State, labels: seq<Label>, mid: State, l: Label) returns (more: seq<Label>)
    requires Runs(s, labels, mid) && Next(mid, l).Some? && (l.CallDestroy? ==> !l.force)
    ensures more == labels + [l] && Runs(s, more, Next(mid, l).value)
  {
    hide Sound, Next;
    more := labels + [l];
    AfterMore(s, labels, l);
    SoundStep(mid, l);
  }

  // ---- a start

  function StartEntries(id: TaskId): seq<Entry> {
    var pot, owner := PotName(id), OfTask(id);
    [Entry(CheckAlive, pot, owner), Entry(CheckExists, pot, owner), Entry(Start, pot, owner)]
  }

  /** The handle a start registers, with both goroutines spawned. */
  function NewLife(id: TaskId): Life {
    Life(id, Started(id, 0), Fresh, Allocating, PotFetching, None, 0, None, None, false)
  }

  function Launched(s: State, id: TaskId): State {
    s.(store := s.store[id := |s.lives|], lives := s.lives + [NewLife(id)], log := s.log + StartEntries(id))
  }

  function With(s: State, id: TaskId, st: Starter, entries: seq<Entry>): State {
    s.(starters := s.starters[id := st], log := s.log + entries)
  }

  lemma StarterRuns(s: State, labels: seq<Label>, mid: State, id: TaskId, yes: bool, t: State)
    returns (more: seq<Label>)
    requires Runs(s, labels, mid) && id in mid.starters && !mid.crashed && StarterNext(mid, id, yes) == t
    ensures Runs(s, more, t)
  {
    hide Sound, StarterNext, After, Runs;
    assert Sound(mid) by { RunsSound(s, labels, mid); }
    more := RunsMore(s, labels, mid, StarterStep(id, yes));
  }

  lemma RunsSound(s: State, labels: seq<Label>, t: State)
    requires Runs(s, labels, t)
    ensures Sound(s) && Sound(t)
  {
  }

  lemma UntilLooking(s: State, before: seq<Label>, t: State, id: TaskId) returns (labels: seq<Label>)
    requires Runs(s, before, t) && !t.crashed && id !in t.starters && id !in t.store
    ensures Runs(s, labels, With(t, id, StartLooking, StartEntries(id)[..1]))
  {
    hide PotName, Sound, After, Runs, HasParts;
    RunsSound(s, before, t);
    labels := RunsMore(s, before, t, CallStart(id));
    assert t.Steer(id, Some(StartGetting)) == With(t, id, StartGetting, []);
    labels := StarterRuns(s, labels, With(t, id, StartGetting, []), id, true, With(t, id, StartChecking, []));
    labels := StarterRuns(s, labels, With(t, id, StartChecking, []), id, false,
                          With(t, id, StartLooking, StartEntries(id)[..1]));
  }

  lemma UntilSaving(s: State, before: seq<Label>, t: State, id: TaskId) returns (labels: seq<Label>)
    requires Runs(s, before, With(t, id, StartLooking, StartEntries(id)[..1])) && !t.crashed
    ensures Runs(s, labels, With(t, id, StartSaving(false), StartEntries(id)))
  {
    hide PotName, Sound, After, Runs, HasParts;
    var e := StartEntries(id);
    labels := StarterRuns(s, before, With(t, id, StartLooking, e[..1]), id, true, With(t, id, StartLaunching, e[..2]));
    labels := StarterRuns(s, labels, With(t, id, StartLaunching, e[..2]), id, true, With(t, id, StartSaving(false), e));
  }

  /** The state in which the handle is registered in the given condition, and the starter at the given point. */
  function Registered(t: State, id: TaskId, life: Life, st: Starter): State {
    t.(store := t.store[id := |t.lives|], lives := t.lives + [life], log := t.log + StartEntries(id),
       starters := t.starters[id := st])
  }

  lemma UntilSpawning(s: State, before: seq<Label>, t: State, id: TaskId) returns (labels: seq<Label>)
    requires Runs(s, before, With(t, id, StartSaving(false), StartEntries(id))) && !t.crashed
    ensures Runs(s, labels, Registered(t, id, NewLife(id).(run := Unspawned, waiter := NotSpawned),
                                       SpawningRun(|t.lives|)))
  {
    hide PotName, Sound, After, Runs, HasParts, StartEntries;
    var t5, t6 := With(t, id, StartSaving(false), StartEntries(id)), With(t, id, StartSetting(false), StartEntries(id));
    labels := StarterRuns(s, before, t5, id, true, t6);
    labels := StarterRuns(s, labels, t6, id, true,
                          Registered(t, id, NewLife(id).(run := Unspawned, waiter := NotSpawned),
                                     SpawningRun(|t.lives|)));
  }

  lemma UntilSpawned(s: State, before: seq<Label>, t: State, id: TaskId) returns (labels: seq<Label>)
    requires !t.crashed && id !in t.starters
    requires Runs(s, before, Registered(t, id, NewLife(id).(run := Unspawned, waiter := NotSpawned),
                                        SpawningRun(|t.lives|)))
    ensures Runs(s, labels, Launched(t, id))
  {
    hide PotName, Sound, After, Runs, HasParts, StartEntries;
    var h, born := |t.lives|, NewLife(id).(run := Unspawned, waiter := NotSpawned);
    var t7 := Registered(t, id, born, SpawningRun(h));
    var t8 := Registered(t, id, born.(run := Allocating), SpawningWait(h));
    assert t7.lives[h := born.(run := Allocating)] == t8.lives;
    labels := StarterRuns(s, before, t7, id, true, t8);
    assert t8.lives[h := NewLife(id)] == Launched(t, id).lives;
    assert t8.starters - {id} == t.starters;
    labels := StarterRuns(s, labels, t8, id, true, Launched(t, id));
  }

  /** A start of a task that is not in the store, whose pot is prepared but not alive, in full. */
  lemma Launches(s: State, before: seq<Label>, t: State, id: TaskId) returns (labels: seq<Label>)
    requires Runs(s, before, t) && !t.crashed && id !in t.starters && id !in t.store
    ensures Runs(s, labels, Launched(t, id))
  {
    hide PotName, Sound, After, Runs, HasParts, StartEntries;
    labels := UntilLooking(s, before, t, id);
    labels := UntilSaving(s, labels, t, id);
    labels := UntilSpawning(s, labels, t, id);
    labels := UntilSpawned(s, labels, t, id);
  }

  // ---- the goroutines of a handle

  function Put(t: State, h: nat, life: Life): State
    requires h < |t.lives|
  {
    t.(lives := t.lives[h := life])
  }

  /** What is left of a life when its waiter has found it and been told that the pot exited cleanly. */
  function Ended(life: Life, h: nat): Life {
    life.(handle := life.handle.(procState := Exited), waiter := Claiming(h), wait := Some(Success),
          late := RunPending(life.run))
  }

  lemma OwnStepPuts(t: State, h: nat, wait: Outcome)
    requires Sound(t) && !t.crashed && h < |t.lives| && SoundLife(t, h) && t.lives[h].waiter.Fetched()
    requires t.lives[h].waiter.target == h
    ensures var a := WaiterAct(h, t.lives[h], t.lives[h], wait, None);
      a.Acting? && a.verb.None? ==>
        Next(t, WaiterStep(h, wait, None, false)) == Some(Put(t, h, Left(t.lives[h], a)))
  {
    hide PotName, HasParts, Sound, WaiterAct, Perform;
    var a := WaiterAct(h, t.lives[h], t.lives[h], wait, None);
    if a.Acting? { PerformOnOwn(t, h, a); }
  }

  lemma Fetches(s: State, before: seq<Label>, t: State, h: nat) returns (labels: seq<Label>)
    requires Runs(s, before, t) && !t.crashed && h < |t.lives| && t.lives[h].waiter.PotFetching? && InStore(t, h)
    ensures Runs(s, labels, Put(t, h, t.lives[h].(waiter := PotWaiting(h))))
  {
    hide PotName, Sound, After, Runs, HasParts;
    RunsSound(s, before, t);
    LifeSound(t, h);
    labels := RunsMore(s, before, t, WaiterStep(h, Success, None, false));
  }

  lemma Exits(s: State, before: seq<Label>, t: State, h: nat) returns (labels: seq<Label>)
    requires Runs(s, before, t) && !t.crashed && h < |t.lives| && t.lives[h].waiter == PotWaiting(h)
    ensures Runs(s, labels, Put(t, h, Ended(t.lives[h], h)))
  {
    hide PotName, Sound, After, Runs, HasParts, Next;
    var life := t.lives[h];
    RunsSound(s, before, t);
    LifeSound(t, h);
    OwnStepPuts(t, h, Success);
    labels := RunsMore(s, before, t, WaiterStep(h, Success, None, false));
    var t1 := Put(t, h, life.(waiter := PotExiting(h, Success), wait := Some(Success), late := RunPending(life.run)));
    assert Runs(s, labels, t1);
    RunsSound(s, labels, t1);
    LifeSound(t1, h);
    OwnStepPuts(t1, h, Success);
    labels := RunsMore(s, labels, t1, WaiterStep(h, Success, None, false));
    assert t1.lives[h := Ended(life, h)] == t.lives[h := Ended(life, h)];
  }

  /** What `run` leaves when it goes through. */
  function Published(life: Life): Life {
    life.(handle := Publish(Allocate(life.handle)), run := Returned, runCode := life.handle.exitCode)
  }

  lemma Publishes(s: State, before: seq<Label>, t: State, h: nat) returns (labels: seq<Label>)
    requires Runs(s, before, t) && !t.crashed && h < |t.lives| && t.lives[h].run.Allocating?
    ensures Runs(s, labels, Put(t, h, Published(t.lives[h])))
  {
    hide PotName, Sound, After, Runs, HasParts;
    var life := t.lives[h];
    RunsSound(s, before, t);
    labels := RunsMore(s, before, t, RunStep(h));
    var t1 := Put(t, h, life.(handle := Allocate(life.handle), run := Publishing));
    assert Runs(s, labels, t1);
    RunsSound(s, labels, t1);
    labels := RunsMore(s, labels, t1, RunStep(h));
    assert t1.lives[h := Published(life)] == t.lives[h := Published(life)];
  }

  /** A waiter that has been told of a failure, and has only marked the handle exited so far. */
  function HalfEnded(life: Life, h: nat): Life {
    life.(handle := life.handle.(procState := Exited), waiter := PotFailing(h, OtherError), wait := Some(OtherError),
          late := RunPending(life.run))
  }

  lemma FailsExit(s: State, before: seq<Label>, t: State, h: nat) returns (labels: seq<Label>)
    requires Runs(s, before, t) && !t.crashed && h < |t.lives| && t.lives[h].waiter == PotWaiting(h)
    ensures Runs(s, labels, Put(t, h, HalfEnded(t.lives[h], h)))
  {
    hide PotName, HasParts, Sound, After, Runs, Next;
    var life, l := t.lives[h], WaiterStep(h, OtherError, None, false);
    RunsSound(s, before, t);
    LifeSound(t, h);
    OwnStepPuts(t, h, OtherError);
    labels := RunsMore(s, before, t, l);
    var told := life.(waiter := PotExiting(h, OtherError), wait := Some(OtherError), late := RunPending(life.run));
    var t1 := Put(t, h, told);
    assert Runs(s, labels, t1);
    RunsSound(s, labels, t1);
    LifeSound(t1, h);
    OwnStepPuts(t1, h, OtherError);
    labels := RunsMore(s, labels, t1, l);
    assert t1.lives[h := HalfEnded(life, h)] == t.lives[h := HalfEnded(life, h)];
  }

  // ---- the races

  /** The label takes an exited handle back to running. */
  predicate Revives(s: State, l: Label, h: nat) {
    && Sound(s) && h < |s.lives| && s.lives[h].handle.procState == Exited
    && Next(s, l).Some? && h < |Next(s, l).value.lives| && Next(s, l).value.lives[h].handle.procState == Running
  }

  /** Without the premise that `run` finishes before `Wait` returns, a handle goes back from exited to running: `run`
      publishes late. */
  lemma LateRunRevives(id: TaskId)
    ensures exists labels, s, l :: Runs(INITIAL, labels, s) && Revives(s, l, 0)
  {
    hide PotName, Sound, After, Runs, HasParts, StartEntries, SoundLives, SoundLog;
    InitialSound();
    RunsNone(INITIAL);
    var labels := Launches(INITIAL, [], INITIAL, id);
    var s := Launched(INITIAL, id);
    labels := Fetches(INITIAL, labels, s, 0);
    s := Put(s, 0, s.lives[0].(waiter := PotWaiting(0)));
    labels := Exits(INITIAL, labels, s, 0);
    s := Put(s, 0, Ended(s.lives[0], 0));
    RunsSound(INITIAL, labels, s);
    labels := RunsMore(INITIAL, labels, s, RunStep(0));
    s := Next(s, RunStep(0)).value;
    RunsSound(INITIAL, labels, s);
    assert Revives(s, RunStep(0), 0);
  }

  /** A step of a waiter on its own handle that runs a command. */
  lemma OwnStepRuns(s: State, before: seq<Label>, t: State, h: nat, verb: Verb, next: Life) returns (labels: seq<Label>)
    requires Runs(s, before, t) && !t.crashed && h < |t.lives| && t.lives[h].waiter.Fetched()
    requires t.lives[h].waiter.target == h
    requires var a := WaiterAct(h, t.lives[h], t.lives[h], Success, None);
      a.Acting? && a.verb == Some(verb) && Left(t.lives[h], a) == next
    ensures Runs(s, labels, Put(t, h, next).(log := t.log + [Entry(verb, PotName(t.lives[h].id), OfHandle(h))]))
  {
    hide PotName, HasParts, Sound, After, Runs, WaiterAct, Perform;
    var a := WaiterAct(h, t.lives[h], t.lives[h], Success, None);
    RunsSound(s, before, t);
    LifeSound(t, h);
    PerformOnOwn(t, h, a);
    labels := RunsMore(s, before, t, WaiterStep(h, Success, None, false));
  }

  /** What is left of a life that was about to claim its destroy. */
  function Settled(life: Life, h: nat): Life {
    life.(handle := life.handle.(calledDestroy := true), waiter := Finished(h), winner := None)
  }

  lemma Settles(s: State, before: seq<Label>, t: State, h: nat) returns (labels: seq<Label>)
    requires Runs(s, before, t) && !t.crashed && h < |t.lives| && t.lives[h].waiter == Claiming(h)
    requires !t.lives[h].handle.calledDestroy
    ensures Runs(s, labels, Put(t, h, Settled(t.lives[h], h)).(
                   log := t.log + [Entry(Destroy, PotName(t.lives[h].id), OfHandle(h))]))
  {
    hide PotName, HasParts, Sound, After, Runs, Next;
    var life := t.lives[h];
    RunsSound(s, before, t);
    LifeSound(t, h);
    OwnStepPuts(t, h, Success);
    labels := RunsMore(s, before, t, WaiterStep(h, Success, None, false));
    var won := life.(handle := life.handle.(calledDestroy := true), waiter := Launching(h), winner := Some(Waiter(h)));
    var t1 := Put(t, h, won);
    assert Runs(s, labels, t1);
    labels := OwnStepRuns(s, labels, t1, h, Destroy, Settled(life, h));
    assert t1.lives[h := Settled(life, h)] == t.lives[h := Settled(life, h)];
  }

  /** The pot of a fresh start has exited cleanly, its waiter has finished, and the result is the given code. */
  predicate Ends(s: State, h: nat, code: int) {
    && h < |s.lives| && s.lives[h].kind.Fresh? && s.lives[h].waiter.Finished? && s.lives[h].wait == Some(Success)
    && s.lives[h].handle.exitResult == Some(code)
  }

  function Sampled(t: State, id: TaskId, code: int): State
    requires |t.lives| > 0
  {
    Put(t, 0, t.lives[0].(handle := t.lives[0].handle.(exitCode := code))).(
      log := t.log + [Entry(Used(Stats), PotName(t.lives[0].id), OfHandle(0))])
  }

  lemma Samples(before: seq<Label>, t: State, id: TaskId, code: int) returns (labels: seq<Label>)
    requires Runs(INITIAL, before, t) && !t.crashed && t.callers == map[] && id in t.store && t.store[id] == 0
    requires |t.lives| > 0
    ensures Runs(INITIAL, labels, Sampled(t, id, code))
  {
    hide PotName, HasParts, Sound, After, Runs, WaiterNext, StarterNext;
    RunsSound(INITIAL, before, t);
    labels := RunsMore(INITIAL, before, t, CallUse(1, id, Stats));
    var t1 := t.(callers := map[1 := Using(0, Stats)]);
    assert Runs(INITIAL, labels, t1);
    RunsSound(INITIAL, labels, t1);
    labels := RunsMore(INITIAL, labels, t1, CallerStep(1, code));
    assert t1.callers - {1} == map[];
  }

  /** A statistics command whose status is sampled before `run` has published leaves that status as the result of a task
      that has exited cleanly. */
  lemma EarlySampleSticks(id: TaskId, code: int)
    ensures exists labels, s :: Runs(INITIAL, labels, s) && Ends(s, 0, code)
  {
    hide PotName, HasParts, Sound, After, Runs, StartEntries;
    InitialSound();
    RunsNone(INITIAL);
    var labels := Launches(INITIAL, [], INITIAL, id);
    var s := Launched(INITIAL, id);
    labels := Samples(labels, s, id, code);
    s := Sampled(s, id, code);
    labels := Publishes(INITIAL, labels, s, 0);
    s := Put(s, 0, Published(s.lives[0]));
    labels := Fetches(INITIAL, labels, s, 0);
    s := Put(s, 0, s.lives[0].(waiter := PotWaiting(0)));
    labels := Exits(INITIAL, labels, s, 0);
    s := Put(s, 0, Ended(s.lives[0], 0));
    labels := Settles(INITIAL, labels, s, 0);
  }

  // ---- a start that finds its pot alive

  function AdoptedLife(id: TaskId): Life {
    Life(id, Started(id, 0), Adopted, NoRun, PotFetching, None, 0, None, None, false)
  }

  function AdoptedState(id: TaskId): State {
    INITIAL.(store := map[id := 0], lives := [AdoptedLife(id)], log := [Entry(CheckAlive, PotName(id), OfTask(id))])
  }

  lemma UntilAlive(id: TaskId) returns (labels: seq<Label>)
    ensures Runs(INITIAL, labels, With(INITIAL, id, StartSetting(true), [Entry(CheckAlive, PotName(id), OfTask(id))]))
  {
    hide PotName, HasParts, Sound, After, Runs;
    InitialSound();
    RunsNone(INITIAL);
    var e := [Entry(CheckAlive, PotName(id), OfTask(id))];
    labels := RunsMore(INITIAL, [], INITIAL, CallStart(id));
    assert INITIAL.Steer(id, Some(StartGetting)) == With(INITIAL, id, StartGetting, []);
    labels := StarterRuns(INITIAL, labels, With(INITIAL, id, StartGetting, []), id, true,
                          With(INITIAL, id, StartChecking, []));
    labels := StarterRuns(INITIAL, labels, With(INITIAL, id, StartChecking, []), id, true,
                          With(INITIAL, id, StartSaving(true), e));
    labels := StarterRuns(INITIAL, labels, With(INITIAL, id, StartSaving(true), e), id, true,
                          With(INITIAL, id, StartSetting(true), e));
  }

  lemma Adopts(id: TaskId) returns (labels: seq<Label>)
    ensures Runs(INITIAL, labels, AdoptedState(id))
  {
    hide PotName, HasParts, Sound, After, Runs;
    labels := UntilAlive(id);
    var t6 := With(INITIAL, id, StartSetting(true), [Entry(CheckAlive, PotName(id), OfTask(id))]);
    var born := AdoptedLife(id).(waiter := NotSpawned);
    var t := AdoptedState(id).(lives := [born], starters := map[id := SpawningWait(0)]);
    labels := StarterRuns(INITIAL, labels, t6, id, true, t);
    assert t.lives[0 := AdoptedLife(id)] == [AdoptedLife(id)];
    labels := StarterRuns(INITIAL, labels, t, id, true, AdoptedState(id));
  }

  /** The step of a waiter of an adopted pot takes the plugin down. */
  predicate TakesDown(s: State, l: Label) {
    && Sound(s) && l.WaiterStep? && l.h < |s.lives| && s.lives[l.h].kind.Adopted?
    && !s.crashed && Next(s, l) == Some(s.Crash())
  }

  /** A start that finds its pot alive, and whose `Wait` then fails, takes the plugin down. */
  lemma AdoptedRunCrashes(id: TaskId)
    ensures exists labels, s, l :: Runs(INITIAL, labels, s) && TakesDown(s, l)
  {
    hide PotName, HasParts, Sound, After, Runs;
    var labels := Adopts(id);
    var s := AdoptedState(id);
    labels := Fetches(INITIAL, labels, s, 0);
    s := Put(s, 0, s.lives[0].(waiter := PotWaiting(0)));
    labels := FailsExit(INITIAL, labels, s, 0);
    s := Put(s, 0, HalfEnded(s.lives[0], 0));
    RunsSound(INITIAL, labels, s);
    LifeSound(s, 0);
    assert TakesDown(s, WaiterStep(0, OtherError, None, false));
  }

  function UndoingState(id: TaskId): State {
    With(INITIAL, id, Undoing, StartEntries(id)[..2] + [Entry(Create, PotName(id), OfTask(id))])
  }

  /** A start whose pot neither lives nor exists, and whose plan then fails, has come to undoing it. */
  lemma UntilUndoing(id: TaskId) returns (labels: seq<Label>)
    ensures Runs(INITIAL, labels, UndoingState(id))
  {
    hide PotName, HasParts, Sound, After, Runs;
    InitialSound();
    RunsNone(INITIAL);
    var e := StartEntries(id);
    labels := UntilLooking(INITIAL, [], INITIAL, id);
    labels := StarterRuns(INITIAL, labels, With(INITIAL, id, StartLooking, e[..1]), id, false,
                          With(INITIAL, id, StartCreating, e[..2]));
    labels := StarterRuns(INITIAL, labels, With(INITIAL, id, StartCreating, e[..2]), id, false,
                          UndoingState(id));
  }

  /** Where `pot` cannot be run, a start fails to create, and takes the plugin down when it goes on to destroy. */
  lemma UnstartableCrashes(id: TaskId)
    ensures exists labels, s :: Runs(INITIAL, labels, s) && CannotUndo(s, id)
  {
    hide PotName, HasParts, Sound, After, Runs, StartEntries;
    var labels := UntilUndoing(id);
    RunsSound(INITIAL, labels, UndoingState(id));
    assert CannotUndo(UndoingState(id), id);
  }

  /** The start of the task is about to destroy, and that takes the plugin down if the command cannot be started. */
  predicate CannotUndo(s: State, id: TaskId) {
    && Sound(s) && !s.crashed && id in s.starters && s.starters[id].Undoing?
    && Next(s, CannotStart(StarterFor(id))) == Some(s.Crash())
  }

  /** The task has exited, its result says zero, and a step of its waiter will turn that into a failure. */
  predicate Misleads(s: State, l: Label, h: nat) {
    && Sound(s) && h < |s.lives| && s.lives[h].handle.procState == Exited && s.lives[h].handle.exitResult == Some(0)
    && Next(s, l).Some? && h < |Next(s, l).value.lives|
    && Next(s, l).value.lives[h].handle.exitResult == Some(DEFAULT_FAILED_CODE)
  }

  /** A waiter marks its handle exited before it stores the exit code, so that whoever looks in between sees a failed
      task that has exited with zero. */
  lemma EarlyResultMisleads(id: TaskId)
    ensures exists labels, s, l :: Runs(INITIAL, labels, s) && Misleads(s, l, 0)
  {
    hide PotName, HasParts, Sound, After, Runs, StartEntries;
    InitialSound();
    RunsNone(INITIAL);
    var labels := Launches(INITIAL, [], INITIAL, id);
    var s := Launched(INITIAL, id);
    labels := Publishes(INITIAL, labels, s, 0);
    s := Put(s, 0, Published(s.lives[0]));
    labels := Fetches(INITIAL, labels, s, 0);
    s := Put(s, 0, s.lives[0].(waiter := PotWaiting(0)));
    labels := FailsExit(INITIAL, labels, s, 0);
    s := Put(s, 0, HalfEnded(s.lives[0], 0));
    RunsSound(INITIAL, labels, s);
    LifeSound(s, 0);
    OwnStepPuts(s, 0, OtherError);
    assert Misleads(s, WaiterStep(0, OtherError, None, false), 0);
  }

  /** The run so far: the first handle of the task has exited, and its waiter is about to destroy. */
  function FirstExited(id: TaskId): State {
    var s := Launched(INITIAL, id);
    s.(lives := [Ended(Published(NewLife(id)).(waiter := PotWaiting(0)), 0)])
  }

  lemma UntilExited(id: TaskId) returns (labels: seq<Label>)
    ensures Runs(INITIAL, labels, FirstExited(id))
  {
    hide PotName, Sound, After, Runs, HasParts, StartEntries;
    InitialSound();
    RunsNone(INITIAL);
    labels := Launches(INITIAL, [], INITIAL, id);
    var s := Launched(INITIAL, id);
    labels := Publishes(INITIAL, labels, s, 0);
    s := Put(s, 0, Published(s.lives[0]));
    labels := Fetches(INITIAL, labels, s, 0);
    s := Put(s, 0, s.lives[0].(waiter := PotWaiting(0)));
    labels := Exits(INITIAL, labels, s, 0);
    assert Put(s, 0, Ended(s.lives[0], 0)) == FirstExited(id);
  }

  /** Two destroy calls look up the exited handle and see that it is not running. */
  lemma BothInspect(before: seq<Label>, s: State, id: TaskId) returns (labels: seq<Label>)
    requires Runs(INITIAL, before, s) && !s.crashed && s.callers == map[] && id in s.store && s.store[id] == 0
    requires |s.lives| > 0 && s.lives[0].handle.procState == Exited
    ensures Runs(INITIAL, labels,
                 s.(callers := map[1 := DestroyDeleting(id, false, 0), 2 := DestroyDeleting(id, false, 0)]))
  {
    hide PotName, Sound, After, Runs, HasParts, WaiterNext, StarterNext;
    var looking, deleting := DestroyInspecting(id, false, 0), DestroyDeleting(id, false, 0);
    RunsSound(INITIAL, before, s);
    labels := RunsMore(INITIAL, before, s, CallDestroy(1, id, false));
    var s1 := s.(callers := map[1 := looking]);
    RunsSound(INITIAL, labels, s1);
    labels := RunsMore(INITIAL, labels, s1, CallDestroy(2, id, false));
    var s2 := s.(callers := map[1 := looking, 2 := looking]);
    RunsSound(INITIAL, labels, s2);
    labels := RunsMore(INITIAL, labels, s2, CallerStep(1, 0));
    var s3 := s.(callers := map[1 := deleting, 2 := looking]);
    assert s2.callers[1 := deleting] == s3.callers;
    assert Runs(INITIAL, labels, s3);
    RunsSound(INITIAL, labels, s3);
    labels := RunsMore(INITIAL, labels, s3, CallerStep(2, 0));
    assert s3.callers[2 := deleting] == map[1 := deleting, 2 := deleting];
  }

  lemma DeleteRuns(before: seq<Label>, s: State, n: nat) returns (labels: seq<Label>)
    requires Runs(INITIAL, before, s) && !s.crashed && n in s.callers && s.callers[n].DestroyDeleting?
    ensures Runs(INITIAL, labels, s.(store := s.store - {s.callers[n].id}, callers := s.callers - {n}))
  {
    hide PotName, Sound, After, Runs, HasParts, WaiterNext, StarterNext;
    assert s.callers[n].h < |s.lives| by { RunsSound(INITIAL, before, s); CallerSound(s, n, 0); }
    RunsSound(INITIAL, before, s);
    labels := RunsMore(INITIAL, before, s, CallerStep(n, 0));
  }

  /** Without a forced destroy, a waiter loses its handle, and then crashes: a destroy call deletes by ID what it did
      not inspect, the handle that a start has registered in the place of the exited one. */
  lemma UnforcedDestroyLosesHandle(id: TaskId)
    ensures exists labels, s, l, h :: Runs(INITIAL, labels, s) && Loses(s, l, h)
  {
    hide PotName, Sound, After, Runs, HasParts, StartEntries, StarterNext, CallerNext;
    var labels := UntilExited(id);
    var s := FirstExited(id);
    labels := BothInspect(labels, s, id);
    s := s.(callers := map[1 := DestroyDeleting(id, false, 0), 2 := DestroyDeleting(id, false, 0)]);
    labels := DeleteRuns(labels, s, 1);
    s := s.(store := s.store - {id}, callers := s.callers - {1});
    labels := Launches(INITIAL, labels, s, id);
    s := Launched(s, id);
    labels := DeleteRuns(labels, s, 2);
    s := s.(store := s.store - {id}, callers := s.callers - {2});
    RunsSound(INITIAL, labels, s);
    LifeSound(s, 1);
    SoundStep(s, WaiterStep(1, Success, None, false));
    LifeSound(Next(s, WaiterStep(1, Success, None, false)).value, 1);
    assert Loses(s, WaiterStep(1, Success, None, false), 1);
  }

  /** The waiter of a running handle looks it up in vain, and will take the plugin down when the process is over. */
  predicate Loses(s: State, l: Label, h: nat) {
    && Sound(s) && l.WaiterStep? && l.h == h && h < |s.lives| && s.lives[h].handle.procState == Running
    && s.lives[h].waiter.PotFetching? && Next(s, l).Some?
    && var next := Next(s, l).value;
    && Sound(next) && !next.crashed && next.lives == s.lives[h := s.lives[h].(waiter := PotLost)]
    && Next(next, l) == Some(next.Crash())
  }
}
