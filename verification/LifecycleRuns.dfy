/** Whole runs of the lifecycle: what every interleaving guarantees, and what only orderly calls guarantee. */
module LifecycleRuns {
  import opened Options
  import opened Naming
  import opened Host
  import opened Handles
  import opened Lifecycle
  import opened LifecycleSound
  import opened LifecycleDestroy
  import opened LifecycleOwn
  import opened LifecycleCodes

  /** The state after a sequence of steps, if every one of them is enabled. */
  function After(s: State, labels: seq<Label>): Option<State>
    requires Sound(s)
    decreases |labels|
  {
    if labels == [] then Some(s)
    else if Next(s, labels[0]).None? then None
    else
      SoundStep(s, labels[0]);
      After(Next(s, labels[0]).value, labels[1..])
  }

  lemma AfterNothing(s: State)
    requires Sound(s)
    ensures After(s, []) == Some(s)
  {
  }

  lemma {:induction false} AfterMore(s: State, labels: seq<Label>, l: Label)
    requires Sound(s)
    ensures After(s, labels).Some? ==> Sound(After(s, labels).value)
    ensures After(s, labels + [l]) ==
      if After(s, labels).None? then None else Next(After(s, labels).value, l)
    decreases |labels|
  {
    hide Sound, Next;
    if labels == [] {
      assert labels + [l] == [l];
      if Next(s, l).Some? {
        SoundStep(s, l);
        assert [l][1..] == [];
      }
    } else if Next(s, labels[0]).Some? {
      SoundStep(s, labels[0]);
      assert (labels + [l])[1..] == labels[1..] + [l];
      AfterMore(Next(s, labels[0]).value, labels[1..], l);
    }
  }

  lemma InitialSound()
    ensures Sound(INITIAL) && DestroyInv(INITIAL) && SpawnInv(INITIAL) && Vacant(INITIAL) && Own(INITIAL)
    ensures Prompt(INITIAL) && Always(INITIAL)
  {
  }

  /** The invariants that need no premise at all. */
  predicate Always(s: State) {
    Sound(s) && DestroyInv(s) && SpawnInv(s) && Vacant(s)
  }

  lemma AlwaysStep(s: State, l: Label)
    requires Always(s) && Next(s, l).Some?
    ensures Always(Next(s, l).value)
  {
    hide DestroyInv, SpawnInv, Vacant, Next, SoundStore, SoundLives, SoundCallers, SoundLog;
    SoundStep(s, l);
    DestroyStep(s, l);
    SpawnStep(s, l);
    VacantStep(s, l);
  }

  lemma {:induction false} AlwaysAfter(s: State, labels: seq<Label>)
    requires Always(s)
    ensures After(s, labels).Some? ==> Always(After(s, labels).value)
    decreases |labels|
  {
    hide Always;
    assert Sound(s) by { AlwaysSound(s); }
    if labels != [] && Next(s, labels[0]).Some? {
      AlwaysStep(s, labels[0]);
      AlwaysAfter(Next(s, labels[0]).value, labels[1..]);
    }
  }

  lemma AlwaysSound(s: State)
    requires Always(s)
    ensures Sound(s) && DestroyInv(s) && SpawnInv(s) && Vacant(s)
  {
  }

  // ---- every run

  /** In every run, with any number of concurrent stops and waiters, a handle's pot is destroyed at most once on its
      behalf, exactly once when the flag is up and its winner has launched; so exactly once when the waiter has finished
      and nobody is between winning and launching. */
  lemma AtMostOneDestroy(labels: seq<Label>, s: State, h: nat)
    requires Sound(INITIAL) && After(INITIAL, labels) == Some(s) && h < |s.lives|
    ensures Count(s.log, h) <= 1
    ensures Count(s.log, h) == 1 <==> s.lives[h].handle.calledDestroy && s.lives[h].winner.None?
    ensures s.lives[h].winner.None? && (exists k :: 0 <= k < |s.lives| && s.lives[k].waiter == Finished(h)) ==>
              Count(s.log, h) == 1
  {
    InitialSound();
    AlwaysAfter(INITIAL, labels);
    hide After, Count, PotName, HasParts, Sound, SpawnInv, Vacant;
    assert Balanced(s, h);
    if k :| 0 <= k < |s.lives| && s.lives[k].waiter == Finished(h) {
      assert WaiterWon(s, k);
    }
  }

  /** The task a command was issued for. */
  function TaskOf(s: State, e: Entry): TaskId
    requires SoundEntry(s, e)
  {
    match e.owner
    case OfTask(id) => id
    case OfHandle(h) => s.lives[h].id
  }

  /** In every run, every command names the pot of the task it was issued for; and no two tasks with well-formed IDs
      have commands that name the same pot. */
  lemma NoInterference(labels: seq<Label>, s: State, i: nat, j: nat)
    requires Sound(INITIAL) && After(INITIAL, labels) == Some(s) && i < |s.log| && j < |s.log|
    ensures SoundEntry(s, s.log[i]) && SoundEntry(s, s.log[j])
    ensures var (a, b) := (TaskOf(s, s.log[i]), TaskOf(s, s.log[j]));
      && s.log[i].pot == PotName(a)
      && (NomadId(a) && NomadId(b) ==> (s.log[i].pot == s.log[j].pot <==> a == b))
  {
    InitialSound();
    AlwaysAfter(INITIAL, labels);
    hide After, PotName, HasParts, DestroyInv, SpawnInv, Vacant;
    var a, b := TaskOf(s, s.log[i]), TaskOf(s, s.log[j]);
    if NomadId(a) && NomadId(b) {
      PotNameInjective(a, b);
    }
  }

  // ---- a waiter and its handle

  predicate InStore(s: State, h: nat)
    requires h < |s.lives|
  {
    s.lives[h].id in s.store && s.store[s.lives[h].id] == h
  }

  /** What a step does to the store: registers a new handle for a task that had none, deletes for a destroy call, or
      nothing. */
  lemma StoreStep(s: State, l: Label)
    requires Always(s) && Next(s, l).Some?
    ensures var next := Next(s, l).value;
      if Deleting(s, l) then next.store == s.store - {s.callers[l.n].id}
      else
        || next.store == s.store
        || (l.StarterStep? && l.id !in s.store && next.store == s.store[l.id := |s.lives|]
            && |next.lives| == |s.lives| + 1 && next.lives[|s.lives|].waiter.NotSpawned?)
  {
    hide PotName, HasParts, DestroyInv, SpawnInv, SoundStore, SoundLives, SoundCallers, SoundLog, WaiterAct, RunAct;
    hide CallerAct, Perform, Fetch, Poll;
    if l.StarterStep? {
      StarterStore(s, l.id, l.yes);
    } else if l.WaiterStep? {
      WaiterStore(s, l);
    } else if l.CallerStep? {
      CallerStore(s, l);
    }
  }

  lemma StarterDrops(s: State, id: TaskId, st: Starter, yes: bool)
    ensures var e := StarterAct(s, id, st, yes).0;
      && (e.drop.Some? ==> e.drop.value == id && st.Unregistered())
      && (e.change.Born? ==> st.Unregistered() && e.change.life.waiter.NotSpawned?)
  {
    hide PotName, HasParts;
  }

  lemma StarterStore(s: State, id: TaskId, yes: bool)
    requires Sound(s) && Vacant(s) && id in s.starters
    ensures var next := StarterNext(s, id, yes);
      || next.store == s.store
      || (id !in s.store && next.store == s.store[id := |s.lives|]
          && |next.lives| == |s.lives| + 1 && next.lives[|s.lives|].waiter.NotSpawned?)
  {
    hide PotName, HasParts, Sound, StarterAct;
    var st := s.starters[id];
    assert st.Unregistered() ==> id !in s.store;
    assert id !in s.store ==> s.store - {id} == s.store;
    StarterVacates(s, id, st, yes);
    StarterDrops(s, id, st, yes);
  }

  /** A handle leaves the store exactly when it is deleted, and once out it stays out. */
  lemma InStoreStep(s: State, l: Label, h: nat)
    requires Always(s) && Next(s, l).Some? && h < |s.lives|
    ensures Grows(s, Next(s, l).value)
    ensures InStore(Next(s, l).value, h) <==> InStore(s, h) && !Deletes(s, l, h)
  {
    hide Next, DestroyInv, SpawnInv, Vacant, SoundLives, SoundCallers, SoundLog, PotName, HasParts;
    SoundStep(s, l);
    StoreStep(s, l);
    assert SameTask(s.lives[h], Next(s, l).value.lives[h]);
  }

  /** Some step of the run deletes the handle. */
  predicate DeletedIn(s: State, labels: seq<Label>, h: nat)
    requires Sound(s)
    decreases |labels|
  {
    if labels == [] || Next(s, labels[0]).None? then false
    else
      SoundStep(s, labels[0]);
      Deletes(s, labels[0], h) || DeletedIn(Next(s, labels[0]).value, labels[1..], h)
  }

  /** In every run, forced destroys included: a handle that was in the store is still there exactly if no step has
      deleted it. */
  lemma {:induction false} KeptIffNotDeleted(s: State, labels: seq<Label>, h: nat)
    requires Always(s) && h < |s.lives| && After(s, labels).Some?
    ensures h < |After(s, labels).value.lives|
    ensures InStore(After(s, labels).value, h) <==> InStore(s, h) && !DeletedIn(s, labels, h)
    decreases |labels|
  {
    hide Always, InStore, Next, Deletes;
    AlwaysSound(s);
    if labels != [] {
      AlwaysStep(s, labels[0]);
      InStoreStep(s, labels[0], h);
      KeptIffNotDeleted(Next(s, labels[0]).value, labels[1..], h);
    }
  }

  predicate FindsOwn(s: State, h: nat) {
    !s.crashed && h < |s.lives| && s.lives[h].waiter.Fetched() && s.lives[h].waiter.target == h
  }

  /** So the lookup of a waiter finds its own handle exactly if no destroy call has deleted it since it was registered;
      otherwise the waiter crashes or takes another handle of the task for its own. */
  lemma FindsOwnIffNotDeleted(s: State, labels: seq<Label>, h: nat, wait: Outcome, stats: Option<int>, alive: bool)
    requires Always(s) && h < |s.lives| && InStore(s, h)
    requires After(s, labels).Some? && !After(s, labels).value.crashed
    requires h < |After(s, labels).value.lives|
    requires var w := After(s, labels).value.lives[h].waiter; w.PotFetching? || w.RecFetching?
    ensures Sound(After(s, labels).value)
    ensures Next(After(s, labels).value, WaiterStep(h, wait, stats, alive)).Some?
    ensures FindsOwn(Next(After(s, labels).value, WaiterStep(h, wait, stats, alive)).value, h) <==>
              !DeletedIn(s, labels, h)
  {
    hide Always, DeletedIn, After, PotName, HasParts;
    AlwaysSound(s);
    KeptIffNotDeleted(s, labels, h);
    AlwaysAfter(s, labels);
    var t := After(s, labels).value;
    AlwaysSound(t);
    LifeSound(t, h);
  }

  /** In no run whatsoever is a task ever in the unknown state: its only cause, the exit error, is never set. */
  lemma NeverUnknown(labels: seq<Label>, s: State, h: nat)
    requires Sound(INITIAL) && After(INITIAL, labels) == Some(s) && h < |s.lives|
    ensures s.lives[h].handle.procState != Unknown && !s.lives[h].handle.exitError
  {
    InitialSound();
    AlwaysAfter(INITIAL, labels);
    hide After, PotName, HasParts, DestroyInv, SpawnInv, Vacant, SoundStore, SoundLog, SoundCallers;
    LifeSound(s, h);
  }

  // ---- tidy runs and orderly runs

  /** Every step of the run is enabled and deletes in order. */
  predicate Tidy(s: State, labels: seq<Label>)
    requires Sound(s)
    decreases |labels|
  {
    labels == [] ||
    (Next(s, labels[0]).Some? && DeletesInOrder(s, labels[0]) &&
     (SoundStep(s, labels[0]);
      Tidy(Next(s, labels[0]).value, labels[1..])))
  }

  /** Every step also lets `run` finish before `Wait` answers. */
  predicate Orderly(s: State, labels: seq<Label>)
    requires Sound(s)
    decreases |labels|
  {
    labels == [] ||
    (Next(s, labels[0]).Some? && RunFirst(s, labels[0]) && DeletesInOrder(s, labels[0]) &&
     (SoundStep(s, labels[0]);
      Orderly(Next(s, labels[0]).value, labels[1..])))
  }

  lemma {:induction false} OrderlyMore(s: State, labels: seq<Label>, l: Label)
    requires Sound(s) && Orderly(s, labels + [l])
    ensures Orderly(s, labels) && After(s, labels).Some?
    ensures var t := After(s, labels).value; Sound(t) && RunFirst(t, l) && DeletesInOrder(t, l) && Next(t, l).Some?
    decreases |labels|
  {
    hide Sound, Next, RunFirst, DeletesInOrder;
    if labels == [] {
      assert labels + [l] == [l];
    } else {
      assert (labels + [l])[0] == labels[0] && (labels + [l])[1..] == labels[1..] + [l];
      SoundStep(s, labels[0]);
      OrderlyMore(Next(s, labels[0]).value, labels[1..], l);
    }
  }

  /** The later conditions of all lives. */
  predicate Onward(s: State, t: State) {
    |s.lives| <= |t.lives| && forall h :: 0 <= h < |s.lives| ==> Later(s.lives[h], t.lives[h])
  }

  lemma {:induction false} TidyAfter(s: State, labels: seq<Label>)
    requires Always(s) && Own(s) && Tidy(s, labels)
    ensures After(s, labels).Some?
    ensures var t := After(s, labels).value; Always(t) && Own(t) && Onward(s, t)
    decreases |labels|
  {
    hide Always, Own, Advances, Onward, Next, DeletesInOrder;
    AlwaysSound(s);
    OnwardSame(s);
    if labels != [] {
      var next := Next(s, labels[0]).value;
      AlwaysStep(s, labels[0]);
      OwnStep(s, labels[0]);
      TidyAfter(next, labels[1..]);
      OnwardTransitive(s, next, After(s, labels).value);
    }
  }

  lemma {:induction false} OrderlyIsTidy(s: State, labels: seq<Label>)
    requires Sound(s) && Always(s) && Prompt(s) && Orderly(s, labels)
    ensures Tidy(s, labels) && (After(s, labels).Some? ==> Prompt(After(s, labels).value))
    decreases |labels|
  {
    hide Sound, Always, Next, Prompt, RunFirst, DeletesInOrder;
    if labels != [] {
      AlwaysSound(s);
      SoundStep(s, labels[0]);
      AlwaysStep(s, labels[0]);
      PromptStep(s, labels[0]);
      OrderlyIsTidy(Next(s, labels[0]).value, labels[1..]);
    }
  }

  lemma OwnAfter(s: State, labels: seq<Label>)
    requires Always(s) && Own(s) && Sound(s) && Prompt(s) && Orderly(s, labels)
    ensures After(s, labels).Some?
    ensures var t := After(s, labels).value; Always(t) && Own(t) && Onward(s, t) && Prompt(t)
  {
    hide Always, Own, Onward, Prompt, Orderly, Tidy, After;
    OrderlyIsTidy(s, labels);
    TidyAfter(s, labels);
  }

  lemma OnwardSame(s: State)
    ensures Onward(s, s)
  {
  }

  lemma OnwardTransitive(a: State, b: State, c: State)
    requires Advances(a, b) && Onward(b, c)
    ensures Onward(a, c)
  {
    hide Later, ShownBy;
    forall h | 0 <= h < |a.lives|
      ensures Later(a.lives[h], c.lives[h])
    {
      LaterTransitive(a.lives[h], b.lives[h], c.lives[h]);
    }
  }

  lemma LaterTransitive(a: Life, b: Life, c: Life)
    requires Later(a, b) && Later(b, c)
    ensures Later(a, c)
  {
  }

  /** What Nomad sees of a task. */
  datatype Phase = Absent | Present(state: ProcState)

  function PhaseOf(s: State, id: TaskId): Phase
    requires Sound(s)
  {
    if id in s.store then Present(s.lives[s.store[id]].handle.procState) else Absent
  }

  /** The life cycle of a task; only a forced destroy may drop a running one. */
  predicate Edge(a: Phase, b: Phase, forced: bool) {
    || a == b
    || (a == Absent && b == Present(Running))
    || (a == Present(Running) && b == Present(Exited))
    || (a == Present(Exited) && b == Absent)
    || (forced && a == Present(Running) && b == Absent)
  }

  /** In an orderly run every step that deletes in order takes every task along an edge of its life cycle, or leaves it
      where it is. */
  lemma RefinesLifeCycle(s: State, l: Label, id: TaskId)
    requires Always(s) && Own(s) && Prompt(s) && Next(s, l).Some? && DeletesInOrder(s, l)
    ensures Sound(s) && Sound(Next(s, l).value)
    ensures Edge(PhaseOf(s, id), PhaseOf(Next(s, l).value, id), Forced(s, l))
    ensures PhaseOf(s, id) != Present(Unknown)
  {
    hide Always, Next, Proper, DestroyInv, SpawnInv, Vacant, SoundLives, SoundLog, PotName, HasParts;
    hide Moves, Prompt;
    AlwaysSound(s);
    var next := Next(s, l).value;
    SoundStep(s, l);
    StoreStep(s, l);
    OwnStep(s, l);
    if id in s.store {
      PhaseProper(s, s.store[id]);
      assert !s.lives[s.store[id]].late by { PromptLife(s, s.store[id]); }
      if id in next.store && next.store[id] == s.store[id] {
        StateMoves(s, next, s.store[id]);
      } else {
        assert Deletes(s, l, s.store[id]);
        assert Informed(s, l.n);
        assert Kept(s, s.store[id]);
      }
    } else if id in next.store {
      PhaseProper(next, next.store[id]);
    }
  }

  lemma PromptLife(s: State, h: nat)
    requires Prompt(s) && h < |s.lives|
    ensures !s.lives[h].late
  {
  }

  /** A handle stays what it is, or exits. */
  lemma StateMoves(s: State, next: State, h: nat)
    requires Own(s) && Own(next) && Prompt(s) && Advances(s, next) && h < |s.lives|
    ensures var (a, b) := (s.lives[h].handle.procState, next.lives[h].handle.procState);
      a == b || (a == Running && b == Exited)
  {
    hide Proper, ShownBy;
    PhaseProper(s, h);
    PhaseProper(next, h);
    assert Moves(s.lives[h], next.lives[h]);
  }

  lemma PhaseProper(s: State, h: nat)
    requires Own(s) && h < |s.lives|
    ensures var life := s.lives[h];
      && life.handle.procState != Unknown
      && (life.waiter.NotSpawned? ==> life.handle.procState == Running)
      && (life.handle.procState == Exited && !life.late ==> !RunPending(life.run))
      && (life.handle.procState == Exited ==> life.waiter.Fetched() && !life.run.Unspawned?)
      && (life.run.Publishing? ==> life.handle.exitResult.Some?)
      && (life.waiter.Fetched() && !life.late && life.handle.procState == Running ==> life.waiter.BeforeExit())
  {
    assert Proper(s.lives[h], h);
  }

  /** Over a whole orderly run from the start of the driver: a handle once exited stays exited however it goes on. */
  lemma ExitedForGood(before: seq<Label>, after: seq<Label>, h: nat)
    requires Sound(INITIAL) && Orderly(INITIAL, before) && After(INITIAL, before).Some?
    requires var s := After(INITIAL, before).value; Sound(s) && Tidy(s, after) && h < |s.lives|
    ensures var s := After(INITIAL, before).value;
      && After(s, after).Some? && h < |After(s, after).value.lives|
      && (s.lives[h].handle.procState == Exited ==> After(s, after).value.lives[h].handle.procState == Exited)
  {
    InitialSound();
    OwnAfter(INITIAL, before);
    hide Orderly, PotName, HasParts, DestroyInv, SpawnInv, Vacant, SoundLives, SoundStore, SoundLog, SoundCallers;
    var s := After(INITIAL, before).value;
    TidyAfter(s, after);
    PhaseProper(s, h);
    hide After, Tidy;
    assert Later(s.lives[h], After(s, after).value.lives[h]);
  }

  /** Some way for the run to go on tidily takes the handle back to running. */
  ghost predicate CanRevive(s: State, h: nat)
    requires Sound(s)
  {
    exists more :: Tidy(s, more) && After(s, more).Some? && IsRunning(After(s, more).value, h)
  }

  predicate IsRunning(s: State, h: nat) {
    h < |s.lives| && s.lives[h].handle.procState == Running
  }

  /** Exactly when an exited handle can be running again: while its `run` is yet to publish, because `Wait` answered
      early. */
  lemma RevivesIffPending(labels: seq<Label>, s: State, h: nat)
    requires Sound(INITIAL) && Tidy(INITIAL, labels) && After(INITIAL, labels) == Some(s)
    requires !s.crashed && h < |s.lives| && s.lives[h].handle.procState == Exited
    ensures Sound(s)
    ensures CanRevive(s, h) <==> RunPending(s.lives[h].run)
  {
    InitialSound();
    TidyAfter(INITIAL, labels);
    AlwaysSound(s);
    PhaseProper(s, h);
    hide After, Tidy, Always, Own, PotName, HasParts;
    if RunPending(s.lives[h].run) {
      RunRevives(s, h);
    } else {
      forall more | Tidy(s, more) && After(s, more).Some?
        ensures !IsRunning(After(s, more).value, h)
      {
        TidyAfter(s, more);
        assert Later(s.lives[h], After(s, more).value.lives[h]);
      }
    }
  }

  lemma RunRevives(s: State, h: nat)
    requires Sound(s) && Own(s) && !s.crashed && h < |s.lives|
    requires s.lives[h].run.Allocating? || s.lives[h].run.Publishing?
    ensures CanRevive(s, h)
  {
    hide PotName, HasParts, Sound, Own, Tidy, After;
    PhaseProper(s, h);
    LifeSound(s, h);
    if s.lives[h].run.Allocating? {
      var mid := Next(s, RunStep(h)).value;
      SoundStep(s, RunStep(h));
      OneStep(mid, RunStep(h));
      TwoSteps(s, RunStep(h), RunStep(h));
      assert IsRunning(After(s, [RunStep(h), RunStep(h)]).value, h);
    } else {
      OneStep(s, RunStep(h));
      assert IsRunning(After(s, [RunStep(h)]).value, h);
    }
  }

  lemma OneStep(s: State, l: Label)
    requires Sound(s) && Next(s, l).Some? && DeletesInOrder(s, l)
    ensures Tidy(s, [l]) && After(s, [l]) == Next(s, l)
  {
    hide Sound, Next, DeletesInOrder;
    SoundStep(s, l);
    assert [l][1..] == [];
  }

  lemma TwoSteps(s: State, l: Label, m: Label)
    requires Sound(s) && Next(s, l).Some? && DeletesInOrder(s, l)
    requires Sound(Next(s, l).value) && Next(Next(s, l).value, m).Some? && DeletesInOrder(Next(s, l).value, m)
    ensures Tidy(s, [l, m]) && After(s, [l, m]) == Next(Next(s, l).value, m)
  {
    hide Sound, Next, DeletesInOrder;
    assert [l, m][1..] == [m];
    OneStep(Next(s, l).value, m);
  }

  /** The waiter of an adopted pot has been told of a failure, and has no result record to store it in. */
  predicate Recordless(s: State, h: nat) {
    h < |s.lives| && s.lives[h].kind.Adopted? && s.lives[h].waiter.PotFailing?
  }

  /** In an orderly run the plugin crashes only there, or over a command that cannot be started. */
  lemma CrashesOnly(s: State, l: Label)
    requires Always(s) && Own(s) && Prompt(s) && Next(s, l).Some?
    requires Next(s, l).value.crashed
    ensures (l.WaiterStep? && Recordless(s, l.h)) || l.CannotStart?
  {
    hide Own, DestroyInv, SpawnInv, Vacant, SoundLives, SoundLog, SoundStore, PotName, HasParts;
    hide WaiterNext, StarterAct, CallerAct, RunAct;
    if l.WaiterStep? {
      LifeSound(s, l.h);
      WaiterOwn(s, l.h, l.wait, l.stats, l.alive);
    }
  }

  /** Over a whole orderly run: the plugin crashes at a step of the waiter of an adopted pot that has been told of a
      failure, at a command that cannot be started, and nowhere else. */
  lemma CrashesIff(labels: seq<Label>, s: State, l: Label)
    requires Sound(INITIAL) && Orderly(INITIAL, labels) && After(INITIAL, labels) == Some(s) && !s.crashed
    ensures Sound(s)
    ensures Next(s, l).Some? ==>
      (Next(s, l).value.crashed <==> (l.WaiterStep? && Recordless(s, l.h)) || l.CannotStart?)
  {
    InitialSound();
    OwnAfter(INITIAL, labels);
    AlwaysSound(s);
    if Next(s, l).None? { return; }
    hide After, Orderly, Always, Own, Prompt, PotName, HasParts, WaiterNext, StarterNext, CallerNext, RunAct;
    if Next(s, l).value.crashed {
      CrashesOnly(s, l);
    } else if l.WaiterStep? && Recordless(s, l.h) {
      AdoptedCrashes(s, l.h, l.wait, l.stats, l.alive);
    }
  }

  ghost predicate CanCrash(s: State)
    requires Sound(s)
  {
    exists l :: Next(s, l).Some? && Next(s, l).value.crashed
  }

  /** So it can crash at the next step exactly when there is such a waiter, or somebody is about to launch a destroy, a
      pot, a signal or statistics. */
  lemma CanCrashIff(labels: seq<Label>, s: State)
    requires Sound(INITIAL) && Orderly(INITIAL, labels) && After(INITIAL, labels) == Some(s) && !s.crashed
    ensures Sound(s)
    ensures CanCrash(s) <==>
      (exists h :: 0 <= h < |s.lives| && Recordless(s, h)) || exists who :: AboutToLaunch(s, who)
  {
    InitialSound();
    OwnAfter(INITIAL, labels);
    AlwaysSound(s);
    hide After, Orderly, Always, Own, Prompt, PotName, HasParts, Sound, WaiterNext, StarterNext, CallerNext, RunAct;
    if h :| 0 <= h < |s.lives| && Recordless(s, h) {
      AdoptedCrashes(s, h, Success, None, false);
      assert Next(s, WaiterStep(h, Success, None, false)).value.crashed;
    } else if who :| AboutToLaunch(s, who) {
      assert Next(s, CannotStart(who)).value.crashed;
    } else {
      forall l | Next(s, l).Some?
        ensures !Next(s, l).value.crashed
      {
        CrashesIff(labels, s, l);
      }
    }
  }

  /** A waiter without a record does crash. */
  lemma AdoptedCrashes(s: State, h: nat, wait: Outcome, stats: Option<int>, alive: bool)
    requires Always(s) && Own(s) && !s.crashed && h < |s.lives|
    requires Recordless(s, h)
    ensures Next(s, WaiterStep(h, wait, stats, alive)) == Some(s.Crash())
  {
    hide DestroyInv, SpawnInv, Vacant, PotName, HasParts;
    LifeSound(s, h);
    assert Proper(s.lives[h], h);
  }
}
