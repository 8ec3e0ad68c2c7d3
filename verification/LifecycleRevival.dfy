/** When an exited handle can be running again, in any run and however it goes on. */
module LifecycleRevival {
  import opened Options
  import opened Naming
  import opened Host
  import opened Handles
  import opened Lifecycle
  import opened LifecycleSound
  import opened LifecycleDestroy
  import opened LifecycleCodes
  import opened LifecycleRuns
  import opened LifecycleStarts

  /** A `run` that is not spawned has a starter about to spawn it; one about to publish has a record to publish in. */
  predicate Spawnable(s: State, h: nat)
    requires h < |s.lives|
  {
    && (s.lives[h].run.Unspawned? ==> StarterOf(s, s.lives[h].id) == Some(SpawningRun(h)))
    && (s.lives[h].run.Publishing? ==> s.lives[h].handle.exitResult.Some?)
  }

  predicate AllSpawnable(s: State) {
    forall h :: 0 <= h < |s.lives| ==> Spawnable(s, h)
  }

  /** The starter that registers a fresh handle goes on to spawn its `run`, and has then done so. */
  lemma StarterSpawnsRun(s: State, id: TaskId, st: Starter, yes: bool)
    requires Touching(st) ==> AwaitsSpawn(s, id, st)
    ensures var (e, next) := StarterAct(s, id, st, yes);
      && s.Fits(e)
      && (e.change.Born? ==>
            e.change.life.id == id && (e.change.life.run.Unspawned? ==> next == Some(SpawningRun(|s.lives|))))
      && (st.SpawningRun? ==> e.change.Touch? && e.change.h == st.h && !e.change.life.run.Unspawned?)
      && (next.Some? && next.value.RecTouching? ==> next.value.h == |s.lives|)
  {
    hide PotName, HasParts;
  }

  lemma SpawnableStep(s: State, l: Label)
    requires Sound(s) && SpawnInv(s) && AllSpawnable(s) && Next(s, l).Some?
    ensures AllSpawnable(Next(s, l).value)
  {
    hide Sound, SpawnInv, Next;
    var next := Next(s, l).value;
    CodesStep(s, l);
    SoundStep(s, l);
    forall h | 0 <= h < |next.lives|
      ensures Spawnable(next, h)
    {
      if h < |s.lives| {
        assert Spawnable(s, h) && CodesAt(s, l, h, next.lives[h]) && SameTask(s.lives[h], next.lives[h]);
        if next.lives[h].run.Unspawned? { SpawnerStays(s, l, h); }
      } else {
        NewMoved(s, l, next, h);
        NewSpawnable(s, l, h);
      }
    }
  }

  lemma NewMoved(s: State, l: Label, next: State, h: nat)
    requires CodesMove(s, l, next) && |s.lives| <= h < |next.lives|
    ensures l.StarterStep? && NewCodes(next.lives[h])
  {
  }

  lemma SpawnerStays(s: State, l: Label, h: nat)
    requires Sound(s) && SpawnInv(s) && Next(s, l).Some? && h < |s.lives| && h < |Next(s, l).value.lives|
    requires StarterOf(s, s.lives[h].id) == Some(SpawningRun(h)) && Next(s, l).value.lives[h].run.Unspawned?
    ensures StarterOf(Next(s, l).value, s.lives[h].id) == Some(SpawningRun(h))
  {
    hide PotName, HasParts, SoundStore, SoundLives, SoundLog, WaiterNext, CallerNext, StarterAct, RunAct, Track;
    var id := s.lives[h].id;
    if l.StarterStep? && l.id == id {
      assert AwaitsSpawn(s, id, s.starters[id]);
      StarterSpawnsRun(s, id, s.starters[id], l.yes);
    } else {
      ElsewhereSame(s, l, id);
    }
  }

  lemma NewSpawnable(s: State, l: Label, h: nat)
    requires Sound(s) && SpawnInv(s) && Next(s, l).Some? && |s.lives| <= h < |Next(s, l).value.lives|
    requires l.StarterStep? && NewCodes(Next(s, l).value.lives[h])
    ensures Spawnable(Next(s, l).value, h)
  {
    hide PotName, HasParts, Sound, StarterAct;
    if Touching(s.starters[l.id]) { assert AwaitsSpawn(s, l.id, s.starters[l.id]); }
    StarterSpawnsRun(s, l.id, s.starters[l.id], l.yes);
    var (e, step) := StarterAct(s, l.id, s.starters[l.id], l.yes);
    var next := Next(s, l).value;
    assert next == s.Apply(e).Steer(l.id, step);
    assert e.change.Born? && h == |s.lives| && next.lives[h] == e.change.life;
  }

  lemma {:induction false} SpawnableAfter(s: State, labels: seq<Label>)
    requires Always(s) && Sound(s) && AllSpawnable(s) && After(s, labels).Some?
    ensures AllSpawnable(After(s, labels).value)
    decreases |labels|
  {
    hide Always, Sound, AllSpawnable, Next;
    if labels != [] {
      AlwaysSound(s);
      SoundStep(s, labels[0]);
      AlwaysStep(s, labels[0]);
      SpawnableStep(s, labels[0]);
      SpawnableAfter(Next(s, labels[0]).value, labels[1..]);
    }
  }

  /** The recovery that registered the handle is about to set it running. */
  predicate Retouched(s: State, h: nat)
    requires h < |s.lives|
  {
    StarterOf(s, s.lives[h].id) == Some(RecTouching(h))
  }

  /** Exited, and with nobody left to set it running. */
  predicate Dormant(s: State, h: nat) {
    h < |s.lives| && s.lives[h].handle.procState == Exited && !RunPending(s.lives[h].run) && !Retouched(s, h)
  }

  lemma DormantStep(s: State, l: Label, h: nat)
    requires Always(s) && Dormant(s, h) && Next(s, l).Some?
    ensures Dormant(Next(s, l).value, h)
  {
    hide Always, Sound, Next, SpawnInv;
    AlwaysSound(s);
    CodesStep(s, l);
    SoundStep(s, l);
    var next := Next(s, l).value;
    assert CodesAt(s, l, h, next.lives[h]) && SameTask(s.lives[h], next.lives[h]);
    LifeSound(next, h);
    if Touched(s, l, h) { TouchedIsRetouched(s, l, h); }
    StaysUntouched(s, l, h);
  }

  lemma TouchedIsRetouched(s: State, l: Label, h: nat)
    requires SpawnInv(s) && Touched(s, l, h) && h < |s.lives|
    ensures Retouched(s, h)
  {
    hide PotName, HasParts;
    assert AwaitsSpawn(s, l.id, s.starters[l.id]);
  }

  lemma StaysUntouched(s: State, l: Label, h: nat)
    requires Sound(s) && SpawnInv(s) && Next(s, l).Some? && h < |s.lives| && !Retouched(s, h)
    requires h < |Next(s, l).value.lives| && Next(s, l).value.lives[h].id == s.lives[h].id
    ensures !Retouched(Next(s, l).value, h)
  {
    hide PotName, HasParts, SoundStore, SoundLives, SoundLog, WaiterNext, CallerNext, StarterAct, RunAct, Track;
    var id := s.lives[h].id;
    if l.StarterStep? && l.id == id {
      if Touching(s.starters[id]) { assert AwaitsSpawn(s, id, s.starters[id]); }
      StarterSpawnsRun(s, id, s.starters[id], l.yes);
    } else if !((l.CallStart? || l.CallRecover? || l.CreateMore?) && l.id == id) {
      ElsewhereSame(s, l, id);
    }
  }

  lemma {:induction false} DormantAfter(s: State, labels: seq<Label>, h: nat)
    requires Always(s) && Sound(s) && Dormant(s, h) && After(s, labels).Some?
    ensures Dormant(After(s, labels).value, h)
    decreases |labels|
  {
    hide Always, Sound, Dormant, Next;
    if labels != [] {
      SoundStep(s, labels[0]);
      AlwaysStep(s, labels[0]);
      DormantStep(s, labels[0], h);
      DormantAfter(Next(s, labels[0]).value, labels[1..], h);
    }
  }

  /** Some way for the run to go on takes the handle back to running. */
  ghost predicate CanRun(s: State, h: nat)
    requires Sound(s)
  {
    exists more :: After(s, more).Some? && IsRunning(After(s, more).value, h)
  }

  lemma AfterFirst(s: State, l: Label, rest: seq<Label>)
    requires Sound(s) && Next(s, l).Some? && Sound(Next(s, l).value)
    ensures After(s, [l] + rest) == After(Next(s, l).value, rest)
  {
    hide Sound, Next;
    assert ([l] + rest)[1..] == rest;
  }

  lemma TouchRuns(s: State, h: nat)
    requires Sound(s) && !s.crashed && h < |s.lives| && Retouched(s, h)
    ensures CanRun(s, h)
  {
    hide PotName, HasParts, Sound, After;
    var l := StarterStep(s.lives[h].id, true);
    SoundStep(s, l);
    AfterFirst(s, l, []);
    AfterNothing(Next(s, l).value);
    assert IsRunning(After(s, [l] + []).value, h);
  }

  function Stage(r: RunPc): nat {
    match r
    case Unspawned => 2
    case Allocating => 1
    case _ => 0
  }

  /** The step that brings a pending `run` nearer to publishing. */
  function Nearer(s: State, h: nat): Label
    requires h < |s.lives|
  {
    if s.lives[h].run.Unspawned? then StarterStep(s.lives[h].id, true) else RunStep(h)
  }

  lemma NearerStep(s: State, h: nat)
    requires Sound(s) && !s.crashed && h < |s.lives| && RunPending(s.lives[h].run) && Spawnable(s, h)
    ensures var next := Next(s, Nearer(s, h));
      && next.Some? && !next.value.crashed && h < |next.value.lives|
      && (s.lives[h].run.Publishing? ==> IsRunning(next.value, h))
      && (!s.lives[h].run.Publishing? ==>
            && RunPending(next.value.lives[h].run) && Stage(next.value.lives[h].run) < Stage(s.lives[h].run)
            && Spawnable(next.value, h))
  {
    hide PotName, HasParts, SoundStore, SoundCallers, SoundLog;
    LifeSound(s, h);
  }

  lemma {:induction false} PendingRuns(s: State, h: nat) returns (more: seq<Label>)
    requires Sound(s) && !s.crashed && h < |s.lives| && RunPending(s.lives[h].run) && Spawnable(s, h)
    ensures After(s, more).Some? && IsRunning(After(s, more).value, h)
    decreases Stage(s.lives[h].run)
  {
    hide PotName, HasParts, Sound, Next, After, Spawnable;
    var l := Nearer(s, h);
    NearerStep(s, h);
    SoundStep(s, l);
    var next := Next(s, l).value;
    var rest := [];
    if s.lives[h].run.Publishing? { AfterNothing(next); } else { rest := PendingRuns(next, h); }
    AfterFirst(s, l, rest);
    more := [l] + rest;
  }

  /** In every run, and however it goes on: an exited handle can be running again exactly if its `run` is yet to
      publish, or the recovery that registered it is yet to set it running. */
  lemma RevivesIff(labels: seq<Label>, s: State, h: nat)
    requires Sound(INITIAL) && After(INITIAL, labels) == Some(s)
    requires !s.crashed && h < |s.lives| && s.lives[h].handle.procState == Exited
    ensures Sound(s)
    ensures CanRun(s, h) <==> RunPending(s.lives[h].run) || Retouched(s, h)
  {
    InitialSound();
    AlwaysAfter(INITIAL, labels);
    SpawnableAfter(INITIAL, labels);
    AlwaysSound(s);
    hide After, Always, Sound, PotName, HasParts;
    if RunPending(s.lives[h].run) {
      var more := PendingRuns(s, h);
    } else if Retouched(s, h) {
      TouchRuns(s, h);
    } else {
      forall more | After(s, more).Some?
        ensures !IsRunning(After(s, more).value, h)
      {
        DormantAfter(s, more, h);
      }
    }
  }

  // ---- a run in which a recovery revives a handle

  /** A run from the start of the driver, and what it has led to but for the log. */
  predicate Leads(labels: seq<Label>, t: State, store: map<TaskId, nat>, lives: seq<Life>,
                  starters: map<TaskId, Starter>, callers: map<nat, Call>) {
    && Sound(INITIAL) && Sound(t) && After(INITIAL, labels) == Some(t) && !t.crashed
    && t.store == store && t.lives == lives && t.starters == starters && t.callers == callers
  }

  lemma Goes(labels: seq<Label>, t: State, l: Label, store: map<TaskId, nat>, lives: seq<Life>,
             starters: map<TaskId, Starter>, callers: map<nat, Call>) returns (more: seq<Label>, next: State)
    requires Sound(INITIAL) && Sound(t) && After(INITIAL, labels) == Some(t) && Next(t, l).Some?
    requires var next := Next(t, l).value;
      && !next.crashed && next.store == store && next.lives == lives
      && next.starters == starters && next.callers == callers
    ensures Leads(more, next, store, lives, starters, callers)
  {
    hide Sound, Next;
    more, next := labels + [l], Next(t, l).value;
    AfterMore(INITIAL, labels, l);
    SoundStep(t, l);
  }

  /** A handle that a recovery has registered. */
  function Retaking(id: TaskId): Life {
    Life(id, Recovered(id, 0), Retaken, NoRun, NotSpawned, None, 0, None, None, false)
  }

  lemma RecoversHalf(labels: seq<Label>, t: State, id: TaskId, lives: seq<Life>) returns (more: seq<Label>, next: State)
    requires Leads(labels, t, map[], lives, map[], map[])
    ensures Leads(more, next, map[], lives, map[id := RecSaving], map[])
  {
    hide Sound, After, PotName, HasParts;
    more, next := Goes(labels, t, CallRecover(id), map[], lives, map[id := RecGetting], map[]);
    more, next := Goes(more, next, StarterStep(id, true), map[], lives, map[id := RecChecking], map[]);
    more, next := Goes(more, next, StarterStep(id, true), map[], lives, map[id := RecSaving], map[]);
  }

  lemma Recovers(labels: seq<Label>, t: State, id: TaskId, lives: seq<Life>) returns (more: seq<Label>, next: State)
    requires Leads(labels, t, map[], lives, map[], map[])
    ensures Leads(more, next, map[id := |lives|], lives + [Retaking(id)], map[id := RecTouching(|lives|)], map[])
  {
    hide Sound, After, PotName, HasParts;
    more, next := RecoversHalf(labels, t, id, lives);
    more, next := Goes(more, next, StarterStep(id, true), map[], lives, map[id := RecSetting], map[]);
    more, next := Goes(more, next, StarterStep(id, true), map[id := |lives|], lives + [Retaking(id)],
                       map[id := RecTouching(|lives|)], map[]);
  }

  /** The first recovery comes to its end. */
  lemma FirstPolls(id: TaskId) returns (labels: seq<Label>, t: State)
    ensures Leads(labels, t, map[id := 0], [Retaking(id).(waiter := Polling)], map[], map[])
  {
    hide After, PotName, HasParts, Sound;
    InitialSound();
    AfterNothing(INITIAL);
    labels, t := Recovers([], INITIAL, id, []);
    assert [] + [Retaking(id)] == [Retaking(id)];
    labels, t := Goes(labels, t, StarterStep(id, true), map[id := 0], [Retaking(id)], map[id := SpawningWait(0)],
                      map[]);
    assert map[id := SpawningWait(0)] - {id} == map[];
    labels, t := Goes(labels, t, StarterStep(id, true), map[id := 0], [Retaking(id).(waiter := Polling)], map[], map[]);
  }

  /** A forced destroy takes its handle out of the store. */
  lemma ForcedOut(labels: seq<Label>, t: State, id: TaskId, lives: seq<Life>) returns (more: seq<Label>, next: State)
    requires Leads(labels, t, map[id := 0], lives, map[], map[]) && |lives| > 0
    ensures Leads(more, next, map[], lives, map[], map[])
  {
    hide Sound, After, PotName, HasParts;
    var inspecting, deleting := DestroyInspecting(id, true, 0), DestroyDeleting(id, true, 0);
    more, next := Goes(labels, t, CallDestroy(1, id, true), map[id := 0], lives, map[], map[1 := inspecting]);
    more, next := Goes(more, next, CallerStep(1, 0), map[id := 0], lives, map[], map[1 := deleting]);
    assert map[id := 0] - {id} == map[] && map[1 := deleting] - {1} == map[];
    more, next := Goes(more, next, CallerStep(1, 0), map[], lives, map[], map[]);
  }

  function MarkedExited(id: TaskId): Life {
    Retaking(id).(handle := Recovered(id, 0).(procState := Exited))
  }

  /** The waiter that has lost its handle finds the new one, and marks it exited. */
  lemma StrangerMarks(labels: seq<Label>, t: State, id: TaskId, starters: map<TaskId, Starter>)
    returns (more: seq<Label>, next: State)
    requires Leads(labels, t, map[id := 1], [Retaking(id).(waiter := Polling), Retaking(id)], starters, map[])
    ensures Leads(more, next, map[id := 1], [Retaking(id).(waiter := RecAsking(1)), MarkedExited(id)], starters, map[])
  {
    hide Sound, After, PotName, HasParts;
    var store, l := map[id := 1], WaiterStep(0, Success, None, false);
    LifeSound(t, 0);
    more, next := Goes(labels, t, l, store, [Retaking(id).(waiter := RecFetching), Retaking(id)], starters, map[]);
    LifeSound(next, 0);
    more, next := Goes(more, next, l, store, [Retaking(id).(waiter := RecExiting(1)), Retaking(id)], starters, map[]);
    LifeSound(next, 0);
    more, next := Goes(more, next, l, store, [Retaking(id).(waiter := RecAsking(1)), MarkedExited(id)], starters,
                       map[]);
  }

  /** A handle without a `run` has exited, and the step of its recovery sets it running. */
  predicate Resurrects(s: State, h: nat, id: TaskId) {
    && Sound(s) && h < |s.lives| && s.lives[h].handle.procState == Exited && s.lives[h].run.NoRun? && Retouched(s, h)
    && Next(s, StarterStep(id, true)).Some? && IsRunning(Next(s, StarterStep(id, true)).value, h)
  }

  /** A forced destroy, a second recovery, and the waiter of the first one: the second recovery revives a handle. */
  lemma RecoveryRevives(id: TaskId)
    ensures exists labels, s :: Sound(INITIAL) && After(INITIAL, labels) == Some(s) && Resurrects(s, 1, id)
  {
    hide Sound, After, PotName, HasParts;
    var labels, t := FirstPolls(id);
    var first := Retaking(id).(waiter := Polling);
    labels, t := ForcedOut(labels, t, id, [first]);
    labels, t := Recovers(labels, t, id, [first]);
    assert [first] + [Retaking(id)] == [first, Retaking(id)];
    labels, t := StrangerMarks(labels, t, id, map[id := RecTouching(1)]);
    assert Resurrects(t, 1, id);
  }
}
