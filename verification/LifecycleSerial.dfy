/**
 When destroy calls are orderly: none forced, and those of one task one after the other. Then no waiter ever loses its
 handle, whatever else runs at the same time.
 */
module LifecycleSerial {
  import opened Options
  import opened Naming
  import opened Host
  import opened Lifecycle
  import opened LifecycleSound
  import opened LifecycleDestroy
  import opened LifecycleOwn
  import opened LifecycleCodes
  import opened LifecycleRuns

  predicate Destroying(call: Call) {
    call.DestroyInspecting? || call.DestroyDeleting?
  }

  /** A destroy call is unforced, and comes when no other destroy call of the task is in progress. */
  predicate Serial(s: State, l: Label) {
    l.CallDestroy? ==>
      !l.force && forall n :: n in s.callers && Destroying(s.callers[n]) ==> s.callers[n].id != l.id
  }

  /** The handle a destroy call looked up is still the one in the store. */
  predicate AtWork(s: State, call: Call)
    requires Destroying(call)
  {
    !call.force && call.id in s.store && s.store[call.id] == call.h
  }

  predicate SameDestroy(a: Call, b: Call) {
    Destroying(a) && Destroying(b) && a.id == b.id
  }

  /** And no other destroy call of the task is in progress. */
  predicate Steady(s: State) {
    && (forall n :: n in s.callers && Destroying(s.callers[n]) ==> AtWork(s, s.callers[n]))
    && (forall n, m :: n in s.callers && m in s.callers && SameDestroy(s.callers[n], s.callers[m]) ==> n == m)
  }

  lemma SteadyInOrder(s: State, l: Label)
    requires Steady(s)
    ensures DeletesInOrder(s, l)
  {
    hide PotName, HasParts;
    if Deleting(s, l) { assert AtWork(s, s.callers[l.n]); }
  }

  predicate Inspected(a: Call, b: Call) {
    a.DestroyInspecting? && b == DestroyDeleting(a.id, a.force, a.h)
  }

  /** How a step changes the calls in progress. */
  lemma CallersStep(s: State, l: Label)
    requires Sound(s) && Next(s, l).Some?
    ensures var next := Next(s, l).value.callers;
      || (!l.CallerStep? && next == s.callers)
      || (l.CallerStep? && l.n in s.callers && next == s.callers - {l.n})
      || (l.CallerStep? && l.n in s.callers && l.n in next && next == s.callers[l.n := next[l.n]]
          && (Destroying(next[l.n]) ==> Inspected(s.callers[l.n], next[l.n])))
      || ((l.CallStop? || l.CallUse?) && l.n !in s.callers && l.n in next && next == s.callers[l.n := next[l.n]]
          && !Destroying(next[l.n]))
      || (l.CallDestroy? && l.n !in s.callers && l.id in s.store
          && next == s.callers[l.n := DestroyInspecting(l.id, l.force, s.store[l.id])])
  {
    hide PotName, HasParts, SoundStore, SoundLives, SoundLog, WaiterAct, StarterAct, RunAct, Perform, Fetch, Poll;
    if l.WaiterStep? {
      WaiterCallers(s, l);
    }
  }

  lemma WaiterCallers(s: State, l: Label)
    requires Sound(s) && l.WaiterStep? && Next(s, l).Some?
    ensures Next(s, l).value.callers == s.callers
  {
    hide PotName, HasParts, WaiterAct, Sound, Perform, Fetch;
    LifeSound(s, l.h);
    var w := s.lives[l.h].waiter;
    LookingCallers(s, l.h);
    if w.Fetched() {
      var a := WaiterAct(l.h, s.lives[l.h], s.lives[w.target], l.wait, l.stats);
      if a.Acting? { PerformCallers(s, l.h, w.target, a); }
    }
  }

  lemma LookingCallers(s: State, h: nat)
    requires h < |s.lives|
    ensures Fetch(s, h).callers == s.callers
  {
    hide PotName, HasParts;
  }

  lemma PerformCallers(s: State, h: nat, t: nat, a: Act)
    requires h < |s.lives| && t < |s.lives| && a.Acting?
    ensures Perform(s, h, t, a).callers == s.callers
  {
    hide PotName, HasParts;
  }

  lemma SteadyStep(s: State, l: Label)
    requires Always(s) && Steady(s) && Serial(s, l) && Next(s, l).Some?
    ensures Steady(Next(s, l).value)
  {
    hide PotName, HasParts, Next, Sound, DestroyInv, SpawnInv, Vacant;
    AlwaysSound(s);
    CallersStep(s, l);
    StoreStep(s, l);
    var next := Next(s, l).value;
    forall n | n in next.callers && Destroying(next.callers[n])
      ensures AtWork(next, next.callers[n])
    {
      if n in s.callers && Destroying(s.callers[n]) { assert AtWork(s, s.callers[n]); }
    }
  }

  /** Every step of the run is enabled and destroys serially. */
  predicate Serials(s: State, labels: seq<Label>)
    requires Sound(s)
    decreases |labels|
  {
    labels == [] ||
    (Next(s, labels[0]).Some? && Serial(s, labels[0]) &&
     (SoundStep(s, labels[0]);
      Serials(Next(s, labels[0]).value, labels[1..])))
  }

  lemma {:induction false} SerialIsTidy(s: State, labels: seq<Label>)
    requires Always(s) && Sound(s) && Steady(s) && Serials(s, labels)
    ensures Tidy(s, labels) && (After(s, labels).Some? ==> Steady(After(s, labels).value))
    decreases |labels|
  {
    hide Always, Sound, Next, Steady, DeletesInOrder, Serial;
    if labels != [] {
      AlwaysStep(s, labels[0]);
      AlwaysSound(Next(s, labels[0]).value);
      SteadyInOrder(s, labels[0]);
      SteadyStep(s, labels[0]);
      SerialIsTidy(Next(s, labels[0]).value, labels[1..]);
    }
  }

  /** If no destroy is forced and those of one task are serialised, the lookup of every waiter finds its own handle. */
  lemma WaiterFindsOwn(labels: seq<Label>, s: State, h: nat, wait: Outcome, stats: Option<int>, alive: bool)
    requires Sound(INITIAL) && Serials(INITIAL, labels) && After(INITIAL, labels) == Some(s)
    requires !s.crashed && h < |s.lives| && (s.lives[h].waiter.PotFetching? || s.lives[h].waiter.RecFetching?)
    ensures Sound(s) && Next(s, WaiterStep(h, wait, stats, alive)).Some?
    ensures FindsOwn(Next(s, WaiterStep(h, wait, stats, alive)).value, h)
  {
    InitialSound();
    SerialIsTidy(INITIAL, labels);
    TidyAfter(INITIAL, labels);
    hide Tidy, After, Serials, PotName, HasParts, Always;
    AlwaysSound(s);
    LifeSound(s, h);
    assert Kept(s, h);
  }

  /** And as long as `Wait` has answered nobody early, every step takes every task along an edge of the life cycle that
      no force is needed for. */
  lemma FollowsLifeCycle(labels: seq<Label>, s: State, l: Label, id: TaskId)
    requires Sound(INITIAL) && Serials(INITIAL, labels) && After(INITIAL, labels) == Some(s)
    requires Sound(s) && Prompt(s) && Next(s, l).Some? && Serial(s, l)
    ensures Sound(Next(s, l).value)
    ensures Edge(PhaseOf(s, id), PhaseOf(Next(s, l).value, id), false)
    ensures Next(s, l).value.crashed ==> (l.WaiterStep? && Recordless(s, l.h)) || l.CannotStart?
  {
    InitialSound();
    SerialIsTidy(INITIAL, labels);
    TidyAfter(INITIAL, labels);
    hide Tidy, After, Serials, PotName, HasParts, Always, Own, Next, Edge, PhaseOf, Prompt;
    SteadyInOrder(s, l);
    RefinesLifeCycle(s, l, id);
    assert !Forced(s, l) by {
      if Deleting(s, l) { assert AtWork(s, s.callers[l.n]); }
    }
    if Next(s, l).value.crashed { CrashesOnly(s, l); }
  }
}
