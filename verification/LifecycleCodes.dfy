/** What one step does to the exit code that `run` will store, and whether it lets `Wait` answer early, in any run. */
module LifecycleCodes {
  import opened Options
  import opened Naming
  import opened Host
  import opened Handles
  import opened Lifecycle
  import opened LifecycleSound
  import opened LifecycleDestroy
  import opened LifecycleOwn

  /** The status of the statistics command that the step runs on the handle, which is left in the handle. */
  function SampleIn(s: State, l: Label, h: nat): Option<int> {
    if l.CallerStep? && l.n in s.callers && s.callers[l.n] == Using(h, Stats) then Some(l.code) else None
  }

  /** The step is the answer of `Wait` to the waiter of `h`, and `run` has not published. */
  predicate Early(s: State, l: Label, h: nat) {
    l.WaiterStep? && l.h == h && h < |s.lives| && s.lives[h].waiter.PotWaiting? && RunPending(s.lives[h].run)
  }

  /** The step is that of the recovery that registered the handle and then sets it running. */
  predicate Touched(s: State, l: Label, h: nat) {
    l.StarterStep? && l.id in s.starters && s.starters[l.id] == RecTouching(h)
  }

  /** One step of a life: the code of the handle is the last sample; `run` stores it, once and for good, and a recovery
      before it spawns the waiter; and only these two set a handle running. */
  predicate Codes(a: Life, b: Life, sample: Option<int>, early: bool, touched: bool) {
    && (b.late ==> a.late || early)
    && (b.waiter.NotSpawned? ==> a.waiter.NotSpawned?)
    && b.handle.exitCode == sample.GetOr(a.handle.exitCode)
    && (RunPending(b.run) ==> RunPending(a.run))
    && (a.run.Returned? ==> b.run.Returned? && b.runCode == a.runCode)
    && (b.run.Returned? && !a.run.Returned? ==> RunPending(a.run) && b.runCode == a.handle.exitCode && sample.None?)
    && b.kind == a.kind && (a.run.NoRun? <==> b.run.NoRun?)
    && (a.run.NoRun? ==> b.runCode == a.runCode || (a.waiter.NotSpawned? && b.runCode == a.handle.exitCode))
    && (b.run.Unspawned? ==> a.run.Unspawned?)
    && (a.handle.exitResult.Some? ==> b.handle.exitResult.Some?)
    && (b.run.Publishing? ==> a.run.Publishing? || b.handle.exitResult.Some?)
    && (b.handle.procState == Running ==> a.handle.procState == Running || RunPending(a.run) || touched)
  }

  predicate CodesAt(s: State, l: Label, h: nat, next: Life)
    requires h < |s.lives|
  {
    Codes(s.lives[h], next, SampleIn(s, l, h), Early(s, l, h), Touched(s, l, h))
  }

  predicate NewCodes(life: Life) {
    life.handle.exitCode == 0 && life.runCode == 0 && !life.late && life.waiter.NotSpawned?
    && (life.run.Unspawned? || life.run.NoRun?)
  }

  predicate EffectCodes(s: State, l: Label, e: Effect) {
    && s.Fits(e)
    && (match e.change
        case Keep => true
        case Born(life) => NewCodes(life) && l.StarterStep?
        case Touch(h, life) => CodesAt(s, l, h, life))
    && forall k :: 0 <= k < |s.lives| && SampleIn(s, l, k).Some? ==> e.change.Touch? && e.change.h == k
  }

  predicate CodesMove(s: State, l: Label, next: State) {
    && |s.lives| <= |next.lives|
    && (forall h :: 0 <= h < |s.lives| ==> CodesAt(s, l, h, next.lives[h]))
    && (forall h :: |s.lives| <= h < |next.lives| ==> NewCodes(next.lives[h]) && l.StarterStep?)
  }

  lemma ApplyCodes(s: State, l: Label, e: Effect)
    requires EffectCodes(s, l, e)
    ensures CodesMove(s, l, s.Apply(e))
  {
    hide PotName, HasParts, Early, Touched;
    var next := s.Apply(e);
    forall h | 0 <= h < |s.lives|
      ensures CodesAt(s, l, h, next.lives[h])
    {
    }
  }

  lemma SameLivesCodes(s: State, l: Label, next: State)
    requires next.lives == s.lives && !l.CallerStep?
    ensures CodesMove(s, l, next)
  {
  }

  lemma StarterCodes(s: State, id: TaskId, st: Starter, yes: bool)
    requires id in s.starters && s.starters[id] == st && (Touching(st) ==> AwaitsSpawn(s, id, st))
    ensures EffectCodes(s, StarterStep(id, yes), StarterAct(s, id, st, yes).0)
  {
    hide PotName, HasParts;
  }

  lemma CallerCodes(s: State, n: nat, code: int)
    requires n in s.callers && s.callers[n].h < |s.lives|
    ensures EffectCodes(s, CallerStep(n, code), CallerAct(s, n, s.callers[n], code).0)
  {
    hide PotName, HasParts;
  }

  lemma RunCodes(s: State, h: nat)
    requires h < |s.lives| && RunAct(s.lives[h]).Some?
    ensures EffectCodes(s, RunStep(h), Turn(h, RunAct(s.lives[h]).value))
  {
    hide PotName, HasParts;
  }

  lemma ActCodes(h: nat, life: Life, target: Life, wait: Outcome, stats: Option<int>)
    ensures var a := WaiterAct(h, life, target, wait, stats);
      a.Acting? ==>
        && a.handle.exitCode == target.handle.exitCode && !a.waiter.NotSpawned?
        && (target.handle.exitResult.Some? ==> a.handle.exitResult.Some?)
        && (a.handle.procState == Running ==> target.handle.procState == Running)
        && (a.late ==> life.late || (life.waiter.PotWaiting? && RunPending(life.run)))
  {
  }

  lemma LookingCodes(s: State, l: Label, h: nat, alive: bool)
    requires h < |s.lives| && l.WaiterStep? && l.h == h
    ensures (s.lives[h].waiter.PotFetching? || s.lives[h].waiter.RecFetching? ==> CodesMove(s, l, Fetch(s, h)))
    ensures (s.lives[h].waiter.Polling? ==> CodesMove(s, l, Poll(s, h, alive)))
  {
    hide PotName, HasParts, Early, Touched, CodesMove;
    var life := s.lives[h];
    if life.waiter.Polling? {
      ApplyCodes(s, l, Issue(CheckAlive, life.id, OfHandle(h)).(
        change := Touch(h, if alive then life else life.(waiter := RecFetching))));
    } else if life.id in s.store {
      var t := s.store[life.id];
      ApplyCodes(s, l, Turn(h, life.(waiter := if life.waiter.PotFetching? then PotWaiting(t) else RecExiting(t))));
    } else {
      ApplyCodes(s, l, Turn(h, life.(waiter := PotLost)));
      SameLivesCodes(s, l, s.Crash());
    }
  }

  lemma PerformCodes(s: State, l: Label, h: nat, t: nat, a: Act)
    requires h < |s.lives| && t < |s.lives| && l.WaiterStep? && l.h == h
    requires a.Acting? && a.handle.exitCode == s.lives[t].handle.exitCode && !a.waiter.NotSpawned?
    requires s.lives[t].handle.exitResult.Some? ==> a.handle.exitResult.Some?
    requires a.handle.procState == Running ==> s.lives[t].handle.procState == Running
    requires a.late ==> s.lives[h].late || Early(s, l, h)
    ensures CodesMove(s, l, Perform(s, h, t, a))
  {
    hide PotName, HasParts, Early, Touched;
  }

  lemma WaiterCodes(s: State, l: Label)
    requires l.WaiterStep? && l.h < |s.lives| && SoundLife(s, l.h)
    requires WaiterNext(s, l.h, l.wait, l.stats, l.alive).Some?
    ensures CodesMove(s, l, WaiterNext(s, l.h, l.wait, l.stats, l.alive).value)
  {
    hide PotName, HasParts, WaiterAct, Perform, Fetch, Poll, CodesMove;
    var w := s.lives[l.h].waiter;
    LookingCodes(s, l, l.h, l.alive);
    SameLivesCodes(s, l, s.Crash());
    if w.Fetched() {
      var a := WaiterAct(l.h, s.lives[l.h], s.lives[w.target], l.wait, l.stats);
      ActCodes(l.h, s.lives[l.h], s.lives[w.target], l.wait, l.stats);
      if a.Acting? { PerformCodes(s, l, l.h, w.target, a); }
    }
  }

  /** In any run a step moves the code of every handle as it should, and lets `Wait` answer early to its own waiter
      only. */
  lemma CodesStep(s: State, l: Label)
    requires Sound(s) && SpawnInv(s) && Next(s, l).Some?
    ensures CodesMove(s, l, Next(s, l).value)
  {
    hide SoundLives, SoundLog, SoundStore, PotName, HasParts, CodesMove, EffectCodes;
    hide WaiterNext, StarterAct, CallerAct, RunAct;
    match l
    case StarterStep(id, yes) =>
      if Touching(s.starters[id]) { assert AwaitsSpawn(s, id, s.starters[id]); }
      var e := StarterAct(s, id, s.starters[id], yes).0;
      StarterFits(s, id, s.starters[id], yes);
      StarterCodes(s, id, s.starters[id], yes);
      ApplyCodes(s, l, e);
      LivesCodes(s, l, s.Apply(e), Next(s, l).value);
    case WaiterStep(h, wait, stats, alive) =>
      LifeSound(s, h);
      WaiterCodes(s, l);
    case CallerStep(n, code) =>
      var e := CallerAct(s, n, s.callers[n], code).0;
      CallerFits(s, n, code);
      CallerCodes(s, n, code);
      ApplyCodes(s, l, e);
      LivesCodes(s, l, s.Apply(e), Next(s, l).value);
    case RunStep(h) =>
      RunCodes(s, h);
      ApplyCodes(s, l, Turn(h, RunAct(s.lives[h]).value));
    case WaiterQuits(h) => QuitCodes(s, h);
    case _ => SameLivesCodes(s, l, Next(s, l).value);
  }

  lemma LivesCodes(s: State, l: Label, mid: State, next: State)
    requires CodesMove(s, l, mid) && next.lives == mid.lives
    ensures CodesMove(s, l, next)
  {
    hide Codes, Early, Touched;
  }

  lemma CallerFits(s: State, n: nat, code: int)
    requires n in s.callers && s.callers[n].h < |s.lives|
    ensures s.Fits(CallerAct(s, n, s.callers[n], code).0)
  {
    hide PotName, HasParts;
  }

  lemma QuitCodes(s: State, h: nat)
    requires h < |s.lives|
    ensures CodesMove(s, WaiterQuits(h), s.Apply(Turn(h, s.lives[h].(waiter := RecFetching))))
  {
    hide PotName, HasParts;
  }

  /** So far `Wait` has answered nobody early. */
  predicate Prompt(s: State) {
    forall h :: 0 <= h < |s.lives| ==> !s.lives[h].late
  }

  lemma PromptStep(s: State, l: Label)
    requires Sound(s) && SpawnInv(s) && Prompt(s) && RunFirst(s, l) && Next(s, l).Some?
    ensures Prompt(Next(s, l).value)
  {
    hide Sound, SpawnInv, Next;
    CodesStep(s, l);
    var next := Next(s, l).value;
    forall h | 0 <= h < |next.lives|
      ensures !next.lives[h].late
    {
      if h < |s.lives| { assert CodesAt(s, l, h, next.lives[h]); }
    }
  }
}
