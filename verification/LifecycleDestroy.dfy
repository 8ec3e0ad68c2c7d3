/** At most one destroy per handle, whatever races: forced destroys, lost lookups and concurrent stops included. */
module LifecycleDestroy {
  import opened Options
  import opened Naming
  import opened Host
  import opened Lifecycle
  import opened LifecycleSound

  predicate IsDestroyOf(e: Entry, h: nat) {
    e.verb == Destroy && e.owner == OfHandle(h)
  }

  /** How often the pot of a handle was destroyed on the handle's behalf. */
  function Count(log: seq<Entry>, h: nat): nat {
    if log == [] then 0 else Count(log[..|log| - 1], h) + if IsDestroyOf(log[|log| - 1], h) then 1 else 0
  }

  lemma CountMore(log: seq<Entry>, e: Entry, h: nat)
    ensures Count(log + [e], h) == Count(log, h) + if IsDestroyOf(e, h) then 1 else 0
  {
    assert (log + [e])[..|log + [e]| - 1] == log;
  }

  lemma {:induction false} CountNone(log: seq<Entry>, h: nat)
    requires forall i :: 0 <= i < |log| ==> !IsDestroyOf(log[i], h)
    ensures Count(log, h) == 0
  {
    if log != [] { CountNone(log[..|log| - 1], h); }
  }

  /** The flag is up exactly while its winner is about to launch, or after the one launch. */
  predicate Balanced(s: State, h: nat)
    requires h < |s.lives|
  {
    var life := s.lives[h];
    && (life.handle.calledDestroy <==> life.winner.Some? || Count(s.log, h) == 1)
    && Count(s.log, h) <= 1
    && (life.winner.Some? ==> Count(s.log, h) == 0)
  }

  /** A winner is about to launch. */
  predicate WinnerLaunches(s: State, h: nat)
    requires h < |s.lives|
  {
    match s.lives[h].winner
    case None => true
    case Some(Waiter(k)) => k < |s.lives| && s.lives[k].waiter == Launching(h)
    case Some(Caller(n)) => n in s.callers && s.callers[n] == StopLaunching(h)
  }

  /** A waiter about to launch is the winner; one that is finished has seen the flag up. */
  predicate WaiterWon(s: State, k: nat)
    requires k < |s.lives|
  {
    match s.lives[k].waiter
    case Launching(t) => t < |s.lives| && s.lives[t].winner == Some(Waiter(k))
    case Finished(t) => t < |s.lives| && s.lives[t].handle.calledDestroy
    case _ => true
  }

  predicate CallerWon(s: State, n: nat)
    requires n in s.callers
  {
    match s.callers[n]
    case StopLaunching(h) => h < |s.lives| && s.lives[h].winner == Some(Caller(n))
    case _ => true
  }

  predicate DestroyInv(s: State) {
    && (forall h :: 0 <= h < |s.lives| ==> Balanced(s, h) && WinnerLaunches(s, h) && WaiterWon(s, h))
    && (forall n :: n in s.callers ==> CallerWon(s, n))
  }

  // ---- steps that have nothing to do with destroying

  /** The flag and its winner stay, and the waiter neither takes up nor leaves a destroy. */
  predicate Calm(a: Life, b: Life) {
    && b.handle.calledDestroy == a.handle.calledDestroy && b.winner == a.winner
    && (a.waiter.Launching? || b.waiter.Launching? || b.waiter.Finished? ==> b.waiter == a.waiter)
  }

  predicate Idle(life: Life) {
    !life.handle.calledDestroy && life.winner.None? && !life.waiter.Launching? && !life.waiter.Finished?
  }

  predicate EffectCalm(s: State, e: Effect) {
    && s.Fits(e)
    && (match e.change case Keep => true case Born(life) => Idle(life) case Touch(h, life) => Calm(s.lives[h], life))
    && (e.entry.Some? && e.entry.value.verb == Destroy ==> e.entry.value.owner.OfTask?)
  }

  lemma ApplyCalm(s: State, e: Effect)
    requires Sound(s) && DestroyInv(s) && EffectCalm(s, e)
    ensures DestroyInv(s.Apply(e))
  {
    hide Count, PotName, HasParts, SoundStore, SoundLives, SoundCallers;
    var next := s.Apply(e);
    forall h | 0 <= h < |next.lives|
      ensures Balanced(next, h) && WinnerLaunches(next, h) && WaiterWon(next, h)
    {
      if e.entry.Some? { CountMore(s.log, e.entry.value, h); }
      if h < |s.lives| {
        assert Balanced(s, h) && WinnerLaunches(s, h) && WaiterWon(s, h);
      } else {
        assert forall i :: 0 <= i < |s.log| ==> SoundEntry(s, s.log[i]);
        CountNone(s.log, h);
      }
    }
    forall n | n in next.callers
      ensures CallerWon(next, n)
    {
      assert CallerWon(s, n);
    }
  }

  /** Changes to anything but lives and log, with the stops that are about to launch left alone. */
  lemma ControlCalm(s: State, next: State)
    requires DestroyInv(s) && next.lives == s.lives && next.log == s.log
    requires forall n :: n in s.callers && s.callers[n].StopLaunching? ==>
      n in next.callers && next.callers[n] == s.callers[n]
    requires forall n :: n in next.callers && next.callers[n].StopLaunching? ==>
      n in s.callers && s.callers[n] == next.callers[n]
    ensures DestroyInv(next)
  {
    hide Count, PotName, HasParts;
    forall h | 0 <= h < |next.lives|
      ensures Balanced(next, h) && WinnerLaunches(next, h) && WaiterWon(next, h)
    {
      assert Balanced(s, h) && WinnerLaunches(s, h) && WaiterWon(s, h);
    }
    forall n | n in next.callers
      ensures CallerWon(next, n)
    {
      if next.callers[n].StopLaunching? { assert CallerWon(s, n); }
    }
  }

  // ---- steps that destroy

  /** Two lives change, which may be the same one: the waiter of `k` turns to `w`, the handle `t` to the given flag and
      winner. */
  predicate Turned(s: State, next: State, k: nat, w: WaiterPc, t: nat, called: bool, winner: Option<Who>)
    requires k < |s.lives| && t < |s.lives|
  {
    && |next.lives| == |s.lives| && next.callers == s.callers
    && next.lives[k].waiter == w && (k != t ==> next.lives[t].waiter == s.lives[t].waiter)
    && next.lives[t].handle.calledDestroy == called && next.lives[t].winner == winner
    && (k != t ==> next.lives[k].handle == s.lives[k].handle && next.lives[k].winner == s.lives[k].winner)
    && (forall h :: 0 <= h < |s.lives| && h != k && h != t ==> next.lives[h] == s.lives[h])
  }

  lemma PerformTurns(s: State, k: nat, t: nat, a: Act)
    requires k < |s.lives| && t < |s.lives| && a.Acting?
    ensures Turned(s, Perform(s, k, t, a), k, a.waiter, t, a.handle.calledDestroy, a.winner)
    ensures Perform(s, k, t, a).log == if a.verb.None? then s.log
                                       else s.log + [Entry(a.verb.value, PotName(s.lives[k].id), OfHandle(t))]
  {
    hide PotName, HasParts;
  }

  lemma FindsUp(s: State, next: State, k: nat, t: nat)
    requires DestroyInv(s) && k < |s.lives| && t < |s.lives|
    requires s.lives[k].waiter == Claiming(t) && s.lives[t].handle.calledDestroy
    requires Turned(s, next, k, Finished(t), t, true, s.lives[t].winner) && next.log == s.log
    ensures DestroyInv(next)
  {
    hide Count, PotName, HasParts;
    assert WaiterWon(s, k) && Balanced(s, t);
    forall h | 0 <= h < |next.lives|
      ensures Balanced(next, h) && WinnerLaunches(next, h) && WaiterWon(next, h)
    {
      assert Balanced(s, h) && WinnerLaunches(s, h) && WaiterWon(s, h);
    }
    forall n | n in next.callers
      ensures CallerWon(next, n)
    {
      assert CallerWon(s, n);
    }
  }

  lemma Wins(s: State, next: State, k: nat, t: nat)
    requires DestroyInv(s) && k < |s.lives| && t < |s.lives|
    requires s.lives[k].waiter == Claiming(t) && !s.lives[t].handle.calledDestroy
    requires Turned(s, next, k, Launching(t), t, true, Some(Waiter(k))) && next.log == s.log
    ensures DestroyInv(next)
  {
    hide Count, PotName, HasParts;
    assert WaiterWon(s, k) && Balanced(s, t);
    forall h | 0 <= h < |next.lives|
      ensures Balanced(next, h) && WinnerLaunches(next, h) && WaiterWon(next, h)
    {
      assert Balanced(s, h) && WinnerLaunches(s, h) && WaiterWon(s, h);
    }
    forall n | n in next.callers
      ensures CallerWon(next, n)
    {
      assert CallerWon(s, n);
    }
  }

  /** Winning the flag, or finding it up. */
  lemma WaiterClaims(s: State, k: nat, wait: Outcome, stats: Option<int>)
    requires Sound(s) && DestroyInv(s) && k < |s.lives| && SoundLife(s, k) && s.lives[k].waiter.Claiming?
    ensures var t := s.lives[k].waiter.target;
      var a := WaiterAct(k, s.lives[k], s.lives[t], wait, stats);
      a.Acting? && DestroyInv(Perform(s, k, t, a))
  {
    hide DestroyInv, Perform, Turned, PotName, HasParts, Sound;
    var t := s.lives[k].waiter.target;
    var a := WaiterAct(k, s.lives[k], s.lives[t], wait, stats);
    PerformTurns(s, k, t, a);
    if s.lives[t].handle.calledDestroy {
      FindsUp(s, Perform(s, k, t, a), k, t);
    } else {
      Wins(s, Perform(s, k, t, a), k, t);
    }
  }

  /** Launching the one destroy the flag allows. */
  lemma Launch(s: State, next: State, k: nat, t: nat)
    requires DestroyInv(s) && k < |s.lives| && t < |s.lives| && s.lives[k].waiter == Launching(t)
    requires Turned(s, next, k, Finished(t), t, s.lives[t].handle.calledDestroy, None)
    requires next.log == s.log + [Entry(Destroy, PotName(s.lives[k].id), OfHandle(t))]
    ensures DestroyInv(next)
  {
    hide Count, PotName, HasParts;
    assert WaiterWon(s, k) && Balanced(s, t);
    forall h | 0 <= h < |next.lives|
      ensures Balanced(next, h) && WinnerLaunches(next, h) && WaiterWon(next, h)
    {
      CountMore(s.log, Entry(Destroy, PotName(s.lives[k].id), OfHandle(t)), h);
      assert Balanced(s, h) && WinnerLaunches(s, h) && WaiterWon(s, h);
    }
    forall n | n in next.callers
      ensures CallerWon(next, n)
    {
      assert CallerWon(s, n);
    }
  }

  lemma WaiterLaunches(s: State, k: nat, wait: Outcome, stats: Option<int>)
    requires Sound(s) && DestroyInv(s) && k < |s.lives| && SoundLife(s, k) && s.lives[k].waiter.Launching?
    ensures var t := s.lives[k].waiter.target;
      var a := WaiterAct(k, s.lives[k], s.lives[t], wait, stats);
      a.Acting? && DestroyInv(Perform(s, k, t, a))
  {
    hide DestroyInv, Perform, Turned, PotName, HasParts, Sound;
    var t := s.lives[k].waiter.target;
    var a := WaiterAct(k, s.lives[k], s.lives[t], wait, stats);
    PerformTurns(s, k, t, a);
    Launch(s, Perform(s, k, t, a), k, t);
  }

  lemma StopClaimsOrLaunches(s: State, n: nat, code: int)
    requires Sound(s) && DestroyInv(s) && n in s.callers && s.callers[n].h < |s.lives|
    requires s.callers[n].StopClaiming? || s.callers[n].StopLaunching?
    ensures DestroyInv(CallerNext(s, n, code))
  {
    hide Count, PotName, HasParts, Sound;
    var t := s.callers[n].h;
    var next := CallerNext(s, n, code);
    assert CallerWon(s, n) && Balanced(s, t);
    forall h | 0 <= h < |next.lives|
      ensures Balanced(next, h) && WinnerLaunches(next, h) && WaiterWon(next, h)
    {
      CountMore(s.log, Entry(Destroy, PotName(s.lives[t].id), OfHandle(t)), h);
      assert Balanced(s, h) && WinnerLaunches(s, h) && WaiterWon(s, h);
    }
    forall m | m in next.callers
      ensures CallerWon(next, m)
    {
      assert CallerWon(s, m);
    }
  }

  // ---- every step

  /** Until it claims, a waiter leaves the flag alone and destroys nothing; once finished it does nothing at all. */
  lemma ActCalm(h: nat, life: Life, target: Life, wait: Outcome, stats: Option<int>)
    requires !life.waiter.Claiming? && !life.waiter.Launching?
    ensures var a := WaiterAct(h, life, target, wait, stats);
      a.Acting? ==>
        && a.handle.calledDestroy == target.handle.calledDestroy && a.winner == target.winner
        && a.verb != Some(Destroy) && !a.waiter.Launching? && !a.waiter.Finished? && !life.waiter.Finished?
  {
  }

  lemma PerformCalm(s: State, h: nat, t: nat, a: Act)
    requires Sound(s) && DestroyInv(s) && h < |s.lives| && t < |s.lives| && s.lives[t].id == s.lives[h].id
    requires !s.lives[h].waiter.Launching? && !s.lives[h].waiter.Finished?
    requires a.Acting? && a.handle.calledDestroy == s.lives[t].handle.calledDestroy && a.winner == s.lives[t].winner
    requires a.handle.id == s.lives[t].handle.id && Known(a.handle)
    requires a.verb != Some(Destroy) && !a.waiter.Launching? && !a.waiter.Finished?
    ensures DestroyInv(Perform(s, h, t, a))
  {
    hide PotName, HasParts, SoundStore, SoundCallers, SoundLog, DestroyInv;
    var e := Turn(t, s.lives[t].(handle := a.handle, winner := a.winner));
    LifeSound(s, t);
    ApplySound(s, e);
    ApplyCalm(s, e);
    var mid := s.Apply(e);
    var own := mid.lives[h].(waiter := a.waiter, wait := a.wait, stats := a.stats, late := a.late);
    var entry := if a.verb.Some? then Some(Entry(a.verb.value, PotName(s.lives[h].id), OfHandle(t))) else None;
    ApplyCalm(mid, Effect(Touch(h, own), entry, None));
  }

  lemma WaiterDestroyInv(s: State, h: nat, wait: Outcome, stats: Option<int>, alive: bool)
    requires Sound(s) && DestroyInv(s) && h < |s.lives| && SoundLife(s, h)
    requires WaiterNext(s, h, wait, stats, alive).Some?
    ensures DestroyInv(WaiterNext(s, h, wait, stats, alive).value)
  {
    hide Sound, DestroyInv, WaiterAct, Perform, PotName, HasParts;
    var w := s.lives[h].waiter;
    if w.PotFetching? || w.RecFetching? {
      var life := s.lives[h];
      if life.id in s.store {
        var t := s.store[life.id];
        ApplyCalm(s, Turn(h, life.(waiter := if w.PotFetching? then PotWaiting(t) else RecExiting(t))));
      } else if w.PotFetching? {
        ApplyCalm(s, Turn(h, life.(waiter := PotLost)));
      } else {
        ControlCalm(s, s.Crash());
      }
    } else if w.PotLost? {
      ControlCalm(s, s.Crash());
    } else if w.Polling? {
      var life := s.lives[h];
      ApplyCalm(s, Issue(CheckAlive, life.id, OfHandle(h)).(
        change := Touch(h, if alive then life else life.(waiter := RecFetching))));
    } else if w.Claiming? {
      WaiterClaims(s, h, wait, stats);
    } else if w.Launching? {
      WaiterLaunches(s, h, wait, stats);
    } else {
      ControlCalm(s, s.Crash());
      ActCalm(h, s.lives[h], s.lives[w.target], wait, stats);
      LifeSound(s, w.target);
      ActKeeps(h, s.lives[h], s.lives[w.target], wait, stats);
      var a := WaiterAct(h, s.lives[h], s.lives[w.target], wait, stats);
      if a.Acting? { PerformCalm(s, h, w.target, a); }
    }
  }

  lemma CallerDestroyInv(s: State, n: nat, code: int)
    requires Sound(s) && DestroyInv(s) && n in s.callers && s.callers[n].h < |s.lives|
    ensures DestroyInv(CallerNext(s, n, code))
  {
    hide Sound, DestroyInv, PotName, HasParts;
    if s.callers[n].StopClaiming? || s.callers[n].StopLaunching? {
      StopClaimsOrLaunches(s, n, code);
    } else {
      var (e, next) := CallerAct(s, n, s.callers[n], code);
      ApplyCalm(s, e);
      ControlCalm(s.Apply(e), CallerNext(s, n, code));
    }
  }

  /** Neither `run` nor a starter has anything to do with the flag. */
  lemma RunCalm(life: Life)
    requires RunAct(life).Some?
    ensures Calm(life, RunAct(life).value)
  {
  }

  /** A starter spawns the waiter of the handle it registered, which nobody else has spawned. */
  predicate Touching(st: Starter) {
    st.RecTouching? || st.SpawningRun? || st.SpawningWait?
  }

  predicate AwaitsSpawn(s: State, id: TaskId, st: Starter)
    requires Touching(st)
  {
    && st.h < |s.lives| && s.lives[st.h].id == id && s.lives[st.h].waiter.NotSpawned?
    && (st.RecTouching? ==> s.lives[st.h].kind.Retaken? && s.lives[st.h].run.NoRun?)
    && (st.SpawningRun? <==> s.lives[st.h].run.Unspawned?)
  }

  predicate SpawnInv(s: State) {
    forall id :: id in s.starters && Touching(s.starters[id]) ==> AwaitsSpawn(s, id, s.starters[id])
  }

  lemma StarterCalm(s: State, id: TaskId, st: Starter, yes: bool)
    requires Touching(st) ==> AwaitsSpawn(s, id, st)
    ensures EffectCalm(s, StarterAct(s, id, st, yes).0)
  {
    hide PotName, HasParts;
  }

  lemma StarterDestroyInv(s: State, id: TaskId, yes: bool)
    requires Sound(s) && DestroyInv(s) && SpawnInv(s) && id in s.starters
    ensures DestroyInv(StarterNext(s, id, yes))
  {
    hide Sound, DestroyInv, PotName, HasParts, StarterAct;
    var e := StarterAct(s, id, s.starters[id], yes).0;
    if Touching(s.starters[id]) { assert AwaitsSpawn(s, id, s.starters[id]); }
    StarterCalm(s, id, s.starters[id], yes);
    ApplyCalm(s, e);
    ControlCalm(s.Apply(e), StarterNext(s, id, yes));
  }

  /** The balance of flag, winner and launches is kept by every step, whatever the race. */
  lemma DestroyStep(s: State, l: Label)
    requires Sound(s) && DestroyInv(s) && SpawnInv(s) && Next(s, l).Some?
    ensures DestroyInv(Next(s, l).value)
  {
    hide Sound, DestroyInv, SpawnInv, StarterNext, WaiterNext, CallerNext, RunAct, PotName, HasParts;
    match l
    case StarterStep(id, yes) => StarterDestroyInv(s, id, yes);
    case WaiterStep(h, wait, stats, alive) =>
      LifeSound(s, h);
      WaiterDestroyInv(s, h, wait, stats, alive);
    case CallerStep(n, code) =>
      CallerSound(s, n, code);
      CallerDestroyInv(s, n, code);
    case RunStep(h) =>
      RunCalm(s.lives[h]);
      ApplyCalm(s, Turn(h, RunAct(s.lives[h]).value));
    case CreateMore(id) => ApplyCalm(s, Issue(Create, id, OfTask(id)));
    case WaiterQuits(h) => ApplyCalm(s, Turn(h, s.lives[h].(waiter := RecFetching)));
    case _ => ControlCalm(s, Next(s, l).value);
  }

  // ---- spawning

  /** Only the spawning starter turns a waiter that is not spawned into one that is. */
  predicate SameSpawned(s: State, next: State) {
    && |s.lives| <= |next.lives|
    && next.starters == s.starters
    && forall h :: 0 <= h < |s.lives| && s.lives[h].waiter.NotSpawned? ==>
         && next.lives[h].waiter.NotSpawned? && SameTask(s.lives[h], next.lives[h])
         && (s.lives[h].run.Unspawned? <==> next.lives[h].run.Unspawned?)
         && (s.lives[h].run.NoRun? ==> next.lives[h].run.NoRun?)
  }

  lemma SameSpawnedKeeps(s: State, next: State)
    requires SpawnInv(s) && SameSpawned(s, next)
    ensures SpawnInv(next)
  {
    hide PotName, HasParts;
    forall id | id in next.starters && Touching(next.starters[id])
      ensures AwaitsSpawn(next, id, next.starters[id])
    {
      assert AwaitsSpawn(s, id, s.starters[id]);
    }
  }

  lemma PerformSpawned(s: State, h: nat, t: nat, a: Act)
    requires h < |s.lives| && t < |s.lives| && a.Acting? && !s.lives[h].waiter.NotSpawned?
    ensures SameSpawned(s, Perform(s, h, t, a))
  {
    hide PotName, HasParts;
  }

  lemma FetchSpawned(s: State, h: nat)
    requires h < |s.lives| && !s.lives[h].waiter.NotSpawned?
    ensures SameSpawned(s, Fetch(s, h)) && SameSpawned(s, s.Crash())
  {
    hide PotName, HasParts;
  }

  lemma PollSpawned(s: State, h: nat, alive: bool)
    requires h < |s.lives| && s.lives[h].waiter.Polling?
    ensures SameSpawned(s, Poll(s, h, alive))
  {
    hide PotName, HasParts;
  }

  lemma WaiterSpawned(s: State, h: nat, wait: Outcome, stats: Option<int>, alive: bool)
    requires h < |s.lives| && SoundLife(s, h) && WaiterNext(s, h, wait, stats, alive).Some?
    ensures SameSpawned(s, WaiterNext(s, h, wait, stats, alive).value)
  {
    hide PotName, HasParts, WaiterAct, Perform, Fetch, Poll, SameSpawned;
    var w := s.lives[h].waiter;
    FetchSpawned(s, h);
    if w.Polling? {
      PollSpawned(s, h, alive);
    } else if w.Fetched() {
      var a := WaiterAct(h, s.lives[h], s.lives[w.target], wait, stats);
      if a.Acting? { PerformSpawned(s, h, w.target, a); }
    }
  }

  lemma CallerSpawned(s: State, n: nat, code: int)
    requires n in s.callers && s.callers[n].h < |s.lives|
    ensures SameSpawned(s, CallerNext(s, n, code))
  {
    hide PotName, HasParts;
  }

  predicate SpawnsNext(life: Life, id: TaskId, st: Starter) {
    && life.id == id && life.waiter.NotSpawned?
    && (st.RecTouching? ==> life.kind.Retaken? && life.run.NoRun?) && (st.SpawningRun? <==> life.run.Unspawned?)
  }

  /** A starter touches no life but the one it registered, and no other starter is concerned with that one. */
  predicate StarterSpawns(s: State, id: TaskId, st: Starter, e: Effect, next: Option<Starter>) {
    && s.Fits(e)
    && (e.change.Touch? ==> Touching(st) && e.change.h == st.h && e.change.life.id == id)
    && (next.Some? && Touching(next.value) ==>
          match e.change
          case Keep => false
          case Born(life) => next.value.h == |s.lives| && SpawnsNext(life, id, next.value)
          case Touch(h, life) => next.value.h == h && SpawnsNext(life, id, next.value))
  }

  lemma StarterMinds(s: State, id: TaskId, st: Starter, yes: bool)
    requires Touching(st) ==> AwaitsSpawn(s, id, st)
    ensures StarterSpawns(s, id, st, StarterAct(s, id, st, yes).0, StarterAct(s, id, st, yes).1)
  {
    hide PotName, HasParts;
  }

  lemma StarterSpawned(s: State, id: TaskId, yes: bool)
    requires SpawnInv(s) && id in s.starters
    ensures SpawnInv(StarterNext(s, id, yes))
  {
    hide PotName, HasParts, StarterAct;
    var st := s.starters[id];
    var (e, next) := StarterAct(s, id, st, yes);
    if Touching(st) { assert AwaitsSpawn(s, id, st); }
    StarterMinds(s, id, st, yes);
    var after := StarterNext(s, id, yes);
    forall i | i in after.starters && Touching(after.starters[i])
      ensures AwaitsSpawn(after, i, after.starters[i])
    {
      if i != id { assert AwaitsSpawn(s, i, s.starters[i]); }
    }
  }

  lemma SpawnStep(s: State, l: Label)
    requires Sound(s) && SpawnInv(s) && Next(s, l).Some?
    ensures SpawnInv(Next(s, l).value)
  {
    hide SoundStore, SoundLives, SoundLog, StarterNext, WaiterNext, CallerNext, RunAct, PotName, HasParts;
    var next := Next(s, l).value;
    match l
    case StarterStep(id, yes) => StarterSpawned(s, id, yes);
    case WaiterStep(h, wait, stats, alive) =>
      LifeSound(s, h);
      WaiterSpawned(s, h, wait, stats, alive);
      SameSpawnedKeeps(s, next);
    case CallerStep(n, code) =>
      CallerSpawned(s, n, code);
      SameSpawnedKeeps(s, next);
    case RunStep(h) =>
      RunSpawned(s.lives[h]);
      SameSpawnedKeeps(s, next);
    case CallStart(id) => BeginSpawned(s, id, StartGetting);
    case CallRecover(id) => BeginSpawned(s, id, RecGetting);
    case _ => SameSpawnedKeeps(s, next);
  }

  lemma RunSpawned(life: Life)
    requires RunAct(life).Some?
    ensures RunAct(life).value.waiter == life.waiter && SameTask(life, RunAct(life).value)
    ensures !life.run.Unspawned? && !life.run.NoRun? && !RunAct(life).value.run.Unspawned?
  {
  }

  lemma BeginSpawned(s: State, id: TaskId, st: Starter)
    requires SpawnInv(s) && !Touching(st)
    ensures SpawnInv(s.Steer(id, Some(st)))
  {
    hide PotName, HasParts;
    var next := s.Steer(id, Some(st));
    forall i | i in next.starters && Touching(next.starters[i])
      ensures AwaitsSpawn(next, i, next.starters[i])
    {
      assert AwaitsSpawn(s, i, s.starters[i]);
    }
  }
}
