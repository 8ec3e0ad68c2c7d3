/** Names and indices in every run of the lifecycle whatsoever, forced destroys and lost races included. */
module LifecycleSound {
  import opened Options
  import opened Naming
  import opened Host
  import opened Lifecycle

  predicate SameTask(a: Life, b: Life) {
    a.id == b.id && a.kind == b.kind
  }

  /** Lives keep their identity, and no step takes one away or forgets a command. */
  predicate Grows(s: State, next: State) {
    && |s.lives| <= |next.lives|
    && s.log <= next.log
    && forall h :: 0 <= h < |s.lives| ==> SameTask(s.lives[h], next.lives[h])
  }

  lemma GrowsTransitive(a: State, b: State, c: State)
    requires Grows(a, b) && Grows(b, c)
    ensures Grows(a, c)
  {
    hide PotName, HasParts;
    forall h | 0 <= h < |a.lives|
      ensures SameTask(a.lives[h], c.lives[h])
    {
      assert SameTask(a.lives[h], b.lives[h]) && SameTask(b.lives[h], c.lives[h]);
    }
  }

  lemma LifeSound(s: State, h: nat)
    requires Sound(s) && h < |s.lives|
    ensures SoundLife(s, h)
  {
  }

  /** A life may change anything but its task; its waiter may only turn to a handle of the same task; a command names
      the pot of its owner. */
  predicate EffectSound(s: State, e: Effect) {
    && s.Fits(e)
    && (match e.change
        case Keep => true
        case Born(life) => life.handle.id == life.id && Known(life.handle) && !life.waiter.Fetched()
        case Touch(h, life) =>
          && SameTask(s.lives[h], life) && life.handle.id == life.id && Known(life.handle)
          && (life.waiter.Fetched() ==>
                life.waiter.target < |s.lives| && s.lives[life.waiter.target].id == life.id))
    && (e.entry.Some? ==> SoundEntry(s, e.entry.value))
  }

  lemma ApplySound(s: State, e: Effect)
    requires Sound(s) && EffectSound(s, e)
    ensures Sound(s.Apply(e)) && Grows(s, s.Apply(e))
  {
    hide PotName, HasParts;
    var next := s.Apply(e);
    forall k | 0 <= k < |next.lives|
      ensures SoundLife(next, k)
    {
      if k < |s.lives| { assert SoundLife(s, k); }
    }
    forall i | 0 <= i < |next.log|
      ensures SoundEntry(next, next.log[i])
    {
      if i < |s.log| { assert SoundEntry(s, s.log[i]); }
    }
  }

  /** Changes to the calls in progress and to the two flags. */
  lemma ControlSound(s: State, mid: State, next: State)
    requires Sound(mid) && Grows(s, mid)
    requires next.lives == mid.lives && next.log == mid.log && next.store == mid.store
    requires forall n :: n in next.callers ==> next.callers[n].h < |mid.lives|
    ensures Sound(next) && Grows(s, next)
  {
    hide PotName, HasParts;
    forall k | 0 <= k < |next.lives|
      ensures SoundLife(next, k)
    {
      assert SoundLife(mid, k);
    }
    forall i | 0 <= i < |next.log|
      ensures SoundEntry(next, next.log[i])
    {
      assert SoundEntry(mid, mid.log[i]);
    }
  }

  lemma StarterSound(s: State, id: TaskId, yes: bool)
    requires Sound(s) && id in s.starters
    ensures Sound(StarterNext(s, id, yes)) && Grows(s, StarterNext(s, id, yes))
  {
    hide PotName, HasParts, SoundStore, SoundLives, SoundLog, Grows;
    var st := s.starters[id];
    var (e, next) := StarterAct(s, id, st, yes);
    assert EffectSound(s, e) by {
      if (st.RecTouching? || st.SpawningRun? || st.SpawningWait?) && st.h < |s.lives| { LifeSound(s, st.h); }
    }
    hide StarterAct;
    ApplySound(s, e);
    ControlSound(s, s.Apply(e), StarterNext(s, id, yes));
  }

  /** A waiter keeps its target, and handles keep their task. */
  lemma ActKeeps(h: nat, life: Life, target: Life, wait: Outcome, stats: Option<int>)
    requires life.waiter.Fetched()
    ensures var a := WaiterAct(h, life, target, wait, stats);
      a.Acting? ==>
        && a.handle.id == target.handle.id && (Known(target.handle) ==> Known(a.handle))
        && a.waiter.Fetched() && a.waiter.target == life.waiter.target
  {
  }

  lemma PerformSound(s: State, h: nat, t: nat, a: Act)
    requires Sound(s) && h < |s.lives| && t < |s.lives| && s.lives[t].id == s.lives[h].id
    requires a.Acting? && a.handle.id == s.lives[t].handle.id && Known(a.handle)
    requires a.waiter.Fetched() && a.waiter.target == t
    ensures Sound(Perform(s, h, t, a)) && Grows(s, Perform(s, h, t, a))
  {
    hide PotName, HasParts, SoundStore, SoundCallers, SoundLog, Grows;
    LifeSound(s, h);
    LifeSound(s, t);
    var e := Turn(t, s.lives[t].(handle := a.handle, winner := a.winner));
    ApplySound(s, e);
    var mid := s.Apply(e);
    var own := mid.lives[h].(waiter := a.waiter, wait := a.wait, stats := a.stats, late := a.late);
    var entry := if a.verb.Some? then Some(Entry(a.verb.value, PotName(s.lives[h].id), OfHandle(t))) else None;
    ApplySound(mid, Effect(Touch(h, own), entry, None));
    GrowsTransitive(s, mid, Perform(s, h, t, a));
  }

  lemma FetchSound(s: State, h: nat)
    requires Sound(s) && h < |s.lives|
    ensures Sound(Fetch(s, h)) && Grows(s, Fetch(s, h))
  {
    hide PotName, HasParts, SoundLives, SoundLog;
    var life := s.lives[h];
    LifeSound(s, h);
    if life.id in s.store {
      var t := s.store[life.id];
      ApplySound(s, Turn(h, life.(waiter := if life.waiter.PotFetching? then PotWaiting(t) else RecExiting(t))));
    } else if life.waiter.PotFetching? {
      ApplySound(s, Turn(h, life.(waiter := PotLost)));
    } else {
      ControlSound(s, s, s.Crash());
    }
  }

  lemma PollSound(s: State, h: nat, alive: bool)
    requires Sound(s) && h < |s.lives| && s.lives[h].waiter.Polling?
    ensures Sound(Poll(s, h, alive)) && Grows(s, Poll(s, h, alive))
  {
    hide PotName, HasParts, SoundStore, SoundLives, SoundCallers, SoundLog;
    var life := s.lives[h];
    LifeSound(s, h);
    ApplySound(s, Issue(CheckAlive, life.id, OfHandle(h)).(
      change := Touch(h, if alive then life else life.(waiter := RecFetching))));
  }

  lemma WaiterSound(s: State, h: nat, wait: Outcome, stats: Option<int>, alive: bool)
    requires Sound(s) && h < |s.lives|
    ensures SoundLife(s, h)
    ensures WaiterNext(s, h, wait, stats, alive).Some? ==>
      Sound(WaiterNext(s, h, wait, stats, alive).value) && Grows(s, WaiterNext(s, h, wait, stats, alive).value)
  {
    hide SoundStore, SoundLives, SoundLog, WaiterAct, Perform, Fetch, Poll, PotName, HasParts;
    LifeSound(s, h);
    var w := s.lives[h].waiter;
    if w.PotFetching? || w.RecFetching? {
      FetchSound(s, h);
    } else if w.Polling? {
      PollSound(s, h, alive);
    } else if w.PotLost? {
      ControlSound(s, s, s.Crash());
    } else if w.Fetched() {
      LifeSound(s, w.target);
      ActKeeps(h, s.lives[h], s.lives[w.target], wait, stats);
      ControlSound(s, s, s.Crash());
      var a := WaiterAct(h, s.lives[h], s.lives[w.target], wait, stats);
      if a.Acting? { PerformSound(s, h, w.target, a); }
    }
  }

  lemma CallerSound(s: State, n: nat, code: int)
    requires Sound(s) && n in s.callers
    ensures s.callers[n].h < |s.lives|
    ensures Sound(CallerNext(s, n, code)) && Grows(s, CallerNext(s, n, code))
  {
    hide PotName, HasParts, SoundStore, SoundLives, SoundLog, Grows;
    var (e, next) := CallerAct(s, n, s.callers[n], code);
    LifeSound(s, s.callers[n].h);
    ApplySound(s, e);
    ControlSound(s, s.Apply(e), CallerNext(s, n, code));
  }

  lemma RunSound(s: State, h: nat)
    requires Sound(s) && h < |s.lives| && RunAct(s.lives[h]).Some?
    ensures Sound(s.Apply(Turn(h, RunAct(s.lives[h]).value))) && Grows(s, s.Apply(Turn(h, RunAct(s.lives[h]).value)))
  {
    hide PotName, HasParts, SoundStore, SoundCallers, SoundLog, Grows;
    LifeSound(s, h);
    assert SoundLife(s, h);
    ApplySound(s, Turn(h, RunAct(s.lives[h]).value));
  }

  /** Indices and names stay in order whatever step is taken; no life changes its task, no command is forgotten. */
  lemma SoundStep(s: State, l: Label)
    requires Sound(s) && Next(s, l).Some?
    ensures Sound(Next(s, l).value) && Grows(s, Next(s, l).value)
  {
    hide SoundLives, SoundLog, PotName, HasParts, StarterNext, WaiterNext, CallerNext, RunAct;
    var next := Next(s, l).value;
    match l
    case StarterStep(id, yes) => StarterSound(s, id, yes);
    case WaiterStep(h, wait, stats, alive) => WaiterSound(s, h, wait, stats, alive);
    case CallerStep(n, code) => CallerSound(s, n, code);
    case RunStep(h) => RunSound(s, h);
    case CreateMore(id) => ApplySound(s, Issue(Create, id, OfTask(id)));
    case WaiterQuits(h) =>
      LifeSound(s, h);
      ApplySound(s, Turn(h, s.lives[h].(waiter := RecFetching)));
    case _ => ControlSound(s, s, next);
  }
}
