/**
 What holds while no waiter loses its handle: every waiter works on its own handle; and unless `Wait` answers before
 `run` has published, a task goes through its states one way only, and the exit code left behind is the one the outcome
 calls for.
 */
module LifecycleOwn {
  import opened Options
  import opened Naming
  import opened Host
  import opened Handles
  import opened Lifecycle
  import opened LifecycleSound
  import opened LifecycleDestroy

  // ---- premises

  /** `run` is done before `Wait` returns; the code does not enforce it. */
  predicate RunFirst(s: State, l: Label) {
    l.WaiterStep? && l.h < |s.lives| && s.lives[l.h].waiter.PotWaiting? ==> !RunPending(s.lives[l.h].run)
  }

  predicate Deleting(s: State, l: Label) {
    l.CallerStep? && l.n in s.callers && s.callers[l.n].DestroyDeleting?
  }

  /** The step deletes the handle `h` from the store. */
  predicate Deletes(s: State, l: Label, h: nat) {
    Deleting(s, l) && s.callers[l.n].id in s.store && s.store[s.callers[l.n].id] == h
  }

  predicate Forced(s: State, l: Label) {
    Deleting(s, l) && s.callers[l.n].force
  }

  /** The handle a destroy call deletes has been looked up by its waiter, or it is the one the call inspected and found
      no longer running. The code looks up, inspects and deletes in three steps, and deletes by ID. */
  predicate DeletesInOrder(s: State, l: Label) {
    forall h :: 0 <= h < |s.lives| && Deletes(s, l, h) ==>
      if Forced(s, l) then s.lives[h].waiter.Fetched() else s.callers[l.n].h == h
  }

  // ---- one life by itself

  predicate Settling(w: WaiterPc) {
    w.Claiming? || w.Launching? || w.Finished?
  }

  predicate RecoverPc(w: WaiterPc) {
    w.Polling? || w.RecFetching? || w.RecExiting? || w.RecAsking? || w.RecStoring?
  }

  /** The result record and what it holds, by kind of handle and by where its waiter is. */
  predicate ResultOk(life: Life) {
    var result, w := life.handle.exitResult, life.waiter;
    match life.kind
    case Adopted =>
      && result.None? && !w.PotAsking? && !w.PotStoring?
      && (Settling(w) ==> life.wait == Some(Success))
    case Retaken =>
      && life.wait.None?
      && (w.RecStoring? ==> w.code == life.stats.GetOr(DEFAULT_FAILED_CODE))
      && result == Some(if Settling(w) then life.stats.GetOr(DEFAULT_FAILED_CODE) else life.runCode)
    case Fresh =>
      && (life.stats.Some? ==> life.wait.Some? && AsksStats(life.wait.value))
      && (life.run.Publishing? ==> result.Some?)
      && (life.run.Returned? && (w.BeforeExit() || w.PotFailing?) ==> result == Some(life.runCode))
      && (w.PotAsking? || w.PotStoring? ==>
            && life.wait.Some? && AsksStats(life.wait.value) && result.Some?
            && (!life.late ==> result == Some(DEFAULT_FAILED_CODE)))
      && (w.PotStoring? ==> life.stats == Some(w.code))
      && (Settling(w) ==>
            life.wait.Some? &&
            (!life.late ==> result == Some(CodeAfterWait(life.runCode, life.wait.value, life.stats))))
  }

  /** An early answer of `Wait` leaves `run` something to publish after the exit. */
  predicate StateOk(life: Life) {
    var w := life.waiter;
    && Known(life.handle)
    && (w.BeforeExit() ==> life.handle.procState == Running)
    && (!w.BeforeExit() && (!life.late || RunPending(life.run)) ==> life.handle.procState == Exited)
    && (life.late ==> life.kind.Fresh? && w.Fetched() && !w.PotWaiting?)
    && (RunPending(life.run) ==> w.NotSpawned? || w.PotFetching? || w.PotWaiting? || life.late)
    && (life.run.Unspawned? ==> w.NotSpawned?)
  }

  predicate Proper(life: Life, h: nat) {
    var w := life.waiter;
    && (w.Fetched() ==> w.target == h)
    && !w.PotLost?
    && StateOk(life)
    && (life.kind.Fresh? <==> !life.run.NoRun?)
    && (if life.kind.Retaken? then w.NotSpawned? || Settling(w) || RecoverPc(w) else !RecoverPc(w))
    && (w.PotExiting? || w.PotFailing? ==> life.wait == Some(w.wait))
    && (w.PotFailing? ==> !w.wait.Success?)
    && (w.PotAsking? || !w.Fetched() || w.PotWaiting? || w.PotExiting? || w.PotFailing? ==> life.stats.None?)
    && ResultOk(life)
  }

  function Left(life: Life, a: Act): Life
    requires a.Acting?
  {
    life.(handle := a.handle, winner := a.winner, waiter := a.waiter, wait := a.wait, stats := a.stats,
          late := a.late)
  }

  /** A later condition of the same life: what was fetched, published or late stays so; and what has exited stays exited
      unless `run` was yet to publish. */
  predicate Later(a: Life, b: Life) {
    && b.id == a.id && b.handle.id == a.handle.id && b.kind == a.kind
    && (a.waiter.Fetched() ==> b.waiter.Fetched())
    && (a.late ==> b.late)
    && (!RunPending(a.run) ==> !RunPending(b.run))
    && (a.handle.procState == Exited ==> b.handle.procState == Exited || (RunPending(a.run) && b.late))
  }

  /** What somebody who looks at the handle of an exited task sees. */
  function Visible(life: Life): set<int> {
    if life.handle.procState == Exited && life.handle.exitResult.Some? then {life.handle.exitResult.value} else {}
  }

  /** What has been visible since the task exited, unless `Wait` answered early. */
  function ShownBy(life: Life): set<int> {
    var w, code := life.waiter, life.stats.GetOr(DEFAULT_FAILED_CODE);
    if w.BeforeExit() || life.kind.Adopted? then {}
    else if w.PotFailing? || w.RecAsking? || w.RecStoring? || (Settling(w) && life.wait == Some(Success)) then
      {life.runCode}
    else if w.PotAsking? || w.PotStoring? then {life.runCode, DEFAULT_FAILED_CODE}
    else if life.kind.Retaken? then {life.runCode, code}
    else {life.runCode, DEFAULT_FAILED_CODE, code}
  }

  /** One step of a life: what has been visible is what was so before and what is now. */
  predicate Moves(a: Life, b: Life) {
    Later(a, b) && (!b.late ==> ShownBy(b) == ShownBy(a) + Visible(b))
  }

  lemma StaysMoves(life: Life, h: nat)
    requires Proper(life, h)
    ensures Moves(life, life)
  {
    if !life.late { assert Visible(life) <= ShownBy(life); }
  }

  lemma ActResult(life: Life, h: nat, wait: Outcome, stats: Option<int>)
    requires Proper(life, h) && life.waiter.Fetched()
    ensures var a := WaiterAct(h, life, life, wait, stats); a.Acting? ==> ResultOk(Left(life, a))
  {
  }

  lemma ActState(life: Life, h: nat, wait: Outcome, stats: Option<int>)
    requires Proper(life, h) && life.waiter.Fetched()
    ensures var a := WaiterAct(h, life, life, wait, stats); a.Acting? ==> StateOk(Left(life, a))
  {
  }

  /** A waiter that works on its own handle leaves it proper. */
  lemma ActProper(life: Life, h: nat, wait: Outcome, stats: Option<int>)
    requires Proper(life, h) && life.waiter.Fetched()
    ensures var a := WaiterAct(h, life, life, wait, stats); a.Acting? ==> Proper(Left(life, a), h)
  {
    hide ResultOk, StateOk;
    ActResult(life, h, wait, stats);
    ActState(life, h, wait, stats);
  }

  lemma ActLater(life: Life, h: nat, wait: Outcome, stats: Option<int>)
    requires Proper(life, h) && life.waiter.Fetched()
    ensures var a := WaiterAct(h, life, life, wait, stats);
      && (a.Acting? ==> Later(life, Left(life, a)))
      && (a.Crashing? ==> life.waiter.PotFailing? && (life.kind.Adopted? || life.late))
  {
  }

  lemma ActMoves(life: Life, h: nat, wait: Outcome, stats: Option<int>)
    requires Proper(life, h) && life.waiter.Fetched()
    ensures var a := WaiterAct(h, life, life, wait, stats); a.Acting? ==> Moves(life, Left(life, a))
  {
    ActLater(life, h, wait, stats);
  }

  lemma RunProper(life: Life, h: nat)
    requires Proper(life, h) && RunAct(life).Some?
    ensures Proper(RunAct(life).value, h)
  {
  }

  lemma RunMoves(life: Life, h: nat)
    requires Proper(life, h) && RunAct(life).Some?
    ensures Moves(life, RunAct(life).value)
  {
  }

  // ---- the whole state

  /** A handle whose waiter has not looked it up is in the store. */
  predicate Kept(s: State, h: nat)
    requires h < |s.lives|
  {
    !s.lives[h].waiter.Fetched() ==> s.lives[h].id in s.store && s.store[s.lives[h].id] == h
  }

  /** The task has exited, if a late `run` has not published since. */
  predicate Gone(life: Life) {
    life.waiter.Fetched() && (life.handle.procState == Exited || life.late)
  }

  /** A destroy call knows what it inspected. */
  predicate Informed(s: State, n: nat)
    requires n in s.callers && s.callers[n].h < |s.lives|
  {
    match s.callers[n]
    case DestroyInspecting(id, _, h) => s.lives[h].id == id
    case DestroyDeleting(id, force, h) => s.lives[h].id == id && (force || Gone(s.lives[h]))
    case _ => true
  }

  predicate Own(s: State) {
    && (forall h :: 0 <= h < |s.lives| ==> Proper(s.lives[h], h) && Kept(s, h))
    && (forall n :: n in s.callers ==> s.callers[n].h < |s.lives| && Informed(s, n))
  }

  /** While a start or recovery is between lookup and registration, its task is not in the store. */
  predicate Vacant(s: State) {
    forall id :: id in s.starters && s.starters[id].Unregistered() ==> id !in s.store
  }

  predicate EffectOwn(s: State, e: Effect) {
    && s.Fits(e)
    && (match e.change
        case Keep => true
        case Born(life) => Proper(life, |s.lives|) && life.id !in s.store
        case Touch(h, life) => Proper(life, h) && Moves(s.lives[h], life))
    && (e.drop.Some? && e.drop.value in s.store && s.store[e.drop.value] < |s.lives| ==>
          s.lives[s.store[e.drop.value]].waiter.Fetched())
  }

  /** One step of every life. */
  predicate Advances(s: State, next: State) {
    |s.lives| <= |next.lives| && forall h :: 0 <= h < |s.lives| ==> Moves(s.lives[h], next.lives[h])
  }

  lemma ApplyOwn(s: State, e: Effect)
    requires Sound(s) && Own(s) && EffectOwn(s, e)
    ensures Own(s.Apply(e)) && Advances(s, s.Apply(e))
  {
    hide PotName, HasParts, Proper, SoundLives, SoundLog, ShownBy;
    var next := s.Apply(e);
    forall h | 0 <= h < |next.lives|
      ensures Proper(next.lives[h], h) && Kept(next, h)
      ensures h < |s.lives| ==> Moves(s.lives[h], next.lives[h])
    {
      if h < |s.lives| {
        assert Proper(s.lives[h], h) && Kept(s, h);
        StaysMoves(s.lives[h], h);
      }
    }
    forall n | n in next.callers
      ensures next.callers[n].h < |next.lives| && Informed(next, n)
    {
      assert Informed(s, n);
    }
  }

  lemma AdvancesSame(s: State)
    requires Own(s)
    ensures Advances(s, s)
  {
    hide PotName, HasParts, Proper, Moves;
    forall h | 0 <= h < |s.lives|
      ensures Moves(s.lives[h], s.lives[h])
    {
      StaysMoves(s.lives[h], h);
    }
  }

  /** Changes to the calls in progress and to the two flags. */
  lemma ControlOwn(s: State, next: State)
    requires Own(s) && next.lives == s.lives && next.store == s.store
    requires forall n :: n in next.callers ==> next.callers[n].h < |next.lives| && Informed(next, n)
    ensures Own(next) && Advances(s, next)
  {
    hide PotName, HasParts, Proper, Moves;
    AdvancesSame(s);
    forall h | 0 <= h < |next.lives|
      ensures Proper(next.lives[h], h) && Kept(next, h)
    {
      assert Proper(s.lives[h], h) && Kept(s, h);
    }
  }

  lemma SameCallsOwn(s: State, next: State)
    requires Own(s) && next.lives == s.lives && next.store == s.store && next.callers == s.callers
    ensures Own(next) && Advances(s, next)
  {
    hide PotName, HasParts, Proper;
    forall n | n in next.callers
      ensures Informed(next, n)
    {
      assert Informed(s, n);
    }
    ControlOwn(s, next);
  }

  /** A starter registers a proper handle for a task that is not in the store. */
  lemma StarterProper(s: State, id: TaskId, st: Starter, yes: bool)
    requires st.Unregistered() ==> id !in s.store
    requires Touching(st) ==> AwaitsSpawn(s, id, st) && Proper(s.lives[st.h], st.h)
    ensures EffectOwn(s, StarterAct(s, id, st, yes).0)
  {
    hide PotName, HasParts;
  }

  lemma StarterOwn(s: State, id: TaskId, yes: bool)
    requires Sound(s) && Own(s) && Vacant(s) && SpawnInv(s) && id in s.starters
    ensures Own(StarterNext(s, id, yes)) && Advances(s, StarterNext(s, id, yes))
  {
    hide PotName, HasParts, Proper, Sound, StarterAct, EffectOwn;
    var st := s.starters[id];
    var e := StarterAct(s, id, st, yes).0;
    if Touching(st) { assert AwaitsSpawn(s, id, st); }
    StarterProper(s, id, st, yes);
    StarterSound(s, id, yes);
    StarterFits(s, id, st, yes);
    ApplyOwn(s, e);
    SameCallsOwn(s.Apply(e), StarterNext(s, id, yes));
  }

  lemma StarterFits(s: State, id: TaskId, st: Starter, yes: bool)
    ensures s.Fits(StarterAct(s, id, st, yes).0)
  {
    hide PotName, HasParts;
  }

  /** A waiter on its own handle, as one change to one life. */
  lemma PerformOnOwn(s: State, h: nat, a: Act)
    requires h < |s.lives| && a.Acting?
    ensures var entry := if a.verb.Some? then Some(Entry(a.verb.value, PotName(s.lives[h].id), OfHandle(h))) else None;
      Perform(s, h, h, a) == s.Apply(Effect(Touch(h, Left(s.lives[h], a)), entry, None))
  {
    hide PotName, HasParts;
  }

  lemma LookingOwn(s: State, h: nat, alive: bool)
    requires Sound(s) && Own(s) && h < |s.lives|
    requires s.lives[h].waiter.PotFetching? || s.lives[h].waiter.RecFetching? || s.lives[h].waiter.Polling?
    ensures !s.lives[h].waiter.Polling? ==>
      Own(Fetch(s, h)) && Advances(s, Fetch(s, h)) && (Fetch(s, h).crashed ==> s.crashed)
    ensures s.lives[h].waiter.Polling? ==>
      Own(Poll(s, h, alive)) && Advances(s, Poll(s, h, alive)) && (Poll(s, h, alive).crashed ==> s.crashed)
  {
    hide PotName, HasParts, Sound;
    var life, w := s.lives[h], s.lives[h].waiter;
    assert Proper(life, h) && Kept(s, h);
    if w.Polling? {
      ApplyOwn(s, Issue(CheckAlive, life.id, OfHandle(h)).(
        change := Touch(h, if alive then life else life.(waiter := RecFetching))));
    } else {
      ApplyOwn(s, Turn(h, life.(waiter := if w.PotFetching? then PotWaiting(h) else RecExiting(h))));
    }
  }

  /** A waiter on its own handle crashes only when it has no result record to fail in: after a start that adopted a
      living pot, or when `Wait` answered before `run` had allocated one. */
  lemma WaiterOwn(s: State, h: nat, wait: Outcome, stats: Option<int>, alive: bool)
    requires Sound(s) && Own(s) && h < |s.lives| && SoundLife(s, h)
    requires WaiterNext(s, h, wait, stats, alive).Some?
    ensures Own(WaiterNext(s, h, wait, stats, alive).value)
    ensures Advances(s, WaiterNext(s, h, wait, stats, alive).value)
    ensures WaiterNext(s, h, wait, stats, alive).value.crashed ==>
      s.crashed || (s.lives[h].waiter.PotFailing? && (s.lives[h].kind.Adopted? || s.lives[h].late))
  {
    hide PotName, HasParts, Sound, WaiterAct, Perform, Fetch, Poll;
    var life, w := s.lives[h], s.lives[h].waiter;
    assert Proper(life, h);
    if w.PotFetching? || w.RecFetching? || w.Polling? {
      LookingOwn(s, h, alive);
    } else {
      ActProper(life, h, wait, stats);
      ActLater(life, h, wait, stats);
      ActMoves(life, h, wait, stats);
      var a := WaiterAct(h, life, life, wait, stats);
      hide Proper, Moves;
      if a.Acting? {
        PerformOnOwn(s, h, a);
        var entry := if a.verb.Some? then Some(Entry(a.verb.value, PotName(life.id), OfHandle(h))) else None;
        ApplyOwn(s, Effect(Touch(h, Left(life, a)), entry, None));
      } else {
        SameCallsOwn(s, s.Crash());
      }
    }
  }

  /** Calls leave handles proper; a call that goes on to delete has found its handle exited, or is forced. */
  lemma CallerProper(s: State, n: nat, code: int)
    requires n in s.callers && s.callers[n].h < |s.lives| && Informed(s, n)
    requires Proper(s.lives[s.callers[n].h], s.callers[n].h)
    ensures var (e, next) := CallerAct(s, n, s.callers[n], code);
      && s.Fits(e)
      && (e.change.Touch? ==> Proper(e.change.life, e.change.h) && Moves(s.lives[e.change.h], e.change.life))
      && !e.change.Born?
      && (e.drop.Some? ==> s.callers[n].DestroyDeleting? && e.drop.value == s.callers[n].id)
      && (next.Some? ==> next.value.h == s.callers[n].h)
      && (next.Some? && next.value.DestroyInspecting? ==> s.lives[next.value.h].id == next.value.id)
      && (next.Some? && next.value.DestroyDeleting? ==>
            e == NOTHING && s.lives[next.value.h].id == next.value.id
            && (next.value.force || Gone(s.lives[next.value.h])))
  {
    hide PotName, HasParts;
  }

  lemma DeletedFetched(s: State, n: nat, code: int)
    requires Sound(s) && Own(s) && n in s.callers && s.callers[n].DestroyDeleting?
    requires DeletesInOrder(s, CallerStep(n, code))
    ensures var id := s.callers[n].id; id in s.store ==> s.lives[s.store[id]].waiter.Fetched()
  {
    hide PotName, HasParts, Proper, SoundLives, SoundLog;
    var call := s.callers[n];
    assert Informed(s, n);
    if call.id in s.store {
      var h := s.store[call.id];
      assert Deletes(s, CallerStep(n, code), h);
    }
  }

  lemma CallerOwn(s: State, n: nat, code: int)
    requires Sound(s) && Own(s) && n in s.callers
    requires DeletesInOrder(s, CallerStep(n, code))
    ensures Own(CallerNext(s, n, code)) && Advances(s, CallerNext(s, n, code))
  {
    hide PotName, HasParts, Proper, CallerAct, SoundLives, SoundLog, DeletesInOrder, Moves;
    var call := s.callers[n];
    assert call.h < |s.lives| && Informed(s, n) && Proper(s.lives[call.h], call.h);
    var (e, next) := CallerAct(s, n, call, code);
    CallerProper(s, n, code);
    if e.drop.Some? { DeletedFetched(s, n, code); }
    ApplyOwn(s, e);
    hide EffectOwn;
    CallGoesOn(s, n, e, next);
  }

  lemma CallGoesOn(s: State, n: nat, e: Effect, next: Option<Call>)
    requires s.Fits(e) && Own(s.Apply(e)) && n in s.callers && s.callers[n].h < |s.lives| && !e.change.Born?
    requires e.change.Touch? ==> Moves(s.lives[e.change.h], e.change.life)
    requires next.Some? ==> next.value.h == s.callers[n].h
    requires next.Some? && next.value.DestroyInspecting? ==> s.lives[next.value.h].id == next.value.id
    requires next.Some? && next.value.DestroyDeleting? ==>
      e == NOTHING && s.lives[next.value.h].id == next.value.id
      && (next.value.force || Gone(s.lives[next.value.h]))
    ensures Own(s.Apply(e).Attend(n, next)) && Advances(s.Apply(e), s.Apply(e).Attend(n, next))
  {
    hide PotName, HasParts, Proper;
    var mid, after := s.Apply(e), s.Apply(e).Attend(n, next);
    forall m | m in after.callers
      ensures after.callers[m].h < |after.lives| && Informed(after, m)
    {
      if m != n { assert Informed(mid, m); }
    }
    ControlOwn(mid, after);
  }

  lemma LookupOwn(s: State, n: nat, call: Call)
    requires Sound(s) && Own(s) && n !in s.callers && call.h < |s.lives| && !call.DestroyDeleting?
    requires call.DestroyInspecting? ==> s.lives[call.h].id == call.id
    ensures Own(s.Attend(n, Some(call))) && Advances(s, s.Attend(n, Some(call)))
  {
    hide PotName, HasParts, Proper, Sound;
    var next := s.Attend(n, Some(call));
    forall m | m in next.callers
      ensures next.callers[m].h < |next.lives| && Informed(next, m)
    {
      if m != n { assert Informed(s, m); }
    }
    ControlOwn(s, next);
  }

  /** Every step that deletes in order keeps every waiter on its own handle and every handle proper. */
  lemma OwnStep(s: State, l: Label)
    requires Sound(s) && Own(s) && Vacant(s) && SpawnInv(s) && Next(s, l).Some?
    requires DeletesInOrder(s, l)
    ensures Own(Next(s, l).value) && Advances(s, Next(s, l).value)
  {
    hide PotName, HasParts, Proper, SoundLives, SoundLog, Own, Vacant, SpawnInv;
    hide StarterNext, WaiterNext, CallerNext, RunAct;
    AdvancesSame(s);
    match l
    case StarterStep(id, yes) => StarterOwn(s, id, yes);
    case WaiterStep(h, wait, stats, alive) =>
      LifeSound(s, h);
      WaiterOwn(s, h, wait, stats, alive);
    case CallerStep(n, code) => CallerOwn(s, n, code);
    case RunStep(h) => RunOwn(s, h);
    case CreateMore(id) => ApplyOwn(s, Issue(Create, id, OfTask(id)));
    case WaiterQuits(h) => QuitOwn(s, h);
    case CallStop(n, id) => if id in s.store { LookupOwn(s, n, StopClaiming(s.store[id])); }
    case CallDestroy(n, id, force) => if id in s.store { LookupOwn(s, n, DestroyInspecting(id, force, s.store[id])); }
    case CallUse(n, id, use) => if id in s.store { LookupOwn(s, n, Using(s.store[id], use)); }
    case _ => SameCallsOwn(s, Next(s, l).value);
  }

  lemma RunOwn(s: State, h: nat)
    requires Sound(s) && Own(s) && h < |s.lives| && RunAct(s.lives[h]).Some?
    ensures Own(s.Apply(Turn(h, RunAct(s.lives[h]).value))) && Advances(s, s.Apply(Turn(h, RunAct(s.lives[h]).value)))
  {
    hide PotName, HasParts, Proper, Sound, RunAct;
    RunProper(s.lives[h], h);
    RunMoves(s.lives[h], h);
    ApplyOwn(s, Turn(h, RunAct(s.lives[h]).value));
  }

  lemma QuitOwn(s: State, h: nat)
    requires Sound(s) && Own(s) && h < |s.lives| && s.lives[h].waiter.Polling?
    ensures var next := s.Apply(Turn(h, s.lives[h].(waiter := RecFetching))); Own(next) && Advances(s, next)
  {
    hide PotName, HasParts, Sound;
    assert Proper(s.lives[h], h);
    ApplyOwn(s, Turn(h, s.lives[h].(waiter := RecFetching)));
  }

  // ---- registration

  /** A starter that goes on after its lookup found nothing there; one that registers leaves that stretch. */
  lemma StarterVacates(s: State, id: TaskId, st: Starter, yes: bool)
    requires st.Unregistered() ==> id !in s.store
    ensures var (e, next) := StarterAct(s, id, st, yes);
      && s.Fits(e)
      && (e.change.Born? ==> e.change.life.id == id)
      && (next.Some? && next.value.Unregistered() ==> id !in s.store && !e.change.Born?)
  {
    hide PotName, HasParts;
  }

  /** In every run whatsoever, nothing is registered under a starter's feet. */
  lemma VacantStep(s: State, l: Label)
    requires Sound(s) && Vacant(s) && Next(s, l).Some?
    ensures Vacant(Next(s, l).value)
  {
    hide PotName, HasParts, Sound, WaiterAct, CallerAct, RunAct, StarterAct;
    if l.StarterStep? && l.id in s.starters {
      StarterVacates(s, l.id, s.starters[l.id], l.yes);
    } else if l.WaiterStep? {
      WaiterStore(s, l);
    } else if l.CallerStep? {
      CallerStore(s, l);
    }
  }

  lemma PerformStore(s: State, h: nat, t: nat, a: Act)
    requires h < |s.lives| && t < |s.lives| && a.Acting?
    ensures Perform(s, h, t, a).store == s.store && Perform(s, h, t, a).starters == s.starters
    ensures Fetch(s, h).store == s.store && Fetch(s, h).starters == s.starters
  {
    hide PotName, HasParts;
  }

  lemma WaiterStore(s: State, l: Label)
    requires Sound(s) && l.WaiterStep? && Next(s, l).Some?
    ensures Next(s, l).value.store == s.store && Next(s, l).value.starters == s.starters
  {
    hide PotName, HasParts, WaiterAct, Sound, Perform, Fetch;
    LifeSound(s, l.h);
    var w := s.lives[l.h].waiter;
    var idle := Acting(w, s.lives[l.h].handle, None, None, None, None, false);
    PerformStore(s, l.h, l.h, idle);
    if w.Fetched() {
      var a := WaiterAct(l.h, s.lives[l.h], s.lives[w.target], l.wait, l.stats);
      if a.Acting? { PerformStore(s, l.h, w.target, a); }
    }
  }

  lemma CallerStore(s: State, l: Label)
    requires Sound(s) && l.CallerStep? && Next(s, l).Some?
    ensures Next(s, l).value.starters == s.starters
    ensures Next(s, l).value.store == if Deleting(s, l) then s.store - {s.callers[l.n].id} else s.store
  {
    hide PotName, HasParts, SoundLog, SoundLives, SoundStore;
  }
}
