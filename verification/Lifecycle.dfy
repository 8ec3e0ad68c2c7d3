/**
 The task lifecycle under concurrency: one shared store, any number of handles, and any number of API calls and
 goroutines, cut at every lock, compare-and-swap and external command. Each label is one such step of one actor,
 with the answer the environment gives it.
 */
module Lifecycle {
  import opened Options
  import opened Naming
  import opened Host
  import opened Handles

  /** How a handle came to be: a launch of this start, a pot a start found alive, or a recovery. */
  datatype Kind = Fresh | Adopted | Retaken

  /** The `run` goroutine, which only a fresh start spawns. */
  datatype RunPc = NoRun | Unspawned | Allocating | Publishing | Returned

  /** The waiter goroutine of a handle. `target` is the handle its own store lookup returned; `PotLost` is a `potWait`
      whose lookup returned none, and who waits for the process all the same. */
  datatype WaiterPc =
    | NotSpawned
    | PotFetching
    | PotLost
    | PotWaiting(target: nat)
    | PotExiting(target: nat, wait: Outcome)
    | PotFailing(target: nat, wait: Outcome)
    | PotAsking(target: nat)
    | PotStoring(target: nat, code: int)
    | Polling
    | RecFetching
    | RecExiting(target: nat)
    | RecAsking(target: nat)
    | RecStoring(target: nat, code: int)
    | Claiming(target: nat)
    | Launching(target: nat)
    | Finished(target: nat)
  {
    predicate Fetched() {
      !NotSpawned? && !PotFetching? && !PotLost? && !Polling? && !RecFetching?
    }

    /** Exited has not been published yet. */
    predicate BeforeExit() {
      !Fetched() || PotWaiting? || PotExiting? || RecExiting?
    }
  }

  datatype Who = Waiter(h: nat) | Caller(n: nat)

  /** `run` is yet to publish. */
  predicate RunPending(r: RunPc) {
    r.Unspawned? || r.Allocating? || r.Publishing?
  }

  /** A registered handle with its two goroutines. `winner` is whoever turned `calledDestroy` and has not launched the
      destroy yet; `runCode`, `wait` and `stats` remember the code that `run` or the recovery stored and what the waiter
      was told; `late` whether `Wait` answered before `run` had published. */
  datatype Life = Life(
    id: TaskId, handle: Handle, kind: Kind, run: RunPc, waiter: WaiterPc, winner: Option<Who>,
    runCode: int, wait: Option<Outcome>, stats: Option<int>, late: bool)

  /** The Start or Recover call of one task ID. */
  datatype Starter =
    | StartGetting | StartChecking | StartLooking | StartCreating | StartLaunching
    | StartSaving(adopted: bool) | StartSetting(adopted: bool)
    | RecGetting | RecChecking | RecDropping | RecSaving | RecSetting | RecTouching(h: nat)
    | Undoing
    | SpawningRun(h: nat) | SpawningWait(h: nat)
  {
    /** Between the lookup that found nothing and the registration. */
    predicate Unregistered() {
      !StartGetting? && !RecGetting? && !RecTouching? && !SpawningRun? && !SpawningWait?
    }
  }

  /** What a call other than stop and destroy does in the pot. */
  datatype Use = Signal | Execute | Stats

  datatype Verb = CheckAlive | CheckExists | Create | Start | LastRunStats | Destroy | Used(use: Use)

  /** Any other API call, after its store lookup. */
  datatype Call =
    | StopClaiming(h: nat)
    | StopLaunching(h: nat)
    | DestroyInspecting(id: TaskId, force: bool, h: nat)
    | DestroyDeleting(id: TaskId, force: bool, h: nat)
    | Using(h: nat, use: Use)

  datatype Owner = OfTask(id: TaskId) | OfHandle(h: nat)

  /** A command that was launched: what it does, the pot it names, and on whose behalf. */
  datatype Entry = Entry(verb: Verb, pot: string, owner: Owner)

  /** The change to the lives: one more, or one in another condition. */
  datatype Change = Keep | Born(life: Life) | Touch(h: nat, life: Life)

  /** What a step does to the shared state: the lives, at most one command, at most one deletion from the store.
      A handle that is born is also set in the store. */
  datatype Effect = Effect(change: Change, entry: Option<Entry>, drop: Option<TaskId>)

  const NOTHING := Effect(Keep, None, None)

  function Issue(verb: Verb, id: TaskId, owner: Owner): Effect {
    Effect(Keep, Some(Entry(verb, PotName(id), owner)), None)
  }

  function Turn(h: nat, life: Life): Effect {
    Effect(Touch(h, life), None, None)
  }

  function Register(id: TaskId, handle: Handle, kind: Kind): Effect {
    var run := if kind.Fresh? then Unspawned else NoRun;
    Effect(Born(Life(id, handle, kind, run, NotSpawned, None, 0, None, None, false)), None, None)
  }

  /** Starters are keyed by ID: Start and Recover calls of one task are serialised. That is Nomad's doing, not the
      driver's, whose check and set are apart. */
  datatype State = State(
    store: map<TaskId, nat>, lives: seq<Life>, starters: map<TaskId, Starter>, callers: map<nat, Call>,
    shutdown: bool, log: seq<Entry>, crashed: bool)
  {
    predicate Fits(e: Effect) {
      e.change.Touch? ==> e.change.h < |lives|
    }

    function Apply(e: Effect): State
      requires Fits(e)
    {
      this.(
        store := match e.change
                 case Born(life) => store[life.id := |lives|]
                 case _ => (match e.drop case None => store case Some(id) => store - {id}),
        lives := match e.change
                 case Keep => lives
                 case Born(life) => lives + [life]
                 case Touch(h, life) => lives[h := life],
        log := match e.entry case None => log case Some(entry) => log + [entry])
    }

    function Steer(id: TaskId, next: Option<Starter>): State {
      this.(starters := if next.Some? then starters[id := next.value] else starters - {id})
    }

    function Attend(n: nat, next: Option<Call>): State {
      this.(callers := if next.Some? then callers[n := next.value] else callers - {n})
    }

    function Crash(): State {
      this.(crashed := true)
    }
  }

  /** Whose next command it is. */
  datatype Actor = WaiterOf(h: nat) | CallerNo(n: nat) | StarterFor(id: TaskId)

  const INITIAL := State(map[], [], map[], map[], false, [], false)

  datatype Label =
    | CallStart(id: TaskId)
    | CallRecover(id: TaskId)
    | StarterStep(id: TaskId, yes: bool)
    | CreateMore(id: TaskId)
    | RunStep(h: nat)
    | WaiterStep(h: nat, wait: Outcome, stats: Option<int>, alive: bool)
    | WaiterQuits(h: nat)
    | CallStop(n: nat, id: TaskId)
    | CallDestroy(n: nat, id: TaskId, force: bool)
    | CallUse(n: nat, id: TaskId, use: Use)
    | CallerStep(n: nat, code: int)
    | CannotStart(who: Actor)
    | Shutdown

  // ---- starts and recoveries

  /** What a start or a recovery does next, and where it goes; nowhere when it is over. `yes` answers the question of
      the step: is the pot alive, does it exist, did the plan succeed, did the pipes open, was the state saved. */
  function StarterAct(s: State, id: TaskId, st: Starter, yes: bool): (Effect, Option<Starter>) {
    match st
    case StartGetting => (NOTHING, if id in s.store then None else Some(StartChecking))
    case StartChecking =>
      (Issue(CheckAlive, id, OfTask(id)), Some(if yes then StartSaving(true) else StartLooking))
    case StartLooking => (Issue(CheckExists, id, OfTask(id)), Some(if yes then StartLaunching else StartCreating))
    case StartCreating => (Issue(Create, id, OfTask(id)), Some(if yes then StartLaunching else Undoing))
    case StartLaunching =>
      if yes then (Issue(Start, id, OfTask(id)), Some(StartSaving(false))) else (NOTHING, Some(Undoing))
    case StartSaving(adopted) => (NOTHING, Some(if yes then StartSetting(adopted) else Undoing))
    case StartSetting(adopted) =>
      (Register(id, Started(id, 0), if adopted then Adopted else Fresh),
       Some(if adopted then SpawningWait(|s.lives|) else SpawningRun(|s.lives|)))
    case RecGetting => (NOTHING, if id in s.store then None else Some(RecChecking))
    case RecChecking => (Issue(CheckAlive, id, OfTask(id)), Some(if yes then RecSaving else RecDropping))
    case RecDropping => (Effect(Keep, None, Some(id)), None)
    case RecSaving => (NOTHING, Some(if yes then RecSetting else Undoing))
    case RecSetting => (Register(id, Recovered(id, 0), Retaken), Some(RecTouching(|s.lives|)))
    case Undoing => (Issue(Destroy, id, OfTask(id)), None)
    case RecTouching(h) =>
      if h >= |s.lives| then (NOTHING, None)
      else
        var v := s.lives[h].handle;
        var touched := v.(procState := Running, exitResult := Some(v.exitCode));
        (Turn(h, s.lives[h].(handle := touched, runCode := v.exitCode)),
         Some(SpawningWait(h)))
    case SpawningRun(h) =>
      if h >= |s.lives| then (NOTHING, None)
      else (Turn(h, s.lives[h].(run := Allocating)), Some(SpawningWait(h)))
    case SpawningWait(h) =>
      if h >= |s.lives| then (NOTHING, None)
      else (Turn(h, s.lives[h].(waiter := if s.lives[h].kind.Retaken? then Polling else PotFetching)), None)
  }

  function StarterNext(s: State, id: TaskId, yes: bool): State
    requires id in s.starters
  {
    var (e, next) := StarterAct(s, id, s.starters[id], yes);
    s.Apply(e).Steer(id, next)
  }

  // ---- the goroutines of a handle

  function RunAct(life: Life): Option<Life> {
    match life.run
    case Allocating => Some(life.(handle := Allocate(life.handle), run := Publishing))
    case Publishing =>
      if life.handle.exitResult.None? then None
      else Some(life.(handle := Publish(life.handle), run := Returned, runCode := life.handle.exitCode))
    case _ => None
  }

  /** What a waiter that has found a handle does next: where it goes, what it leaves in that handle, and the command it
      runs. It crashes when it would store a code through a nil result record. */
  datatype Act =
    | Blocked
    | Crashing
    | Acting(waiter: WaiterPc, handle: Handle, winner: Option<Who>, verb: Option<Verb>,
             wait: Option<Outcome>, stats: Option<int>, late: bool)

  function StoreCode(idle: Act, code: int, next: WaiterPc): Act
    requires idle.Acting?
  {
    if idle.handle.exitResult.None? then Crashing
    else idle.(waiter := next, handle := idle.handle.(exitResult := Some(code)))
  }

  /** `wait` is the answer of `Wait`, `stats` that of last-run-stats. */
  function WaiterAct(h: nat, life: Life, target: Life, wait: Outcome, stats: Option<int>): Act {
    var v := target.handle;
    var idle := Acting(life.waiter, v, target.winner, None, life.wait, life.stats, life.late);
    match life.waiter
    case PotWaiting(t) => idle.(waiter := PotExiting(t, wait), wait := Some(wait), late := RunPending(life.run))
    case PotExiting(t, w) =>
      idle.(waiter := if w.Success? then Claiming(t) else PotFailing(t, w), handle := v.(procState := Exited))
    case PotFailing(t, w) =>
      StoreCode(idle, DEFAULT_FAILED_CODE, if AsksStats(w) then PotAsking(t) else Claiming(t))
    case PotAsking(t) =>
      var next := if stats.Some? then PotStoring(t, stats.value) else Claiming(t);
      idle.(waiter := next, verb := Some(LastRunStats), stats := stats)
    case PotStoring(t, code) => StoreCode(idle, code, Claiming(t))
    case RecExiting(t) => idle.(waiter := RecAsking(t), handle := v.(procState := Exited))
    case RecAsking(t) =>
      idle.(waiter := RecStoring(t, stats.GetOr(DEFAULT_FAILED_CODE)), verb := Some(LastRunStats), stats := stats)
    case RecStoring(t, code) => StoreCode(idle, code, Claiming(t))
    case Claiming(t) =>
      if v.calledDestroy then idle.(waiter := Finished(t))
      else idle.(waiter := Launching(t), handle := v.(calledDestroy := true), winner := Some(Waiter(h)))
    case Launching(t) => idle.(waiter := Finished(t), winner := None, verb := Some(Destroy))
    case _ => Blocked
  }

  /** The waiter of `h` acts on the handle `t`, which need not be its own. */
  function Perform(s: State, h: nat, t: nat, a: Act): State
    requires h < |s.lives| && t < |s.lives| && a.Acting?
  {
    var mid := s.Apply(Turn(t, s.lives[t].(handle := a.handle, winner := a.winner)));
    var own := mid.lives[h].(waiter := a.waiter, wait := a.wait, stats := a.stats, late := a.late);
    var entry := if a.verb.Some? then Some(Entry(a.verb.value, PotName(s.lives[h].id), OfHandle(t))) else None;
    mid.Apply(Effect(Touch(h, own), entry, None))
  }

  /** A failed lookup yields a nil handle, which the waiter is certain to dereference: `recoverWait` at once, `potWait`
      when the process is over. */
  function Fetch(s: State, h: nat): State
    requires h < |s.lives|
  {
    var life := s.lives[h];
    if life.id !in s.store then
      if life.waiter.PotFetching? then s.Apply(Turn(h, life.(waiter := PotLost))) else s.Crash()
    else
      var t := s.store[life.id];
      s.Apply(Turn(h, life.(waiter := if life.waiter.PotFetching? then PotWaiting(t) else RecExiting(t))))
  }

  function Poll(s: State, h: nat, alive: bool): State
    requires h < |s.lives|
  {
    var life := s.lives[h];
    var polled := if alive then life else life.(waiter := RecFetching);
    s.Apply(Issue(CheckAlive, life.id, OfHandle(h)).(change := Touch(h, polled)))
  }

  /** One step of the waiter of `h`; `alive` is the answer of a poll. */
  function WaiterNext(s: State, h: nat, wait: Outcome, stats: Option<int>, alive: bool): Option<State>
    requires h < |s.lives| && SoundLife(s, h)
  {
    var w := s.lives[h].waiter;
    if w.PotFetching? || w.RecFetching? then Some(Fetch(s, h))
    else if w.Polling? then Some(Poll(s, h, alive))
    else if w.PotLost? then Some(s.Crash())
    else if w.NotSpawned? then None
    else
      var a := WaiterAct(h, s.lives[h], s.lives[w.target], wait, stats);
      if a.Blocked? then None
      else if a.Crashing? then Some(s.Crash())
      else Some(Perform(s, h, w.target, a))
  }

  // ---- the other calls

  /** What a call does next, and where it goes. `code` is the status of a statistics command. */
  function CallerAct(s: State, n: nat, call: Call, code: int): (Effect, Option<Call>)
    requires call.h < |s.lives|
  {
    var life := s.lives[call.h];
    var v := life.handle;
    match call
    case StopClaiming(h) =>
      if v.calledDestroy then (NOTHING, None)
      else (Turn(h, life.(handle := v.(calledDestroy := true), winner := Some(Caller(n)))), Some(StopLaunching(h)))
    case StopLaunching(h) =>
      (Issue(Destroy, life.id, OfHandle(h)).(change := Touch(h, life.(winner := None))), None)
    case DestroyInspecting(id, force, h) =>
      (NOTHING, if v.procState == Running && !force then None else Some(DestroyDeleting(id, force, h)))
    case DestroyDeleting(id, _, _) => (Effect(Keep, None, Some(id)), None)
    case Using(h, use) =>
      var sampled := if use == Stats then life.(handle := v.(exitCode := code)) else life;
      (Issue(Used(use), life.id, OfHandle(h)).(change := Touch(h, sampled)), None)
  }

  function CallerNext(s: State, n: nat, code: int): State
    requires n in s.callers && s.callers[n].h < |s.lives|
  {
    var (e, next) := CallerAct(s, n, s.callers[n], code);
    s.Apply(e).Attend(n, next)
  }

  /** Indices that the functions above rely on, and names: every state of every run has them in order. */
  predicate Sound(s: State) {
    SoundStore(s) && SoundLives(s) && SoundCallers(s) && SoundLog(s)
  }

  predicate SoundStore(s: State) {
    forall id :: id in s.store ==> s.store[id] < |s.lives| && s.lives[s.store[id]].id == id
  }

  predicate SoundLives(s: State) {
    forall h :: 0 <= h < |s.lives| ==> SoundLife(s, h)
  }

  /** The exit error is never set, so that no handle is ever in the unknown state. */
  predicate Known(v: Handle) {
    !v.exitError && v.procState != Unknown
  }

  /** A waiter works on a handle of its own task, if not on its own. */
  predicate SoundLife(s: State, h: nat)
    requires h < |s.lives|
  {
    var life := s.lives[h];
    && life.handle.id == life.id && Known(life.handle)
    && (life.waiter.Fetched() ==> life.waiter.target < |s.lives| && s.lives[life.waiter.target].id == life.id)
  }

  predicate SoundCallers(s: State) {
    forall n :: n in s.callers ==> s.callers[n].h < |s.lives|
  }

  predicate SoundLog(s: State) {
    forall i :: 0 <= i < |s.log| ==> SoundEntry(s, s.log[i])
  }

  /** No cross-task interference: the command names the pot of the task it was issued for. */
  predicate SoundEntry(s: State, e: Entry) {
    match e.owner
    case OfTask(id) => e.pot == PotName(id)
    case OfHandle(h) => h < |s.lives| && e.pot == PotName(s.lives[h].id)
  }

  /** The next step launches a command whose process is dereferenced without a look at the error: a destroy, a launch, a
      signal or statistics. Creating and executing look first. */
  predicate AboutToLaunch(s: State, who: Actor) {
    match who
    case WaiterOf(h) =>
      && h < |s.lives|
      && var w := s.lives[h].waiter; w.PotAsking? || w.RecAsking? || w.Launching?
    case CallerNo(n) =>
      && n in s.callers
      && var call := s.callers[n]; call.StopLaunching? || (call.Using? && call.use != Execute)
    case StarterFor(id) => id in s.starters && (s.starters[id].Undoing? || s.starters[id].StartLaunching?)
  }

  /** One step of one actor, if it is enabled. */
  function Next(s: State, l: Label): Option<State>
    requires Sound(s)
  {
    if s.crashed then None
    else
      match l
      case CallStart(id) => if id !in s.starters then Some(s.Steer(id, Some(StartGetting))) else None
      case CallRecover(id) => if id !in s.starters then Some(s.Steer(id, Some(RecGetting))) else None
      case StarterStep(id, yes) => if id in s.starters then Some(StarterNext(s, id, yes)) else None
      case CreateMore(id) =>
        if id in s.starters && s.starters[id] == StartCreating then Some(s.Apply(Issue(Create, id, OfTask(id))))
        else None
      case RunStep(h) =>
        if h < |s.lives| && RunAct(s.lives[h]).Some? then Some(s.Apply(Turn(h, RunAct(s.lives[h]).value))) else None
      case WaiterStep(h, wait, stats, alive) =>
        if h < |s.lives| then assert SoundLife(s, h); WaiterNext(s, h, wait, stats, alive) else None
      case WaiterQuits(h) =>
        if s.shutdown && h < |s.lives| && s.lives[h].waiter.Polling?
        then Some(s.Apply(Turn(h, s.lives[h].(waiter := RecFetching)))) else None
      case CallStop(n, id) =>
        if n in s.callers then None
        else Some(if id in s.store then s.Attend(n, Some(StopClaiming(s.store[id]))) else s)
      case CallDestroy(n, id, force) =>
        if n in s.callers then None
        else Some(if id in s.store then s.Attend(n, Some(DestroyInspecting(id, force, s.store[id]))) else s)
      case CallUse(n, id, use) =>
        if n in s.callers then None
        else Some(if id in s.store then s.Attend(n, Some(Using(s.store[id], use))) else s)
      case CallerStep(n, code) => if n in s.callers then Some(CallerNext(s, n, code)) else None
      case CannotStart(who) => if AboutToLaunch(s, who) then Some(s.Crash()) else None
      case Shutdown => Some(s.(shutdown := true))
  }
}
