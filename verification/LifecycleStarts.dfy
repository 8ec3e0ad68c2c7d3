/** The commands of starts and recoveries in every run: per task, in the order a single start would issue them. */
module LifecycleStarts {
  import opened Options
  import opened Naming
  import opened Host
  import opened Lifecycle
  import opened LifecycleSound
  import opened LifecycleRuns

  /** How far the commands issued for a task itself have got, those of its handles left aside. */
  datatype Course = Rest | Checked | Looked | Created | Launched | Wrong

  predicate Idle(c: Course) {
    c.Rest? || c.Checked? || c.Launched?
  }

  /** A check comes when nothing is left to undo; a create after the existence check or another create; a launch after
      either; a destroy once, after anything there is to undo. */
  function Advance(c: Course, verb: Verb): Course {
    match verb
    case CheckAlive => if Idle(c) then Checked else Wrong
    case CheckExists => if c.Checked? then Looked else Wrong
    case Create => if c.Looked? || c.Created? then Created else Wrong
    case Start => if c.Looked? || c.Created? then Launched else Wrong
    case Destroy => if c.Rest? || c.Wrong? then Wrong else Rest
    case _ => Wrong
  }

  function Track(log: seq<Entry>, id: TaskId): Course {
    if log == [] then Rest
    else
      var before, last := Track(log[..|log| - 1], id), log[|log| - 1];
      if last.owner == OfTask(id) then Advance(before, last.verb) else before
  }

  lemma TrackMore(log: seq<Entry>, e: Entry, id: TaskId)
    ensures Track(log + [e], id) == if e.owner == OfTask(id) then Advance(Track(log, id), e.verb) else Track(log, id)
  {
    assert (log + [e])[..|log + [e]| - 1] == log;
  }

  /** Where the commands are when the start or recovery of the task is at a given point, or there is none. */
  predicate Agrees(c: Course, st: Option<Starter>) {
    match st
    case None => Idle(c)
    case Some(StartLooking) => c.Checked?
    case Some(StartCreating) => c.Looked? || c.Created?
    case Some(StartLaunching) => c.Looked? || c.Created?
    case Some(StartSaving(adopted)) => c == if adopted then Checked else Launched
    case Some(StartSetting(adopted)) => c == if adopted then Checked else Launched
    case Some(RecDropping) => c.Checked?
    case Some(RecSaving) => c.Checked?
    case Some(RecSetting) => c.Checked?
    case Some(Undoing) => !c.Rest? && !c.Wrong?
    case Some(_) => Idle(c)
  }

  function StarterOf(s: State, id: TaskId): Option<Starter> {
    if id in s.starters then Some(s.starters[id]) else None
  }

  ghost predicate InOrder(s: State) {
    forall id: TaskId :: Agrees(Track(s.log, id), StarterOf(s, id))
  }

  lemma StarterAgrees(s: State, id: TaskId, st: Starter, yes: bool, c: Course)
    requires Agrees(c, Some(st))
    ensures var (e, next) := StarterAct(s, id, st, yes);
      && (e.entry.Some? ==> e.entry.value.owner == OfTask(id))
      && Agrees(if e.entry.Some? then Advance(c, e.entry.value.verb) else c, next)
  {
    hide PotName, HasParts;
  }

  /** Only the step of a starter issues a command for the task itself, and only for its own; only a starter's own steps
      and the beginning of a call change where it is. */
  lemma ElsewhereSame(s: State, l: Label, id: TaskId)
    requires Sound(s) && Next(s, l).Some? && !((l.StarterStep? || l.CreateMore?) && l.id == id)
    ensures Track(Next(s, l).value.log, id) == Track(s.log, id)
    ensures !((l.CallStart? || l.CallRecover?) && l.id == id) ==> StarterOf(Next(s, l).value, id) == StarterOf(s, id)
  {
    hide PotName, HasParts, SoundStore, SoundLives, SoundLog, WaiterNext, CallerAct, StarterAct, RunAct, Track, Advance;
    match l
    case StarterStep(i, yes) =>
      var e := StarterAct(s, i, s.starters[i], yes).0;
      StarterOwns(s, i, s.starters[i], yes);
      if e.entry.Some? { TrackMore(s.log, e.entry.value, id); }
    case CreateMore(i) => TrackMore(s.log, Entry(Create, PotName(i), OfTask(i)), id);
    case WaiterStep(h, wait, stats, alive) =>
      LifeSound(s, h);
      var e := WaiterLogs(s, h, wait, stats, alive);
      if e.Some? { TrackMore(s.log, e.value, id); }
    case CallerStep(n, code) =>
      CallerLogs(s, n, code);
      var e := CallerAct(s, n, s.callers[n], code).0;
      if e.entry.Some? { TrackMore(s.log, e.entry.value, id); }
    case _ =>
  }

  lemma StarterOwns(s: State, id: TaskId, st: Starter, yes: bool)
    ensures var e := StarterAct(s, id, st, yes).0;
      s.Fits(e) && (e.entry.Some? ==> e.entry.value.owner == OfTask(id))
  {
    hide PotName, HasParts;
  }

  lemma CallerLogs(s: State, n: nat, code: int)
    requires n in s.callers && s.callers[n].h < |s.lives|
    ensures var e := CallerAct(s, n, s.callers[n], code).0;
      s.Fits(e) && (e.entry.Some? ==> e.entry.value.owner.OfHandle?)
  {
    hide PotName, HasParts;
  }

  /** A waiter issues at most one command a step, on behalf of a handle. */
  lemma WaiterLogs(s: State, h: nat, wait: Outcome, stats: Option<int>, alive: bool) returns (e: Option<Entry>)
    requires h < |s.lives| && SoundLife(s, h) && WaiterNext(s, h, wait, stats, alive).Some?
    ensures e.Some? ==> e.value.owner.OfHandle?
    ensures var next := WaiterNext(s, h, wait, stats, alive).value;
      next.log == (if e.Some? then s.log + [e.value] else s.log) && next.starters == s.starters
  {
    hide PotName, HasParts, WaiterAct, Perform, Fetch, Poll;
    var life := s.lives[h];
    var w := life.waiter;
    e := None;
    LookingLogs(s, h, alive);
    if w.Polling? {
      e := Some(Entry(CheckAlive, PotName(life.id), OfHandle(h)));
    } else if w.Fetched() {
      var a := WaiterAct(h, life, s.lives[w.target], wait, stats);
      if a.Acting? {
        PerformLogs(s, h, w.target, a);
        if a.verb.Some? { e := Some(Entry(a.verb.value, PotName(life.id), OfHandle(w.target))); }
      }
    }
  }

  lemma LookingLogs(s: State, h: nat, alive: bool)
    requires h < |s.lives|
    ensures Fetch(s, h).log == s.log && Fetch(s, h).starters == s.starters
    ensures Poll(s, h, alive).log == s.log + [Entry(CheckAlive, PotName(s.lives[h].id), OfHandle(h))]
    ensures Poll(s, h, alive).starters == s.starters
  {
    hide PotName, HasParts;
  }

  lemma PerformLogs(s: State, h: nat, t: nat, a: Act)
    requires h < |s.lives| && t < |s.lives| && a.Acting?
    ensures Perform(s, h, t, a).starters == s.starters
    ensures Perform(s, h, t, a).log == if a.verb.None? then s.log
                                       else s.log + [Entry(a.verb.value, PotName(s.lives[h].id), OfHandle(t))]
  {
    hide PotName, HasParts;
  }

  lemma InOrderStep(s: State, l: Label)
    requires Sound(s) && InOrder(s) && Next(s, l).Some?
    ensures InOrder(Next(s, l).value)
  {
    hide PotName, HasParts, Track, Sound, Agrees, Next;
    var next := Next(s, l).value;
    forall id: TaskId
      ensures Agrees(Track(next.log, id), StarterOf(next, id))
    {
      assert Agrees(Track(s.log, id), StarterOf(s, id));
      OneInOrder(s, l, id);
    }
  }

  lemma OneInOrder(s: State, l: Label, id: TaskId)
    requires Sound(s) && Next(s, l).Some? && Agrees(Track(s.log, id), StarterOf(s, id))
    ensures Agrees(Track(Next(s, l).value.log, id), StarterOf(Next(s, l).value, id))
  {
    hide PotName, HasParts, Track, Sound, StarterAct, WaiterNext, CallerAct, RunAct, Agrees, Advance;
    if l.StarterStep? && l.id == id {
      var st, c := s.starters[id], Track(s.log, id);
      var e := StarterAct(s, id, st, l.yes).0;
      StarterAgrees(s, id, st, l.yes, c);
      StarterOwns(s, id, st, l.yes);
      if e.entry.Some? { TrackMore(s.log, e.entry.value, id); }
    } else if l.CreateMore? && l.id == id {
      TrackMore(s.log, Entry(Create, PotName(id), OfTask(id)), id);
      CreatingAgrees(Track(s.log, id));
    } else {
      ElsewhereSame(s, l, id);
      if (l.CallStart? || l.CallRecover?) && l.id == id { BeginningAgrees(Track(s.log, id)); }
    }
  }

  lemma CreatingAgrees(c: Course)
    requires Agrees(c, Some(StartCreating))
    ensures Agrees(Advance(c, Create), Some(StartCreating))
  {
  }

  lemma BeginningAgrees(c: Course)
    requires Agrees(c, None)
    ensures Agrees(c, Some(StartGetting)) && Agrees(c, Some(RecGetting))
  {
  }

  lemma {:induction false} InOrderAfter(s: State, labels: seq<Label>)
    requires Sound(s) && InOrder(s) && After(s, labels).Some?
    ensures InOrder(After(s, labels).value)
    decreases |labels|
  {
    hide Sound, InOrder, Next;
    if labels != [] {
      SoundStep(s, labels[0]);
      InOrderStep(s, labels[0]);
      InOrderAfter(Next(s, labels[0]).value, labels[1..]);
    }
  }

  /** In every run, whatever else happens at the same time, the commands that starts and recoveries issue for a task
      come in order: no create or launch without the checks before it, and whatever a start has begun is either launched
      or undone, by one destroy, before the next start or recovery of the task begins. */
  lemma StartsInOrder(labels: seq<Label>, s: State, id: TaskId)
    requires Sound(INITIAL) && After(INITIAL, labels) == Some(s)
    ensures Track(s.log, id) != Wrong
    ensures id !in s.starters ==> Idle(Track(s.log, id))
  {
    hide PotName, HasParts, After;
    InitialSound();
    assert InOrder(INITIAL);
    InOrderAfter(INITIAL, labels);
    assert Agrees(Track(s.log, id), StarterOf(s, id));
  }
}
