/** The exit codes that runs leave behind, and what could be seen of them on the way. */
module LifecycleResults {
  import opened Options
  import opened Naming
  import opened Host
  import opened Handles
  import opened Lifecycle
  import opened LifecycleDestroy
  import opened LifecycleOwn
  import opened LifecycleCodes
  import opened LifecycleRuns

  function Front(labels: seq<Label>): seq<Label>
    requires labels != []
  {
    labels[..|labels| - 1]
  }

  function Last(labels: seq<Label>): Label
    requires labels != []
  {
    labels[|labels| - 1]
  }

  lemma AfterLast(labels: seq<Label>)
    requires Sound(INITIAL) && labels != []
    ensures After(INITIAL, Front(labels)).Some? ==> Sound(After(INITIAL, Front(labels)).value)
    ensures After(INITIAL, labels) ==
      if After(INITIAL, Front(labels)).None? then None else Next(After(INITIAL, Front(labels)).value, Last(labels))
  {
    hide Sound, Next, After;
    assert labels == Front(labels) + [Last(labels)];
    AfterMore(INITIAL, Front(labels), Last(labels));
  }

  // ---- the code that `run` stores

  /** The step samples the statistics of a handle whose `run` has not published. */
  predicate SamplesBefore(s: State, l: Label, h: nat) {
    h < |s.lives| && RunPending(s.lives[h].run) && SampleIn(s, l, h).Some?
  }

  /** The status of the last statistics command on the handle before its `run` published, or zero if there was none. */
  function LastSample(labels: seq<Label>, h: nat): int
    requires Sound(INITIAL)
  {
    if labels == [] then 0
    else
      var s := After(INITIAL, Front(labels));
      if s.Some? && SamplesBefore(s.value, Last(labels), h) then SampleIn(s.value, Last(labels), h).value
      else LastSample(Front(labels), h)
  }

  predicate Stored(s: State, h: nat, code: int) {
    if h < |s.lives| then
      && (RunPending(s.lives[h].run) ==> s.lives[h].handle.exitCode == code)
      && (s.lives[h].run.Returned? ==> s.lives[h].runCode == code)
    else code == 0
  }

  /** In every run, what `run` stores is the last sample before. */
  lemma {:induction false} SampleStored(labels: seq<Label>, s: State, h: nat)
    requires Sound(INITIAL) && After(INITIAL, labels) == Some(s)
    ensures Stored(s, h, LastSample(labels, h))
    decreases |labels|
  {
    hide Sound, Next, After, Always;
    if labels == [] {
      assert s == INITIAL by { AfterNothing(INITIAL); }
    } else {
      AfterLast(labels);
      var before, l := After(INITIAL, Front(labels)).value, Last(labels);
      SampleStored(Front(labels), before, h);
      ReachedCodes(Front(labels), before, l);
      if h < |before.lives| { assert CodesAt(before, l, h, s.lives[h]); }
    }
  }

  lemma ReachedCodes(labels: seq<Label>, s: State, l: Label)
    requires Sound(INITIAL) && After(INITIAL, labels) == Some(s) && Sound(s) && Next(s, l).Some?
    ensures CodesMove(s, l, Next(s, l).value)
  {
    hide Sound, Next, After, CodesMove;
    InitialSound();
    AlwaysAfter(INITIAL, labels);
    CodesStep(s, l);
  }

  /** When the waiter of a fresh start has finished, the result is the one that the answer of `Wait`, the statistics of
      the last run and the last sample before `run` call for; so a clean exit leaves zero exactly if that sample did not
      fail. */
  lemma FinalResult(labels: seq<Label>, s: State, h: nat)
    requires Sound(INITIAL) && Orderly(INITIAL, labels) && After(INITIAL, labels) == Some(s)
    requires h < |s.lives| && s.lives[h].kind.Fresh? && s.lives[h].waiter.Finished?
    ensures s.lives[h].wait.Some? && s.lives[h].handle.exitResult.Some?
    ensures var wait, stats, code := s.lives[h].wait.value, s.lives[h].stats, s.lives[h].handle.exitResult.value;
      && code == (if wait.Success? then LastSample(labels, h)
                  else if wait == ExitError(125) && stats.Some? then stats.value else 255)
      && s.lives[h].handle.procState == Exited
      && (wait.Success? ==> (code == 0 <==> LastSample(labels, h) == 0))
  {
    InitialSound();
    OwnAfter(INITIAL, labels);
    SampleStored(labels, s, h);
    hide After, Orderly, PotName, HasParts, Always, LastSample;
    assert Proper(s.lives[h], h);
  }

  /** The step samples no failing statistics command of the handle before its `run` has published, or before the waiter
      of a recovery is spawned. */
  predicate SamplesLate(s: State, l: Label, h: nat) {
    h < |s.lives| && SampleIn(s, l, h).Some?
    && (RunPending(s.lives[h].run) || (s.lives[h].kind.Retaken? && s.lives[h].waiter.NotSpawned?))
    ==> SampleIn(s, l, h) == Some(0)
  }

  predicate LateSamples(labels: seq<Label>, h: nat)
    requires Sound(INITIAL)
  {
    labels == [] ||
    (LateSamples(Front(labels), h)
     && (After(INITIAL, Front(labels)).Some? ==> SamplesLate(After(INITIAL, Front(labels)).value, Last(labels), h)))
  }

  lemma {:induction false} LateIsZero(labels: seq<Label>, h: nat)
    requires Sound(INITIAL) && LateSamples(labels, h)
    ensures LastSample(labels, h) == 0
    decreases |labels|
  {
    hide Sound, After;
    if labels != [] { LateIsZero(Front(labels), h); }
  }

  predicate Recorded(s: State, h: nat) {
    h < |s.lives| ==>
      s.lives[h].kind.Retaken? && s.lives[h].run.NoRun? ==>
        s.lives[h].runCode == 0 && (s.lives[h].waiter.NotSpawned? ==> s.lives[h].handle.exitCode == 0)
  }

  lemma {:induction false} RecordedZero(labels: seq<Label>, s: State, h: nat)
    requires Sound(INITIAL) && LateSamples(labels, h) && After(INITIAL, labels) == Some(s)
    ensures Recorded(s, h)
    decreases |labels|
  {
    hide Sound, Next, After, Always;
    if labels == [] {
      assert s == INITIAL by { AfterNothing(INITIAL); }
    } else {
      AfterLast(labels);
      var before, l := After(INITIAL, Front(labels)).value, Last(labels);
      RecordedZero(Front(labels), before, h);
      ReachedCodes(Front(labels), before, l);
      if h < |before.lives| { assert CodesAt(before, l, h, s.lives[h]); }
    }
  }

  /** If no such sample failed, the exit code is zero exactly if the pot exited cleanly, or reported a failed enclosed
      process whose last run was successfully found to have exited with zero; 255 for every failure without such
      statistics. */
  lemma FinalExitCode(labels: seq<Label>, s: State, h: nat)
    requires Sound(INITIAL) && Orderly(INITIAL, labels) && LateSamples(labels, h) && After(INITIAL, labels) == Some(s)
    requires h < |s.lives| && s.lives[h].kind.Fresh? && s.lives[h].waiter.Finished?
    ensures s.lives[h].wait.Some? && s.lives[h].handle.exitResult.Some?
    ensures var wait, stats, code := s.lives[h].wait.value, s.lives[h].stats, s.lives[h].handle.exitResult.value;
      && (code == 0 <==> wait.Success? || (wait == ExitError(125) && stats == Some(0)))
      && (wait == ExitError(125) && stats.Some? ==> code == stats.value)
      && (!wait.Success? && !(wait == ExitError(125) && stats.Some?) ==> code == 255)
  {
    hide After, Orderly, LateSamples, LastSample;
    FinalResult(labels, s, h);
    LateIsZero(labels, h);
    CleanExit(LastSample(labels, h), s.lives[h].wait.value, s.lives[h].stats);
  }

  // ---- what could be seen

  /** The results visible on the handle of an exited task after the run. */
  function Now(labels: seq<Label>, h: nat): set<int>
    requires Sound(INITIAL)
  {
    var s := After(INITIAL, labels);
    if s.Some? && h < |s.value.lives| then Visible(s.value.lives[h]) else {}
  }

  /** At some moment of the run the task was seen exited, with this result. */
  predicate Showed(labels: seq<Label>, h: nat, v: int)
    requires Sound(INITIAL)
  {
    exists k :: 0 <= k <= |labels| && v in Now(labels[..k], h)
  }

  lemma ShowedMore(labels: seq<Label>, h: nat, v: int)
    requires Sound(INITIAL)
    ensures Showed(labels, h, v) <==> v in Now(labels, h) || (labels != [] && Showed(Front(labels), h, v))
  {
    hide Now, Sound;
    assert labels[..|labels|] == labels;
    if labels != [] {
      assert forall k :: 0 <= k < |labels| ==> labels[..k] == Front(labels)[..k];
    }
  }

  /** Everything that has ever been visible on a handle can be told from where its waiter is. */
  lemma {:induction false} ShowedIffShownBy(labels: seq<Label>, s: State, h: nat, v: int)
    requires Sound(INITIAL) && Orderly(INITIAL, labels) && After(INITIAL, labels) == Some(s)
    ensures Showed(labels, h, v) <==> h < |s.lives| && v in ShownBy(s.lives[h])
    decreases |labels|
  {
    hide Sound, Next, After, Always, Orderly, ShownBy, Showed, Own, Visible;
    ShowedMore(labels, h, v);
    if labels == [] {
      assert s == INITIAL by { AfterNothing(INITIAL); }
    } else {
      AfterLast(labels);
      var front, before, l := Front(labels), After(INITIAL, Front(labels)).value, Last(labels);
      assert labels == front + [l];
      OrderlyMore(INITIAL, front, l);
      ShowedIffShownBy(front, before, h, v);
      if h < |s.lives| {
        ShownStep(front, before, l, s, h);
      } else {
        ReachedCodes(front, before, l);
      }
    }
  }

  lemma ShownStep(labels: seq<Label>, s: State, l: Label, next: State, h: nat)
    requires Sound(INITIAL) && Orderly(INITIAL, labels) && After(INITIAL, labels) == Some(s)
    requires Sound(s) && Next(s, l) == Some(next) && RunFirst(s, l) && DeletesInOrder(s, l) && h < |next.lives|
    ensures |s.lives| <= |next.lives|
    ensures ShownBy(next.lives[h])
         == (if h < |s.lives| then ShownBy(s.lives[h]) else {}) + Visible(next.lives[h])
  {
    hide Sound, Next, After, Always, Orderly, ShownBy, Own, Later, Visible, DestroyInv, SpawnInv, Vacant;
    InitialSound();
    OwnAfter(INITIAL, labels);
    AlwaysSound(s);
    OwnStep(s, l);
    PromptStep(s, l);
    CodesStep(s, l);
    if h < |s.lives| {
      assert Moves(s.lives[h], next.lives[h]);
    } else {
      assert NewCodes(next.lives[h]);
      NewUnseen(next, h);
    }
  }

  lemma NewUnseen(s: State, h: nat)
    requires Own(s) && h < |s.lives| && s.lives[h].waiter.NotSpawned?
    ensures ShownBy(s.lives[h]) == {} == Visible(s.lives[h])
  {
    assert Proper(s.lives[h], h);
  }

  /** Some moment of the run showed the task exited with a result that is not the final one. */
  ghost predicate Misled(labels: seq<Label>, h: nat, final: int)
    requires Sound(INITIAL)
  {
    exists v :: Showed(labels, h, v) && v != final
  }

  /** Exactly when an exited task has shown a result that was not to stay, once its waiter has finished. The first
      result shown is the code that `run` or the recovery stored; after a failure 255 may follow, and then the final
      one. If no statistics command failed early: on a fresh start exactly when `Wait` reported a failure, and on a
      recovered task exactly when the statistics of the last run do not say zero. */
  lemma MisledIff(labels: seq<Label>, s: State, h: nat)
    requires Sound(INITIAL) && Orderly(INITIAL, labels) && After(INITIAL, labels) == Some(s)
    requires h < |s.lives| && s.lives[h].waiter.Finished? && !s.lives[h].kind.Adopted?
    ensures s.lives[h].handle.exitResult.Some?
    ensures var life, final := s.lives[h], s.lives[h].handle.exitResult.value;
      && (life.kind.Fresh? ==>
            (Misled(labels, h, final) <==>
               life.wait != Some(Success) && (life.runCode != 255 || final != 255)))
      && (life.kind.Retaken? ==> (Misled(labels, h, final) <==> life.runCode != final))
    ensures LateSamples(labels, h) ==>
      var life, final := s.lives[h], s.lives[h].handle.exitResult.value;
      && (life.kind.Fresh? ==> (Misled(labels, h, final) <==> life.wait != Some(Success)))
      && (life.kind.Retaken? ==> (Misled(labels, h, final) <==> life.stats != Some(0)))
  {
    InitialSound();
    OwnAfter(INITIAL, labels);
    hide After, Orderly, Always, PotName, HasParts, Showed, LateSamples, LastSample, ShownBy, Proper;
    var final := FinalShown(s, h);
    forall v
      ensures Showed(labels, h, v) <==> v in ShownBy(s.lives[h])
    {
      ShowedIffShownBy(labels, s, h, v);
    }
    assert Misled(labels, h, final) <==> exists v :: v in ShownBy(s.lives[h]) && v != final;
    SetOther({s.lives[h].runCode, final}, final);
    SetOther(ShownBy(s.lives[h]), final);
    hide Misled;
    if LateSamples(labels, h) {
      LateIsZero(labels, h);
      SampleStored(labels, s, h);
      RecordedZero(labels, s, h);
    }
  }

  lemma SetOther(vs: set<int>, final: int)
    ensures vs <= {final} <==> !exists v :: v in vs && v != final
  {
    if v :| v in vs && v != final {
      assert v !in {final};
    } else {
      forall v | v in vs
        ensures v in {final}
      {
      }
    }
  }

  /** What has been visible by the time the waiter has finished, and what is left. */
  lemma FinalShown(s: State, h: nat) returns (final: int)
    requires Own(s) && Prompt(s) && h < |s.lives| && s.lives[h].waiter.Finished? && !s.lives[h].kind.Adopted?
    ensures s.lives[h].handle.exitResult == Some(final)
    ensures var life := s.lives[h];
      && !RunPending(life.run) && (life.kind.Fresh? ==> life.run.Returned?)
      && (life.kind.Fresh? && life.wait == Some(Success) ==> ShownBy(life) == {life.runCode} && final == life.runCode)
      && (life.kind.Fresh? && life.wait != Some(Success) ==>
            ShownBy(life) == {life.runCode, DEFAULT_FAILED_CODE, final})
      && (life.kind.Retaken? ==>
            life.run.NoRun? && ShownBy(life) == {life.runCode, final} && final == life.stats.GetOr(DEFAULT_FAILED_CODE))
  {
    hide PotName, HasParts;
    assert Proper(s.lives[h], h);
    final := s.lives[h].handle.exitResult.value;
  }

  /** A task that is seen exited has no result at all exactly if its start adopted a living pot. */
  lemma NilIffAdopted(labels: seq<Label>, s: State, h: nat)
    requires Sound(INITIAL) && Orderly(INITIAL, labels) && After(INITIAL, labels) == Some(s)
    requires h < |s.lives| && s.lives[h].handle.procState == Exited
    ensures s.lives[h].handle.exitResult.None? <==> s.lives[h].kind.Adopted?
  {
    InitialSound();
    OwnAfter(INITIAL, labels);
    hide After, Orderly, Always, PotName, HasParts;
    assert Proper(s.lives[h], h);
  }
}
