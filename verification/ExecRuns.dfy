/** Whole runs of the streaming protocol: what the client sees, and that a run comes to its end. */
module ExecRuns {
  import opened Options
  import opened ExecStream
  import opened ExecSafety

  lemma SafeStep(s: State, l: Label)
    requires Safe(s) && Next(s, l).Some?
    ensures Safe(Next(s, l).value)
  {
    hide Next, Phase, Flows, Locking, Room, Blame, Sourced, ExitLast;
    PhaseStep(s, l);
    FlowsStep(s, l);
    LockingStep(s, l);
    RoomStep(s, l);
    BlameStep(s, l);
    SourcedStep(s, l);
    ExitLastStep(s, l);
  }

  lemma {:induction false} SafeAfter(s: State, labels: seq<Label>, plans: seq<seq<Byte>>)
    requires Safe(s) && Whole(s, plans) && After(s, labels).Some?
    ensures Safe(After(s, labels).value) && Whole(After(s, labels).value, plans)
    decreases |labels|
  {
    hide Next, Safe, Whole;
    if labels != [] {
      SafeStep(s, labels[0]);
      WholeStep(s, labels[0], plans);
      SafeAfter(Next(s, labels[0]).value, labels[1..], plans);
    }
  }

  /** A state some run of `run` gets to, in some interleaving and with some failures. */
  predicate Reached(tty: bool, capacity: nat, plans: seq<seq<Byte>>, labels: seq<Label>, s: State) {
    Startable(tty, capacity, plans) && After(Init(tty, capacity, plans), labels) == Some(s)
  }

  lemma ReachedSafe(tty: bool, capacity: nat, plans: seq<seq<Byte>>, labels: seq<Label>, s: State)
    requires Reached(tty, capacity, plans, labels, s)
    ensures Safe(s) && Whole(s, plans)
  {
    hide Safe, Whole, After;
    InitSafe(tty, capacity, plans);
    SafeAfter(Init(tty, capacity, plans), labels, plans);
  }

  // ---- what the client sees

  /** The whole of a stream was sent, in frames of data, and then closed by one close frame, all of them accepted. */
  predicate Complete(mine: seq<Sent>, plan: seq<Byte>) {
    && BytesOf(mine) == plan
    && mine != [] && mine[|mine| - 1] == Sent(Closing, true)
    && forall k :: 0 <= k < |mine| - 1 ==> IsData(mine[k])
  }

  lemma WellIsComplete(p: Pump, mine: seq<Sent>, plan: seq<Byte>)
    requires Flow(p, mine) && p.written + p.plan == plan
    ensures p.pc == Done(true) && p.plan == [] ==> Complete(mine, plan)
    ensures p.pc.Ended(false) ==> !Complete(mine, plan)
  {
    hide BytesOf;
  }

  /** If `run` returns nil then every output stream was delivered in full and closed exactly once, and the exit frame
      was sent after all of that. If it returns an error that is not the stdin pump's, some stream was not. */
  lemma NilIffComplete(tty: bool, capacity: nat, plans: seq<seq<Byte>>, labels: seq<Label>, s: State)
    requires Reached(tty, capacity, plans, labels, s) && s.main.Returned?
    ensures s.main.error == None ==> forall i :: 0 <= i < |plans| ==> Complete(Mine(s.wire, i), plans[i])
    ensures s.main.error != Some(OfStdin) && (forall i :: 0 <= i < |plans| ==> Complete(Mine(s.wire, i), plans[i])) ==>
              s.main.error == None
    ensures s.wire != [] && s.wire[|s.wire| - 1].frame == Exit(s.code) && OnlyOutput(s.wire[..|s.wire| - 1])
  {
    ReachedSafe(tty, capacity, plans, labels, s);
    hide Reached, Mine, Flow, Complete, Locking, Room;
    forall i | 0 <= i < |plans|
      ensures s.main.error == None ==> Complete(Mine(s.wire, i), plans[i])
      ensures s.pumps[i].pc.Ended(false) ==> !Complete(Mine(s.wire, i), plans[i])
    {
      WellIsComplete(s.pumps[i], Mine(s.wire, i), plans[i]);
    }
    if s.main.error.Some? { assert Real(s, s.main.error.value); }
  }

  lemma {:induction false} CodeStays(s: State, labels: seq<Label>)
    requires After(s, labels).Some? && !s.main.Waiting?
    ensures After(s, labels).value.code == s.code && !After(s, labels).value.main.Waiting?
    decreases |labels|
  {
    if labels != [] {
      var next := Next(s, labels[0]).value;
      assert next.code == s.code && !next.main.Waiting? by {
        hide StdinNext, PumpNext, Allowed, ExitCode, AllWritten, AllDone, Drained, Drawn;
      }
      hide Next;
      CodeStays(next, labels[1..]);
    }
  }

  /** The step at which the main goroutine went on from `processWait`, and the code it took from what that reported. */
  lemma {:induction false} CodeReported(s: State, labels: seq<Label>) returns (k: nat)
    requires After(s, labels).Some? && s.main.Waiting? && !After(s, labels).value.main.Waiting?
    ensures k < |labels| && labels[k].MainStep?
    ensures After(s, labels[..k]).Some? && After(s, labels[..k]).value.main.Waiting?
    ensures After(s, labels[..k + 1]).Some? && !After(s, labels[..k + 1]).value.main.Waiting?
    ensures After(s, labels).value.code == match labels[k].result
                                           case NoState => -2
                                           case ExitedWith(status) => status
                                           case Signaled(signal) => 128 + signal
                                           case Unreadable => -1
    decreases |labels|
  {
    var next := Next(s, labels[0]).value;
    assert labels[..0] == [] && labels[..1][1..] == [] && labels[..1][0] == labels[0];
    if next.main.Waiting? {
      k := CodeReported(next, labels[1..]);
      assert labels[..k + 1][1..] == labels[1..][..k] && labels[..k + 2][1..] == labels[1..][..k + 1];
      k := k + 1;
    } else {
      k := 0;
      CodeStays(next, labels[1..]);
      hide StdinNext, PumpNext, Allowed, AllWritten, AllDone, Drained, Drawn;
    }
  }

  /** Every exit frame carries the code of what `processWait` reported at the one step that went on from it. */
  lemma ExitCodeReported(tty: bool, capacity: nat, plans: seq<seq<Byte>>, labels: seq<Label>, s: State)
    returns (k: nat)
    requires Reached(tty, capacity, plans, labels, s) && exists a :: a in s.wire && a.frame.Exit?
    ensures k < |labels| && labels[k].MainStep?
    ensures var before := After(Init(tty, capacity, plans), labels[..k]);
      before.Some? && before.value.main == Waiting
    ensures var after := After(Init(tty, capacity, plans), labels[..k + 1]);
      after.Some? && after.value.main != Waiting
    ensures forall a :: a in s.wire && a.frame.Exit? ==>
      a.frame.code == match labels[k].result
                      case NoState => -2
                      case ExitedWith(status) => status
                      case Signaled(signal) => 128 + signal
                      case Unreadable => -1
  {
    ReachedSafe(tty, capacity, plans, labels, s);
    hide Init, After, Phase, Flows, Locking, Room, Blame, Sourced, ExitLast;
    ExitFrames(s);
    var start := Init(tty, capacity, plans);
    assert start.main == Waiting by { StartsWaiting(tty, capacity, plans); }
    k := CodeReported(start, labels);
  }

  lemma StartsWaiting(tty: bool, capacity: nat, plans: seq<seq<Byte>>)
    ensures Init(tty, capacity, plans).main == Waiting && Init(tty, capacity, plans).queue == []
  {
  }

  lemma ExitFrames(s: State)
    requires ExitLast(s)
    ensures forall a :: a in s.wire && a.frame.Exit? ==>
      a.frame == Exit(s.code) && (s.main.Selecting? || s.main.Returned?)
  {
    var n := |s.wire| - 1;
    assert n >= 0 ==> forall i :: 0 <= i < n ==> s.wire[..n][i] == s.wire[i];
  }

  /** The failures that the goroutines report, in the order of their reports. */
  function Reports(labels: seq<Label>): seq<Failure>
    decreases |labels|
  {
    if labels == [] then []
    else
      (match labels[0]
       case PumpStep(i, Queued) => [OfPump(i)]
       case StdinStep(Reported) => [OfStdin]
       case _ => []) + Reports(labels[1..])
  }

  lemma {:induction false} ReturnStays(s: State, labels: seq<Label>)
    requires After(s, labels).Some? && s.main.Returned?
    ensures After(s, labels).value.main == s.main
    decreases |labels|
  {
    if labels != [] {
      var next := Next(s, labels[0]).value;
      assert next.main == s.main by {
        hide StdinNext, PumpNext, Allowed, AllWritten, Drawn;
      }
      hide Next;
      ReturnStays(next, labels[1..]);
    }
  }

  lemma ReportQueued(s: State, l: Label)
    requires Next(s, l).Some? && !Next(s, l).value.main.Returned?
    ensures Next(s, l).value.queue == s.queue + match l
                                                case PumpStep(i, Queued) => [OfPump(i)]
                                                case StdinStep(Reported) => [OfStdin]
                                                case _ => []
  {
    hide StdinNext, PumpNext, Allowed, AllWritten, AllDone, Drained, Drawn, ExitCode;
  }

  lemma {:induction false} QueueReports(s: State, labels: seq<Label>)
    requires After(s, labels).Some? && !After(s, labels).value.main.Returned?
    ensures After(s, labels).value.queue == s.queue + Reports(labels)
    decreases |labels|
  {
    hide Next;
    if labels != [] {
      var next := Next(s, labels[0]).value;
      if next.main.Returned? { ReturnStays(next, labels[1..]); }
      ReportQueued(s, labels[0]);
      QueueReports(next, labels[1..]);
    }
  }

  lemma {:induction false} Selected(s: State, labels: seq<Label>) returns (k: nat)
    requires After(s, labels).Some? && !s.main.Returned? && After(s, labels).value.main.Returned?
    ensures k < |labels| && labels[k].MainStep? && After(s, labels[..k]).Some?
    ensures var at := After(s, labels[..k]).value;
      && at.main.Selecting?
      && After(s, labels).value.main.error == if at.queue == [] then None else Some(at.queue[0])
    decreases |labels|
  {
    var next := Next(s, labels[0]).value;
    assert labels[..0] == [];
    if next.main.Returned? {
      k := 0;
      ReturnStays(next, labels[1..]);
      hide StdinNext, PumpNext, Allowed, AllWritten, AllDone, Drained, Drawn, ExitCode;
    } else {
      k := Selected(next, labels[1..]);
      assert labels[..k + 1][1..] == labels[1..][..k];
      k := k + 1;
    }
  }

  /** What `run` returns is the failure that was reported first, and nil exactly if none was reported before it
      looked. */
  lemma FirstReportReturned(tty: bool, capacity: nat, plans: seq<seq<Byte>>, labels: seq<Label>, s: State)
    returns (k: nat)
    requires Reached(tty, capacity, plans, labels, s) && s.main.Returned?
    ensures k < |labels| && labels[k].MainStep?
    ensures var at := After(Init(tty, capacity, plans), labels[..k]);
      at.Some? && at.value.main == Selecting
    ensures var reports := Reports(labels[..k]);
      s.main.error == if reports == [] then None else Some(reports[0])
  {
    var start := Init(tty, capacity, plans);
    assert start.main == Waiting && start.queue == [] by { StartsWaiting(tty, capacity, plans); }
    hide Init, After, Reports;
    k := Selected(start, labels);
    QueueReports(start, labels[..k]);
  }

  /** At every moment, whatever has failed: the frames of a stream are data frames of 1 to 4096 bytes and at most one
      close frame, which is last; they carry a prefix of what the process wrote; and a close frame is accepted only
      after all of it. */
  lemma FramesInOrder(tty: bool, capacity: nat, plans: seq<seq<Byte>>, labels: seq<Label>, s: State, i: nat)
    requires Reached(tty, capacity, plans, labels, s) && i < |plans|
    ensures |s.pumps| == |plans|
    ensures Grammar(Mine(s.wire, i)) && BytesOf(Mine(s.wire, i)) <= s.pumps[i].written <= plans[i]
    ensures forall k :: 0 <= k < |Mine(s.wire, i)| && Mine(s.wire, i)[k].item.Bytes? ==>
      1 <= |Mine(s.wire, i)[k].item.bytes| <= 4096
    ensures Sent(Closing, true) in Mine(s.wire, i) ==> BytesOf(Mine(s.wire, i)) == plans[i]
  {
    ReachedSafe(tty, capacity, plans, labels, s);
    hide Reached, Mine, BytesOf, Locking, Room, Blame, Sourced, ExitLast;
    assert Flow(s.pumps[i], Mine(s.wire, i));
    assert s.pumps[i].written + s.pumps[i].plan == plans[i];
  }

  /** Never two sends at once, although the exit frame is sent without the lock and a terminal's pump takes none. */
  lemma OneSendAtATime(tty: bool, capacity: nat, plans: seq<seq<Byte>>, labels: seq<Label>, s: State)
    requires Reached(tty, capacity, plans, labels, s)
    ensures forall i, j ::
              0 <= i < |s.pumps| && 0 <= j < |s.pumps| && s.pumps[i].pc.Sending? && s.pumps[j].pc.Sending? ==> i == j
    ensures s.main.ExitSending? ==> forall i :: 0 <= i < |s.pumps| ==> !s.pumps[i].pc.Sending?
  {
    ReachedSafe(tty, capacity, plans, labels, s);
    hide Reached, Flows, Room, Blame, Sourced, ExitLast;
  }

  /** No goroutine ever waits for room in the error channel, not even after `run` has returned. */
  lemma ReportsNeverBlock(tty: bool, capacity: nat, plans: seq<seq<Byte>>, labels: seq<Label>, s: State)
    requires Reached(tty, capacity, plans, labels, s)
    ensures |s.queue| + Owing(s) <= 3
    ensures forall i :: 0 <= i < |s.pumps| && s.pumps[i].pc.Failing? ==> Next(s, PumpStep(i, Queued)).Some?
    ensures s.stdin.Troubled? ==> Next(s, StdinStep(Reported)).Some?
  {
    ReachedSafe(tty, capacity, plans, labels, s);
    hide Reached, Flows, Blame, Sourced, ExitLast;
  }

  /** Once the exit frame has been sent, nothing is sent any more. */
  lemma SilentAfterExit(tty: bool, capacity: nat, plans: seq<seq<Byte>>, labels: seq<Label>, s: State, l: Label)
    requires Reached(tty, capacity, plans, labels, s) && Next(s, l).Some?
    requires exists k :: 0 <= k < |s.wire| && s.wire[k].frame.Exit?
    ensures Next(s, l).value.wire == s.wire
  {
    ReachedSafe(tty, capacity, plans, labels, s);
    hide Reached, Flows, Room, Blame, Sourced, Locking;
  }

  // ---- coming to an end

  function PcWeight(pc: PumpPc): nat {
    match pc
    case Reading => 10
    case Wanting(item, err) => if item.Closing? then 5 else if err.NoError? then 12 else 8
    case Sending(item, err) => if item.Closing? then 4 else if err.NoError? then 11 else 7
    case Failing => 2
    case Leaving(_) => 1
    case Done(_) => 0
  }

  function PumpWeight(p: Pump): nat {
    4 * |p.plan| + 3 * |p.pipe| + PcWeight(p.pc)
  }

  function MainWeight(m: MainPc): nat {
    match m
    case Waiting => 7
    case ClosingIn => 6
    case ClosingOut => 5
    case ClosingErr => 4
    case Joining => 3
    case ExitSending => 2
    case Selecting => 1
    case Returned(_) => 0
  }

  function StdinWeight(pc: StdinPc): nat {
    match pc
    case Receiving => 2
    case Writing(_) => 3
    case Troubled => 1
    case Ended => 0
  }

  /** Bytes yet to write and to read, where every goroutine is, and whether the process is over. */
  function Measure(s: State): nat {
    MainWeight(s.main) + StdinWeight(s.stdin) + (if s.terminated then 0 else 1)
    + (if |s.pumps| > 0 then PumpWeight(s.pumps[0]) else 0) + if |s.pumps| > 1 then PumpWeight(s.pumps[1]) else 0
  }

  /** Steps that nothing bounds: a message from the client, and a read that returns neither bytes nor an error. */
  predicate Unbounded(l: Label) {
    || (l.StdinStep? && l.se.Received?)
    || (l.PumpStep? && l.e.Got? && l.e.bytes == [] && l.e.err.NoError?)
  }

  lemma PumpLighter(p: Pump, e: Event)
    requires PumpNext(p.pc, e).Some? && !(e.Got? && e.bytes == [] && e.err.NoError?)
    requires e.Got? ==> e.bytes <= p.pipe
    ensures PumpWeight(p.(pc := PumpNext(p.pc, e).value, pipe := Drawn(p, e))) < PumpWeight(p)
  {
  }

  lemma ProcessLighter(s: State, l: Label)
    requires Shape(s) && Next(s, l).Some? && (l.Write? || l.Terminate?)
    ensures Measure(Next(s, l).value) < Measure(s)
  {
    hide AllWritten, PcWeight;
  }

  lemma ClosingWeighsNothing(s: State, i: nat)
    ensures |CloseWriter(s, i).pumps| == |s.pumps|
    ensures forall k :: 0 <= k < |s.pumps| ==> PumpWeight(CloseWriter(s, i).pumps[k]) == PumpWeight(s.pumps[k])
  {
    hide PcWeight;
  }

  lemma MainLighter(s: State, result: WaitResult, ok: bool)
    requires Shape(s) && MainGoes(s, result, ok).Some?
    requires s.tty ==> !s.main.ClosingIn? && !s.main.ClosingErr?
    ensures Measure(MainGoes(s, result, ok).value) < Measure(s)
  {
    hide AllDone, Drained, ExitCode, PumpWeight;
    ClosingWeighsNothing(s, 0);
    ClosingWeighsNothing(s, 1);
  }

  /** Every other step brings the run closer to its end, failures included. */
  lemma MeasureStep(s: State, l: Label)
    requires Shape(s) && Next(s, l).Some? && !Unbounded(l)
    requires s.tty ==> !s.main.ClosingIn? && !s.main.ClosingErr?
    ensures Measure(Next(s, l).value) < Measure(s)
  {
    hide AllDone, AllWritten, Drained, ExitCode, PumpWeight;
    match l
    case PumpStep(i, e) =>
      PumpLighter(s.pumps[i], e);
      hide PumpNext, Drawn;
    case MainStep(result, ok) => MainLighter(s, result, ok);
    case StdinStep(_) =>
    case _ => ProcessLighter(s, l);
  }

  /** A message from the client may set the stdin pump to write; an empty read changes nothing. */
  lemma UnboundedStep(s: State, l: Label)
    requires Shape(s) && Next(s, l).Some? && Unbounded(l)
    ensures Measure(Next(s, l).value) <= Measure(s) + if l.StdinStep? then 1 else 0
  {
    hide AllDone, AllWritten, Drained, ExitCode;
  }

  function Messages(labels: seq<Label>): nat {
    if labels == [] then 0
    else Messages(labels[1..]) + if labels[0].StdinStep? && labels[0].se.Received? then 1 else 0
  }

  /** Steps other than messages and empty reads. */
  function Others(labels: seq<Label>): nat {
    if labels == [] then 0 else Others(labels[1..]) + if Unbounded(labels[0]) then 0 else 1
  }

  /** So a run, whatever fails in it, takes no more such steps than its beginning weighs and messages come in. */
  lemma {:induction false} RunsAreBounded(s: State, labels: seq<Label>)
    requires Safe(s) && After(s, labels).Some?
    ensures Others(labels) + Measure(After(s, labels).value) <= Measure(s) + Messages(labels)
    decreases |labels|
  {
    hide Next, Measure, Flows, Locking, Room, Blame, Sourced, ExitLast;
    if labels != [] {
      if Unbounded(labels[0]) { UnboundedStep(s, labels[0]); } else { MeasureStep(s, labels[0]); }
      SafeStep(s, labels[0]);
      RunsAreBounded(Next(s, labels[0]).value, labels[1..]);
    }
  }

  /** The pump has failed, or is bound to once it has sent what it read last. It reads no more. */
  predicate Fails(pc: PumpPc) {
    pc.Failing? || pc.Ended(false) || ((pc.Wanting? || pc.Sending?) && pc.item.Bytes? && pc.err.Broken?)
  }

  /** The process will never be waited for: a stream has lost its reader, and output is left that `processWait` waits
      for, or under a terminal more of it than the terminal holds. */
  predicate Doomed(s: State, i: nat)
    requires i < |s.pumps|
  {
    var p := s.pumps[i];
    s.main.Waiting? && Fails(p.pc) && if s.tty then |p.pipe| + |p.plan| > s.capacity else p.pipe != [] || p.plan != []
  }

  predicate Spared(s: State) {
    forall i :: 0 <= i < |s.pumps| ==> !Doomed(s, i)
  }

  /** A step in which nothing fails, and nothing is asked of the client. */
  predicate Smooth(l: Label) {
    && !Unbounded(l)
    && (l.PumpStep? && l.e.Got? ==> !l.e.err.Broken?) && (l.PumpStep? && l.e.Answered? ==> l.e.ok)
    && !l.StdinStep?
  }

  ghost predicate CanMove(s: State) {
    exists l :: Smooth(l) && Next(s, l).Some?
  }

  /** A pump that is not done, and has something to read or is past its reading, is not stuck: if it waits for the lock,
      its holder can go on. */
  lemma PumpMoves(s: State, i: nat)
    requires Phase(s) && Locking(s) && Room(s) && i < |s.pumps| && !s.pumps[i].pc.Done?
    requires s.pumps[i].pc.Reading? ==> s.pumps[i].pipe != [] || s.pumps[i].closed
    ensures CanMove(s)
  {
    var p := s.pumps[i];
    match p.pc
    case Reading =>
      var e := if p.pipe != [] then Got(p.pipe[..1], NoError) else Got([], Closed);
      assert Smooth(PumpStep(i, e)) && Next(s, PumpStep(i, e)).Some?;
    case Wanting(_, _) =>
      if s.tty || s.lock.None? {
        assert Smooth(PumpStep(i, Locked)) && Next(s, PumpStep(i, Locked)).Some?;
      } else {
        var j := s.lock.value;
        assert s.pumps[j].pc.Sending?;
        assert Smooth(PumpStep(j, Answered(true))) && Next(s, PumpStep(j, Answered(true))).Some?;
      }
    case Sending(_, _) => assert Smooth(PumpStep(i, Answered(true))) && Next(s, PumpStep(i, Answered(true))).Some?;
    case Failing => assert Smooth(PumpStep(i, Queued)) && Next(s, PumpStep(i, Queued)).Some?;
    case Leaving(_) => assert Smooth(PumpStep(i, Left)) && Next(s, PumpStep(i, Left)).Some?;
  }

  /** While the process lives, either it can write or end, or some pump can take something out of its pipe. */
  lemma ProcessMoves(s: State)
    requires Safe(s) && Spared(s) && s.main.Waiting?
    ensures CanMove(s)
  {
    hide Blame, Sourced, ExitLast, Mine, BytesOf;
    if i :| 0 <= i < |s.pumps| && s.pumps[i].pipe != [] && !Fails(s.pumps[i].pc) {
      assert Flow(s.pumps[i], Mine(s.wire, i));
      PumpMoves(s, i);
    } else {
      forall i | 0 <= i < |s.pumps|
        ensures s.pumps[i].pipe == [] || (s.tty && |s.pumps[i].pipe| + |s.pumps[i].plan| <= s.capacity)
      {
        assert !Doomed(s, i);
      }
      if s.terminated {
        assert Smooth(MainStep(NoState, true)) && Next(s, MainStep(NoState, true)).Some?;
      } else if i :| 0 <= i < |s.pumps| && s.pumps[i].plan != [] {
        assert Smooth(Write(i, 1)) && Next(s, Write(i, 1)).Some?;
      } else {
        assert Smooth(Terminate) && Next(s, Terminate).Some?;
      }
    }
  }

  /** Deadlock freedom: before `run` returns there is always a step that needs nobody to fail and nothing from the
      client, unless a stream is doomed. */
  lemma NoDeadlock(s: State)
    requires Safe(s) && Spared(s) && !s.main.Returned?
    ensures CanMove(s)
  {
    hide Flows, Blame, Sourced, ExitLast;
    if s.main.Waiting? {
      ProcessMoves(s);
    } else if s.main.Joining? && !AllDone(s) {
      var i :| 0 <= i < |s.pumps| && !s.pumps[i].pc.Done?;
      PumpMoves(s, i);
    } else {
      assert Smooth(MainStep(NoState, true)) && Next(s, MainStep(NoState, true)).Some?;
    }
  }

  /** No send of output fails in the step, and no read but at the end of its stream. */
  predicate FailureFree(l: Label) {
    l.PumpStep? ==> (l.e.Answered? ==> l.e.ok) && (l.e.Got? ==> !l.e.err.Broken?)
  }

  predicate Healthy(s: State) {
    forall i :: 0 <= i < |s.pumps| ==> !Fails(s.pumps[i].pc)
  }

  lemma HealthyStep(s: State, l: Label)
    requires Healthy(s) && FailureFree(l) && Next(s, l).Some?
    ensures Healthy(Next(s, l).value)
  {
    hide AllWritten, AllDone, Drained, Allowed, Drawn, StdinNext, ExitCode;
  }

  lemma {:induction false} HealthyAfter(s: State, labels: seq<Label>)
    requires Healthy(s) && After(s, labels).Some? && forall l :: l in labels ==> FailureFree(l)
    ensures Healthy(After(s, labels).value)
    decreases |labels|
  {
    hide Next, Healthy, FailureFree;
    if labels != [] {
      HealthyStep(s, labels[0]);
      HealthyAfter(Next(s, labels[0]).value, labels[1..]);
    }
  }

  /** A run in which no send of output and no read has failed, whatever the client and the stdin pump do, never comes to
      a halt before `run` returns. */
  lemma NeverStuck(tty: bool, capacity: nat, plans: seq<seq<Byte>>, labels: seq<Label>, s: State)
    requires Reached(tty, capacity, plans, labels, s) && forall l :: l in labels ==> FailureFree(l)
    requires !s.main.Returned?
    ensures CanMove(s)
  {
    ReachedSafe(tty, capacity, plans, labels, s);
    HealthyAfter(Init(tty, capacity, plans), labels);
    hide Reached, After, Safe, CanMove;
    NoDeadlock(s);
  }

  /** Only a failure dooms a stream. */
  lemma SmoothSpares(s: State, l: Label)
    requires Phase(s) && Spared(s) && Smooth(l) && Next(s, l).Some?
    ensures Spared(Next(s, l).value)
  {
    hide AllWritten, AllDone, Drained;
    var next := Next(s, l).value;
    forall i | 0 <= i < |next.pumps|
      ensures !Doomed(next, i)
    {
      assert !Doomed(s, i);
    }
  }

  lemma {:induction false} CanFinish(s: State) returns (labels: seq<Label>)
    requires Safe(s) && Spared(s)
    ensures After(s, labels).Some? && After(s, labels).value.main.Returned?
    decreases Measure(s)
  {
    hide Next, Flows, Locking, Room, Blame, Sourced, ExitLast, Spared, Measure, Smooth;
    labels := [];
    if !s.main.Returned? {
      NoDeadlock(s);
      var l :| Smooth(l) && Next(s, l).Some?;
      SmoothBounded(l);
      MeasureStep(s, l);
      SafeStep(s, l);
      SmoothSpares(s, l);
      var rest := CanFinish(Next(s, l).value);
      labels := [l] + rest;
      assert labels[1..] == rest;
    }
  }

  lemma SmoothBounded(l: Label)
    requires Smooth(l)
    ensures !Unbounded(l)
  {
  }

  lemma DoomedStep(s: State, l: Label, i: nat)
    requires Phase(s) && i < |s.pumps| && Doomed(s, i) && Next(s, l).Some?
    ensures i < |Next(s, l).value.pumps| && Doomed(Next(s, l).value, i)
  {
    hide AllDone;
    var p := s.pumps[i];
    if s.terminated { assert p.plan == [] && !s.tty && !Drained(s); }
    if l.Terminate? { assert p.plan == []; }
  }

  lemma {:induction false} DoomedForGood(s: State, labels: seq<Label>, i: nat)
    requires Safe(s) && i < |s.pumps| && Doomed(s, i) && After(s, labels).Some?
    ensures After(s, labels).value.main.Waiting?
    decreases |labels|
  {
    hide Next, Flows, Locking, Room, Blame, Sourced, ExitLast;
    if labels != [] {
      DoomedStep(s, labels[0], i);
      SafeStep(s, labels[0]);
      hide Doomed;
      DoomedForGood(Next(s, labels[0]).value, labels[1..], i);
    }
  }

  /** Exactly when `run` can still return: unless a failure has left output behind that nobody reads. */
  lemma ReturnsIffSpared(tty: bool, capacity: nat, plans: seq<seq<Byte>>, labels: seq<Label>, s: State)
    requires Reached(tty, capacity, plans, labels, s)
    ensures Spared(s) <==> exists more :: After(s, more).Some? && After(s, more).value.main.Returned?
  {
    ReachedSafe(tty, capacity, plans, labels, s);
    hide Reached, Safe, Doomed, After, Next;
    if Spared(s) {
      var more := CanFinish(s);
    } else {
      var i :| 0 <= i < |s.pumps| && Doomed(s, i);
      forall more | After(s, more).Some?
        ensures !After(s, more).value.main.Returned?
      {
        DoomedForGood(s, more, i);
      }
    }
  }
}
