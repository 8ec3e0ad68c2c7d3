/** What every step of the streaming protocol keeps, in any interleaving and with any failures. */
module ExecSafety {
  import opened Options
  import opened ExecStream

  // ---- one stream and the frames about it

  datatype Sent = Sent(item: Item, ok: bool)

  /** The sends about one output stream, in order. */
  function Mine(wire: seq<Attempt>, i: nat): seq<Sent> {
    if wire == [] then []
    else
      var last, before := wire[|wire| - 1], Mine(wire[..|wire| - 1], i);
      if last.frame.Output? && last.frame.stream == i then before + [Sent(last.frame.item, last.ok)] else before
  }

  lemma MineMore(wire: seq<Attempt>, a: Attempt, i: nat)
    ensures Mine(wire + [a], i)
         == Mine(wire, i) + if a.frame.Output? && a.frame.stream == i then [Sent(a.frame.item, a.ok)] else []
  {
    assert (wire + [a])[..|wire + [a]| - 1] == wire;
  }

  function BytesOf(mine: seq<Sent>): seq<Byte> {
    if mine == [] then []
    else
      var last := mine[|mine| - 1];
      BytesOf(mine[..|mine| - 1]) + if last.item.Bytes? then last.item.bytes else []
  }

  lemma BytesMore(mine: seq<Sent>, s: Sent)
    ensures BytesOf(mine + [s]) == BytesOf(mine) + if s.item.Bytes? then s.item.bytes else []
  {
    assert (mine + [s])[..|mine + [s]| - 1] == mine;
  }

  predicate IsData(s: Sent) {
    s.item.Bytes? && s.ok
  }

  /** Frames of data and at most one close, which is the last; nothing follows a failed send; every data frame carries
      some bytes, and no more than the buffer holds. */
  predicate Grammar(mine: seq<Sent>) {
    && (forall k :: 0 <= k < |mine| - 1 ==> IsData(mine[k]))
    && (forall k :: 0 <= k < |mine| && mine[k].item.Bytes? ==> 1 <= |mine[k].item.bytes| <= BUFFER)
  }

  function InHand(pc: PumpPc): seq<Byte> {
    if (pc.Wanting? || pc.Sending?) && pc.item.Bytes? then pc.item.bytes else []
  }

  /** The pump has seen the end of its stream. */
  predicate SawEnd(pc: PumpPc) {
    ((pc.Wanting? || pc.Sending?) && (pc.item.Closing? || pc.err.Closed?)) || pc.Ended(true)
  }

  /** Every byte written is sent, in hand or in the pipe; the frames are in order, and agree with where the pump is. */
  predicate Flow(p: Pump, mine: seq<Sent>) {
    && p.written == BytesOf(mine) + InHand(p.pc) + p.pipe
    && Grammar(mine)
    && (InHand(p.pc) != [] ==> |InHand(p.pc)| <= BUFFER)
    && ((p.pc.Wanting? || p.pc.Sending?) && p.pc.item.Bytes? ==> p.pc.item.bytes != [])
    && (p.pc.Open() ==> forall k :: 0 <= k < |mine| ==> IsData(mine[k]))
    && (SawEnd(p.pc) ==> p.closed && p.pipe == [])
    && (p.pc.Ended(true) ==> mine != [] && mine[|mine| - 1] == Sent(Closing, true))
    && (p.pc.Failing? || p.pc.Ended(false) ==> forall k :: 0 <= k < |mine| ==> mine[k] != Sent(Closing, true))
  }

  predicate Flows(s: State) {
    forall i :: 0 <= i < |s.pumps| ==> Flow(s.pumps[i], Mine(s.wire, i))
  }

  lemma ReadFlows(p: Pump, mine: seq<Sent>, e: Event)
    requires Flow(p, mine) && e.Got? && PumpNext(p.pc, e).Some?
    requires e.bytes <= p.pipe && (e.err.Closed? ==> p.closed && e.bytes == p.pipe)
    ensures Flow(p.(pc := PumpNext(p.pc, e).value, pipe := Drawn(p, e)), mine)
  {
    hide BytesOf, Grammar;
    assert p.pipe == e.bytes + p.pipe[|e.bytes|..];
  }

  lemma AnswerFlows(p: Pump, mine: seq<Sent>, ok: bool)
    requires Flow(p, mine) && p.pc.Sending?
    ensures Flow(p.(pc := PumpNext(p.pc, Answered(ok)).value), mine + [Sent(p.pc.item, ok)])
  {
    hide BytesOf;
    BytesMore(mine, Sent(p.pc.item, ok));
  }

  /** One step of a pump, on its stream and its frames alone. */
  lemma PumpFlows(p: Pump, mine: seq<Sent>, e: Event)
    requires Flow(p, mine) && PumpNext(p.pc, e).Some?
    requires e.Got? ==> e.bytes <= p.pipe && (e.err.Closed? ==> p.closed && e.bytes == p.pipe)
    ensures var sent := if e.Answered? && p.pc.Sending? then [Sent(p.pc.item, e.ok)] else [];
      Flow(p.(pc := PumpNext(p.pc, e).value, pipe := Drawn(p, e)), mine + sent)
  {
    hide BytesOf, Grammar;
    assert mine + [] == mine;
    if e.Got? {
      ReadFlows(p, mine, e);
    } else if e.Answered? {
      hide Flow;
      AnswerFlows(p, mine, e.ok);
    }
  }

  // ---- the whole state

  /** The main goroutine closes a pipe only after the process is over, and sends the exit frame only after both pumps
      are done. */
  predicate Phase(s: State) {
    && Shape(s)
    && (s.terminated ==> AllWritten(s)) && (s.main != Waiting ==> s.terminated)
    && (s.main.HasJoined() ==> AllDone(s))
    && (s.tty ==> !s.main.ClosingIn? && !s.main.ClosingErr?)
    && forall i :: 0 <= i < |s.pumps| ==>
         (s.pumps[i].closed <==> s.main.HasClosed(i)) && |s.pumps[i].pipe| <= s.capacity
  }

  predicate Shape(s: State) {
    |s.pumps| == (if s.tty then 1 else 2) && s.capacity > 0
  }

  /** Whoever is sending holds the lock, without a terminal; with one there is nobody else. */
  predicate Locking(s: State) {
    if s.tty then s.lock.None?
    else
      && (s.lock.Some? ==> s.lock.value < |s.pumps|)
      && forall i :: 0 <= i < |s.pumps| ==> (s.pumps[i].pc.Sending? <==> s.lock == Some(i))
  }

  /** Whether a goroutine may still report an error. */
  function Owes(pc: PumpPc): nat {
    if pc.Leaving? || pc.Done? then 0 else 1
  }

  function Owing(s: State): nat {
    (if s.stdin.Ended? then 0 else 1)
    + (if |s.pumps| > 0 then Owes(s.pumps[0].pc) else 0) + if |s.pumps| > 1 then Owes(s.pumps[1].pc) else 0
  }

  predicate Room(s: State) {
    |s.queue| + Owing(s) <= CHANNEL
  }

  /** A pump that has ended badly has queued an error, which stays queued until the select; if the select finds none,
      both pumps have ended well. */
  predicate Blame(s: State) {
    match s.main
    case Returned(error) => error.None? ==> forall i :: 0 <= i < |s.pumps| ==> s.pumps[i].pc == Done(true)
    case _ => (exists i :: 0 <= i < |s.pumps| && s.pumps[i].pc.Ended(false)) ==> s.queue != []
  }

  predicate OnlyOutput(wire: seq<Attempt>) {
    forall k :: 0 <= k < |wire| ==> wire[k].frame.Output?
  }

  /** An error comes from a goroutine that reported it and ended. */
  predicate Real(s: State, f: Failure) {
    match f
    case OfPump(i) => i < |s.pumps| && s.pumps[i].pc.Ended(false)
    case OfStdin => s.stdin.Ended?
  }

  predicate Sourced(s: State) {
    && (forall k :: 0 <= k < |s.queue| ==> Real(s, s.queue[k]))
    && (s.main.Returned? && s.main.error.Some? ==> Real(s, s.main.error.value))
  }

  /** The exit frame is sent once, and is the last. */
  predicate ExitLast(s: State) {
    if s.main.Selecting? || s.main.Returned?
    then s.wire != [] && s.wire[|s.wire| - 1].frame == Exit(s.code) && OnlyOutput(s.wire[..|s.wire| - 1])
    else OnlyOutput(s.wire)
  }

  /** What the process has written and has yet to write is what it set out to write. */
  predicate Whole(s: State, plans: seq<seq<Byte>>) {
    |s.pumps| == |plans| && forall i :: 0 <= i < |plans| ==> s.pumps[i].written + s.pumps[i].plan == plans[i]
  }

  predicate Safe(s: State) {
    Phase(s) && Flows(s) && Locking(s) && Room(s) && Blame(s) && Sourced(s) && ExitLast(s)
  }

  lemma InitSafe(tty: bool, capacity: nat, plans: seq<seq<Byte>>)
    requires Startable(tty, capacity, plans)
    ensures Safe(Init(tty, capacity, plans)) && Whole(Init(tty, capacity, plans), plans)
  {
    var s := Init(tty, capacity, plans);
    assert forall i :: 0 <= i < |plans| ==> s.pumps[i] == Fresh(plans[i]);
    hide Init;
    assert Phase(s) && Room(s) && Whole(s, plans);
    assert Blame(s) && Sourced(s) && ExitLast(s) && Locking(s);
    forall i | 0 <= i < |s.pumps|
      ensures Flow(s.pumps[i], Mine(s.wire, i))
    {
      FreshFlows(plans[i], i);
    }
  }

  lemma FreshFlows(plan: seq<Byte>, i: nat)
    ensures Flow(Fresh(plan), Mine([], i))
  {
  }

  lemma PhaseStep(s: State, l: Label)
    requires Phase(s) && Next(s, l).Some?
    ensures Phase(Next(s, l).value)
  {
    hide StdinNext, ExitCode, Drained, Allowed;
  }

  lemma LockingStep(s: State, l: Label)
    requires Phase(s) && Locking(s) && Next(s, l).Some?
    ensures Locking(Next(s, l).value)
  {
    hide StdinNext, ExitCode, AllWritten, AllDone, Drained, Drawn;
  }

  lemma RoomStep(s: State, l: Label)
    requires Phase(s) && Room(s) && Next(s, l).Some?
    ensures Room(Next(s, l).value)
  {
    hide ExitCode, AllWritten, AllDone, Drained, Drawn;
  }

  lemma BlameStep(s: State, l: Label)
    requires Phase(s) && Blame(s) && Next(s, l).Some?
    ensures Blame(Next(s, l).value)
  {
    hide StdinNext, ExitCode, AllWritten, Drained, Drawn, Allowed;
  }

  lemma RealStays(s: State, l: Label, f: Failure)
    requires Real(s, f) && Next(s, l).Some?
    ensures Real(Next(s, l).value, f)
  {
    hide ExitCode, AllWritten, AllDone, Drained, Drawn, Allowed;
  }

  /** Only a report is added to the queue, and it is real. */
  lemma QueueStep(s: State, l: Label)
    requires Next(s, l).Some?
    ensures var next := Next(s, l).value;
      && (next.queue == s.queue
          || (exists f :: next.queue == s.queue + [f] && Real(next, f))
          || (s.main.Selecting? && s.queue != [] && next.queue == s.queue[1..]))
      && (next.main.Returned? && next.main.error.Some? ==>
            next.main == s.main || (s.queue != [] && next.main.error.value == s.queue[0]))
  {
    hide ExitCode, AllWritten, AllDone, Drained, Drawn, Allowed;
    var next := Next(s, l).value;
    if l.PumpStep? && l.e.Queued? {
      assert next.queue == s.queue + [OfPump(l.i)] && Real(next, OfPump(l.i));
    } else if l.StdinStep? && l.se.Reported? {
      assert next.queue == s.queue + [OfStdin] && Real(next, OfStdin);
    }
  }

  lemma SourcedStep(s: State, l: Label)
    requires Sourced(s) && Next(s, l).Some?
    ensures Sourced(Next(s, l).value)
  {
    hide Next, Real;
    var next := Next(s, l).value;
    QueueStep(s, l);
    forall f | Real(s, f)
      ensures Real(next, f)
    {
      RealStays(s, l, f);
    }
  }

  lemma ExitLastStep(s: State, l: Label)
    requires Phase(s) && ExitLast(s) && Next(s, l).Some?
    ensures ExitLast(Next(s, l).value)
  {
  }

  lemma WholeStep(s: State, l: Label, plans: seq<seq<Byte>>)
    requires Whole(s, plans) && Next(s, l).Some?
    ensures Whole(Next(s, l).value, plans)
  {
    hide StdinNext, PumpNext, Allowed, ExitCode, AllWritten, AllDone, Drained, Drawn;
  }

  lemma WriteFlows(p: Pump, mine: seq<Sent>, n: nat)
    requires Flow(p, mine) && n <= |p.plan| && !p.closed
    ensures Flow(p.(plan := p.plan[n..], written := p.written + p.plan[..n], pipe := p.pipe + p.plan[..n]), mine)
  {
    hide BytesOf;
  }

  lemma CloseFlows(p: Pump, mine: seq<Sent>)
    requires Flow(p, mine)
    ensures Flow(p.(closed := true), mine)
  {
    hide BytesOf;
  }

  lemma PumpGoesFlows(s: State, i: nat, e: Event)
    requires Flows(s) && i < |s.pumps| && PumpGoes(s, i, e).Some?
    ensures Flows(PumpGoes(s, i, e).value)
  {
    hide Mine, BytesOf, Flow;
    var next, p := PumpGoes(s, i, e).value, s.pumps[i];
    forall k | 0 <= k < |next.pumps|
      ensures Flow(next.pumps[k], Mine(next.wire, k))
    {
      var mine := Mine(s.wire, k);
      assert Flow(s.pumps[k], mine);
      assert mine + [] == mine;
      if e.Answered? && p.pc.Sending? { MineMore(s.wire, Attempt(Output(i, p.pc.item), e.ok), k); }
      if k == i {
        PumpFlows(p, mine, e);
        assert next.pumps[k] == p.(pc := PumpNext(p.pc, e).value, pipe := Drawn(p, e));
      } else {
        assert Mine(next.wire, k) == mine;
      }
    }
  }

  lemma MainFlows(s: State, result: WaitResult, ok: bool)
    requires Phase(s) && Flows(s) && MainGoes(s, result, ok).Some?
    ensures Flows(MainGoes(s, result, ok).value)
  {
    hide Mine, BytesOf, Flow, AllDone, AllWritten, Drained;
    var next := MainGoes(s, result, ok).value;
    forall k | 0 <= k < |next.pumps|
      ensures Flow(next.pumps[k], Mine(next.wire, k))
    {
      assert Flow(s.pumps[k], Mine(s.wire, k));
      CloseFlows(s.pumps[k], Mine(s.wire, k));
      if s.main.ExitSending? {
        MineMore(s.wire, Attempt(Exit(s.code), ok), k);
        assert Mine(s.wire, k) + [] == Mine(s.wire, k);
      }
    }
  }

  lemma FlowsStep(s: State, l: Label)
    requires Phase(s) && Flows(s) && Next(s, l).Some?
    ensures Flows(Next(s, l).value)
  {
    hide Mine, BytesOf, Flow, AllDone, Drained;
    var next := Next(s, l).value;
    match l
    case PumpStep(i, e) => PumpGoesFlows(s, i, e);
    case MainStep(result, ok) => MainFlows(s, result, ok);
    case Write(i, n) =>
      forall k | 0 <= k < |next.pumps|
        ensures Flow(next.pumps[k], Mine(next.wire, k))
      {
        assert Flow(s.pumps[k], Mine(s.wire, k));
        if k == i { WriteFlows(s.pumps[k], Mine(s.wire, k), n); }
      }
    case _ =>
  }
}
