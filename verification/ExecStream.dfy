/**
 The exec streaming protocol: the main goroutine, the stdin pump, one output pump under a terminal or two without one,
 and the child process. Each label is one step of one of them, with the answer the environment gives it.
 */
module ExecStream {
  import opened Options

  type Byte = b: int | 0 <= b < 256

  const BUFFER := 4096
  const CHANNEL := 3

  // ---- an output pump by itself

  /** How a read ended, as `isClosedError` sorts it. */
  datatype ReadErr = NoError | Closed | Broken

  /** What a pump sends about its stream. */
  datatype Item = Bytes(bytes: seq<Byte>) | Closing

  /** `err` is what the last read said, to be dealt with after its bytes are sent. `ok` says whether the pump ended with
      a sent close frame; otherwise it queued an error. */
  datatype PumpPc =
    | Reading
    | Wanting(item: Item, err: ReadErr)
    | Sending(item: Item, err: ReadErr)
    | Failing
    | Leaving(ok: bool)
    | Done(ok: bool)
  {
    predicate Open() {
      Reading? || Wanting? || Sending?
    }

    predicate Ended(well: bool) {
      (Leaving? || Done?) && ok == well
    }
  }

  datatype Event = Got(bytes: seq<Byte>, err: ReadErr) | Locked | Answered(ok: bool) | Queued | Left

  /** Where a pump goes once the bytes of a read are dealt with. */
  function AfterBytes(err: ReadErr): PumpPc {
    match err
    case NoError => Reading
    case Closed => Wanting(Closing, NoError)
    case Broken => Failing
  }

  function PumpNext(pc: PumpPc, e: Event): Option<PumpPc> {
    match (pc, e)
    case (Reading, Got(bytes, err)) =>
      if |bytes| > BUFFER then None
      else if bytes == [] then Some(AfterBytes(err))
      else Some(Wanting(Bytes(bytes), err))
    case (Wanting(item, err), Locked) => Some(Sending(item, err))
    case (Sending(item, err), Answered(ok)) =>
      Some(if !ok then Failing else if item.Closing? then Leaving(true) else AfterBytes(err))
    case (Failing, Queued) => Some(Leaving(false))
    case (Leaving(ok), Left) => Some(Done(ok))
    case _ => None
  }

  // ---- the stdin pump by itself

  datatype Message = Stdin(hasData: bool, close: bool) | Resize(ok: bool) | Neither

  datatype StdinPc = Receiving | Writing(close: bool) | Troubled | Ended

  datatype StdinEvent = Received(m: Message) | HungUp | RecvFailed | Written(ok: bool) | Reported

  /** Only a terminal can be resized. */
  function StdinNext(tty: bool, pc: StdinPc, e: StdinEvent): Option<StdinPc> {
    match (pc, e)
    case (Receiving, Received(m)) =>
      (match m
       case Stdin(hasData, close) => Some(if hasData then Writing(close) else Receiving)
       case Resize(ok) => if ok && !tty then None else Some(if ok then Receiving else Troubled)
       case Neither => Some(Receiving))
    case (Receiving, HungUp) => Some(Ended)
    case (Receiving, RecvFailed) => Some(Troubled)
    case (Writing(_), Written(ok)) => Some(if ok then Receiving else Troubled)
    case (Troubled, Reported) => Some(Ended)
    case _ => None
  }

  // ---- the whole

  /** An output stream: what the process has yet to write, has written, what of that is still in the pipe, and whether
      the writing end is closed. */
  datatype Pump = Pump(pc: PumpPc, plan: seq<Byte>, written: seq<Byte>, pipe: seq<Byte>, closed: bool)

  datatype Frame = Output(stream: nat, item: Item) | Exit(code: int)

  datatype Attempt = Attempt(frame: Frame, ok: bool)

  datatype Failure = OfPump(stream: nat) | OfStdin

  datatype MainPc =
    | Waiting | ClosingIn | ClosingOut | ClosingErr | Joining | ExitSending | Selecting
    | Returned(error: Option<Failure>)
  {
    /** The writing end of a stream has been closed. */
    predicate HasClosed(stream: nat) {
      match this
      case Waiting => false
      case ClosingIn => false
      case ClosingOut => false
      case ClosingErr => stream == 0
      case _ => true
    }

    predicate HasJoined() {
      ExitSending? || Selecting? || Returned?
    }
  }

  /** What `processWait` reports about the process; nothing when there is no process state to be had. */
  datatype WaitResult = NoState | ExitedWith(status: int) | Signaled(signal: int) | Unreadable

  /** `cmdExitResult`. */
  function ExitCode(r: WaitResult): int {
    match r
    case NoState => -2
    case ExitedWith(status) => status
    case Signaled(signal) => 128 + signal
    case Unreadable => -1
  }

  /** `wire` remembers every send on the client's stream, in the order of completion. */
  datatype State = State(
    tty: bool, capacity: nat, main: MainPc, pumps: seq<Pump>, stdin: StdinPc, terminated: bool,
    lock: Option<nat>, queue: seq<Failure>, wire: seq<Attempt>, code: int)

  function Fresh(plan: seq<Byte>): Pump {
    Pump(Reading, plan, [], [], false)
  }

  /** Both goroutines and process started; under a terminal there is one output stream. */
  function Init(tty: bool, capacity: nat, plans: seq<seq<Byte>>): State {
    State(tty, capacity, Waiting, seq(|plans|, i requires 0 <= i < |plans| => Fresh(plans[i])), Receiving, false,
          None, [], [], 0)
  }

  predicate Startable(tty: bool, capacity: nat, plans: seq<seq<Byte>>) {
    |plans| == (if tty then 1 else 2) && capacity > 0
  }

  datatype Label =
    | Write(i: nat, n: nat)
    | Terminate
    | PumpStep(i: nat, e: Event)
    | StdinStep(se: StdinEvent)
    | MainStep(result: WaitResult, ok: bool)

  /** A read takes bytes off the front of the pipe, and reports the end only when the pipe is drained and closed; under
      a terminal sends take no lock. */
  predicate Allowed(s: State, i: nat, e: Event)
    requires i < |s.pumps|
  {
    match e
    case Got(bytes, err) =>
      bytes <= s.pumps[i].pipe && (err.Closed? ==> s.pumps[i].closed && bytes == s.pumps[i].pipe)
    case Locked => s.tty || s.lock.None?
    case Queued => |s.queue| < CHANNEL
    case _ => true
  }

  function Drawn(p: Pump, e: Event): seq<Byte> {
    if e.Got? && |e.bytes| <= |p.pipe| then p.pipe[|e.bytes|..] else p.pipe
  }

  function PumpGoes(s: State, i: nat, e: Event): Option<State>
    requires i < |s.pumps|
  {
    var p := s.pumps[i];
    var pc := PumpNext(p.pc, e);
    if pc.None? || !Allowed(s, i, e) then None
    else
      Some(s.(
        pumps := s.pumps[i := p.(pc := pc.value, pipe := Drawn(p, e))],
        lock := if s.tty then s.lock else if e.Locked? then Some(i) else if e.Answered? then None else s.lock,
        queue := if e.Queued? then s.queue + [OfPump(i)] else s.queue,
        wire := if e.Answered? && p.pc.Sending? then s.wire + [Attempt(Output(i, p.pc.item), e.ok)] else s.wire))
  }

  function StdinGoes(s: State, e: StdinEvent): Option<State> {
    var pc := StdinNext(s.tty, s.stdin, e);
    if pc.None? || (e.Reported? && |s.queue| >= CHANNEL) then None
    else Some(s.(stdin := pc.value, queue := if e.Reported? then s.queue + [OfStdin] else s.queue))
  }

  function CloseWriter(s: State, i: nat): State {
    if i < |s.pumps| then s.(pumps := s.pumps[i := s.pumps[i].(closed := true)]) else s
  }

  predicate Drained(s: State) {
    forall i :: 0 <= i < |s.pumps| ==> s.pumps[i].pipe == []
  }

  predicate AllDone(s: State) {
    forall i :: 0 <= i < |s.pumps| ==> s.pumps[i].pc.Done?
  }

  /** Without a terminal, `processWait` also waits until the output has been taken out of the pipes. */
  function MainGoes(s: State, result: WaitResult, ok: bool): Option<State> {
    match s.main
    case Waiting =>
      if s.terminated && (s.tty || Drained(s))
      then Some(s.(main := if s.tty then ClosingOut else ClosingIn, code := ExitCode(result)))
      else None
    case ClosingIn => Some(s.(main := ClosingOut))
    case ClosingOut => Some(CloseWriter(s, 0).(main := if s.tty then Joining else ClosingErr))
    case ClosingErr => Some(CloseWriter(s, 1).(main := Joining))
    case Joining => if AllDone(s) then Some(s.(main := ExitSending)) else None
    case ExitSending => Some(s.(main := Selecting, wire := s.wire + [Attempt(Exit(s.code), ok)]))
    case Selecting =>
      Some(if s.queue == [] then s.(main := Returned(None))
           else s.(main := Returned(Some(s.queue[0])), queue := s.queue[1..]))
    case Returned(_) => None
  }

  predicate AllWritten(s: State) {
    forall i :: 0 <= i < |s.pumps| ==> s.pumps[i].plan == []
  }

  function Next(s: State, l: Label): Option<State> {
    match l
    case Write(i, n) =>
      if i < |s.pumps| && !s.terminated && 0 < n <= |s.pumps[i].plan| && |s.pumps[i].pipe| + n <= s.capacity then
        var p := s.pumps[i];
        Some(s.(pumps := s.pumps[i := p.(plan := p.plan[n..], written := p.written + p.plan[..n],
                                         pipe := p.pipe + p.plan[..n])]))
      else None
    case Terminate => if !s.terminated && AllWritten(s) then Some(s.(terminated := true)) else None
    case PumpStep(i, e) => if i < |s.pumps| then PumpGoes(s, i, e) else None
    case StdinStep(e) => StdinGoes(s, e)
    case MainStep(result, ok) => MainGoes(s, result, ok)
  }

  function After(s: State, labels: seq<Label>): Option<State>
    decreases |labels|
  {
    if labels == [] then Some(s)
    else if Next(s, labels[0]).None? then None
    else After(Next(s, labels[0]).value, labels[1..])
  }
}
