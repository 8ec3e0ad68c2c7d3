/** The loop that feeds the client's input to the process. */
module ExecStdin {
  import opened Options
  import opened ExecStream
  import opened ExecPump

  datatype StdinOp = StdinOp(data: seq<Byte>, close: bool)

  /** A request on the client's stream; a message with input is not looked at for a size. */
  datatype Request = Request(stdin: Option<StdinOp>, ttySize: Option<(int, int)>)

  /** The client's side of the stream: the requests to come, and the error that receiving ends with. */
  class Inbox {
    var coming: seq<Request>
    const ending: IoError

    constructor (coming: seq<Request>, ending: IoError)
      ensures this.coming == coming && this.ending == ending
    {
      this.coming, this.ending := coming, ending;
    }

    method Recv() returns (m: Option<Request>, err: Option<IoError>)
      modifies this
      ensures if old(coming) == [] then m.None? && err == Some(ending) && coming == []
              else m == Some(old(coming)[0]) && err.None? && coming == old(coming)[1..]
    {
      if coming == [] {
        return None, Some(ending);
      }
      m, err := Some(coming[0]), None;
      coming := coming[1..];
    }
  }

  /** The process's input, or its terminal. A write takes as much as `takes` says, none once closed, and fails unless it
      took all. `sizes` remembers the rows and columns a terminal was asked to take; nothing else can be resized. */
  class Sink {
    const terminal: bool
    const takes: (seq<Byte>, seq<Byte>) -> nat
    const resizes: (int, int) -> bool
    var taken: seq<Byte>
    var closed: bool
    var sizes: seq<(int, int)>

    constructor (terminal: bool, takes: (seq<Byte>, seq<Byte>) -> nat, resizes: (int, int) -> bool)
      ensures this.terminal == terminal && this.takes == takes && this.resizes == resizes
      ensures taken == [] && !closed && sizes == []
    {
      this.terminal, this.takes, this.resizes := terminal, takes, resizes;
      taken, closed, sizes := [], false, [];
    }

    method Write(data: seq<Byte>) returns (ok: bool)
      modifies this`taken
      ensures ok <==> !closed && taken == old(taken) + data
      ensures closed ==> taken == old(taken)
      ensures old(taken) <= taken <= old(taken) + data
    {
      var wanted := takes(taken, data);
      var n := if closed then 0 else if wanted < |data| then wanted else |data|;
      ok := !closed && n == |data|;
      assert ok ==> data[..n] == data;
      taken := taken + data[..n];
    }

    method Close()
      modifies this`closed
      ensures closed
    {
      closed := true;
    }

    /** Rows and columns are the low sixteen bits of height and width. */
    method SetSize(height: int, width: int) returns (ok: bool)
      modifies this`sizes
      ensures sizes == old(sizes) + if terminal then [(height % 65536, width % 65536)] else []
      ensures ok == (terminal && resizes(height % 65536, width % 65536))
    {
      if !terminal {
        return false;
      }
      var rows, columns := height % 65536, width % 65536;
      sizes := sizes + [(rows, columns)];
      ok := resizes(rows, columns);
    }
  }

  /** Where the stdin pump is after these events. */
  function FollowStdin(tty: bool, events: seq<StdinEvent>): Option<StdinPc> {
    if events == [] then Some(Receiving)
    else
      var pc := FollowStdin(tty, events[..|events| - 1]);
      if pc.None? then None else StdinNext(tty, pc.value, events[|events| - 1])
  }

  lemma ExtendStdin(tty: bool, events: seq<StdinEvent>, e: StdinEvent) returns (more: seq<StdinEvent>)
    requires FollowStdin(tty, events).Some?
    ensures more == events + [e]
    ensures var (before, after) := (FollowStdin(tty, events).value, FollowStdin(tty, more));
      && (before.Receiving? && e.HungUp? ==> after == Some(Ended))
      && (before.Receiving? && e.RecvFailed? ==> after == Some(Troubled))
      && (before.Receiving? && e.Received? && e.m.Stdin? ==>
            after == Some(if e.m.hasData then Writing(e.m.close) else Receiving))
      && (before.Receiving? && e.Received? && e.m.Resize? && (e.m.ok ==> tty) ==>
            after == Some(if e.m.ok then Receiving else Troubled))
      && (before.Receiving? && e.Received? && e.m.Neither? ==> after == Some(Receiving))
      && (before.Writing? && e.Written? ==> after == Some(if e.ok then Receiving else Troubled))
      && (before.Troubled? && e.Reported? ==> after == Some(Ended))
  {
    more := events + [e];
    assert more[..|more| - 1] == events;
  }

  /** The input in a sequence of requests. */
  function Input(requests: seq<Request>): seq<Byte> {
    if requests == [] then []
    else Input(requests[..|requests| - 1]) + DataOf(requests[|requests| - 1])
  }

  function DataOf(r: Request): seq<Byte> {
    if r.stdin.Some? then r.stdin.value.data else []
  }

  /** The sizes in a sequence of requests, as rows and columns. */
  function Sizes(requests: seq<Request>): seq<(int, int)> {
    if requests == [] then []
    else Sizes(requests[..|requests| - 1]) + SizeOf(requests[|requests| - 1])
  }

  function SizeOf(r: Request): seq<(int, int)> {
    if r.stdin.None? && r.ttySize.Some? then [(r.ttySize.value.0 % 65536, r.ttySize.value.1 % 65536)] else []
  }

  predicate AskToClose(requests: seq<Request>) {
    exists r :: r in requests && r.stdin.Some? && r.stdin.value.close
  }

  /** The terminal has taken every size in the requests. */
  predicate Resized(terminal: bool, resizes: (int, int) -> bool, requests: seq<Request>) {
    forall r :: r in requests && r.stdin.None? && r.ttySize.Some? ==>
      terminal && resizes(r.ttySize.value.0 % 65536, r.ttySize.value.1 % 65536)
  }

  /** One more request, in all that is said of a sequence of them. */
  lemma OneMore(requests: seq<Request>, r: Request, terminal: bool, resizes: (int, int) -> bool)
    ensures (requests + [r])[..|requests|] == requests
    ensures Input(requests + [r]) == Input(requests) + DataOf(r)
    ensures Sizes(requests + [r]) == Sizes(requests) + SizeOf(r)
    ensures AskToClose(requests + [r]) <==> AskToClose(requests) || (r.stdin.Some? && r.stdin.value.close)
    ensures var resize := r.stdin.None? && r.ttySize.Some?;
      var fits := resize ==> terminal && resizes(r.ttySize.value.0 % 65536, r.ttySize.value.1 % 65536);
      Resized(terminal, resizes, requests + [r]) <==> Resized(terminal, resizes, requests) && fits
  {
    assert (requests + [r])[..|requests|] == requests;
    assert forall x :: x in requests + [r] <==> x in requests || x == r;
  }

  /** One request: its input is written, and the process's input then closed if asked for; or a size is handed to the
      terminal. `ok` says that nothing of that failed. */
  method Serve(sink: Sink, r: Request, ghost before: seq<StdinEvent>) returns (ok: bool, ghost events: seq<StdinEvent>)
    requires FollowStdin(sink.terminal, before) == Some(Receiving)
    modifies sink`taken, sink`closed, sink`sizes
    ensures FollowStdin(sink.terminal, events) == Some(if ok then Receiving else Troubled)
    ensures old(sink.taken) <= sink.taken <= old(sink.taken) + DataOf(r)
    ensures var resize := r.stdin.None? && r.ttySize.Some?;
      var fits := resize ==> sink.terminal && sink.resizes(r.ttySize.value.0 % 65536, r.ttySize.value.1 % 65536);
      && sink.sizes == old(sink.sizes) + (if sink.terminal then SizeOf(r) else [])
      && (ok <==> sink.taken == old(sink.taken) + DataOf(r) && fits)
    ensures sink.closed <==>
      old(sink.closed) || (r.stdin.Some? && r.stdin.value.close && sink.taken == old(sink.taken) + DataOf(r))
  {
    hide FollowStdin, StdinNext;
    ok := true;
    if r.stdin.Some? {
      var op := r.stdin.value;
      events := ExtendStdin(sink.terminal, before, Received(Stdin(|op.data| != 0, op.close)));
      if |op.data| != 0 {
        ok := sink.Write(op.data);
        events := ExtendStdin(sink.terminal, events, Written(ok));
        if !ok { return; }
      }
      if op.close {
        sink.Close();
      }
    } else if r.ttySize.Some? {
      var (height, width) := r.ttySize.value;
      ok := sink.SetSize(height, width);
      events := ExtendStdin(sink.terminal, before, Received(Resize(ok)));
    } else {
      events := ExtendStdin(sink.terminal, before, Received(Neither));
    }
  }

  /** `handleStdin`: the process gets the client's input in order and, if no error is reported, all of it; an error is
      reported at most once, by the last step, exactly if a write, a resize or a receive has failed; its input is closed
      exactly if a request asks for that, unless the write of that request fails; the terminal is given the sizes of the
      requests without input; and the pump goes through a course of the protocol to its end. */
  method HandleStdin(sink: Sink, inbox: Inbox, errCh: ErrorChannel)
    returns (ghost events: seq<StdinEvent>, ghost served: seq<Request>)
    requires |errCh.items| < CHANNEL
    modifies sink`taken, sink`closed, sink`sizes, inbox, errCh
    ensures FollowStdin(sink.terminal, events) == Some(Ended)
    ensures old(inbox.coming) == served + inbox.coming
    ensures old(sink.taken) <= sink.taken <= old(sink.taken) + Input(served)
    ensures errCh.items == old(errCh.items) <==>
      && inbox.coming == [] && IsClosedError(Some(inbox.ending)) && sink.taken == old(sink.taken) + Input(served)
      && forall r :: r in served && r.stdin.None? && r.ttySize.Some? ==>
           sink.terminal && sink.resizes(r.ttySize.value.0 % 65536, r.ttySize.value.1 % 65536)
    ensures var failed := sink.taken != old(sink.taken) + Input(served);
      && (failed ==> served != [])
      && var done := if failed then served[..|served| - 1] else served;
         sink.closed <==> old(sink.closed) || exists r :: r in done && r.stdin.Some? && r.stdin.value.close
    ensures sink.sizes == old(sink.sizes) + if sink.terminal then Sizes(served) else []
    ensures errCh.items == old(errCh.items) || errCh.items == old(errCh.items) + [OfStdin]
    ensures events != [] && (errCh.items == old(errCh.items) <==> events[|events| - 1].HungUp?)
  {
    hide IsClosedError, FollowStdin, StdinNext, Input, Sizes, AskToClose, Resized, DataOf, SizeOf;
    events, served := [], [];
    InputStarts(sink.terminal);
    while true
      invariant FollowStdin(sink.terminal, events) == Some(Receiving)
      invariant old(inbox.coming) == served + inbox.coming
      invariant sink.taken == old(sink.taken) + Input(served)
      invariant sink.sizes == old(sink.sizes) + if sink.terminal then Sizes(served) else []
      invariant sink.closed <==> old(sink.closed) || AskToClose(served)
      invariant Resized(sink.terminal, sink.resizes, served)
      invariant errCh.items == old(errCh.items)
      decreases |inbox.coming|
    {
      var m, err := inbox.Recv();
      ClosedIsError(err);
      Meant(sink.terminal, sink.resizes, served);
      if IsClosedError(err) {
        events := ExtendStdin(sink.terminal, events, HungUp);
        return;
      } else if err != None {
        events := ExtendStdin(sink.terminal, events, RecvFailed);
        events := ExtendStdin(sink.terminal, events, Reported);
        errCh.Put(OfStdin, null);
        return;
      }
      var r := m.value;
      ghost var before := served;
      OneMore(served, r, sink.terminal, sink.resizes);
      served := served + [r];
      assert served[..|served| - 1] == before;
      var ok;
      ok, events := Serve(sink, r, events);
      if !ok {
        Meant(sink.terminal, sink.resizes, served);
        events := ExtendStdin(sink.terminal, events, Reported);
        errCh.Put(OfStdin, null);
        return;
      }
    }
  }

  lemma Meant(terminal: bool, resizes: (int, int) -> bool, requests: seq<Request>)
    ensures AskToClose(requests) <==> exists r :: r in requests && r.stdin.Some? && r.stdin.value.close
    ensures Resized(terminal, resizes, requests) <==> forall r :: r in requests && r.stdin.None? && r.ttySize.Some? ==>
      terminal && resizes(r.ttySize.value.0 % 65536, r.ttySize.value.1 % 65536)
  {
  }

  lemma ClosedIsError(err: Option<IoError>)
    ensures IsClosedError(err) ==> err.Some?
  {
  }

  lemma InputStarts(tty: bool)
    ensures FollowStdin(tty, []) == Some(Receiving) && Input([]) == [] && Sizes([]) == []
    ensures !AskToClose([]) && forall terminal, resizes :: Resized(terminal, resizes, [])
  {
  }
}
