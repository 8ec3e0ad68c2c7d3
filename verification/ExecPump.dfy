/** The loops of the three pumps, each by itself, and the steps of the protocol that they go through. */
module ExecPump {
  import opened Options
  import opened ExecStream
  import opened ExecSafety

  // ---- errors

  datatype IoError = Eof | ClosedPipe | Fault(message: string)

  /** The text of the operating system's I/O error, which a terminal reports when its other end is closed. */
  const EIO_TEXT := "input/output error"

  predicate Contains(s: string, t: string) {
    exists i :: 0 <= i <= |s| - |t| && t <= s[i..]
  }

  predicate IsClosedError(err: Option<IoError>) {
    match err
    case None => false
    case Some(Fault(message)) => Contains(message, EIO_TEXT)
    case Some(_) => true
  }

  /** The errors that count as the end of a stream: the end of the file, a closed pipe, and every error whose text holds
      that of the operating system's I/O error. */
  lemma ClosedErrors(err: Option<IoError>)
    ensures IsClosedError(err)
       <==> || err == Some(Eof) || err == Some(ClosedPipe)
            || exists a, b :: err == Some(Fault(a + "input/output error" + b))
  {
    if err.Some? && err.value.Fault? && IsClosedError(err) {
      var text := err.value.message;
      var i :| 0 <= i <= |text| - |EIO_TEXT| && EIO_TEXT <= text[i..];
      assert text == text[..i] + EIO_TEXT + text[i + |EIO_TEXT|..];
    }
    forall a: string, b: string
      ensures IsClosedError(Some(Fault(a + EIO_TEXT + b)))
    {
      assert EIO_TEXT <= (a + EIO_TEXT + b)[|a|..];
    }
  }

  function Classify(err: Option<IoError>): ReadErr {
    if err.None? then NoError else if IsClosedError(err) then Closed else Broken
  }

  // ---- a course of one output pump

  /** Where a pump is after these events, if they can come about in this order. */
  function Follow(events: seq<Event>): Option<PumpPc> {
    if events == [] then Some(Reading)
    else
      var pc := Follow(events[..|events| - 1]);
      if pc.None? then None else PumpNext(pc.value, events[|events| - 1])
  }

  /** What it has sent. */
  function Trail(events: seq<Event>): seq<Sent> {
    if events == [] then []
    else
      var before, e := events[..|events| - 1], events[|events| - 1];
      Trail(before) + match (Follow(before), e)
                      case (Some(Sending(item, _)), Answered(ok)) => [Sent(item, ok)]
                      case _ => []
  }

  /** What it has read. */
  function BytesRead(events: seq<Event>): seq<Byte> {
    if events == [] then []
    else
      var e := events[|events| - 1];
      BytesRead(events[..|events| - 1]) + if e.Got? then e.bytes else []
  }

  lemma Extend(events: seq<Event>, e: Event)
    requires Follow(events).Some?
    ensures Follow(events + [e]) == PumpNext(Follow(events).value, e)
    ensures var pc := Follow(events).value;
      Trail(events + [e])
      == Trail(events) + if pc.Sending? && e.Answered? then [Sent(pc.item, e.ok)] else []
    ensures BytesRead(events + [e]) == BytesRead(events) + if e.Got? then e.bytes else []
  {
    hide PumpNext;
    assert (events + [e])[..|events + [e]| - 1] == events;
  }

  /** The stream as a lone pump sees it: everything written has been read. */
  function Seen(events: seq<Event>): Pump
    requires Follow(events).Some?
  {
    Pump(Follow(events).value, [], BytesRead(events), [], true)
  }

  /** A course sends exactly what it has read, in order and in proper frames, but for what it still has in hand; if it
      ends well it has sent everything, and then one close frame. */
  lemma {:induction false} SendsWhatItReads(events: seq<Event>)
    requires Follow(events).Some?
    ensures Flow(Seen(events), Trail(events))
    decreases |events|
  {
    if events != [] {
      var before, e := events[..|events| - 1], events[|events| - 1];
      assert before + [e] == events;
      SendsWhatItReads(before);
      Extend(before, e);
      hide Follow, Trail, BytesRead;
      SeenMore(before, e);
    }
  }

  lemma SeenMore(before: seq<Event>, e: Event)
    requires Follow(before).Some? && Follow(before + [e]).Some? && Flow(Seen(before), Trail(before))
    ensures Flow(Seen(before + [e]), Trail(before + [e]))
  {
    hide Follow, Trail, BytesRead, BytesOf;
    Extend(before, e);
    var p := Seen(before);
    if e.Got? {
      var pending := p.(written := p.written + e.bytes, pipe := e.bytes);
      PumpFlows(pending, Trail(before), e);
      assert Drawn(pending, e) == [];
    } else {
      PumpFlows(p, Trail(before), e);
    }
    assert Trail(before) + [] == Trail(before) && BytesRead(before) + [] == BytesRead(before);
  }

  // ---- the loop over a stream

  /** What a pump does to the objects around it. */
  datatype Deed = DidRead | DidLock | DidSend(attempt: Attempt) | DidUnlock | DidPut(failure: Failure) | DidRelease

  /** What one output pump has done to all of these objects, in one order: each of their methods enters itself. */
  class Journal {
    ghost var deeds: seq<Deed>

    constructor ()
      ensures deeds == []
    {
      deeds := [];
    }
  }

  /** The answer of one read: some bytes, and whatever error came with them. */
  datatype Answer = Answer(bytes: seq<Byte>, err: Option<IoError>)

  /** The reading end of an output stream, and what its next reads will answer. */
  class Reader {
    var coming: seq<Answer>

    constructor (coming: seq<Answer>)
      ensures this.coming == coming
    {
      this.coming := coming;
    }

    /** Fills the front of the buffer; what is behind that is not to be relied on. */
    method Read(buf: array<Byte>, ghost journal: Journal) returns (n: nat, err: Option<IoError>)
      requires coming != [] && |coming[0].bytes| <= buf.Length
      modifies this, buf, journal
      ensures n == |old(coming)[0].bytes| && buf[..n] == old(coming)[0].bytes && err == old(coming)[0].err
      ensures coming == old(coming)[1..] && journal.deeds == old(journal.deeds) + [DidRead]
    {
      journal.deeds := journal.deeds + [DidRead];
      var answer := coming[0];
      n, err := |answer.bytes|, answer.err;
      forall i | 0 <= i < n {
        buf[i] := answer.bytes[i];
      }
      coming := coming[1..];
    }
  }

  /** The client's stream. Sending hands over a copy of the bytes. */
  class Client {
    const accepts: (seq<Attempt>, Frame) -> bool
    var attempts: seq<Attempt>

    constructor (accepts: (seq<Attempt>, Frame) -> bool)
      ensures this.accepts == accepts && attempts == []
    {
      this.accepts := accepts;
      attempts := [];
    }

    method Send(frame: Frame, ghost journal: Journal) returns (ok: bool)
      modifies this, journal
      ensures attempts == old(attempts) + [Attempt(frame, ok)] && ok == accepts(old(attempts), frame)
      ensures journal.deeds == old(journal.deeds) + [DidSend(Attempt(frame, ok))]
    {
      ok := accepts(attempts, frame);
      attempts := attempts + [Attempt(frame, ok)];
      journal.deeds := journal.deeds + [DidSend(Attempt(frame, ok))];
    }
  }

  class Mutex {
    var held: bool

    constructor ()
      ensures !held
    {
      held := false;
    }

    method Lock(ghost journal: Journal)
      requires !held
      modifies this, journal
      ensures held && journal.deeds == old(journal.deeds) + [DidLock]
    {
      held := true;
      journal.deeds := journal.deeds + [DidLock];
    }

    method Unlock(ghost journal: Journal)
      requires held
      modifies this, journal
      ensures !held && journal.deeds == old(journal.deeds) + [DidUnlock]
    {
      held := false;
      journal.deeds := journal.deeds + [DidUnlock];
    }
  }

  class ErrorChannel {
    var items: seq<Failure>

    constructor ()
      ensures items == []
    {
      items := [];
    }

    method Put(f: Failure, ghost journal: Journal?)
      requires |items| < CHANNEL
      modifies this, journal
      ensures items == old(items) + [f] && (journal != null ==> journal.deeds == old(journal.deeds) + [DidPut(f)])
    {
      items := items + [f];
      if journal != null { journal.deeds := journal.deeds + [DidPut(f)]; }
    }
  }

  class WaitGroup {
    var count: nat

    constructor (count: nat)
      ensures this.count == count
    {
      this.count := count;
    }

    method Done(ghost journal: Journal)
      requires count > 0
      modifies this, journal
      ensures count == old(count) - 1 && journal.deeds == old(journal.deeds) + [DidRelease]
    {
      count := count - 1;
      journal.deeds := journal.deeds + [DidRelease];
    }
  }

  /** A send, under the lock if there is one. */
  function SendDeeds(frame: Frame, ok: bool, locked: bool): seq<Deed> {
    if locked then [DidLock, DidSend(Attempt(frame, ok)), DidUnlock] else [DidSend(Attempt(frame, ok))]
  }

  /** What the events of a course are to the objects around the pump. */
  function Deeds(events: seq<Event>, stream: nat, locked: bool): seq<Deed> {
    if events == [] then []
    else
      var before, e := events[..|events| - 1], events[|events| - 1];
      Deeds(before, stream, locked)
      + match e
        case Got(_, _) => [DidRead]
        case Locked => if locked then [DidLock] else []
        case Answered(ok) =>
          var pc := Follow(before);
          var item := if pc.Some? && pc.value.Sending? then pc.value.item else Closing;
          [DidSend(Attempt(Output(stream, item), ok))] + if locked then [DidUnlock] else []
        case Queued => [DidPut(OfPump(stream))]
        case Left => [DidRelease]
  }

  lemma DeedsMore(events: seq<Event>, e: Event, stream: nat, locked: bool)
    ensures Deeds(events + [e], stream, locked) == Deeds(events, stream, locked) +
      match e
      case Got(_, _) => [DidRead]
      case Locked => if locked then [DidLock] else []
      case Answered(ok) =>
        var pc := Follow(events);
        var item := if pc.Some? && pc.value.Sending? then pc.value.item else Closing;
        [DidSend(Attempt(Output(stream, item), ok))] + (if locked then [DidUnlock] else [])
      case Queued => [DidPut(OfPump(stream))]
      case Left => [DidRelease]
  {
    assert (events + [e])[..|events + [e]| - 1] == events;
  }

  /** The `send` of a pump: under the lock, or straight to the stream under a terminal. */
  method Deliver(client: Client, lock: Mutex?, frame: Frame, ghost journal: Journal) returns (ok: bool)
    requires lock != null ==> !lock.held
    modifies client, lock, journal
    ensures client.attempts == old(client.attempts) + [Attempt(frame, ok)]
    ensures lock != null ==> !lock.held
    ensures journal.deeds == old(journal.deeds) + SendDeeds(frame, ok, lock != null)
  {
    if lock != null { lock.Lock(journal); }
    ok := client.Send(frame, journal);
    if lock != null { lock.Unlock(journal); }
  }

  function Framed(stream: nat, sent: seq<Sent>): (attempts: seq<Attempt>)
    ensures |attempts| == |sent|
  {
    seq(|sent|, i requires 0 <= i < |sent| => Attempt(Output(stream, sent[i].item), sent[i].ok))
  }

  /** The reads of a course, and the same from the side of the reader. */
  function Reads(events: seq<Event>): seq<Event> {
    if events == [] then []
    else
      var e := events[|events| - 1];
      Reads(events[..|events| - 1]) + if e.Got? then [e] else []
  }

  function Heard(answers: seq<Answer>): seq<Event> {
    seq(|answers|, i requires 0 <= i < |answers| => Got(answers[i].bytes, Classify(answers[i].err)))
  }

  lemma ReadsMore(events: seq<Event>, e: Event)
    ensures Reads(events + [e]) == Reads(events) + if e.Got? then [e] else []
  {
    assert (events + [e])[..|events + [e]| - 1] == events;
  }

  /** Every answer fits the buffer, and the last one brings an error. */
  predicate ComesToEnd(coming: seq<Answer>) {
    && coming != [] && coming[|coming| - 1].err.Some?
    && forall a :: a in coming ==> |a.bytes| <= BUFFER
  }

  lemma NextAnswer(coming: seq<Answer>)
    requires ComesToEnd(coming)
    ensures coming != [] && |coming[0].bytes| <= BUFFER
    ensures coming[0].err.None? ==> ComesToEnd(coming[1..])
  {
  }

  /** What a pump leaves behind: the sends on the client's stream, and all of its deeds. */
  datatype Marks = Marks(attempts: seq<Attempt>, deeds: seq<Deed>)

  /** The events are the course of a pump that has read `heard` and made the marks from `before` to `after`. */
  predicate Course(events: seq<Event>, pc: PumpPc, stream: nat, locked: bool, heard: seq<Answer>,
                   before: Marks, after: Marks) {
    && Follow(events) == Some(pc)
    && Reads(events) == Heard(heard)
    && after.attempts == before.attempts + Framed(stream, Trail(events))
    && after.deeds == before.deeds + Deeds(events, stream, locked)
  }

  lemma CourseStarts(stream: nat, locked: bool, marks: Marks)
    ensures Course([], Reading, stream, locked, [], marks, marks)
  {
  }

  lemma CourseReads(events: seq<Event>, stream: nat, locked: bool, heard: seq<Answer>, before: Marks, after: Marks,
                    a: Answer)
    requires Course(events, Reading, stream, locked, heard, before, after) && |a.bytes| <= BUFFER
    ensures var err := Classify(a.err);
      Course(events + [Got(a.bytes, err)], if a.bytes == [] then AfterBytes(err) else Wanting(Bytes(a.bytes), err),
             stream, locked, heard + [a], before, Marks(after.attempts, after.deeds + [DidRead]))
  {
    hide Follow, Reads, Trail, Deeds, Classify;
    var e := Got(a.bytes, Classify(a.err));
    Extend(events, e);
    ReadsMore(events, e);
    DeedsMore(events, e, stream, locked);
    assert Heard(heard + [a]) == Heard(heard) + [e];
    assert Trail(events) + [] == Trail(events);
    assert before.deeds + (Deeds(events, stream, locked) + [DidRead]) == after.deeds + [DidRead];
  }

  lemma CourseSends(events: seq<Event>, pc: PumpPc, stream: nat, locked: bool, heard: seq<Answer>, before: Marks,
                    after: Marks, ok: bool)
    requires Course(events, pc, stream, locked, heard, before, after) && pc.Wanting?
    ensures var frame := Output(stream, pc.item);
      Course(events + [Locked] + [Answered(ok)],
             if !ok then Failing else if pc.item.Closing? then Leaving(true) else AfterBytes(pc.err),
             stream, locked, heard, before,
             Marks(after.attempts + [Attempt(frame, ok)], after.deeds + SendDeeds(frame, ok, locked)))
  {
    hide Follow, Reads, Trail, BytesRead, Deeds;
    Extend(events, Locked);
    ReadsMore(events, Locked);
    DeedsMore(events, Locked, stream, locked);
    Extend(events + [Locked], Answered(ok));
    ReadsMore(events + [Locked], Answered(ok));
    DeedsMore(events + [Locked], Answered(ok), stream, locked);
    var sent := Trail(events);
    assert sent + [] == sent && Reads(events) + [] == Reads(events);
    assert Framed(stream, sent + [Sent(pc.item, ok)]) == Framed(stream, sent) + [Attempt(Output(stream, pc.item), ok)];
    assert Deeds(events + [Locked] + [Answered(ok)], stream, locked)
        == Deeds(events, stream, locked) + SendDeeds(Output(stream, pc.item), ok, locked);
  }

  lemma CourseFails(events: seq<Event>, stream: nat, locked: bool, heard: seq<Answer>, before: Marks, after: Marks)
    requires Course(events, Failing, stream, locked, heard, before, after)
    ensures Course(events + [Queued], Leaving(false), stream, locked, heard, before,
                   Marks(after.attempts, after.deeds + [DidPut(OfPump(stream))]))
  {
    hide Follow, Reads, Trail, BytesRead, Framed, Heard, Deeds;
    assert Trail(events) + [] == Trail(events) && Reads(events) + [] == Reads(events);
    Extend(events, Queued);
    ReadsMore(events, Queued);
    DeedsMore(events, Queued, stream, locked);
  }

  lemma CourseLeaves(events: seq<Event>, ok: bool, stream: nat, locked: bool, heard: seq<Answer>, before: Marks,
                     after: Marks)
    requires Course(events, Leaving(ok), stream, locked, heard, before, after)
    ensures Course(events + [Left], Done(ok), stream, locked, heard, before,
                   Marks(after.attempts, after.deeds + [DidRelease]))
  {
    hide Follow, Reads, Trail, BytesRead, Framed, Heard, Deeds;
    assert Trail(events) + [] == Trail(events) && Reads(events) + [] == Reads(events);
    Extend(events, Left);
    ReadsMore(events, Left);
    DeedsMore(events, Left, stream, locked);
  }

  /** A pump about to send: whatever the answer, it goes on as the protocol says. */
  lemma Told(events: seq<Event>, pc: PumpPc, stream: nat, locked: bool, heard: seq<Answer>, before: Marks, after: Marks)
    returns (waiting: seq<Event>)
    requires Course(events, pc, stream, locked, heard, before, after) && pc.Wanting?
    ensures waiting == events + [Locked]
    ensures forall ok :: var frame := Output(stream, pc.item);
      Course(waiting + [Answered(ok)],
             if !ok then Failing else if pc.item.Closing? then Leaving(true) else AfterBytes(pc.err),
             stream, locked, heard, before,
             Marks(after.attempts + [Attempt(frame, ok)], after.deeds + SendDeeds(frame, ok, locked)))
  {
    hide Course;
    waiting := events + [Locked];
    CourseSends(events, pc, stream, locked, heard, before, after, true);
    CourseSends(events, pc, stream, locked, heard, before, after, false);
  }

  /** The loop of `handleStdout` and `handleStderr`, which differ only in the stream they name: goes through a course of
      the protocol until it leaves, with its reads and its sends, and reports an error exactly if it ends badly. */
  method PumpOutput(stream: nat, reader: Reader, client: Client, lock: Mutex?, errCh: ErrorChannel,
                    ghost journal: Journal)
    returns (ghost events: seq<Event>, ghost heard: seq<Answer>)
    requires ComesToEnd(reader.coming) && |errCh.items| < CHANNEL && (lock != null ==> !lock.held)
    modifies reader, client, lock, errCh, journal
    ensures old(reader.coming) == heard + reader.coming
    ensures Course(events, Leaving(errCh.items == old(errCh.items)), stream, lock != null, heard,
                   Marks(old(client.attempts), old(journal.deeds)), Marks(client.attempts, journal.deeds))
    ensures errCh.items == old(errCh.items) || errCh.items == old(errCh.items) + [OfPump(stream)]
    ensures errCh.items != old(errCh.items) ==>
      journal.deeds != [] && journal.deeds[|journal.deeds| - 1] == DidPut(OfPump(stream))
  {
    hide Course, IsClosedError, Classify, SendDeeds, ComesToEnd;
    ghost var before, locked := Marks(client.attempts, journal.deeds), lock != null;
    var buf := new Byte[BUFFER];
    events, heard := [], [];
    CourseStarts(stream, locked, before);
    while true
      invariant old(reader.coming) == heard + reader.coming && ComesToEnd(reader.coming)
      invariant Course(events, Reading, stream, locked, heard, before, Marks(client.attempts, journal.deeds))
      invariant errCh.items == old(errCh.items) && (lock != null ==> !lock.held)
      invariant fresh(buf)
      decreases |reader.coming|
    {
      NextAnswer(reader.coming);
      ghost var answer := reader.coming[0];
      CourseReads(events, stream, locked, heard, before, Marks(client.attempts, journal.deeds), answer);
      var n, err := reader.Read(buf, journal);
      events, heard := events + [Got(answer.bytes, Classify(err))], heard + [answer];
      ghost var pc := if n == 0 then AfterBytes(Classify(err)) else Wanting(Bytes(answer.bytes), Classify(err));
      if n > 0 {
        events := Told(events, pc, stream, locked, heard, before, Marks(client.attempts, journal.deeds));
        var ok := Deliver(client, lock, Output(stream, Bytes(buf[..n])), journal);
        events := events + [Answered(ok)];
        if !ok {
          CourseFails(events, stream, locked, heard, before, Marks(client.attempts, journal.deeds));
          errCh.Put(OfPump(stream), journal);
          return events + [Queued], heard;
        }
        pc := AfterBytes(Classify(err));
      }
      ClassifyCases(err);
      if IsClosedError(err) {
        events := Told(events, pc, stream, locked, heard, before, Marks(client.attempts, journal.deeds));
        var ok := Deliver(client, lock, Output(stream, Closing), journal);
        events := events + [Answered(ok)];
        if !ok {
          CourseFails(events, stream, locked, heard, before, Marks(client.attempts, journal.deeds));
          errCh.Put(OfPump(stream), journal);
          return events + [Queued], heard;
        }
        return;
      } else if err != None {
        CourseFails(events, stream, locked, heard, before, Marks(client.attempts, journal.deeds));
        errCh.Put(OfPump(stream), journal);
        return events + [Queued], heard;
      }
    }
  }

  /** The whole of such a goroutine: whatever way the loop is left, the wait group is released then and not before. */
  method HandleOutput(stream: nat, reader: Reader, wg: WaitGroup, client: Client, lock: Mutex?, errCh: ErrorChannel,
                      ghost journal: Journal)
    returns (ghost events: seq<Event>, ghost heard: seq<Answer>)
    requires ComesToEnd(reader.coming) && |errCh.items| < CHANNEL && wg.count > 0 && (lock != null ==> !lock.held)
    modifies reader, wg, client, lock, errCh, journal
    ensures old(reader.coming) == heard + reader.coming
    ensures Course(events, Done(errCh.items == old(errCh.items)), stream, lock != null, heard,
                   Marks(old(client.attempts), old(journal.deeds)), Marks(client.attempts, journal.deeds))
    ensures errCh.items == old(errCh.items) || errCh.items == old(errCh.items) + [OfPump(stream)]
    ensures wg.count == old(wg.count) - 1
    ensures journal.deeds != [] && journal.deeds[|journal.deeds| - 1] == DidRelease
    ensures errCh.items != old(errCh.items) ==>
      |journal.deeds| >= 2 && journal.deeds[|journal.deeds| - 2] == DidPut(OfPump(stream))
  {
    hide Course, ComesToEnd;
    ghost var before := Marks(client.attempts, journal.deeds);
    events, heard := PumpOutput(stream, reader, client, lock, errCh, journal);
    CourseLeaves(events, errCh.items == old(errCh.items), stream, lock != null, heard, before,
                 Marks(client.attempts, journal.deeds));
    events := events + [Left];
    wg.Done(journal);
  }

  lemma ClassifyCases(err: Option<IoError>)
    ensures Classify(err).NoError? <==> err.None?
    ensures Classify(err).Closed? <==> IsClosedError(err)
    ensures Classify(err).Broken? <==> err.Some? && !IsClosedError(err)
  {
  }

  /** The bytes of the answers a reader has given. */
  function AllBytes(heard: seq<Answer>): seq<Byte> {
    if heard == [] then [] else AllBytes(heard[..|heard| - 1]) + heard[|heard| - 1].bytes
  }

  lemma {:induction false} ReadsAreBytes(events: seq<Event>, heard: seq<Answer>)
    requires Reads(events) == Heard(heard)
    ensures BytesRead(events) == AllBytes(heard)
    decreases |events|
  {
    if events == [] {
      assert heard == [];
    } else {
      var before, e := events[..|events| - 1], events[|events| - 1];
      if e.Got? {
        assert Reads(events) == Reads(before) + [e];
        var n := |heard| - 1;
        assert |Reads(before)| == n && Heard(heard)[n] == e;
        assert Reads(before) == Reads(events)[..n] == Heard(heard)[..n] == Heard(heard[..n]);
        ReadsAreBytes(before, heard[..n]);
      } else {
        assert Reads(before) + [] == Reads(before);
        ReadsAreBytes(before, heard);
      }
    }
  }

  /** What a pump that has come to its end has sent: everything it has read, in order, whether it ended well or not; and
      if it did, exactly one close frame after that. */
  lemma CourseDelivers(events: seq<Event>, ok: bool, stream: nat, locked: bool, heard: seq<Answer>, before: Marks,
                       after: Marks)
    requires Course(events, Done(ok), stream, locked, heard, before, after)
    ensures after.attempts == before.attempts + Framed(stream, Trail(events))
    ensures BytesOf(Trail(events)) == AllBytes(heard) && Grammar(Trail(events))
    ensures if ok then Trail(events) != [] && Trail(events)[|Trail(events)| - 1] == Sent(Closing, true)
            else Sent(Closing, true) !in Trail(events)
  {
    hide Follow, Trail, BytesOf, BytesRead, Reads, AllBytes, Deeds;
    SendsWhatItReads(events);
    ReadsAreBytes(events, heard);
  }
}
