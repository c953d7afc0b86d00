/**
 * The client's tasks over the session they share: the reader's whole dispatches of src/client/mod.rs and
 * the forwarding loop of src/client/forwarder.rs, with the reader dispatching any frames at every await of
 * the loop, are proved to be runs of the steps of `Client`.
 */
module Forwarder {
  import opened Bytes
  import opened Frames
  import opened Payloads
  import opened Messages
  import opened Sessions
  import opened Walks
  import opened Forwarding
  import C = Client
  import D = Delivery
  import S = Server

  /** A task's trace: the text conversion, and where the session and its frames stood at the beginning. */
  datatype Trace = Trace(utf8: Utf8, start: C.Client, base: nat)

  /** What the server makes of a frame. */
  function ServerReading(utf8: Utf8): Reading {
    f => ServerReads(utf8, f)
  }

  ghost function Beginning(start: C.Client): Walk {
    Walk(S.Init(), start, [], [])
  }

  /** A client state and its queued frames have come from the trace's start by these steps. */
  ghost predicate TracedTo(view: C.Client, frames: seq<Frame>, t: Trace, steps: seq<D.Step>) {
    && Goes(Beginning(t.start), steps)
    && After(Beginning(t.start), steps).client == view
    && ReadsAs(ServerReading(t.utf8), frames, t.base, After(Beginning(t.start), steps).up)
  }

  ghost predicate Traced(session: ClientSession, t: Trace, steps: seq<D.Step>)
    reads session
  {
    TracedTo(session.View(), session.frameTx, t, steps)
  }

  lemma TraceStarts(view: C.Client, frames: seq<Frame>, utf8: Utf8)
    ensures TracedTo(view, frames, Trace(utf8, view, |frames|), [])
  {
    Begins(Beginning(view));
  }

  lemma TraceOn(view: C.Client, frames: seq<Frame>, t: Trace, steps: seq<D.Step>, a: C.Action, more: seq<Frame>)
    requires TracedTo(view, frames, t, steps) && C.Enabled(view, a)
    requires var e := C.Emits(view, a);
      |more| == |e| <= 1 && (e != [] ==> ServerReads(t.utf8, more[0]) == e[0])
    ensures TracedTo(C.Do(view, a), frames + more, t, steps + [D.AtClient(a)])
  {
    var w, e := After(Beginning(t.start), steps), C.Emits(view, a);
    GoOn(Beginning(t.start), steps, D.AtClient(a));
    hide Goes, After, ServerReads, C.Do, C.Enabled, C.Emits;
    if e == [] {
      assert w.up + e == w.up && frames + more == frames;
    } else {
      ReadsOn(ServerReading(t.utf8), frames, t.base, w.up, more[0], e[0]);
      assert more == [more[0]] && e == [e[0]];
    }
  }

  // ---- The stream as its task sees it ----

  function LineOf(c: C.Client, frames: seq<Frame>, x: U32): Line
    requires x in c.locals
  {
    var l := c.locals[x];
    Line(x in c.streams, C.ReceiverAlive(l.phase), l.queue, l.got, l.put, About(frames, x), c.reader.Stopped?)
  }

  ghost function LineAt(session: ClientSession, x: U32): Line
    requires x in session.locals
    reads session
  {
    LineOf(session.View(), session.frameTx, x)
  }

  lemma PartsOf(session: ClientSession, sid: U32)
    requires sid in session.locals
    ensures LineAt(session, sid).out == About(session.frameTx, sid)
    ensures LineAt(session, sid).got == session.locals[sid].got
    ensures LineAt(session, sid).put == session.locals[sid].put
    ensures LineAt(session, sid).queue == session.locals[sid].queue
    ensures LineAt(session, sid).halted == session.terminated
  {
  }

  lemma AliveNow(session: ClientSession, sid: U32)
    requires sid in session.locals && C.ReceiverAlive(session.locals[sid].phase)
    ensures LineAt(session, sid).alive && LineAt(session, sid) == LineAt(session, sid).(alive := true)
  {
  }

  /** A frame from the server, and what the world answers while it is handled. */
  datatype Arrival = Arrival(frame: Frame, world: World)

  function Hearing(utf8: Utf8, lossy: Text -> Text, x: U32): (r: Ear<Arrival>)
    ensures r.x == x && !r.refuses
  {
    Ear(x, (a: Arrival) => ClientReads(utf8, lossy, a.frame), false)
  }

  lemma OneMoreFrame(frames: seq<Frame>, f: Frame, x: U32)
    ensures About(frames + [f], x) == if IsAbout(f, x) then About(frames, x) + [f] else About(frames, x)
  {
    AboutOne(frames, f, x);
    assert About(frames, x) + [] == About(frames, x);
  }

  /** The frames one dispatch queues. */
  function Queues(m: Message, connects: bool): seq<Frame>
    requires m.Open? ==> m.sid < U32_SIZE
  {
    if m.Open? then [BuildStreamOpenAck(m.sid, connects)]
    else if m.Beat? then [HeartbeatAckFrame(m.timestamp)]
    else []
  }

  /** A dispatch is to the stream the arrival of its frame, unless it opens that very stream again. */
  lemma DispatchIsArrival(c: C.Client, frames: seq<Frame>, utf8: Utf8, lossy: Text -> Text, x: U32, a: Arrival)
    requires c.reader == C.Ready && x in c.locals && ClientReads(utf8, lossy, a.frame) != Open(x)
    ensures var m := ClientReads(utf8, lossy, a.frame);
      var c' := Handled(c, m, a.world.connects);
      && x in c'.locals && c'.locals[x].phase == c.locals[x].phase
      && (m.Open? ==> m.sid < U32_SIZE)
      && LineOf(c', frames + Queues(m, a.world.connects), x)
         == Arrived(Hearing(utf8, lossy, x), LineOf(c, frames, x), a)
  {
    var m := ClientReads(utf8, lossy, a.frame);
    assert m.Open? ==> m.sid < U32_SIZE by {
      hide ParseStreamOpen, ParseTimestamp, ReadStr;
    }
    hide ClientReads;
    var q := Queues(m, a.world.connects);
    if q == [] {
      assert frames + [] == frames;
    } else {
      OneMoreFrame(frames, q[0], x);
      assert q == [q[0]];
    }
  }

  // ---- The reader ----

  /** What the server will read in answer to one dispatched frame. */
  function Answers(m: Message, connects: bool): seq<Message> {
    if m.Open? then [Ack(m.sid, connects)] else if m.Beat? then [Ignored] else []
  }

  /** The steps of one whole dispatch, the dial of a target included. */
  function DispatchSteps(c: C.Client, m: Message, connects: bool): seq<D.Step> {
    [D.AtClient(C.Dispatch(m))] +
    (if m.Open? then
       if connects then [D.AtClient(C.Connected), D.AtClient(C.SendAck(true)), D.AtClient(C.Link)]
       else [D.AtClient(C.ConnectFails), D.AtClient(C.SendNack(true))]
     else if C.Receive(c, m).reader.Delivering? then [D.AtClient(C.Deliver)]
     else if m.Beat? then [D.UpChatter(Ignored)]
     else [])
  }

  lemma DispatchWalks(start: Walk, steps: seq<D.Step>, m: Message, connects: bool)
    requires Goes(start, steps) && After(start, steps).client.reader == C.Ready
    ensures var w := After(start, steps);
      var more := steps + DispatchSteps(w.client, m, connects);
      && Goes(start, more)
      && After(start, more) == w.(client := Handled(w.client, m, connects), up := w.up + Answers(m, connects))
  {
    hide Goes, After;
    var w, first := After(start, steps), D.AtClient(C.Dispatch(m));
    GoOn(start, steps, first);
    assert w.up + [] == w.up;
    var more := steps + [first];
    if m.Open? {
      DialWalks(start, steps, m.sid, connects);
    } else if C.Receive(w.client, m).reader.Delivering? {
      GoOn(start, more, D.AtClient(C.Deliver));
      assert more + [D.AtClient(C.Deliver)] == steps + DispatchSteps(w.client, m, connects);
    } else if m.Beat? {
      GoOn(start, more, D.UpChatter(Ignored));
      assert more + [D.UpChatter(Ignored)] == steps + DispatchSteps(w.client, m, connects);
    } else {
      assert more == steps + DispatchSteps(w.client, m, connects);
    }
  }

  lemma DialWalks(start: Walk, steps: seq<D.Step>, sid: Sid, connects: bool)
    requires Goes(start, steps) && After(start, steps).client.reader == C.Ready
    ensures var w, m := After(start, steps), Open(sid);
      var more := steps + DispatchSteps(w.client, m, connects);
      && Goes(start, more)
      && After(start, more) == w.(client := Handled(w.client, m, connects), up := w.up + Answers(m, connects))
  {
    hide Goes, After;
    var w := After(start, steps);
    var more := steps + [D.AtClient(C.Dispatch(Open(sid)))];
    GoOn(start, steps, D.AtClient(C.Dispatch(Open(sid))));
    assert w.up + [] == w.up;
    if connects {
      GoOn(start, more, D.AtClient(C.Connected));
      GoOn(start, more + [D.AtClient(C.Connected)], D.AtClient(C.SendAck(true)));
      GoOn(start, more + [D.AtClient(C.Connected)] + [D.AtClient(C.SendAck(true))], D.AtClient(C.Link));
      assert more + [D.AtClient(C.Connected)] + [D.AtClient(C.SendAck(true))] + [D.AtClient(C.Link)]
          == steps + DispatchSteps(w.client, Open(sid), true);
      assert w.up + [Ack(sid, true)] + [] == w.up + [Ack(sid, true)];
    } else {
      GoOn(start, more, D.AtClient(C.ConnectFails));
      GoOn(start, more + [D.AtClient(C.ConnectFails)], D.AtClient(C.SendNack(true)));
      assert more + [D.AtClient(C.ConnectFails)] + [D.AtClient(C.SendNack(true))]
          == steps + DispatchSteps(w.client, Open(sid), false);
    }
  }

  /** The frame a dispatch queues means to the server what the steps say. */
  lemma AnswerRead(utf8: Utf8, m: Message, connects: bool)
    requires m.Open? ==> m.sid < U32_SIZE
    ensures m.Open? ==> ServerReads(utf8, BuildStreamOpenAck(m.sid, connects)) == Ack(m.sid, connects)
    ensures m.Beat? ==> ServerReads(utf8, HeartbeatAckFrame(m.timestamp)) == Ignored
  {
    if m.Open? {
      StreamOpenAckRoundTrip(m.sid, connects);
    }
  }

  method ReaderDispatches(session: ClientSession, ghost t: Trace, utf8: Utf8, lossy: Text -> Text, arrival: Arrival,
                          ghost steps: seq<D.Step>)
    returns (ghost more: seq<D.Step>)
    requires ReasonReadable(arrival.frame) && !session.terminated && session.heartbeat.Valid()
    requires utf8 == t.utf8 && Traced(session, t, steps)
    modifies session, session.udp, session.heartbeat
    ensures Traced(session, t, more) && session.heartbeat.Valid()
    ensures session.View()
         == Handled(old(session.View()), ClientReads(utf8, lossy, arrival.frame), arrival.world.connects)
    ensures var m := ClientReads(utf8, lossy, arrival.frame);
      (m.Open? ==> m.sid < U32_SIZE) && session.frameTx == old(session.frameTx) + Queues(m, arrival.world.connects)
  {
    ghost var before, frames := session.View(), session.frameTx;
    ghost var m, connects := ClientReads(utf8, lossy, arrival.frame), arrival.world.connects;
    assert m.Open? ==> m.sid < U32_SIZE;
    hide Goes, After, ServerReads, ClientReads, Handled, ReadsAs;
    AnswerRead(utf8, m, connects);
    session.DispatchFrame(utf8, lossy, arrival.frame, arrival.world);
    DispatchWalks(Beginning(t.start), steps, m, connects);
    more := steps + DispatchSteps(before, m, connects);
    ghost var queued := After(Beginning(t.start), steps).up;
    if m.Open? {
      ReadsOn(ServerReading(utf8), frames, t.base, queued, BuildStreamOpenAck(m.sid, connects), Ack(m.sid, connects));
    } else if m.Beat? {
      ReadsOn(ServerReading(utf8), frames, t.base, queued, HeartbeatAckFrame(m.timestamp), Ignored);
    } else {
      assert queued + [] == queued && frames + [] == frames;
    }
  }

  /** Frames that can be read and do not open the stream once more: no server sends others. */
  predicate InOrder(utf8: Utf8, lossy: Text -> Text, arrivals: seq<Arrival>, sid: U32) {
    forall i :: 0 <= i < |arrivals| ==>
      ReasonReadable(arrivals[i].frame) && ClientReads(utf8, lossy, arrivals[i].frame) != Open(sid)
  }

  /**
   * An await of the task: the reader, unless it has stopped, dispatches what has arrived, and the task finds
   * itself where it was, with its stream as the arrivals leave it.
   */
  method Await(session: ClientSession, ghost t: Trace, utf8: Utf8, lossy: Text -> Text, sid: U32,
               arrivals: seq<Arrival>, ghost steps: seq<D.Step>)
    returns (ghost more: seq<D.Step>)
    requires utf8 == t.utf8 && Traced(session, t, steps) && session.heartbeat.Valid()
    requires sid in session.locals && InOrder(utf8, lossy, arrivals, sid)
    modifies session, session.udp, session.heartbeat
    ensures Traced(session, t, more) && session.heartbeat.Valid()
    ensures sid in session.locals && session.locals[sid].phase == old(session.locals)[sid].phase
    ensures LineAt(session, sid) == Arrive(Hearing(utf8, lossy, sid), old(LineAt(session, sid)), arrivals)
  {
    hide TracedTo, Handled, ClientReads, Arrived, LineOf, Hearing, Queues;
    more := steps;
    ghost var r := Hearing(utf8, lossy, sid);
    PartsOf(session, sid);
    var i := 0;
    assert arrivals[0..] == arrivals;
    while i < |arrivals| && !session.terminated
      invariant i <= |arrivals|
      invariant Traced(session, t, more) && session.heartbeat.Valid()
      invariant sid in session.locals && session.locals[sid].phase == old(session.locals)[sid].phase
      invariant Arrive(r, LineAt(session, sid), arrivals[i..]) == Arrive(r, old(LineAt(session, sid)), arrivals)
    {
      DispatchIsArrival(session.View(), session.frameTx, utf8, lossy, sid, arrivals[i]);
      assert arrivals[i..][0] == arrivals[i] && arrivals[i..][1..] == arrivals[i + 1..];
      more := ReaderDispatches(session, t, utf8, lossy, arrivals[i], more);
      i := i + 1;
    }
    PartsOf(session, sid);
    if session.terminated {
      NothingArrives(r, LineAt(session, sid), arrivals[i..]);
    }
  }

  // ---- The forwarding loop ----

  predicate EventInOrder(utf8: Utf8, lossy: Text -> Text, e: Event<Arrival>, sid: U32) {
    match e
    case FromSocket(_, arrivals, _) => InOrder(utf8, lossy, arrivals, sid)
    case SocketEnds => true
    case FromChannel(progress) => forall i :: 0 <= i < |progress| ==> InOrder(utf8, lossy, progress[i].arrivals, sid)
    case Waiting(arrivals) => InOrder(utf8, lossy, arrivals, sid)
  }

  /**
   * From the stream's entry into the table to the end of its task, whatever the reader dispatches at any
   * await, the loop is a run of the step system. From events and arrivals alone: the stream ends as `Forwarded`
   * says, with what was written to the local target in it; the STREAM_DATA frames queued carry exactly what the
   * tunnel took of the chunks read, up to the event that ends the loop; one STREAM_CLOSE is queued behind all of
   * that, if the tunnel takes it; and the stream is out of the table.
   */
  method ForwardLocal(session: ClientSession, utf8: Utf8, lossy: Text -> Text, sid: U32, events: seq<Event<Arrival>>,
                      close: Sending<Arrival>)
    returns (ghost steps: seq<D.Step>)
    requires C.At(session.View(), sid, C.Forwarding(None)) && session.heartbeat.Valid()
    requires forall i :: 0 <= i < |events| ==> EventInOrder(utf8, lossy, events[i], sid)
    requires InOrder(utf8, lossy, close.before, sid) && InOrder(utf8, lossy, close.behind, sid)
    modifies session, session.udp, session.heartbeat
    ensures Traced(session, Trace(utf8, old(session.View()), |old(session.frameTx)|), steps)
    ensures C.At(session.View(), sid, C.Finished) && sid !in session.streams
    ensures var r, l := Hearing(utf8, lossy, sid), old(LineAt(session, sid));
      var loop, taken := Course(r, l, events), events[..Turns(r, l, events)];
      && LineAt(session, sid) == Forwarded(r, l, events, close).(listed := false)
      && session.locals[sid].put == loop.put
      && session.locals[sid].got == old(session.locals)[sid].got + Given(taken)
      && Payload(session.frameTx, sid) == Payload(old(session.frameTx), sid) + Taken(taken)
      && GoesOn(events, |taken|)
      && About(session.frameTx, sid) == loop.out + if close.taken then [BuildStreamClose(sid)] else []
  {
    hide TracedTo, Handled, ClientReads, EventInOrder, LineOf, Course, Turns, Sent, Given, Taken, Payload, GoesOn;
    hide About, InOrder, Hearing;
    ghost var t, frames := Trace(utf8, session.View(), |session.frameTx|), session.frameTx;
    ghost var r, l := Hearing(utf8, lossy, sid), LineAt(session, sid);
    steps := [];
    TraceStarts(session.View(), session.frameTx, utf8);
    AliveNow(session, sid);
    PartsOf(session, sid);
    steps := Loop(session, t, utf8, lossy, sid, events, steps);
    steps := SendClose(session, t, utf8, lossy, sid, close, steps);
    ghost var end := LineAt(session, sid);
    steps := Unlink(session, t, sid, steps);
    PartsOf(session, sid);
    Totals(session, r, l, end, frames, events, close);
  }

  /** What the frames and the histories of the whole session say of the stream. */
  lemma Totals(session: ClientSession, r: Ear<Arrival>, l: Line, end: Line, frames: seq<Frame>,
               events: seq<Event<Arrival>>, close: Sending<Arrival>)
    requires r.x in session.locals && !r.refuses && l.alive && l.out == About(frames, r.x)
    requires end == Forwarded(r, l, events, close) && LineAt(session, r.x) == end.(listed := false, alive := false)
    ensures var n := Turns(r, l, events);
      && session.locals[r.x].put == Course(r, l, events).put
      && session.locals[r.x].got == l.got + Given(events[..n])
      && Payload(session.frameTx, r.x) == Payload(frames, r.x) + Taken(events[..n])
      && GoesOn(events, n)
      && LineAt(session, r.x) == end.(listed := false)
      && About(session.frameTx, r.x) == Course(r, l, events).out + if close.taken then [BuildStreamClose(r.x)] else []
  {
    PartsOf(session, r.x);
    SentIsOnce(r, Course(r, l, events), close, BuildStreamClose(r.x), false);
    SentIsDead(r, Course(r, l, events), close, BuildStreamClose(r.x));
    hide Course, Turns, Sent, Given, Taken, GoesOn, Payload, About;
    CourseSends(r, l, events);
    ForwardedSends(r, l, events, close);
    PayloadOfAbout(session.frameTx, r.x);
    PayloadOfAbout(frames, r.x);
  }

  lemma SentIsDead(r: Ear<Arrival>, l: Line, s: Sending<Arrival>, f: Frame)
    ensures !Sent(r, l, s, f, false).alive
  {
    var m := Arrive(r, l, s.before);
    ArriveCarriesNothing(r, m.(out := if s.taken then m.out + [f] else m.out, alive := false), s.behind);
  }

  /** The select loop until it breaks. */
  method Loop(session: ClientSession, ghost t: Trace, utf8: Utf8, lossy: Text -> Text, sid: U32,
              events: seq<Event<Arrival>>, ghost steps: seq<D.Step>)
    returns (ghost more: seq<D.Step>)
    requires utf8 == t.utf8 && Traced(session, t, steps) && session.heartbeat.Valid()
    requires C.At(session.View(), sid, C.Forwarding(None))
    requires forall i :: 0 <= i < |events| ==> EventInOrder(utf8, lossy, events[i], sid)
    modifies session, session.udp, session.heartbeat
    ensures Traced(session, t, more) && session.heartbeat.Valid() && C.At(session.View(), sid, C.Breaking)
    ensures LineAt(session, sid) == Course(Hearing(utf8, lossy, sid), old(LineAt(session, sid)), events)
  {
    hide TracedTo, LineOf, Turn, Room, Hearing, EventInOrder;
    more := steps;
    ghost var r, l := Hearing(utf8, lossy, sid), LineAt(session, sid);
    assert events[0..] == events;
    var i, ended := 0, false;
    while i < |events| && !ended
      invariant i <= |events|
      invariant Traced(session, t, more) && session.heartbeat.Valid()
      invariant C.At(session.View(), sid, if ended then C.Breaking else C.Forwarding(None))
      invariant if ended then LineAt(session, sid) == Course(r, l, events)
                else Course(r, LineAt(session, sid), events[i..]) == Course(r, l, events)
      decreases |events| - i
    {
      assert events[i..][0] == events[i] && events[i..][1..] == events[i + 1..];
      ended, more := Forward(session, t, utf8, lossy, sid, events[i], more);
      i := i + 1;
    }
    if !ended {
      AliveNow(session, sid);
      more := Quiet(session, t, sid, C.Break(sid), C.Breaking, more);
    }
  }

  /** STREAM_CLOSE, with the reader running around it. */
  method SendClose(session: ClientSession, ghost t: Trace, utf8: Utf8, lossy: Text -> Text, sid: U32,
                   close: Sending<Arrival>, ghost steps: seq<D.Step>)
    returns (ghost more: seq<D.Step>)
    requires utf8 == t.utf8 && Traced(session, t, steps) && session.heartbeat.Valid()
    requires C.At(session.View(), sid, C.Breaking)
    requires InOrder(utf8, lossy, close.before, sid) && InOrder(utf8, lossy, close.behind, sid)
    modifies session, session.udp, session.heartbeat
    ensures Traced(session, t, more) && session.heartbeat.Valid() && C.At(session.View(), sid, C.Unlinking)
    ensures LineAt(session, sid)
         == Sent(Hearing(utf8, lossy, sid), old(LineAt(session, sid)), close, BuildStreamClose(sid), false)
  {
    hide TracedTo, LineOf, Arrive, InOrder, Hearing;
    more := Await(session, t, utf8, lossy, sid, close.before, steps);
    more := CloseTunnelSide(session, t, sid, close.taken, more);
    more := Await(session, t, utf8, lossy, sid, close.behind, more);
  }

  method CloseTunnelSide(session: ClientSession, ghost t: Trace, sid: U32, sent: bool, ghost steps: seq<D.Step>)
    returns (ghost more: seq<D.Step>)
    requires Traced(session, t, steps) && C.At(session.View(), sid, C.Breaking)
    modifies session`locals, session`frameTx
    ensures Traced(session, t, more) && C.At(session.View(), sid, C.Unlinking)
    ensures var l := old(LineAt(session, sid));
      LineAt(session, sid) == l.(out := if sent then l.out + [BuildStreamClose(sid)] else l.out, alive := false)
  {
    hide TracedTo, About;
    ghost var a, before := C.CloseTunnelSide(sid, sent), session.View();
    TraceOn(before, session.frameTx, t, steps, a, if sent then [BuildStreamClose(sid)] else []);
    assert session.frameTx + [] == session.frameTx;
    OneMoreFrame(session.frameTx, BuildStreamClose(sid), sid);
    more := steps + [D.AtClient(a)];
    if sent {
      session.frameTx := session.frameTx + [BuildStreamClose(sid)];
    }
    session.locals := session.locals[sid := session.locals[sid].(phase := C.Unlinking)];
    assert session.View() == C.Do(before, a);
  }

  method Unlink(session: ClientSession, ghost t: Trace, sid: U32, ghost steps: seq<D.Step>)
    returns (ghost more: seq<D.Step>)
    requires Traced(session, t, steps) && C.At(session.View(), sid, C.Unlinking)
    modifies session`locals, session`streams
    ensures Traced(session, t, more) && C.At(session.View(), sid, C.Finished) && sid !in session.streams
    ensures LineAt(session, sid) == old(LineAt(session, sid)).(listed := false, alive := false)
  {
    hide TracedTo, About;
    ghost var before := session.View();
    TraceOn(before, session.frameTx, t, steps, C.Unlink(sid), []);
    assert session.frameTx + [] == session.frameTx;
    more := steps + [D.AtClient(C.Unlink(sid))];
    session.locals := session.locals[sid := session.locals[sid].(phase := C.Finished)];
    session.streams := session.streams - {sid};
    assert session.View() == C.Do(before, C.Unlink(sid));
  }

  /**
   * One turn of the select loop. What was read goes on exactly if the tunnel takes it, and a chunk from the
   * channel is written as far as there is room; only a chunk that was not written to its end, a tunnel that
   * takes no more, the end of the socket or a closed and empty channel ends the loop.
   */
  method Forward(session: ClientSession, ghost t: Trace, utf8: Utf8, lossy: Text -> Text, sid: U32,
                 event: Event<Arrival>, ghost steps: seq<D.Step>)
    returns (ended: bool, ghost more: seq<D.Step>)
    requires utf8 == t.utf8 && Traced(session, t, steps) && session.heartbeat.Valid()
    requires C.At(session.View(), sid, C.Forwarding(None)) && EventInOrder(utf8, lossy, event, sid)
    modifies session, session.udp, session.heartbeat
    ensures Traced(session, t, more) && session.heartbeat.Valid()
    ensures C.At(session.View(), sid, if ended then C.Breaking else C.Forwarding(None))
    ensures (LineAt(session, sid), ended) == Turn(Hearing(utf8, lossy, sid), old(LineAt(session, sid)), event)
    ensures event.FromSocket? ==> (ended <==> !event.sent)
    ensures event.SocketEnds? ==> ended
    ensures event.Waiting? ==> !ended
    ensures event.FromChannel? && old(session.locals)[sid].queue != [] ==>
              var chunk := old(session.locals)[sid].queue[0];
              && (ended <==> Room(event.progress) < |chunk|)
              && session.locals[sid].put == old(session.locals)[sid].put + chunk[..Least(Room(event.progress), |chunk|)]
  {
    hide TracedTo, Arrive, Written, About, InOrder, Hearing;
    ghost var r, l := Hearing(utf8, lossy, sid), LineAt(session, sid);
    TurnIs(r, l, event);
    hide Payload, Given, Taken;
    more, ended := steps, false;
    if event.Waiting? {
      more := Await(session, t, utf8, lossy, sid, event.arrivals, more);
    } else if event.FromSocket? {
      more := ReadSocket(session, t, sid, event.data, more);
      more := Await(session, t, utf8, lossy, sid, event.arrivals, more);
      ended := !event.sent;
      more := SendOn(session, t, sid, event.data, event.sent, more);
    } else if event.FromChannel? && session.locals[sid].queue != [] {
      ended, more := WriteChunk(session, t, utf8, lossy, sid, event.progress, more);
    } else if !(event.FromChannel? && sid in session.streams) {
      ended := true;
      more := Quiet(session, t, sid, C.Break(sid), C.Breaking, more);
    }
  }

  method ReadSocket(session: ClientSession, ghost t: Trace, sid: U32, data: Chunk, ghost steps: seq<D.Step>)
    returns (ghost more: seq<D.Step>)
    requires Traced(session, t, steps) && C.At(session.View(), sid, C.Forwarding(None))
    modifies session`locals
    ensures Traced(session, t, more) && C.At(session.View(), sid, C.Forwarding(Some(data)))
    ensures var l := old(LineAt(session, sid)); LineAt(session, sid) == l.(got := l.got + [data])
  {
    hide TracedTo, About;
    ghost var before := session.View();
    TraceOn(before, session.frameTx, t, steps, C.ReadLocal(sid, data), []);
    assert session.frameTx + [] == session.frameTx;
    more := steps + [D.AtClient(C.ReadLocal(sid, data))];
    var l := session.locals[sid];
    session.locals := session.locals[sid := l.(phase := C.Forwarding(Some(data)), got := l.got + [data])];
    assert session.View() == C.Do(before, C.ReadLocal(sid, data));
  }

  /** A move of the task that queues nothing. */
  method Quiet(session: ClientSession, ghost t: Trace, sid: U32, ghost a: C.Action, phase: C.Phase,
               ghost steps: seq<D.Step>)
    returns (ghost more: seq<D.Step>)
    requires Traced(session, t, steps) && sid in session.locals && C.Enabled(session.View(), a)
    requires C.Emits(session.View(), a) == []
    requires C.Do(session.View(), a) == C.SetPhase(session.View(), sid, phase)
    modifies session`locals
    ensures Traced(session, t, more) && C.At(session.View(), sid, phase)
    ensures LineAt(session, sid) == old(LineAt(session, sid)).(alive := C.ReceiverAlive(phase))
  {
    hide TracedTo, About;
    TraceOn(session.View(), session.frameTx, t, steps, a, []);
    assert session.frameTx + [] == session.frameTx;
    more := steps + [D.AtClient(a)];
    session.locals := session.locals[sid := session.locals[sid].(phase := phase)];
  }

  method SendOn(session: ClientSession, ghost t: Trace, sid: U32, data: Chunk, sent: bool, ghost steps: seq<D.Step>)
    returns (ghost more: seq<D.Step>)
    requires Traced(session, t, steps) && C.At(session.View(), sid, C.Forwarding(Some(data)))
    modifies session`locals, session`frameTx
    ensures Traced(session, t, more)
    ensures C.At(session.View(), sid, if sent then C.Forwarding(None) else C.Breaking)
    ensures session.frameTx == old(session.frameTx) + if sent then [BuildStreamData(sid, data)] else []
    ensures var l := old(LineAt(session, sid));
      LineAt(session, sid) == if sent then l.(out := l.out + [BuildStreamData(sid, data)]) else l
  {
    hide TracedTo, About;
    ghost var a := if sent then C.Forward(sid) else C.ForwardFails(sid);
    ghost var before := session.View();
    TraceOn(before, session.frameTx, t, steps, a, if sent then [BuildStreamData(sid, data)] else []);
    assert session.frameTx + [] == session.frameTx;
    OneMoreFrame(session.frameTx, BuildStreamData(sid, data), sid);
    more := steps + [D.AtClient(a)];
    var phase := if sent then C.Forwarding(None) else C.Breaking;
    session.locals := session.locals[sid := session.locals[sid].(phase := phase)];
    if sent {
      session.frameTx := session.frameTx + [BuildStreamData(sid, data)];
    }
    assert session.View() == C.Do(before, a);
  }

  /** A chunk out of the channel, written piece by piece with the reader running in between. */
  method WriteChunk(session: ClientSession, ghost t: Trace, utf8: Utf8, lossy: Text -> Text, sid: U32,
                    progress: seq<Progress<Arrival>>, ghost steps: seq<D.Step>)
    returns (ended: bool, ghost more: seq<D.Step>)
    requires utf8 == t.utf8 && Traced(session, t, steps) && session.heartbeat.Valid()
    requires C.At(session.View(), sid, C.Forwarding(None)) && session.locals[sid].queue != []
    requires forall i :: 0 <= i < |progress| ==> InOrder(utf8, lossy, progress[i].arrivals, sid)
    modifies session, session.udp, session.heartbeat
    ensures Traced(session, t, more) && session.heartbeat.Valid()
    ensures C.At(session.View(), sid, if ended then C.Breaking else C.Forwarding(None))
    ensures var l := old(LineAt(session, sid));
      var (m, rest) := Written(Hearing(utf8, lossy, sid), l.(queue := l.queue[1..]), l.queue[0], progress);
      LineAt(session, sid) == m && (ended <==> rest != [])
  {
    hide TracedTo, Written, LineOf, Hearing, InOrder;
    PartsOf(session, sid);
    var rest;
    rest, more := TakeChunk(session, t, sid, steps);
    rest, more := WritePieces(session, t, utf8, lossy, sid, rest, progress, more);
    ended := rest != [];
    AliveNow(session, sid);
    if ended {
      more := Quiet(session, t, sid, C.WriteFails(sid), C.Breaking, more);
    } else {
      more := Quiet(session, t, sid, C.WriteDone(sid), C.Forwarding(None), more);
    }
  }

  method WritePieces(session: ClientSession, ghost t: Trace, utf8: Utf8, lossy: Text -> Text, sid: U32, chunk: Chunk,
                     progress: seq<Progress<Arrival>>, ghost steps: seq<D.Step>)
    returns (rest: Chunk, ghost more: seq<D.Step>)
    requires utf8 == t.utf8 && Traced(session, t, steps) && session.heartbeat.Valid()
    requires C.At(session.View(), sid, C.Writing(chunk))
    requires forall i :: 0 <= i < |progress| ==> InOrder(utf8, lossy, progress[i].arrivals, sid)
    modifies session, session.udp, session.heartbeat
    ensures Traced(session, t, more) && session.heartbeat.Valid() && C.At(session.View(), sid, C.Writing(rest))
    ensures (LineAt(session, sid), rest)
         == Written(Hearing(utf8, lossy, sid), old(LineAt(session, sid)), chunk, progress)
  {
    hide TracedTo, Arrive, LineOf, Hearing, InOrder;
    ghost var r := Hearing(utf8, lossy, sid);
    rest, more := chunk, steps;
    ghost var whole := Written(r, LineAt(session, sid), chunk, progress);
    var i := 0;
    assert progress[0..] == progress;
    while i < |progress|
      invariant i <= |progress|
      invariant Traced(session, t, more) && session.heartbeat.Valid()
      invariant C.At(session.View(), sid, C.Writing(rest))
      invariant Written(r, LineAt(session, sid), rest, progress[i..]) == whole
    {
      assert progress[i..][0] == progress[i] && progress[i..][1..] == progress[i + 1..];
      rest, more := WriteSome(session, t, sid, rest, progress[i].bytes, more);
      more := Await(session, t, utf8, lossy, sid, progress[i].arrivals, more);
      i := i + 1;
    }
  }

  method TakeChunk(session: ClientSession, ghost t: Trace, sid: U32, ghost steps: seq<D.Step>)
    returns (chunk: Chunk, ghost more: seq<D.Step>)
    requires Traced(session, t, steps) && C.At(session.View(), sid, C.Forwarding(None))
    requires session.locals[sid].queue != []
    modifies session`locals
    ensures Traced(session, t, more) && C.At(session.View(), sid, C.Writing(chunk))
    ensures var l := old(LineAt(session, sid));
      l.queue != [] && chunk == l.queue[0] && LineAt(session, sid) == l.(queue := l.queue[1..])
  {
    hide TracedTo, About;
    ghost var before := session.View();
    TraceOn(before, session.frameTx, t, steps, C.TakeChunk(sid), []);
    assert session.frameTx + [] == session.frameTx;
    more := steps + [D.AtClient(C.TakeChunk(sid))];
    var l := session.locals[sid];
    chunk := l.queue[0];
    session.locals := session.locals[sid := l.(phase := C.Writing(chunk), queue := l.queue[1..])];
    assert session.View() == C.Do(before, C.TakeChunk(sid));
  }

  method WriteSome(session: ClientSession, ghost t: Trace, sid: U32, chunk: Chunk, bytes: nat, ghost steps: seq<D.Step>)
    returns (rest: Chunk, ghost more: seq<D.Step>)
    requires Traced(session, t, steps) && C.At(session.View(), sid, C.Writing(chunk))
    modifies session`locals
    ensures Traced(session, t, more) && C.At(session.View(), sid, C.Writing(rest))
    ensures var l, k := old(LineAt(session, sid)), Least(bytes, |chunk|);
      rest == chunk[k..] && LineAt(session, sid) == l.(put := l.put + chunk[..k])
  {
    hide TracedTo, About;
    var k := Least(bytes, |chunk|);
    ghost var before := session.View();
    TraceOn(before, session.frameTx, t, steps, C.WriteSome(sid, k), []);
    assert session.frameTx + [] == session.frameTx;
    more := steps + [D.AtClient(C.WriteSome(sid, k))];
    var l := session.locals[sid];
    rest := chunk[k..];
    session.locals := session.locals[sid := l.(phase := C.Writing(rest), put := l.put + chunk[..k])];
    assert session.View() == C.Do(before, C.WriteSome(sid, k));
  }
}
