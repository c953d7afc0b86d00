/**
 * The task of one public connection as src/server/listener.rs runs it, over the session it shares with the
 * reader. At every await, before and after what is awaited takes effect, the reader may dispatch any frames;
 * `HandlePublicConn` is proved to be a run of the steps of `Server`, so that what is proved of all runs
 * holds of it.
 */
module Listener {
  import opened Bytes
  import opened Frames
  import opened Payloads
  import opened Messages
  import opened Sessions
  import opened Walks
  import opened Forwarding
  import Allocator
  import C = Client
  import D = Delivery
  import S = Server

  /** A task's trace: the texts it works with, and where the session and its frames stood at the beginning. */
  datatype Trace = Trace(texts: Texts, start: S.Server, base: nat)

  /** What the client makes of a frame. */
  function ClientReading(t: Texts): Reading {
    f => ClientReads(t.utf8, t.lossy, f)
  }

  ghost function Beginning(start: S.Server): Walk {
    Walk(start, C.Init(), [], [])
  }

  /** A server state and its queued frames have come from the trace's start by these steps. */
  ghost predicate TracedTo(view: S.Server, frames: seq<Frame>, t: Trace, steps: seq<D.Step>) {
    && Goes(Beginning(t.start), steps)
    && After(Beginning(t.start), steps).server == view
    && ReadsAs(ClientReading(t.texts), frames, t.base, After(Beginning(t.start), steps).down)
  }

  ghost predicate Traced(session: TunnelSession, t: Trace, steps: seq<D.Step>)
    reads session
  {
    TracedTo(session.View(), session.frameTx, t, steps)
  }

  lemma TraceStarts(view: S.Server, frames: seq<Frame>, texts: Texts)
    ensures TracedTo(view, frames, Trace(texts, view, |frames|), [])
  {
    Begins(Beginning(view));
  }

  /** A step of the task that queues what the step system says. */
  lemma TraceOn(view: S.Server, frames: seq<Frame>, t: Trace, steps: seq<D.Step>, a: S.Action, more: seq<Frame>)
    requires TracedTo(view, frames, t, steps) && S.Enabled(view, a)
    requires var e := S.Emits(view, a);
      |more| == |e| <= 1 && (e != [] ==> ClientReads(t.texts.utf8, t.texts.lossy, more[0]) == e[0])
    ensures TracedTo(S.Do(view, a), frames + more, t, steps + [D.AtServer(a)])
  {
    var w, e := After(Beginning(t.start), steps), S.Emits(view, a);
    GoOn(Beginning(t.start), steps, D.AtServer(a));
    hide Goes, After, ClientReads, S.Do, S.Enabled, S.Emits;
    if e == [] {
      assert w.down + e == w.down && frames + more == frames;
    } else {
      ReadsOn(ClientReading(t.texts), frames, t.base, w.down, more[0], e[0]);
      assert more == [more[0]] && e == [e[0]];
    }
  }

  lemma TraceKeepsInv(view: S.Server, frames: seq<Frame>, t: Trace, steps: seq<D.Step>)
    requires TracedTo(view, frames, t, steps) && S.Inv(t.start)
    ensures S.Inv(view)
  {
    KeepsServerInv(Beginning(t.start), steps);
  }

  // ---- The stream as its task sees it ----

  function LineOf(s: S.Server, frames: seq<Frame>, x: U32): Line
    requires x in s.conns
  {
    var c := s.conns[x];
    Line(x in s.streams, S.ReceiverAlive(c.phase), c.queue, c.got, c.put, About(frames, x), false)
  }

  ghost function LineAt(session: TunnelSession, x: U32): Line
    requires x in session.conns
    reads session
  {
    LineOf(session.View(), session.frameTx, x)
  }

  /** A frame from the client, and when the reader takes it. */
  datatype Arrival = Arrival(frame: Frame, now: nat)

  function Hearing(utf8: Utf8, x: U32): (r: Ear<Arrival>)
    ensures r.x == x && r.refuses
  {
    Ear(x, (a: Arrival) => ServerReads(utf8, a.frame), true)
  }

  /** Queueing one more frame shows at the streams that it is about, and at no other. */
  lemma OneMoreFrame(frames: seq<Frame>, f: Frame, x: U32)
    ensures About(frames + [f], x) == if IsAbout(f, x) then About(frames, x) + [f] else About(frames, x)
  {
    AboutOne(frames, f, x);
    assert About(frames, x) + [] == About(frames, x);
  }

  /** A dispatch is to the stream the arrival of its frame. */
  lemma DispatchIsArrival(s: S.Server, frames: seq<Frame>, utf8: Utf8, x: U32, a: Arrival)
    requires s.reader == S.Ready && x in s.conns
    ensures var m := ServerReads(utf8, a.frame);
      var s', r := Dispatched(s, m), Replies(s, m);
      && x in s'.conns && s'.next == s.next
      && s'.conns[x].phase == s.conns[x].phase
      && LineOf(s', frames + (if r == [] then [] else [ReplyOf(r[0])]), x)
         == Arrived(Hearing(utf8, x), LineOf(s, frames, x), a)
  {
    var m := ServerReads(utf8, a.frame);
    assert !m.End? && (m.Data? || m.Close? ==> m.sid < U32_SIZE) by {
      hide ParseTimestamp, ParseStreamOpenAck, ReadStr;
    }
    hide ServerReads;
    var r := Replies(s, m);
    if r == [] {
      assert frames + [] == frames;
    } else {
      OneMoreFrame(frames, ReplyOf(r[0]), x);
    }
  }

  /** And to a pending stream an answer, if it is one. */
  lemma DispatchIsAnswer(s: S.Server, m: Message, x: U32)
    requires s.reader == S.Ready && x in s.conns
    ensures var s' := Dispatched(s, m);
      && x in s'.conns
      && s'.conns[x].answer == (if x in s.pending && m.Ack? && m.sid == x then Some(m.ok) else s.conns[x].answer)
      && (x in s'.pending <==> x in s.pending && !(m.Ack? && m.sid == x))
  {
  }

  // ---- The reader, at an await of the task ----

  /** What the client will read in answer to one dispatched frame. */
  function Answers(s: S.Server, m: Message): seq<Message>
    requires s.reader == S.Ready
  {
    if m.Beat? then [Ignored] else Replies(s, m)
  }

  /** One whole dispatch is a walk: taking the frame, then delivering, refusing or answering. */
  lemma DispatchWalks(start: Walk, steps: seq<D.Step>, m: Message) returns (more: seq<D.Step>)
    requires Goes(start, steps) && After(start, steps).server.reader == S.Ready
    ensures Goes(start, more)
    ensures var w := After(start, steps);
      After(start, more) == w.(server := Dispatched(w.server, m), down := w.down + Answers(w.server, m))
  {
    hide Goes, After;
    var w := After(start, steps);
    GoOn(start, steps, D.AtServer(S.Dispatch(m)));
    more := steps + [D.AtServer(S.Dispatch(m))];
    assert w.down + [] == w.down;
    if S.Receive(w.server, m).reader != S.Ready {
      GoOn(start, more, D.AtServer(S.FinishDispatch(true)));
      more := more + [D.AtServer(S.FinishDispatch(true))];
    } else if m.Beat? {
      GoOn(start, more, D.DownChatter(Ignored));
      more := more + [D.DownChatter(Ignored)];
    }
  }

  lemma AnswersRead(t: Texts, s: S.Server, frame: Frame)
    requires TextsFit(t) && s.reader == S.Ready
    ensures var m := ServerReads(t.utf8, frame);
      var r := Replies(s, m);
      && (r == [] <==> Answers(s, m) == []) && |r| <= 1
      && (r != [] ==> (r[0].Beat? || (r[0].Close? && r[0].sid < U32_SIZE))
                      && [ClientReads(t.utf8, t.lossy, ReplyOf(r[0]))] == Answers(s, m))
  {
    hide ReadStr, ParseStreamOpenAck, ParseTimestamp, ParseStreamOpen, Str;
  }

  method ReaderDispatches(session: TunnelSession, ghost t: Trace, utf8: Utf8, arrival: Arrival,
      ghost steps: seq<D.Step>)
    returns (ghost more: seq<D.Step>)
    requires TextsFit(t.texts) && utf8 == t.texts.utf8 && Traced(session, t, steps)
    modifies session
    ensures Traced(session, t, more)
    ensures session.View() == Dispatched(old(session.View()), ServerReads(utf8, arrival.frame))
    ensures var r := Replies(old(session.View()), ServerReads(utf8, arrival.frame));
      session.frameTx == old(session.frameTx) + if r == [] then [] else [ReplyOf(r[0])]
  {
    hide Goes, After, ClientReads, ServerReads, Dispatched, ReadsAs, Answers, Replies;
    ghost var before := session.View();
    ghost var m := ServerReads(utf8, arrival.frame);
    AnswersRead(t.texts, before, arrival.frame);
    session.DispatchFrame(utf8, arrival.frame, arrival.now);
    more := DispatchWalks(Beginning(t.start), steps, m);
    ghost var queued := After(Beginning(t.start), steps).down;
    ghost var replies := Replies(before, m);
    if replies == [] {
      assert queued + [] == queued;
      assert old(session.frameTx) + [] == old(session.frameTx);
    } else {
      ReadsOn(ClientReading(t.texts), old(session.frameTx), t.base, queued, ReplyOf(replies[0]), Answers(before, m)[0]);
      assert Answers(before, m) == [Answers(before, m)[0]];
    }
  }

  /** What an await can do to the answer of a pending stream: the first one counts. */
  ghost predicate Heard(r: Ear<Arrival>, arrivals: seq<Arrival>, before: S.Server, after: S.Server)
    requires r.x in before.conns && r.x in after.conns
  {
    var first := FirstAnswer(r, arrivals);
    && after.conns[r.x].answer == (if r.x in before.pending && first.Some? then first else before.conns[r.x].answer)
    && (r.x in after.pending <==> r.x in before.pending && first == None)
  }

  /**
   * An await of the task: the reader dispatches what has arrived, and the task finds itself where it was, with
   * its stream as the arrivals leave it.
   */
  method Await(session: TunnelSession, ghost t: Trace, utf8: Utf8, sid: U32, arrivals: seq<Arrival>,
               ghost steps: seq<D.Step>)
    returns (ghost more: seq<D.Step>)
    requires TextsFit(t.texts) && utf8 == t.texts.utf8 && Traced(session, t, steps) && sid in session.conns
    modifies session
    ensures Traced(session, t, more) && sid in session.conns
    ensures session.conns[sid].phase == old(session.conns)[sid].phase
    ensures LineAt(session, sid) == Arrive(Hearing(utf8, sid), old(LineAt(session, sid)), arrivals)
    ensures Heard(Hearing(utf8, sid), arrivals, old(session.View()), session.View())
  {
    hide TracedTo, Dispatched, Arrived, LineOf, Replies, ReplyOf;
    more := steps;
    ghost var r := Hearing(utf8, sid);
    var i := 0;
    assert arrivals[0..] == arrivals;
    while i < |arrivals|
      invariant i <= |arrivals|
      invariant Traced(session, t, more) && sid in session.conns
      invariant session.conns[sid].phase == old(session.conns)[sid].phase
      invariant Arrive(r, LineAt(session, sid), arrivals[i..]) == Arrive(r, old(LineAt(session, sid)), arrivals)
      invariant sid in session.pendingOpens ==>
                  && sid in old(session.pendingOpens)
                  && session.conns[sid].answer == old(session.conns)[sid].answer
                  && FirstAnswer(r, arrivals[i..]) == FirstAnswer(r, arrivals)
      invariant sid !in session.pendingOpens ==>
                  session.conns[sid].answer ==
                  if sid in old(session.pendingOpens) then FirstAnswer(r, arrivals) else old(session.conns)[sid].answer
      invariant sid !in session.pendingOpens && sid in old(session.pendingOpens) ==> FirstAnswer(r, arrivals).Some?
    {
      DispatchIsArrival(session.View(), session.frameTx, utf8, sid, arrivals[i]);
      DispatchIsAnswer(session.View(), ServerReads(utf8, arrivals[i].frame), sid);
      assert arrivals[i..][0] == arrivals[i] && arrivals[i..][1..] == arrivals[i + 1..];
      more := ReaderDispatches(session, t, utf8, arrivals[i], more);
      i := i + 1;
    }
  }

  // ---- The forwarding loop ----

  /**
   * From events and arrivals alone: the stream ends as `Forwarded` says; the STREAM_DATA frames queued carry
   * exactly what the tunnel took of the chunks read, up to the event that ends the loop; and exactly the bytes
   * read are counted.
   */
  method ForwardSessionConn(session: TunnelSession, ghost t: Trace, utf8: Utf8, sid: U32, events: seq<Event<Arrival>>,
                            close: Sending<Arrival>, ghost steps: seq<D.Step>)
    returns (counted: nat, ghost more: seq<D.Step>)
    requires TextsFit(t.texts) && utf8 == t.texts.utf8 && Traced(session, t, steps)
    requires S.At(session.View(), sid, S.Forwarding(None))
    modifies session
    ensures Traced(session, t, more) && S.At(session.View(), sid, S.Unlinking)
    ensures LineAt(session, sid) == Forwarded(Hearing(utf8, sid), old(LineAt(session, sid)), events, close)
    ensures var taken := events[..Turns(Hearing(utf8, sid), old(LineAt(session, sid)), events)];
      && counted == |Flatten(Given(taken))|
      && session.conns[sid].got == old(session.conns)[sid].got + Given(taken)
      && Payload(session.frameTx, sid) == Payload(old(session.frameTx), sid) + Taken(taken)
      && GoesOn(events, |taken|)
  {
    hide TracedTo, LineOf, Course, Turns, Sent, Given, Taken, Payload, GoesOn;
    ghost var r, l, frames := Hearing(utf8, sid), LineAt(session, sid), session.frameTx;
    AliveNow(session, sid);
    PartsOf(session, sid);
    counted, more := Loop(session, t, utf8, sid, events, steps);
    more := SendFirst(session, t, utf8, sid, close, more);
    Totals(session, r, l, frames, events, close);
  }

  /** The select loop until it breaks. */
  method Loop(session: TunnelSession, ghost t: Trace, utf8: Utf8, sid: U32, events: seq<Event<Arrival>>,
              ghost steps: seq<D.Step>)
    returns (counted: nat, ghost more: seq<D.Step>)
    requires TextsFit(t.texts) && utf8 == t.texts.utf8 && Traced(session, t, steps)
    requires S.At(session.View(), sid, S.Forwarding(None))
    modifies session
    ensures Traced(session, t, more) && S.At(session.View(), sid, S.Breaking)
    ensures LineAt(session, sid) == Course(Hearing(utf8, sid), old(LineAt(session, sid)), events)
    ensures counted == |Flatten(Given(events[..Turns(Hearing(utf8, sid), old(LineAt(session, sid)), events)]))|
  {
    hide TracedTo, LineOf, Turn, Given, Room, Hearing;
    more, counted := steps, 0;
    ghost var r, l := Hearing(utf8, sid), LineAt(session, sid);
    NothingCounted();
    assert events[..0] == [] && events[0..] == events;
    var i, ended := 0, false;
    while i < |events| && !ended
      invariant i <= |events|
      invariant Traced(session, t, more)
      invariant S.At(session.View(), sid, if ended then S.Breaking else S.Forwarding(None))
      invariant if ended then LineAt(session, sid) == Course(r, l, events) && i == Turns(r, l, events)
                else Course(r, LineAt(session, sid), events[i..]) == Course(r, l, events)
                     && i + Turns(r, LineAt(session, sid), events[i..]) == Turns(r, l, events)
      invariant counted == |Flatten(Given(events[..i]))|
      decreases |events| - i
    {
      assert events[i..][0] == events[i] && events[i..][1..] == events[i + 1..];
      GivenGrows(events, i);
      var n;
      ended, n, more := Forward(session, t, utf8, sid, events[i], more);
      counted := counted + n;
      i := i + 1;
    }
    if !ended {
      AliveNow(session, sid);
      more := Quiet(session, t, sid, S.Break(sid), S.Breaking, false, more);
    }
  }

  /** The first STREAM_CLOSE, with the reader running around it. */
  method SendFirst(session: TunnelSession, ghost t: Trace, utf8: Utf8, sid: U32, close: Sending<Arrival>,
                   ghost steps: seq<D.Step>)
    returns (ghost more: seq<D.Step>)
    requires TextsFit(t.texts) && utf8 == t.texts.utf8 && Traced(session, t, steps)
    requires S.At(session.View(), sid, S.Breaking)
    modifies session
    ensures Traced(session, t, more) && S.At(session.View(), sid, S.Unlinking)
    ensures LineAt(session, sid)
         == Sent(Hearing(utf8, sid), old(LineAt(session, sid)), close, BuildStreamClose(sid), false)
  {
    hide TracedTo, LineOf, Arrive;
    more := Await(session, t, utf8, sid, close.before, steps);
    more := CloseFirst(session, t, sid, close.taken, more);
    more := Await(session, t, utf8, sid, close.behind, more);
  }

  /** The last one. */
  method SendLast(session: TunnelSession, ghost t: Trace, utf8: Utf8, sid: U32, close: Sending<Arrival>,
                  ghost steps: seq<D.Step>)
    returns (ghost more: seq<D.Step>)
    requires TextsFit(t.texts) && utf8 == t.texts.utf8 && Traced(session, t, steps)
    requires S.At(session.View(), sid, S.Finishing)
    modifies session
    ensures Traced(session, t, more) && S.At(session.View(), sid, S.Finished(true))
    ensures LineAt(session, sid)
         == Sent(Hearing(utf8, sid), old(LineAt(session, sid)), close, BuildStreamClose(sid), false)
  {
    hide TracedTo, LineOf, Arrive;
    more := Await(session, t, utf8, sid, close.before, steps);
    more := CloseLast(session, t, sid, close.taken, more);
    more := Await(session, t, utf8, sid, close.behind, more);
  }

  lemma NothingCounted()
    ensures Given<Arrival>([]) == [] && Flatten<Byte>([]) == []
  {
  }

  lemma PartsOf(session: TunnelSession, sid: U32)
    requires sid in session.conns
    ensures LineAt(session, sid).out == About(session.frameTx, sid)
    ensures LineAt(session, sid).got == session.conns[sid].got
    ensures LineAt(session, sid).queue == session.conns[sid].queue
  {
  }

  lemma GivenGrows(events: seq<Event<Arrival>>, i: nat)
    requires i < |events|
    ensures |Flatten(Given(events[..i + 1]))|
         == |Flatten(Given(events[..i]))| + if events[i].FromSocket? then |events[i].data| else 0
  {
    assert events[..i + 1] == events[..i] + [events[i]];
    GivenAppend(events[..i], [events[i]]);
    FlattenAppend(Given(events[..i]), Given([events[i]]));
    assert [events[i]][1..] == [];
    if events[i].FromSocket? {
      FlattenOne(events[i].data);
    }
  }

  /** What the frames and the histories of the whole session say of the stream. */
  lemma Totals(session: TunnelSession, r: Ear<Arrival>, l: Line, frames: seq<Frame>, events: seq<Event<Arrival>>,
               close: Sending<Arrival>)
    requires r.x in session.conns && l.alive && l.out == About(frames, r.x)
    requires LineAt(session, r.x) == Forwarded(r, l, events, close)
    ensures var n := Turns(r, l, events);
      && session.conns[r.x].got == l.got + Given(events[..n])
      && Payload(session.frameTx, r.x) == Payload(frames, r.x) + Taken(events[..n])
      && GoesOn(events, n)
  {
    hide Course, Turns, Forwarded, Given, Taken, GoesOn;
    CourseSends(r, l, events);
    ForwardedSends(r, l, events, close);
    PayloadOfAbout(session.frameTx, r.x);
    PayloadOfAbout(frames, r.x);
  }

  method CloseFirst(session: TunnelSession, ghost t: Trace, sid: U32, sent: bool, ghost steps: seq<D.Step>)
    returns (ghost more: seq<D.Step>)
    requires Traced(session, t, steps) && S.At(session.View(), sid, S.Breaking)
    modifies session`conns, session`frameTx
    ensures Traced(session, t, more) && S.At(session.View(), sid, S.Unlinking)
    ensures var l := old(LineAt(session, sid));
      LineAt(session, sid) == l.(out := if sent then l.out + [BuildStreamClose(sid)] else l.out, alive := false)
  {
    hide TracedTo, About;
    ghost var a := S.CloseFirst(sid, sent);
    TraceOn(session.View(), session.frameTx, t, steps, a, if sent then [BuildStreamClose(sid)] else []);
    ghost var before := session.View();
    assert session.frameTx + [] == session.frameTx;
    OneMoreFrame(session.frameTx, BuildStreamClose(sid), sid);
    if sent {
      session.frameTx := session.frameTx + [BuildStreamClose(sid)];
    }
    session.conns := session.conns[sid := session.conns[sid].(phase := S.Unlinking)];
    more := steps + [D.AtServer(a)];
    assert session.View() == S.Do(before, a);
  }

  /**
   * One turn of the select loop. `n` bytes are counted as downstream traffic, sent on or not. What was read goes
   * on exactly if the tunnel takes it, and only a tunnel that does not, the end of the socket, a chunk that could
   * not be written to its end or a closed and empty channel ends the loop.
   */
  method Forward(session: TunnelSession, ghost t: Trace, utf8: Utf8, sid: U32, event: Event<Arrival>,
                 ghost steps: seq<D.Step>)
    returns (ended: bool, n: nat, ghost more: seq<D.Step>)
    requires TextsFit(t.texts) && utf8 == t.texts.utf8 && Traced(session, t, steps)
    requires S.At(session.View(), sid, S.Forwarding(None))
    modifies session
    ensures Traced(session, t, more)
    ensures S.At(session.View(), sid, if ended then S.Breaking else S.Forwarding(None))
    ensures (LineAt(session, sid), ended) == Turn(Hearing(utf8, sid), old(LineAt(session, sid)), event)
    ensures n == if event.FromSocket? then |event.data| else 0
    ensures event.FromSocket? ==> (ended <==> !event.sent)
    ensures event.SocketEnds? ==> ended
    ensures event.Waiting? ==> !ended
    ensures event.FromChannel? && old(session.conns)[sid].queue != [] ==>
              var chunk := old(session.conns)[sid].queue[0];
              && (ended <==> Room(event.progress) < |chunk|)
              && session.conns[sid].put == old(session.conns)[sid].put + chunk[..Least(Room(event.progress), |chunk|)]
  {
    hide TracedTo, Arrive, Written, About;
    ghost var r, l := Hearing(utf8, sid), LineAt(session, sid);
    TurnIs(r, l, event);
    hide Payload, Given, Taken;
    n, more, ended := 0, steps, false;
    if event.Waiting? {
      more := Await(session, t, utf8, sid, event.arrivals, more);
    } else if event.FromSocket? {
      n := |event.data|;
      more := ReadSocket(session, t, sid, event.data, more);
      more := Await(session, t, utf8, sid, event.arrivals, more);
      ended := !event.sent;
      more := SendOn(session, t, sid, event.data, event.sent, more);
    } else if event.FromChannel? && session.conns[sid].queue != [] {
      ended, more := WriteChunk(session, t, utf8, sid, event.progress, more);
    } else if !(event.FromChannel? && sid in session.streams) {
      ended := true;
      more := Quiet(session, t, sid, S.Break(sid), S.Breaking, false, more);
    }
  }

  method ReadSocket(session: TunnelSession, ghost t: Trace, sid: U32, data: Chunk, ghost steps: seq<D.Step>)
    returns (ghost more: seq<D.Step>)
    requires Traced(session, t, steps) && S.At(session.View(), sid, S.Forwarding(None))
    modifies session`conns
    ensures Traced(session, t, more) && S.At(session.View(), sid, S.Forwarding(Some(data)))
    ensures var l := old(LineAt(session, sid)); LineAt(session, sid) == l.(got := l.got + [data])
  {
    hide TracedTo, About;
    ghost var before := session.View();
    TraceOn(before, session.frameTx, t, steps, S.ReadPublic(sid, data), []);
    assert session.frameTx + [] == session.frameTx;
    more := steps + [D.AtServer(S.ReadPublic(sid, data))];
    var c := session.conns[sid];
    session.conns := session.conns[sid := c.(phase := S.Forwarding(Some(data)), got := c.got + [data])];
    assert session.View() == S.Do(before, S.ReadPublic(sid, data));
  }

  /** A move of the task that queues nothing: on to `phase`, perhaps out of the pending table. */
  method Quiet(session: TunnelSession, ghost t: Trace, sid: U32, ghost a: S.Action, phase: S.Phase, unpend: bool,
               ghost steps: seq<D.Step>)
    returns (ghost more: seq<D.Step>)
    requires Traced(session, t, steps) && sid in session.conns && S.Enabled(session.View(), a)
    requires S.Emits(session.View(), a) == []
    requires var s := session.View();
      S.Do(s, a) == S.SetPhase(s, sid, phase).(pending := if unpend then s.pending - {sid} else s.pending)
    modifies session`conns, session`pendingOpens
    ensures Traced(session, t, more) && session.View() == S.Do(old(session.View()), a)
    ensures sid in session.conns && session.conns[sid] == old(session.conns)[sid].(phase := phase)
    ensures LineAt(session, sid) == old(LineAt(session, sid)).(alive := S.ReceiverAlive(phase))
  {
    hide TracedTo, About;
    TraceOn(session.View(), session.frameTx, t, steps, a, []);
    assert session.frameTx + [] == session.frameTx;
    more := steps + [D.AtServer(a)];
    session.conns := session.conns[sid := session.conns[sid].(phase := phase)];
    if unpend {
      session.pendingOpens := session.pendingOpens - {sid};
    }
  }

  /** The chunk in hand is queued for the client, or the tunnel is gone. */
  method SendOn(session: TunnelSession, ghost t: Trace, sid: U32, data: Chunk, sent: bool, ghost steps: seq<D.Step>)
    returns (ghost more: seq<D.Step>)
    requires Traced(session, t, steps) && S.At(session.View(), sid, S.Forwarding(Some(data)))
    modifies session`conns, session`frameTx
    ensures Traced(session, t, more)
    ensures S.At(session.View(), sid, if sent then S.Forwarding(None) else S.Breaking)
    ensures session.frameTx == old(session.frameTx) + if sent then [BuildStreamData(sid, data)] else []
    ensures var l := old(LineAt(session, sid));
      LineAt(session, sid) == if sent then l.(out := l.out + [BuildStreamData(sid, data)]) else l
  {
    hide TracedTo, About;
    ghost var a := if sent then S.Forward(sid) else S.ForwardFails(sid);
    ghost var before := session.View();
    TraceOn(before, session.frameTx, t, steps, a, if sent then [BuildStreamData(sid, data)] else []);
    assert session.frameTx + [] == session.frameTx;
    OneMoreFrame(session.frameTx, BuildStreamData(sid, data), sid);
    more := steps + [D.AtServer(a)];
    var phase := if sent then S.Forwarding(None) else S.Breaking;
    session.conns := session.conns[sid := session.conns[sid].(phase := phase)];
    if sent {
      session.frameTx := session.frameTx + [BuildStreamData(sid, data)];
    }
    assert session.View() == S.Do(before, a);
  }

  /** A chunk out of the channel, written piece by piece with the reader running in between. */
  method WriteChunk(session: TunnelSession, ghost t: Trace, utf8: Utf8, sid: U32, progress: seq<Progress<Arrival>>,
                    ghost steps: seq<D.Step>)
    returns (ended: bool, ghost more: seq<D.Step>)
    requires TextsFit(t.texts) && utf8 == t.texts.utf8 && Traced(session, t, steps)
    requires S.At(session.View(), sid, S.Forwarding(None)) && session.conns[sid].queue != []
    modifies session
    ensures Traced(session, t, more)
    ensures S.At(session.View(), sid, if ended then S.Breaking else S.Forwarding(None))
    ensures var l := old(LineAt(session, sid));
      var (m, rest) := Written(Hearing(utf8, sid), l.(queue := l.queue[1..]), l.queue[0], progress);
      LineAt(session, sid) == m && (ended <==> rest != [])
  {
    hide TracedTo, Written, LineOf, Hearing;
    PartsOf(session, sid);
    var rest;
    rest, more := TakeChunk(session, t, sid, steps);
    rest, more := WritePieces(session, t, utf8, sid, rest, progress, more);
    ended := rest != [];
    AliveNow(session, sid);
    if ended {
      more := Quiet(session, t, sid, S.WriteFails(sid), S.Breaking, false, more);
    } else {
      more := Quiet(session, t, sid, S.WriteDone(sid), S.Forwarding(None), false, more);
    }
  }

  method WritePieces(session: TunnelSession, ghost t: Trace, utf8: Utf8, sid: U32, chunk: Chunk,
                     progress: seq<Progress<Arrival>>, ghost steps: seq<D.Step>)
    returns (rest: Chunk, ghost more: seq<D.Step>)
    requires TextsFit(t.texts) && utf8 == t.texts.utf8 && Traced(session, t, steps)
    requires S.At(session.View(), sid, S.Writing(chunk))
    modifies session
    ensures Traced(session, t, more) && S.At(session.View(), sid, S.Writing(rest))
    ensures (LineAt(session, sid), rest) == Written(Hearing(utf8, sid), old(LineAt(session, sid)), chunk, progress)
  {
    hide TracedTo, Arrive, LineOf, Hearing;
    ghost var r := Hearing(utf8, sid);
    rest, more := chunk, steps;
    ghost var whole := Written(r, LineAt(session, sid), chunk, progress);
    var i := 0;
    assert progress[0..] == progress;
    while i < |progress|
      invariant i <= |progress|
      invariant Traced(session, t, more) && S.At(session.View(), sid, S.Writing(rest))
      invariant Written(r, LineAt(session, sid), rest, progress[i..]) == whole
    {
      assert progress[i..][0] == progress[i] && progress[i..][1..] == progress[i + 1..];
      rest, more := WriteSome(session, t, sid, rest, progress[i].bytes, more);
      more := Await(session, t, utf8, sid, progress[i].arrivals, more);
      i := i + 1;
    }
  }

  lemma AliveNow(session: TunnelSession, sid: U32)
    requires sid in session.conns && S.ReceiverAlive(session.conns[sid].phase)
    ensures LineAt(session, sid).alive && LineAt(session, sid) == LineAt(session, sid).(alive := true)
  {
  }

  method TakeChunk(session: TunnelSession, ghost t: Trace, sid: U32, ghost steps: seq<D.Step>)
    returns (chunk: Chunk, ghost more: seq<D.Step>)
    requires Traced(session, t, steps) && S.At(session.View(), sid, S.Forwarding(None))
        && session.conns[sid].queue != []
    modifies session`conns
    ensures Traced(session, t, more) && S.At(session.View(), sid, S.Writing(chunk))
    ensures var l := old(LineAt(session, sid));
      l.queue != [] && chunk == l.queue[0] && LineAt(session, sid) == l.(queue := l.queue[1..])
  {
    hide TracedTo, About;
    ghost var before := session.View();
    TraceOn(before, session.frameTx, t, steps, S.TakeChunk(sid), []);
    assert session.frameTx + [] == session.frameTx;
    more := steps + [D.AtServer(S.TakeChunk(sid))];
    var c := session.conns[sid];
    chunk := c.queue[0];
    session.conns := session.conns[sid := c.(phase := S.Writing(chunk), queue := c.queue[1..])];
    assert session.View() == S.Do(before, S.TakeChunk(sid));
  }

  method WriteSome(session: TunnelSession, ghost t: Trace, sid: U32, chunk: Chunk, bytes: nat, ghost steps: seq<D.Step>)
    returns (rest: Chunk, ghost more: seq<D.Step>)
    requires Traced(session, t, steps) && S.At(session.View(), sid, S.Writing(chunk))
    modifies session`conns
    ensures Traced(session, t, more) && S.At(session.View(), sid, S.Writing(rest))
    ensures var l, k := old(LineAt(session, sid)), Least(bytes, |chunk|);
      rest == chunk[k..] && LineAt(session, sid) == l.(put := l.put + chunk[..k])
  {
    hide TracedTo, About;
    var k := Least(bytes, |chunk|);
    ghost var before := session.View();
    TraceOn(before, session.frameTx, t, steps, S.WriteSome(sid, k), []);
    assert session.frameTx + [] == session.frameTx;
    more := steps + [D.AtServer(S.WriteSome(sid, k))];
    var c := session.conns[sid];
    rest := chunk[k..];
    session.conns := session.conns[sid := c.(phase := S.Writing(rest), put := c.put + chunk[..k])];
    assert session.View() == S.Do(before, S.WriteSome(sid, k));
  }

  // ---- One public connection from beginning to end ----

  datatype Outcome = Exhausted | TunnelClosed | Refused | Served

  /** An id that ends is in none of the tables, and was served only after an accepting answer. */
  lemma FinishedIsOut(s: S.Server, x: Sid, served: bool)
    requires S.Inv(s) && S.At(s, x, S.Finished(served))
    ensures x !in s.pending && x !in s.streams && x !in s.udp
    ensures served ==> s.conns[x].answer == Some(true)
  {
    assert S.InvAt(s, x);
  }

  /** Nobody has seen the stream yet. */
  function Unborn(frames: seq<Frame>, x: U32): Line {
    Line(false, false, [], [], [], About(frames, x), false)
  }

  /** The next id, entered into the pending table before anybody can answer. */
  method Begin(session: TunnelSession, ghost t: Trace)
    returns (sid: U32, ghost steps: seq<D.Step>)
    requires session.next <= Allocator.MAX_STREAMS && S.Inv(session.View())
    requires t.start == session.View() && t.base == |session.frameTx|
    modifies session`next, session`conns, session`pendingOpens
    ensures sid == old(session.next) && S.At(session.View(), sid, S.Pended)
    ensures Traced(session, t, steps)
    ensures LineAt(session, sid) == Unborn(session.frameTx, sid)
    ensures sid in session.pendingOpens && session.conns[sid].answer == None
  {
    hide TracedTo, About;
    ghost var start, frames := session.View(), session.frameTx;
    assert S.InvAt(start, start.next);
    hide S.Inv;
    sid := session.next;
    TraceStarts(start, frames, t.texts);
    assert t == Trace(t.texts, start, |frames|);
    TraceOn(start, frames, t, [], S.Allocate, []);
    ghost var reserved := S.Do(start, S.Allocate);
    TraceOn(reserved, frames + [], t, [] + [D.AtServer(S.Allocate)], S.Pend(sid), []);
    steps := [] + [D.AtServer(S.Allocate)] + [D.AtServer(S.Pend(sid))];
    assert frames + [] + [] == frames;
    session.next := session.next + 2;
    session.conns := session.conns[sid := S.Conn(S.Pended, None, [], [], [], 0)];
    session.pendingOpens := session.pendingOpens + {sid};
    assert session.View() == S.Do(reserved, S.Pend(sid));
  }

  lemma OpenIsRead(texts: Texts, sid: U32)
    requires TextsFit(texts)
    ensures var f := BuildStreamOpen(sid, texts.target, texts.peer);
      ClientReads(texts.utf8, texts.lossy, f) == Open(sid) && IsAbout(f, sid)
  {
    FramesMeanWhatTheyWereBuiltFor(texts.utf8, texts.lossy, sid, true, [], texts.target, texts.peer, 0);
  }

  method SendOpen(session: TunnelSession, ghost t: Trace, texts: Texts, sid: U32, ghost steps: seq<D.Step>)
    returns (ghost more: seq<D.Step>)
    requires TextsFit(texts) && texts == t.texts && Traced(session, t, steps) && S.At(session.View(), sid, S.Pended)
    modifies session`conns, session`frameTx
    ensures Traced(session, t, more) && S.At(session.View(), sid, S.Waiting)
    ensures session.frameTx == old(session.frameTx) + [BuildStreamOpen(sid, texts.target, texts.peer)]
    ensures var l := old(LineAt(session, sid));
      LineAt(session, sid) == l.(out := l.out + [BuildStreamOpen(sid, texts.target, texts.peer)])
    ensures session.conns[sid].answer == old(session.conns)[sid].answer
  {
    hide TracedTo, ClientReads, About, BuildStreamOpen;
    OpenIsRead(texts, sid);
    ghost var before := session.View();
    TraceOn(before, session.frameTx, t, steps, S.SendOpen(sid), [BuildStreamOpen(sid, texts.target, texts.peer)]);
    OneMoreFrame(session.frameTx, BuildStreamOpen(sid, texts.target, texts.peer), sid);
    more := steps + [D.AtServer(S.SendOpen(sid))];
    session.frameTx := session.frameTx + [BuildStreamOpen(sid, texts.target, texts.peer)];
    session.conns := session.conns[sid := session.conns[sid].(phase := S.Waiting)];
    assert session.View() == S.Do(before, S.SendOpen(sid));
  }

  /** Waiting for the answer, or for the timeout, while the reader runs: accepted exactly if an answer says so. */
  method AwaitAnswer(session: TunnelSession, ghost t: Trace, utf8: Utf8, sid: U32, arrivals: seq<Arrival>,
                     ghost steps: seq<D.Step>)
    returns (ok: bool, ghost more: seq<D.Step>)
    requires TextsFit(t.texts) && utf8 == t.texts.utf8 && Traced(session, t, steps)
    requires S.At(session.View(), sid, S.Waiting)
    modifies session
    ensures Traced(session, t, more) && S.At(session.View(), sid, S.Resolved(ok))
    ensures ok <==> session.conns[sid].answer == Some(true)
    ensures Heard(Hearing(utf8, sid), arrivals, old(session.View()), session.View())
    ensures LineAt(session, sid) == Arrive(Hearing(utf8, sid), old(LineAt(session, sid)), arrivals)
  {
    hide TracedTo, Arrive, LineOf;
    more := Await(session, t, utf8, sid, arrivals, steps);
    var answer := session.conns[sid].answer;
    ok := answer == Some(true);
    ghost var a := if answer.Some? then S.Resolve(sid) else S.TimeOut(sid);
    StillDead(session, sid);
    more := Quiet(session, t, sid, a, S.Resolved(ok), false, more);
  }

  /** Into the stream table, the forwarding loop, and out of the table again. */
  method Serve(session: TunnelSession, ghost t: Trace, utf8: Utf8, sid: U32, events: seq<Event<Arrival>>,
               close: Sending<Arrival>, last: Sending<Arrival>, ghost steps: seq<D.Step>)
    returns (ghost more: seq<D.Step>)
    requires TextsFit(t.texts) && utf8 == t.texts.utf8 && Traced(session, t, steps)
    requires S.At(session.View(), sid, S.Accepted) && S.Inv(t.start)
    modifies session
    ensures Traced(session, t, more) && S.At(session.View(), sid, S.Finished(true))
    ensures LineAt(session, sid) == Attended(Hearing(utf8, sid), old(LineAt(session, sid)), events, close, last)
    ensures var l, r := old(LineAt(session, sid)).(listed := true, alive := true), Hearing(utf8, sid);
      Payload(session.frameTx, sid) == Payload(old(session.frameTx), sid) + Taken(events[..Turns(r, l, events)])
  {
    hide TracedTo, S.Inv, About, Payload, Taken, Forwarded, Turns, Given, GoesOn, Sent, Hearing;
    ghost var r := Hearing(utf8, sid);
    more := Link(session, t, sid, steps);
    hide LineOf;
    var counted;
    counted, more := ForwardSessionConn(session, t, utf8, sid, events, close, more);
    PartsOf(session, sid);
    more := Unlink(session, t, sid, more);
    ghost var l, frames := LineAt(session, sid), session.frameTx;
    more := SendLast(session, t, utf8, sid, last, more);
    CarriesNoMore(session, r, l, frames, last);
  }

  method Link(session: TunnelSession, ghost t: Trace, sid: U32, ghost steps: seq<D.Step>)
    returns (ghost more: seq<D.Step>)
    requires Traced(session, t, steps) && S.At(session.View(), sid, S.Accepted)
    modifies session`conns, session`streams
    ensures Traced(session, t, more) && S.At(session.View(), sid, S.Forwarding(None))
    ensures LineAt(session, sid) == old(LineAt(session, sid)).(listed := true, alive := true)
  {
    hide TracedTo, About;
    ghost var before := session.View();
    TraceOn(before, session.frameTx, t, steps, S.Link(sid), []);
    assert session.frameTx + [] == session.frameTx;
    more := steps + [D.AtServer(S.Link(sid))];
    session.streams := session.streams + {sid};
    session.conns := session.conns[sid := session.conns[sid].(phase := S.Forwarding(None))];
    assert session.View() == S.Do(before, S.Link(sid));
  }

  method Unlink(session: TunnelSession, ghost t: Trace, sid: U32, ghost steps: seq<D.Step>)
    returns (ghost more: seq<D.Step>)
    requires Traced(session, t, steps) && S.At(session.View(), sid, S.Unlinking)
    modifies session`conns, session`streams
    ensures Traced(session, t, more) && S.At(session.View(), sid, S.Finishing)
    ensures LineAt(session, sid) == old(LineAt(session, sid)).(listed := false, alive := false)
  {
    hide TracedTo, About;
    ghost var before := session.View();
    TraceOn(before, session.frameTx, t, steps, S.Unlink(sid), []);
    assert session.frameTx + [] == session.frameTx;
    more := steps + [D.AtServer(S.Unlink(sid))];
    session.streams := session.streams - {sid};
    session.conns := session.conns[sid := session.conns[sid].(phase := S.Finishing)];
    assert session.View() == S.Do(before, S.Unlink(sid));
  }

  method CloseLast(session: TunnelSession, ghost t: Trace, sid: U32, sent: bool, ghost steps: seq<D.Step>)
    returns (ghost more: seq<D.Step>)
    requires Traced(session, t, steps) && S.At(session.View(), sid, S.Finishing)
    modifies session`conns, session`frameTx
    ensures Traced(session, t, more) && S.At(session.View(), sid, S.Finished(true))
    ensures var l := old(LineAt(session, sid));
      LineAt(session, sid) == l.(out := if sent then l.out + [BuildStreamClose(sid)] else l.out, alive := false)
  {
    hide TracedTo, About;
    ghost var a, before := S.CloseLast(sid, sent), session.View();
    TraceOn(before, session.frameTx, t, steps, a, if sent then [BuildStreamClose(sid)] else []);
    assert session.frameTx + [] == session.frameTx;
    OneMoreFrame(session.frameTx, BuildStreamClose(sid), sid);
    more := steps + [D.AtServer(a)];
    if sent {
      session.frameTx := session.frameTx + [BuildStreamClose(sid)];
    }
    session.conns := session.conns[sid := session.conns[sid].(phase := S.Finished(true))];
    assert session.View() == S.Do(before, a);
  }

  /** The last STREAM_CLOSE and what arrives around it add no data. */
  lemma CarriesNoMore(session: TunnelSession, r: Ear<Arrival>, l: Line, frames: seq<Frame>, last: Sending<Arrival>)
    requires r.x in session.conns && LineAt(session, r.x) == Sent(r, l, last, BuildStreamClose(r.x), false)
    requires l.out == About(frames, r.x)
    ensures Payload(session.frameTx, r.x) == Payload(frames, r.x)
  {
    SentCarriesNothing(r, l, last, BuildStreamClose(r.x), false);
    hide Sent, Payload;
    PayloadOfAbout(session.frameTx, r.x);
    PayloadOfAbout(frames, r.x);
  }

  /** The id, STREAM_OPEN and the answer to it. */
  method Ask(session: TunnelSession, ghost t: Trace, texts: Texts, open: Sending<Arrival>)
    returns (sid: U32, ok: bool, ghost steps: seq<D.Step>)
    requires session.next <= Allocator.MAX_STREAMS && S.Inv(session.View()) && TextsFit(texts) && texts == t.texts
    requires t.start == session.View() && t.base == |session.frameTx|
    modifies session
    ensures sid == old(session.next) && Traced(session, t, steps)
    ensures S.At(session.View(), sid, if ok then S.Accepted else S.Finished(false))
    ensures ok <==> Admitted(Hearing(texts.utf8, sid), open)
    ensures LineAt(session, sid)
         == Asked(Hearing(texts.utf8, sid), Unborn(old(session.frameTx), sid), texts.target, texts.peer, open)
  {
    hide TracedTo, S.Inv, LineOf, Arrive, FirstAnswer, Hearing, About, Unborn;
    sid, steps := Announce(session, t, texts.utf8, open.before);
    FirstAnswerOf(Hearing(texts.utf8, sid), open.before, open.behind);
    StillDead(session, sid);
    if !open.taken {
      steps := Quiet(session, t, sid, S.OpenFails(sid), S.Finished(false), true, steps);
      ok := false;
      return;
    }
    steps := SendOpen(session, t, texts, sid, steps);
    ok, steps := AwaitAnswer(session, t, texts.utf8, sid, open.behind, steps);
    StillDead(session, sid);
    steps := Quiet(session, t, sid, S.Unpend(sid), if ok then S.Accepted else S.Finished(false), true, steps);
  }

  /** The id is pending, and what arrives before STREAM_OPEN is taken may already answer it. */
  method Announce(session: TunnelSession, ghost t: Trace, utf8: Utf8, before: seq<Arrival>)
    returns (sid: U32, ghost steps: seq<D.Step>)
    requires session.next <= Allocator.MAX_STREAMS && S.Inv(session.View())
    requires TextsFit(t.texts) && utf8 == t.texts.utf8
    requires t.start == session.View() && t.base == |session.frameTx|
    modifies session
    ensures sid == old(session.next) && Traced(session, t, steps) && S.At(session.View(), sid, S.Pended)
    ensures LineAt(session, sid) == Arrive(Hearing(utf8, sid), Unborn(old(session.frameTx), sid), before)
    ensures session.conns[sid].answer == FirstAnswer(Hearing(utf8, sid), before)
    ensures sid in session.pendingOpens <==> FirstAnswer(Hearing(utf8, sid), before) == None
  {
    hide TracedTo, S.Inv, LineOf, Arrive, FirstAnswer, Hearing, Unborn;
    sid, steps := Begin(session, t);
    steps := Await(session, t, utf8, sid, before, steps);
  }

  lemma StillDead(session: TunnelSession, sid: U32)
    requires sid in session.conns && !S.ReceiverAlive(session.conns[sid].phase)
    ensures LineAt(session, sid).(alive := false) == LineAt(session, sid)
  {
  }

  /**
   * Whatever the reader dispatches at any await, and wherever the tunnel or the socket breaks, the task is a
   * run of the step system, and its stream ends as `Connection` tells from what came in: it is served if and
   * only if its STREAM_OPEN went out and the first answer to it that arrives accepts, and then its STREAM_DATA
   * frames carry what the tunnel took of what was read. In the end its id is in no table.
   */
  method HandlePublicConn(session: TunnelSession, texts: Texts, open: Sending<Arrival>,
                          events: seq<Event<Arrival>>, close: Sending<Arrival>, last: Sending<Arrival>)
    returns (outcome: Outcome, sid: U32, ghost steps: seq<D.Step>)
    requires TextsFit(texts) && S.Inv(session.View())
    modifies session
    ensures Traced(session, Trace(texts, old(session.View()), |old(session.frameTx)|), steps)
    ensures outcome == Exhausted <==> old(session.next) > Allocator.MAX_STREAMS
    ensures outcome == Exhausted ==> session.View() == old(session.View()) && session.frameTx == old(session.frameTx)
    ensures outcome != Exhausted ==>
              && sid == old(session.next) && S.At(session.View(), sid, S.Finished(outcome == Served))
              && sid !in session.pendingOpens && sid !in session.streams
              && (outcome == TunnelClosed <==> !open.taken)
              && (outcome == Served ==> session.conns[sid].answer == Some(true))
              && (outcome == Served <==> Admitted(Hearing(texts.utf8, sid), open))
              && LineAt(session, sid) == Connection(Hearing(texts.utf8, sid), Unborn(old(session.frameTx), sid),
                                                    texts.target, texts.peer, open, events, close, last)
    ensures outcome == Served ==>
              var r := Hearing(texts.utf8, sid);
              var l := Asked(r, Unborn(old(session.frameTx), sid), texts.target, texts.peer, open);
              var turns := Turns(r, l.(listed := true, alive := true), events);
              Payload(session.frameTx, sid) == Payload(old(session.frameTx), sid) + Taken(events[..turns])
  {
    hide TracedTo, S.Inv, LineOf, Admitted, Asked, Attended, Unborn, Payload, Taken, Turns, Hearing;
    ghost var t := Trace(texts, session.View(), |session.frameTx|);
    if session.next > Allocator.MAX_STREAMS {
      TraceStarts(session.View(), session.frameTx, texts);
      return Exhausted, 0, [];
    }
    var ok;
    sid, ok, steps := Ask(session, t, texts, open);
    AdmittedIsTaken(texts.utf8, sid, open);
    AskingCarriesNothing(session, texts, sid, old(session.frameTx), open);
    if ok {
      steps := Serve(session, t, texts.utf8, sid, events, close, last, steps);
    }
    Ends(session, t, sid, ok, steps);
    outcome := if ok then Served else if open.taken then Refused else TunnelClosed;
  }

  lemma AskingCarriesNothing(session: TunnelSession, texts: Texts, sid: U32, frames: seq<Frame>, open: Sending<Arrival>)
    requires sid in session.conns
    requires LineAt(session, sid)
          == Asked(Hearing(texts.utf8, sid), Unborn(frames, sid), texts.target, texts.peer, open)
    ensures Payload(session.frameTx, sid) == Payload(frames, sid)
  {
    PartsOf(session, sid);
    PayloadOfAbout(session.frameTx, sid);
    PayloadOfAbout(frames, sid);
    AskedCarriesNothing(Hearing(texts.utf8, sid), Unborn(frames, sid), texts.target, texts.peer, open);
  }

  lemma AdmittedIsTaken(utf8: Utf8, sid: U32, open: Sending<Arrival>)
    ensures Admitted(Hearing(utf8, sid), open) ==> open.taken
  {
  }

  lemma Ends(session: TunnelSession, t: Trace, sid: Sid, served: bool, steps: seq<D.Step>)
    requires S.Inv(t.start) && Traced(session, t, steps) && S.At(session.View(), sid, S.Finished(served))
    ensures sid !in session.pendingOpens && sid !in session.streams
    ensures served ==> session.conns[sid].answer == Some(true)
  {
    TraceKeepsInv(session.View(), session.frameTx, t, steps);
    FinishedIsOut(session.View(), sid, served);
  }
}
