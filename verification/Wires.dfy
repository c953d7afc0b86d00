/**
 * Both layers at once: the two ends of `Delivery`, joined by byte streams instead of channels of frames. A
 * task queues frames, a writer pads and encodes them one by one, the network carries any number of bytes at
 * a time, and a reader takes a frame when its buffer holds a whole one. What `Delivery` proves of streams
 * then holds of the bytes that go over the wires.
 */
module Wires {
  import opened Bytes
  import opened Frames
  import opened Payloads
  import opened Messages
  import opened Streaming
  import C = Client
  import D = Delivery
  import S = Server

  /** What one read of a socket returns at most. */
  const SOCK_READ_BUF: nat := 32768

  /** One direction. */
  datatype Pipe = Pipe(
    queue: seq<Frame>,      // the writer's channel
    wire: seq<Byte>,        // written and on the way
    buf: seq<Byte>,         // the reader's buffer
    flight: seq<Frame>)     // history: the frames written and not taken yet, with their padding

  datatype System = System(server: S.Server, client: C.Client, down: Pipe, up: Pipe)

  datatype Step =
    | ServerTask(sa: S.Action)
    | ServerTakes
    | ClientTask(ca: C.Action)
    | ClientTakes
    | DownChatter(f: Frame)
    | UpChatter(f: Frame)
    | WriteDown(padding: seq<Byte>)
    | WriteUp(padding: seq<Byte>)
    | CarryDown(k: nat)
    | CarryUp(k: nat)

  const EMPTY: Pipe := Pipe([], [], [], [])

  function Init(): System {
    System(S.Init(), C.Init(), EMPTY, EMPTY)
  }

  /** The frame that is built for a message of the server's tasks. */
  function DownFrame(t: Texts, m: Message): Frame
    requires Sendable(m)
  {
    if m.Open? then BuildStreamOpen(m.sid, t.target, t.peer)
    else if m.Data? then BuildStreamData(m.sid, m.data)
    else BuildStreamClose(m.sid)
  }

  function UpFrame(m: Message): Frame
    requires Sendable(m)
  {
    if m.Ack? then BuildStreamOpenAck(m.sid, m.ok)
    else if m.Data? then BuildStreamData(m.sid, m.data)
    else BuildStreamClose(m.sid)
  }

  /** A message about a stream, whose id and data fit a frame. */
  predicate Sendable(m: Message) {
    (m.Open? || m.Ack? || m.Data? || m.Close?) && m.sid < U32_SIZE && (m.Data? ==> |m.data| <= SOCK_READ_BUF)
  }

  function DownFrames(t: Texts, e: seq<Message>): seq<Frame> {
    if e != [] && Sendable(e[0]) then [DownFrame(t, e[0])] else []
  }

  function UpFrames(e: seq<Message>): seq<Frame> {
    if e != [] && Sendable(e[0]) then [UpFrame(e[0])] else []
  }

  predicate CanWrite(p: Pipe, padding: seq<Byte>) {
    p.queue != [] && |padding| < U16_SIZE
  }

  function Written(p: Pipe, padding: seq<Byte>): Pipe
    requires CanWrite(p, padding)
  {
    var f := p.queue[0].(padding := padding);
    p.(queue := p.queue[1..], wire := p.wire + Encode(f), flight := p.flight + [f])
  }

  function Carried(p: Pipe, k: nat): Pipe
    requires k <= |p.wire|
  {
    p.(wire := p.wire[k..], buf := p.buf + p.wire[..k])
  }

  predicate CanTake(p: Pipe) {
    Decode(p.buf).Got?
  }

  function Taken(p: Pipe): Pipe
    requires CanTake(p)
  {
    p.(buf := p.buf[Decode(p.buf).consumed..], flight := if p.flight == [] then [] else p.flight[1..])
  }

  /** What the reader of a pipe makes of a frame: the client downwards, the server upwards. */
  function Read(t: Texts, down: bool, f: Frame): Message {
    if down then ClientReads(t.utf8, t.lossy, f) else ServerReads(t.utf8, f)
  }

  predicate Enabled(t: Texts, s: System, step: Step) {
    match step
    case ServerTask(a) =>
      S.Enabled(s.server, a) && !a.Dispatch? && (a.ReadPublic? ==> |a.data| <= SOCK_READ_BUF)
    case ServerTakes => CanTake(s.up) && s.server.reader == S.Ready
    case ClientTask(a) =>
      C.Enabled(s.client, a) && !a.Dispatch? && (a.ReadLocal? ==> |a.data| <= SOCK_READ_BUF)
    case ClientTakes => CanTake(s.down) && s.client.reader == C.Ready
    case DownChatter(f) => Encodable(f) && D.IsChatter(Read(t, true, f))
    case UpChatter(f) => Encodable(f) && D.IsChatter(Read(t, false, f))
    case WriteDown(padding) => CanWrite(s.down, padding)
    case WriteUp(padding) => CanWrite(s.up, padding)
    case CarryDown(k) => k <= |s.down.wire|
    case CarryUp(k) => k <= |s.up.wire|
  }

  function Queued(p: Pipe, frames: seq<Frame>): Pipe {
    p.(queue := p.queue + frames)
  }

  function Do(t: Texts, s: System, step: Step): System
    requires Enabled(t, s, step)
  {
    match step
    case ServerTask(a) =>
      s.(server := S.Do(s.server, a), down := Queued(s.down, DownFrames(t, S.Emits(s.server, a))))
    case ServerTakes =>
      s.(server := S.Do(s.server, S.Dispatch(Read(t, false, Decode(s.up.buf).frame))), up := Taken(s.up))
    case ClientTask(a) =>
      s.(client := C.Do(s.client, a), up := Queued(s.up, UpFrames(C.Emits(s.client, a))))
    case ClientTakes =>
      s.(client := C.Do(s.client, C.Dispatch(Read(t, true, Decode(s.down.buf).frame))), down := Taken(s.down))
    case DownChatter(f) => s.(down := Queued(s.down, [f]))
    case UpChatter(f) => s.(up := Queued(s.up, [f]))
    case WriteDown(padding) => s.(down := Written(s.down, padding))
    case WriteUp(padding) => s.(up := Written(s.up, padding))
    case CarryDown(k) => s.(down := Carried(s.down, k))
    case CarryUp(k) => s.(up := Carried(s.up, k))
  }

  // ---- One pipe ----

  /** The bytes in the buffer and on the way are the encodings of the frames not taken yet. */
  ghost predicate PipeInv(p: Pipe) {
    && p.buf + p.wire == Wire(p.flight)
    && (forall i :: 0 <= i < |p.flight| ==> Encodable(p.flight[i]))
    && forall i :: 0 <= i < |p.queue| ==> Encodable(p.queue[i])
  }

  function Reads(t: Texts, down: bool, frames: seq<Frame>): seq<Message> {
    if frames == [] then [] else [Read(t, down, frames[0])] + Reads(t, down, frames[1..])
  }

  /** The frames that are still to be read, as the messages they will be read as. */
  function Pending(t: Texts, down: bool, p: Pipe): seq<Message> {
    Reads(t, down, p.flight + p.queue)
  }

  lemma {:induction false} ReadsAppend(t: Texts, down: bool, a: seq<Frame>, b: seq<Frame>)
    ensures Reads(t, down, a + b) == Reads(t, down, a) + Reads(t, down, b)
  {
    hide Read;
    if a == [] {
      assert a + b == b;
    } else {
      var c := a + b;
      assert c[1..] == a[1..] + b;
      ReadsAppend(t, down, a[1..], b);
    }
  }

  lemma PaddingIsNotRead(t: Texts, down: bool, f: Frame, padding: seq<Byte>)
    ensures Read(t, down, f.(padding := padding)) == Read(t, down, f)
  {
  }

  lemma WriteKeepsBytes(p: Pipe, padding: seq<Byte>)
    requires PipeInv(p) && CanWrite(p, padding)
    ensures PipeInv(Written(p, padding))
  {
    hide Encode, Decode;
    var f, rest := p.queue[0].(padding := padding), p.queue[1..];
    var w := Written(p, padding);
    WireAppend(p.flight, [f]);
    assert Wire([f]) == Encode(f) by { assert [f][1..] == []; }
    hide Wire;
    assert w.buf + w.wire == (p.buf + p.wire) + Encode(f);
  }

  lemma WriteKeepsReads(t: Texts, down: bool, p: Pipe, padding: seq<Byte>)
    requires CanWrite(p, padding)
    ensures Pending(t, down, Written(p, padding)) == Pending(t, down, p)
  {
    hide Encode, Read, Decode;
    var f, g, rest := p.queue[0].(padding := padding), p.queue[0], p.queue[1..];
    PaddingIsNotRead(t, down, g, padding);
    assert Written(p, padding).flight + Written(p, padding).queue == p.flight + ([f] + rest) && p.queue == [g] + rest;
    ReadsAppend(t, down, p.flight, [f] + rest);
    ReadsAppend(t, down, p.flight, p.queue);
    assert ([f] + rest)[1..] == rest;
  }

  lemma WriteKeepsPipe(t: Texts, down: bool, p: Pipe, padding: seq<Byte>)
    requires PipeInv(p) && CanWrite(p, padding)
    ensures PipeInv(Written(p, padding)) && Pending(t, down, Written(p, padding)) == Pending(t, down, p)
  {
    hide PipeInv, Pending, Written;
    WriteKeepsBytes(p, padding);
    WriteKeepsReads(t, down, p, padding);
  }

  lemma CarryKeepsPipe(p: Pipe, k: nat)
    requires PipeInv(p) && k <= |p.wire|
    ensures PipeInv(Carried(p, k))
  {
    hide Encode, Decode, Wire;
    assert (p.buf + p.wire[..k]) + p.wire[k..] == p.buf + p.wire;
  }

  /** What the buffer decodes to is the next frame that was written, and never an error. */
  lemma BufferDecodes(p: Pipe)
    requires PipeInv(p)
    ensures !Decode(p.buf).Bad?
    ensures Decode(p.buf).Got? ==> p.flight != [] && Decode(p.buf) == Got(p.flight[0], |Encode(p.flight[0])|)
  {
    hide Encode, Decode;
    if !Decode(p.buf).NeedMore? {
      DecodeStable(p.buf, p.wire);
      if p.flight == [] {
        EmptyNeedsMore();
      } else {
        DecodeEncode(p.flight[0], Wire(p.flight[1..]));
      }
    }
  }

  lemma TakeKeepsPipe(t: Texts, down: bool, p: Pipe)
    requires PipeInv(p) && CanTake(p)
    ensures PipeInv(Taken(p))
    ensures Pending(t, down, p) == [Read(t, down, Decode(p.buf).frame)] + Pending(t, down, Taken(p))
  {
    hide Encode, Decode, Read;
    BufferDecodes(p);
    var e, rest := Encode(p.flight[0]), Wire(p.flight[1..]);
    assert p.buf + p.wire == e + rest && |e| <= |p.buf|;
    assert p.buf[|e|..] + p.wire == (p.buf + p.wire)[|e|..] == rest;
    assert (p.flight + p.queue)[1..] == p.flight[1..] + p.queue;
  }

  lemma QueueKeepsBytes(p: Pipe, frames: seq<Frame>)
    requires PipeInv(p) && forall i :: 0 <= i < |frames| ==> Encodable(frames[i])
    ensures PipeInv(Queued(p, frames))
  {
    hide Encode, Decode, Wire, Encodable;
  }

  lemma QueueKeepsReads(t: Texts, down: bool, p: Pipe, frames: seq<Frame>)
    ensures Pending(t, down, Queued(p, frames)) == Pending(t, down, p) + Reads(t, down, frames)
  {
    hide Read, Reads;
    assert p.flight + (p.queue + frames) == (p.flight + p.queue) + frames;
    ReadsAppend(t, down, p.flight + p.queue, frames);
  }

  lemma QueueKeepsPipe(t: Texts, down: bool, p: Pipe, frames: seq<Frame>)
    requires PipeInv(p) && forall i :: 0 <= i < |frames| ==> Encodable(frames[i])
    ensures PipeInv(Queued(p, frames))
    ensures Pending(t, down, Queued(p, frames)) == Pending(t, down, p) + Reads(t, down, frames)
  {
    hide PipeInv, Pending, Queued, Reads, Encodable;
    QueueKeepsBytes(p, frames);
    QueueKeepsReads(t, down, p, frames);
  }

  // ---- The two ends ----

  /** The system with its channels of frames: what the bytes amount to. */
  function FramesOf(t: Texts, s: System): D.System {
    D.System(s.server, s.client, Pending(t, true, s.down), Pending(t, false, s.up))
  }

  /** Ids fit a frame, and so does every chunk that has been read and not queued. */
  ghost predicate ServerFits(s: S.Server) {
    && (forall x :: x in s.conns ==> x < U32_SIZE)
    && (forall x :: x in s.conns && s.conns[x].phase.Forwarding? && s.conns[x].phase.held.Some? ==>
          |s.conns[x].phase.held.value| <= SOCK_READ_BUF)
    && (s.reader.Refusing? ==> s.reader.sid < U32_SIZE)
  }

  ghost predicate ClientFits(c: C.Client) {
    && (forall x :: x in c.locals ==> x < U32_SIZE)
    && (forall x :: x in c.locals && c.locals[x].phase.Forwarding? && c.locals[x].phase.held.Some? ==>
          |c.locals[x].phase.held.value| <= SOCK_READ_BUF)
    && (c.reader.Connecting? || c.reader.Acking? || c.reader.Linking? || c.reader.Nacking? ==> c.reader.sid < U32_SIZE)
  }

  /** The ids in frames have 32 bits. */
  predicate Sized(m: Message) {
    m.Open? || m.Ack? || m.Data? || m.Close? || m.Udp? ==> m.sid < U32_SIZE
  }

  lemma ReadIsSized(t: Texts, down: bool, f: Frame)
    ensures Sized(Read(t, down, f))
  {
    hide ReadStr, ParseStreamOpen, ParseTimestamp;
  }

  lemma ServerStepFits(s: S.Server, a: S.Action)
    requires S.Enabled(s, a) && ServerFits(s) && s.next < U32_SIZE
    requires a.Dispatch? ==> Sized(a.m)
    requires a.ReadPublic? ==> |a.data| <= SOCK_READ_BUF
    ensures ServerFits(S.Do(s, a))
    ensures var e := S.Emits(s, a); |e| <= 1 && (e != [] ==> Sendable(e[0]) && !e[0].Ack?)
  {
    hide S.Do, S.Enabled, ServerFits;
    ServerSends(s, a);
    if S.IsOpening(a) {
      OpeningFits(s, a);
    } else {
      OtherStepFits(s, a);
    }
  }

  lemma ServerSends(s: S.Server, a: S.Action)
    requires S.Enabled(s, a) && ServerFits(s)
    ensures var e := S.Emits(s, a); |e| <= 1 && (e != [] ==> Sendable(e[0]) && !e[0].Ack?)
  {
  }

  lemma OpeningFits(s: S.Server, a: S.Action)
    requires S.IsOpening(a) && S.Enabled(s, a) && ServerFits(s) && s.next < U32_SIZE
    ensures ServerFits(S.Do(s, a))
  {
  }

  lemma OtherStepFits(s: S.Server, a: S.Action)
    requires !S.IsOpening(a) && S.Enabled(s, a) && ServerFits(s)
    requires a.Dispatch? ==> Sized(a.m)
    requires a.ReadPublic? ==> |a.data| <= SOCK_READ_BUF
    ensures ServerFits(S.Do(s, a))
  {
  }

  lemma ClientStepFits(c: C.Client, a: C.Action)
    requires C.Enabled(c, a) && ClientFits(c)
    requires a.Dispatch? ==> Sized(a.m)
    requires a.ReadLocal? ==> |a.data| <= SOCK_READ_BUF
    ensures ClientFits(C.Do(c, a))
    ensures var e := C.Emits(c, a); |e| <= 1 && (e != [] ==> Sendable(e[0]) && !e[0].Open?)
  {
    ClientSends(c, a);
    hide C.Emits, Sendable;
  }

  lemma ClientSends(c: C.Client, a: C.Action)
    requires C.Enabled(c, a) && ClientFits(c)
    ensures var e := C.Emits(c, a); |e| <= 1 && (e != [] ==> Sendable(e[0]) && !e[0].Open?)
  {
  }

  lemma DownFramesRead(t: Texts, e: seq<Message>)
    requires TextsFit(t) && |e| <= 1 && (e != [] ==> Sendable(e[0]) && !e[0].Ack?)
    requires Fits(t.peer)
    ensures Reads(t, true, DownFrames(t, e)) == e
    ensures forall i :: 0 <= i < |DownFrames(t, e)| ==> Encodable(DownFrames(t, e)[i])
  {
    hide ClientReads;
    if e != [] {
      var m := e[0];
      var data := if m.Data? then m.data else [];
      FramesMeanWhatTheyWereBuiltFor(t.utf8, t.lossy, m.sid, true, data, t.target, t.peer, 0);
      assert DownFrames(t, e)[1..] == [] && e == [m];
    }
  }

  lemma UpFramesRead(t: Texts, e: seq<Message>)
    requires TextsFit(t) && |e| <= 1 && (e != [] ==> Sendable(e[0]) && !e[0].Open?)
    ensures Reads(t, false, UpFrames(e)) == e
    ensures forall i :: 0 <= i < |UpFrames(e)| ==> Encodable(UpFrames(e)[i])
  {
    hide ServerReads;
    if e != [] {
      var m := e[0];
      var data := if m.Data? then m.data else [];
      FramesMeanWhatTheyWereBuiltFor(t.utf8, t.lossy, m.sid, m.Ack? && m.ok, data, t.target, t.peer, 0);
      assert UpFrames(e)[1..] == [] && e == [m];
    }
  }

  ghost predicate Inv(t: Texts, s: System) {
    && PipeInv(s.down) && PipeInv(s.up)
    && ServerFits(s.server) && ClientFits(s.client)
    && S.Inv(s.server)
    && D.Reachable(FramesOf(t, s))
  }

  ghost predicate Given(t: Texts) {
    TextsFit(t) && Fits(t.peer)
  }

  lemma ServerTaskKeepsInv(t: Texts, s: System, a: S.Action)
    requires Given(t) && Inv(t, s) && Enabled(t, s, ServerTask(a))
    ensures Inv(t, Do(t, s, ServerTask(a)))
  {
    hide S.Do, S.Emits, C.Do, S.Inv, PipeInv, Pending, ServerFits, ClientFits, D.Reachable, DownFrames, S.Enabled;
    var e := S.Emits(s.server, a);
    NextFits(s.server);
    ServerStepFits(s.server, a);
    S.StepKeepsInv(s.server, a);
    DownFramesRead(t, e);
    QueueKeepsPipe(t, true, s.down, DownFrames(t, e));
    D.Extend(FramesOf(t, s), D.AtServer(a));
  }

  lemma NextFits(s: S.Server)
    requires S.Inv(s)
    ensures s.next < U32_SIZE
  {
  }

  lemma ClientTaskKeepsInv(t: Texts, s: System, a: C.Action)
    requires Given(t) && Inv(t, s) && Enabled(t, s, ClientTask(a))
    ensures Inv(t, Do(t, s, ClientTask(a)))
  {
    hide S.Do, C.Emits, C.Do, S.Inv, PipeInv, Pending, ServerFits, ClientFits, D.Reachable, UpFrames, C.Enabled;
    var e := C.Emits(s.client, a);
    ClientStepFits(s.client, a);
    UpFramesRead(t, e);
    QueueKeepsPipe(t, false, s.up, UpFrames(e));
    D.Extend(FramesOf(t, s), D.AtClient(a));
  }

  lemma ServerTakesKeepsInv(t: Texts, s: System)
    requires Inv(t, s) && Enabled(t, s, ServerTakes)
    ensures Inv(t, Do(t, s, ServerTakes))
  {
    hide S.Do, C.Do, S.Inv, PipeInv, Pending, ServerFits, ClientFits, D.Reachable, Read, Taken, Decode;
    var m := Read(t, false, Decode(s.up.buf).frame);
    var a := S.Dispatch(m);
    ReadIsSized(t, false, Decode(s.up.buf).frame);
    NextFits(s.server);
    ServerStepFits(s.server, a);
    S.StepKeepsInv(s.server, a);
    TakeKeepsPipe(t, false, s.up);
    var d := FramesOf(t, s);
    assert d.up == [m] + Pending(t, false, Taken(s.up));
    D.Extend(d, D.AtServer(a));
    assert d.up[1..] == Pending(t, false, Taken(s.up));
    assert d.down + [] == d.down;
  }

  lemma ClientTakesKeepsInv(t: Texts, s: System)
    requires Inv(t, s) && Enabled(t, s, ClientTakes)
    ensures Inv(t, Do(t, s, ClientTakes))
  {
    hide S.Do, C.Do, S.Inv, PipeInv, Pending, ServerFits, ClientFits, D.Reachable, Read, Taken, Decode;
    var m := Read(t, true, Decode(s.down.buf).frame);
    var a := C.Dispatch(m);
    ReadIsSized(t, true, Decode(s.down.buf).frame);
    ClientStepFits(s.client, a);
    TakeKeepsPipe(t, true, s.down);
    var d := FramesOf(t, s);
    assert d.down == [m] + Pending(t, true, Taken(s.down));
    D.Extend(d, D.AtClient(a));
    assert d.down[1..] == Pending(t, true, Taken(s.down));
    assert d.up + [] == d.up;
  }

  lemma ChatterKeepsInv(t: Texts, s: System, step: Step)
    requires Inv(t, s) && Enabled(t, s, step) && (step.DownChatter? || step.UpChatter?)
    ensures Inv(t, Do(t, s, step))
  {
    hide S.Do, C.Do, S.Inv, PipeInv, Pending, ServerFits, ClientFits, D.Reachable, Read, Encodable;
    var down := step.DownChatter?;
    var m := Read(t, down, step.f);
    assert Reads(t, down, [step.f]) == [m] by { assert [step.f][1..] == []; }
    if down {
      QueueKeepsPipe(t, true, s.down, [step.f]);
      D.Extend(FramesOf(t, s), D.DownChatter(m));
    } else {
      QueueKeepsPipe(t, false, s.up, [step.f]);
      D.Extend(FramesOf(t, s), D.UpChatter(m));
    }
  }

  /** Every step keeps the pipes readable and is a step of the system of frames, or none of it. */
  lemma StepKeepsInv(t: Texts, s: System, step: Step)
    requires Given(t) && Inv(t, s) && Enabled(t, s, step)
    ensures Inv(t, Do(t, s, step))
  {
    hide S.Do, C.Do, S.Inv, PipeInv, ServerFits, ClientFits, D.Reachable, Read, Encode, Decode, Wire, Given;
    match step
    case ServerTask(a) => ServerTaskKeepsInv(t, s, a);
    case ServerTakes => ServerTakesKeepsInv(t, s);
    case ClientTask(a) => ClientTaskKeepsInv(t, s, a);
    case ClientTakes => ClientTakesKeepsInv(t, s);
    case DownChatter(f) => ChatterKeepsInv(t, s, step);
    case UpChatter(f) => ChatterKeepsInv(t, s, step);
    case WriteDown(padding) => WriteKeepsPipe(t, true, s.down, padding);
    case WriteUp(padding) => WriteKeepsPipe(t, false, s.up, padding);
    case CarryDown(k) => CarryKeepsPipe(s.down, k);
    case CarryUp(k) => CarryKeepsPipe(s.up, k);
  }

  ghost predicate IsRun(t: Texts, states: seq<System>, steps: seq<Step>) {
    && |states| == |steps| + 1
    && states[0] == Init()
    && forall i :: 0 <= i < |steps| ==> Enabled(t, states[i], steps[i]) && states[i + 1] == Do(t, states[i], steps[i])
  }

  lemma InitInv(t: Texts)
    ensures Inv(t, Init())
  {
    S.InitInv();
    D.InitReachable();
  }

  lemma {:induction false} RunKeepsInv(t: Texts, states: seq<System>, steps: seq<Step>, i: nat)
    requires Given(t) && IsRun(t, states, steps) && i < |states|
    ensures Inv(t, states[i])
  {
    hide Inv, Do, Enabled, Given;
    if i == 0 {
      InitInv(t);
    } else {
      RunKeepsInv(t, states, steps, i - 1);
      assert states[i - 1 + 1] == Do(t, states[i - 1], steps[i - 1]);
      StepKeepsInv(t, states[i - 1], steps[i - 1]);
    }
  }

  /** No reader ever meets a decoding error on what the other end's writer has sent. */
  lemma NeverUndecodable(t: Texts, states: seq<System>, steps: seq<Step>, i: nat)
    requires Given(t) && IsRun(t, states, steps) && i < |states|
    ensures !Decode(states[i].down.buf).Bad? && !Decode(states[i].up.buf).Bad?
  {
    RunKeepsInv(t, states, steps, i);
    BufferDecodes(states[i].down);
    BufferDecodes(states[i].up);
  }

  /**
   * From socket to socket over the wire: however frames are padded and their bytes carried, what a local
   * target has been sent is a prefix of what was read from its public connection, and what a public
   * connection has been sent is a prefix of what its local target's task read behind the early chunks.
   */
  lemma BytesAreDelivered(t: Texts, states: seq<System>, steps: seq<Step>, i: nat, x: Sid)
    requires Given(t) && IsRun(t, states, steps) && i < |states|
    ensures var s, c := states[i].server, states[i].client;
      && (x in c.locals ==> x in s.conns && c.locals[x].put <= Flatten(s.conns[x].got))
      && (x in s.conns ==>
            var got := if x in c.locals then c.locals[x].got else [];
            s.conns[x].early <= |got| && s.conns[x].put <= Flatten(got[s.conns[x].early..]))
  {
    hide IsRun, D.IsRun, D.Reachable;
    RunKeepsInv(t, states, steps, i);
    var frames, run := RunTo(FramesOf(t, states[i]));
    if x in states[i].client.locals {
      D.DownstreamDelivery(frames, run, |run|, x);
    }
    if x in states[i].server.conns {
      D.UpstreamDelivery(frames, run, |run|, x);
    }
  }

  lemma RunTo(s: D.System) returns (states: seq<D.System>, steps: seq<D.Step>)
    requires D.Reachable(s)
    ensures D.IsRun(states, steps) && |states| == |steps| + 1 && states[|steps|] == s
  {
    states, steps :| D.IsRun(states, steps) && states[|steps|] == s;
  }
}
