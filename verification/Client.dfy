/**
 * The client's half of a tunnel as a step system (src/client/mod.rs, src/client/forwarder.rs): one reader
 * that dispatches frames and dials local targets in line, and one forwarding task per stream.
 */
module Client {
  import opened Bytes
  import opened Messages

  datatype Phase =
    | Forwarding(held: Option<Chunk>)     // in the select loop; `held` is read and not yet queued
    | Writing(rest: Chunk)                // in the select loop, writing what is left of a chunk
    | Breaking                            // left the loop
    | Unlinking                           // sent STREAM_CLOSE
    | Finished                            // out of the stream table

  datatype Local = Local(
    phase: Phase,
    queue: seq<Chunk>,          // the stream's data channel
    got: seq<Chunk>,            // history: chunks read from the local target
    put: seq<Byte>)             // history: bytes written to the local target

  /** The reader between two awaits of one dispatch; `Stopped` once the tunnel session has ended. */
  datatype Reader =
    | Ready
    | Connecting(sid: Sid)
    | Acking(sid: Sid)
    | Linking(sid: Sid)
    | Nacking(sid: Sid)
    | Delivering(sid: Sid, data: Chunk)
    | Stopped

  datatype Client = Client(
    locals: map<Sid, Local>,
    streams: set<Sid>,
    reader: Reader,
    seen: set<Sid>)             // history: ids of the STREAM_OPEN frames taken off the wire

  datatype Action =
    | Dispatch(m: Message)
    | Connected
    | ConnectFails
    | SendAck(sent: bool)
    | Link
    | SendNack(sent: bool)
    | Deliver
    | ReadLocal(x: Sid, data: Chunk)
    | Forward(x: Sid)
    | ForwardFails(x: Sid)
    | TakeChunk(x: Sid)
    | WriteSome(x: Sid, k: nat)
    | WriteDone(x: Sid)
    | WriteFails(x: Sid)
    | Break(x: Sid)
    | CloseTunnelSide(x: Sid, sent: bool)
    | Unlink(x: Sid)
    | EndSession

  function Init(): Client {
    Client(map[], {}, Ready, {})
  }

  predicate At(c: Client, x: Sid, p: Phase) {
    x in c.locals && c.locals[x].phase == p
  }

  predicate Enabled(c: Client, a: Action) {
    match a
    case Dispatch(_) => c.reader == Ready
    case Connected => c.reader.Connecting?
    case ConnectFails => c.reader.Connecting?
    case SendAck(_) => c.reader.Acking?
    case Link => c.reader.Linking?
    case SendNack(_) => c.reader.Nacking?
    case Deliver => c.reader.Delivering?
    case ReadLocal(x, data) => At(c, x, Forwarding(None))
    case Forward(x) => x in c.locals && c.locals[x].phase.Forwarding? && c.locals[x].phase.held.Some?
    case ForwardFails(x) => x in c.locals && c.locals[x].phase.Forwarding? && c.locals[x].phase.held.Some?
    case TakeChunk(x) => At(c, x, Forwarding(None)) && c.locals[x].queue != []
    case WriteSome(x, k) => x in c.locals && c.locals[x].phase.Writing? && k <= |c.locals[x].phase.rest|
    case WriteDone(x) => At(c, x, Writing([]))
    case WriteFails(x) => x in c.locals && c.locals[x].phase.Writing?
    case Break(x) => At(c, x, Forwarding(None))
    case CloseTunnelSide(x, _) => At(c, x, Breaking)
    case Unlink(x) => At(c, x, Unlinking)
    case EndSession => true
  }

  function SetPhase(c: Client, x: Sid, p: Phase): Client
    requires x in c.locals
  {
    c.(locals := c.locals[x := c.locals[x].(phase := p)])
  }

  /** Frame dispatch up to its first await. */
  function Receive(c: Client, m: Message): Client {
    match m
    case Open(x) => c.(reader := Connecting(x), seen := c.seen + {x})
    case Data(x, data) => if x in c.streams then c.(reader := Delivering(x, data)) else c
    case Close(x) => c.(streams := c.streams - {x})
    case End => c.(reader := Stopped)
    case _ => c
  }

  predicate ReceiverAlive(p: Phase) {
    p.Forwarding? || p.Writing? || p.Breaking?
  }

  function Do(c: Client, a: Action): Client
    requires Enabled(c, a)
  {
    match a
    case Dispatch(m) => Receive(c, m)
    case Connected => c.(reader := Acking(c.reader.sid))
    case ConnectFails => c.(reader := Nacking(c.reader.sid))
    case SendAck(_) => c.(reader := Linking(c.reader.sid))
    case Link =>
      var x := c.reader.sid;
      c.(reader := Ready, streams := c.streams + {x}, locals := c.locals[x := Local(Forwarding(None), [], [], [])])
    case SendNack(_) => c.(reader := Ready)
    case Deliver =>
      var x := c.reader.sid;
      var c1 := c.(reader := Ready);
      if x in c.locals && ReceiverAlive(c.locals[x].phase)
      then c1.(locals := c.locals[x := c.locals[x].(queue := c.locals[x].queue + [c.reader.data])]) else c1
    case ReadLocal(x, data) =>
      c.(locals := c.locals[x := c.locals[x].(phase := Forwarding(Some(data)), got := c.locals[x].got + [data])])
    case Forward(x) => SetPhase(c, x, Forwarding(None))
    case ForwardFails(x) => SetPhase(c, x, Breaking)
    case TakeChunk(x) =>
      var l := c.locals[x];
      c.(locals := c.locals[x := l.(phase := Writing(l.queue[0]), queue := l.queue[1..])])
    case WriteSome(x, k) =>
      var l := c.locals[x];
      c.(locals := c.locals[x := l.(phase := Writing(l.phase.rest[k..]), put := l.put + l.phase.rest[..k])])
    case WriteDone(x) => SetPhase(c, x, Forwarding(None))
    case WriteFails(x) => SetPhase(c, x, Breaking)
    case Break(x) => SetPhase(c, x, Breaking)
    case CloseTunnelSide(x, _) => SetPhase(c, x, Unlinking)
    case Unlink(x) => SetPhase(c, x, Finished).(streams := c.streams - {x})
    case EndSession => c.(reader := Stopped, streams := {})
  }

  /** The frames a step queues for the server. */
  function Emits(c: Client, a: Action): seq<Message>
    requires Enabled(c, a)
  {
    match a
    case SendAck(sent) => if sent then [Ack(c.reader.sid, true)] else []
    case SendNack(sent) => if sent then [Ack(c.reader.sid, false)] else []
    case Forward(x) => [Data(x, c.locals[x].phase.held.value)]
    case CloseTunnelSide(x, sent) => if sent then [Close(x)] else []
    case _ => []
  }
}
