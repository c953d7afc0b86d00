/**
 * The shared objects of a tunnel and what dispatching one frame does to them: `TunnelSession` of
 * src/server/manager.rs with `dispatch_frame` of src/server/tunnel.rs, and the client's stream table with
 * the dispatch of src/client/mod.rs. Each method is tied to the steps of `Server` or `Client`.
 */
module Sessions {
  import opened Bytes
  import opened Frames
  import opened Payloads
  import opened Messages
  import Allocator
  import I = Idle
  import T = UdpTasks
  import U = UdpRouting
  import S = Server
  import C = Client

  /** Both halves of the server's dispatch, with the tunnel still accepting frames. */
  function Dispatched(s: S.Server, m: Message): S.Server
    requires s.reader == S.Ready
  {
    var t := S.Receive(s, m);
    if t.reader == S.Ready then t else S.Do(t, S.FinishDispatch(true))
  }

  /** The frames one dispatch answers with. */
  function Replies(s: S.Server, m: Message): seq<Message>
    requires s.reader == S.Ready
  {
    if m.Beat? then [m]
    else if m.Data? && m.sid !in s.streams then [Close(m.sid)]
    else []
  }

  /** What the client makes of a reply frame; an acknowledged heartbeat is named by its timestamp. */
  function ReplyOf(m: Message): Frame
    requires m.Beat? || (m.Close? && m.sid < U32_SIZE)
  {
    if m.Beat? then HeartbeatAckFrame(m.timestamp) else BuildStreamClose(m.sid)
  }

  /** A STREAM_DATA frame: its payload goes to the end of its own stream's channel, if somebody still receives. */
  ghost predicate Handed(before: S.Server, after: S.Server, frame: Frame) {
    var x := frame.streamId;
    x in before.streams && x in before.conns && S.ReceiverAlive(before.conns[x].phase) ==>
      after.conns == before.conns[x := before.conns[x].(queue := before.conns[x].queue + [frame.payload])]
  }

  /** A STREAM_OPEN_ACK: the pending entry of the id in its payload, and no other, gets the answer and goes. */
  ghost predicate Answered(before: S.Server, after: S.Server, frame: Frame) {
    match ParseStreamOpenAck(frame.payload)
    case Err(_) => after == before
    case Ok(r) =>
      && after.pending == before.pending - {r.streamId}
      && (r.streamId in before.pending && r.streamId in before.conns ==>
            after.conns == before.conns[r.streamId := before.conns[r.streamId].(answer := Some(r.ok))])
      && (r.streamId !in before.pending ==> after == before)
  }

  /** A HEARTBEAT is answered with a HEARTBEAT_ACK that carries the same timestamp, if it has one. */
  ghost predicate Echoed(before: seq<Frame>, after: seq<Frame>, frame: Frame) {
    if |frame.payload| < 8 then after == before
    else
      && |after| == |before| + 1 && after[..|before|] == before
      && after[|before|].frameType == FrameType.HeartbeatAck
      && after[|before|].payload == frame.payload[..8]
  }

  lemma DispatchLaws(s: S.Server, utf8: Utf8, frame: Frame)
    requires s.reader == S.Ready
    ensures var m := ServerReads(utf8, frame);
      var s', r := Dispatched(s, m), Replies(s, m);
      && s'.streams == (if frame.frameType == FrameType.StreamClose then s.streams - {frame.streamId} else s.streams)
      && (frame.frameType == FrameType.StreamData ==> Handed(s, s', frame))
      && (frame.frameType == FrameType.StreamData && frame.streamId !in s.streams ==> r == [Close(frame.streamId)])
      && (frame.frameType == FrameType.StreamOpenAck ==> Answered(s, s', frame))
  {
    hide ParseStreamOpenAck, ReadStr, ParseTimestamp;
  }

  class TunnelSession {
    var next: nat
    var conns: map<Sid, S.Conn>             // the ends the connections' tasks hold, with their histories
    var pendingOpens: set<Sid>
    var streams: set<Sid>
    var udpIds: set<Sid>
    var udp: map<Sid, U.Entry>              // UDP sessions: their public peers and last activity
    var frameTx: seq<Frame>                 // frames queued for the writer
    var udpSent: seq<(U.Origin, Chunk)>     // datagrams sent to public peers
    var tcpRxBytes: nat
    var udpRxBytes: nat

    constructor ()
      ensures View() == S.Init() && frameTx == [] && udpSent == [] && tcpRxBytes == 0 && udpRxBytes == 0
    {
      next, conns, pendingOpens, streams, udpIds, udp := Allocator.SERVER_START, map[], {}, {}, {}, map[];
      frameTx, udpSent, tcpRxBytes, udpRxBytes := [], [], 0, 0;
    }

    ghost function View(): S.Server
      reads this
    {
      S.Server(next, conns, pendingOpens, streams, udpIds, udp.Keys, S.Ready)
    }

    method DispatchFrame(utf8: Utf8, frame: Frame, now: nat)
      modifies this
      ensures var m := ServerReads(utf8, frame);
        && View() == Dispatched(old(View()), m)
        && (var r := Replies(old(View()), m);
            frameTx == old(frameTx) + if r == [] then [] else [ReplyOf(r[0])])
        && udpSent == old(udpSent) + (if m.Udp? && m.sid in old(udp) then [(old(udp)[m.sid].origin, m.data)] else [])
        && udp == (if m.Udp? then U.Touched(old(udp), m.sid, now) else old(udp))
        && tcpRxBytes == old(tcpRxBytes) + (if m.Data? then |m.data| else 0)
        && udpRxBytes == old(udpRxBytes) + (if m.Udp? then |m.data| else 0)
      ensures frame.frameType == FrameType.StreamClose ==> streams == old(streams) - {frame.streamId}
      ensures frame.frameType != FrameType.StreamClose ==> streams == old(streams)
      ensures frame.frameType == FrameType.StreamData ==> Handed(old(View()), View(), frame)
      ensures frame.frameType == FrameType.StreamData && frame.streamId !in old(streams) ==>
                frameTx == old(frameTx) + [BuildStreamClose(frame.streamId)]
      ensures frame.frameType == FrameType.StreamData ==> tcpRxBytes == old(tcpRxBytes) + |frame.payload|
      ensures frame.frameType == FrameType.StreamOpenAck ==> Answered(old(View()), View(), frame)
      ensures frame.frameType == FrameType.Heartbeat ==> Echoed(old(frameTx), frameTx, frame)
    {
      hide ReadStr, ParseStreamOpenAck, ParseTimestamp, ParseStreamOpen, Str, PutU64, PutU32, S.BeforeLink,
          S.ReceiverAlive;
      DispatchLaws(View(), utf8, frame);
      hide Handed, Answered, Echoed;
      var sid := frame.streamId;
      if frame.frameType == FrameType.StreamOpenAck {
        var reply := ParseStreamOpenAck(frame.payload);
        if reply.Ok? && reply.value.streamId in pendingOpens {
          TakePending(reply.value.streamId, reply.value.ok);
        }
      } else if frame.frameType == FrameType.StreamData {
        tcpRxBytes := tcpRxBytes + |frame.payload|;
        if sid in streams {
          Deliver(sid, frame.payload);
        } else {
          Refuse(sid, frame.payload);
        }
      } else if frame.frameType == FrameType.StreamClose {
        streams := streams - {sid};
      } else {
        Beside(utf8, frame, now);
      }
    }

    /** A frame that touches neither the stream tables nor any task: a heartbeat, a datagram, or one to ignore. */
    method Beside(utf8: Utf8, frame: Frame, now: nat)
      requires frame.frameType != FrameType.StreamOpenAck && frame.frameType != FrameType.StreamData
      requires frame.frameType != FrameType.StreamClose
      modifies this`frameTx, this`udpRxBytes, this`udpSent, this`udp
      ensures var m := ServerReads(utf8, frame);
        && View() == Dispatched(old(View()), m)
        && (var r := Replies(old(View()), m);
            frameTx == old(frameTx) + if r == [] then [] else [ReplyOf(r[0])])
        && udpSent == old(udpSent) + (if m.Udp? && m.sid in old(udp) then [(old(udp)[m.sid].origin, m.data)] else [])
        && udp == (if m.Udp? then U.Touched(old(udp), m.sid, now) else old(udp))
        && udpRxBytes == old(udpRxBytes) + (if m.Udp? then |m.data| else 0)
        && !m.Data?
      ensures frame.frameType == FrameType.Heartbeat ==> Echoed(old(frameTx), frameTx, frame)
    {
      hide ReadStr, ParseStreamOpenAck, ParseStreamOpen, Str, PutU64, PutU32, U64At;
      if frame.frameType == FrameType.Heartbeat {
        var ts := ParseTimestamp(frame.payload);
        if ts.Ok? {
          U64Field(frame.payload, 0, ts.value);
          frameTx := frameTx + [HeartbeatAckFrame(ts.value)];
        }
      } else if frame.frameType == FrameType.UdpDatagram {
        var datagram := ParseUdpDatagram(utf8, frame.payload);
        if datagram.Ok? {
          Reply(frame.streamId, datagram.value.rest, now);
        }
      }
    }

    /** A datagram from the target goes to the peer behind its id, if there still is one, and renews its session. */
    method Reply(sid: Sid, data: Chunk, now: nat)
      modifies this`udpRxBytes, this`udpSent, this`udp
      ensures udpRxBytes == old(udpRxBytes) + |data|
      ensures udpSent == old(udpSent) + if sid in old(udp) then [(old(udp)[sid].origin, data)] else []
      ensures udp == U.Touched(old(udp), sid, now)
      ensures View() == old(View())
    {
      udpRxBytes := udpRxBytes + |data|;
      if sid in udp {
        udpSent := udpSent + [(udp[sid].origin, data)];
        udp := udp[sid := U.Entry(udp[sid].origin, now)];
        assert udp.Keys == old(udp).Keys;
      }
    }

    /** The pending entry is consumed whether or not anybody still waits at the other end of its channel. */
    method TakePending(sid: Sid, ok: bool)
      requires sid in pendingOpens
      modifies this`pendingOpens, this`conns
      ensures View() == S.Receive(old(View()), Ack(sid, ok))
    {
      pendingOpens := pendingOpens - {sid};
      if sid in conns {
        conns := conns[sid := conns[sid].(answer := Some(ok))];
      }
    }

    /** No such stream, or not yet: the client is told to close it. */
    method Refuse(sid: U32, data: Chunk)
      requires sid !in streams
      modifies this`conns, this`frameTx
      ensures View() == Dispatched(old(View()), Data(sid, data))
      ensures frameTx == old(frameTx) + [BuildStreamClose(sid)]
    {
      if sid in conns && S.BeforeLink(conns[sid].phase) {
        conns := conns[sid := conns[sid].(early := conns[sid].early + 1)];
      }
      frameTx := frameTx + [BuildStreamClose(sid)];
    }

    method Deliver(sid: Sid, data: Chunk)
      requires sid in streams
      modifies this`conns
      ensures View() == Dispatched(old(View()), Data(sid, data))
    {
      if sid in conns && S.ReceiverAlive(conns[sid].phase) {
        conns := conns[sid := conns[sid].(queue := conns[sid].queue + [data])];
      }
    }
  }

  /** One whole dispatch on the client: a dial, if there is one, and everything that follows it. */
  function Handled(c: C.Client, m: Message, connects: bool): C.Client
    requires c.reader == C.Ready
  {
    var t := C.Receive(c, m);
    if t.reader.Connecting? then
      if connects then C.Do(C.Do(C.Do(t, C.Connected), C.SendAck(true)), C.Link)
      else C.Do(C.Do(t, C.ConnectFails), C.SendNack(true))
    else if t.reader.Delivering? then C.Do(t, C.Deliver)
    else t
  }

  /** A STREAM_DATA frame at the client: its payload goes to its own stream's channel, if somebody still receives. */
  ghost predicate HandedDown(before: C.Client, after: C.Client, frame: Frame) {
    var x := frame.streamId;
    if x in before.streams && x in before.locals && C.ReceiverAlive(before.locals[x].phase) then
      var l := before.locals[x];
      after == before.(locals := before.locals[x := l.(queue := l.queue + [frame.payload])])
    else after == before
  }

  lemma HandledLaws(c: C.Client, utf8: Utf8, lossy: Text -> Text, frame: Frame, connects: bool)
    requires c.reader == C.Ready
    ensures var m := ClientReads(utf8, lossy, frame);
      var c' := Handled(c, m, connects);
      && (frame.frameType == FrameType.StreamData ==> HandedDown(c, c', frame))
      && (frame.frameType == FrameType.StreamClose ==> c'.streams == c.streams - {frame.streamId})
      && (frame.frameType == FrameType.StreamOpen && ParseStreamOpen(utf8, lossy, frame.payload).Ok? ==>
            && c'.streams == (if connects then c.streams + {frame.streamId} else c.streams)
            && (connects ==> c'.locals == c.locals[frame.streamId := C.Local(C.Forwarding(None), [], [], [])])
            && m == Open(frame.streamId))
  {
    hide ParseStreamOpen, ReadStr, ParseTimestamp;
  }

  /** The length of an ERROR frame's reason is read unchecked, so the reader survives only frames that have one. */
  predicate ReasonReadable(f: Frame) {
    f.frameType == FrameType.Error ==> |f.payload| >= 2
  }

  /** What the world answers while one frame is handled: whether a dial, a bind or a send works, and the time. */
  datatype World = World(connects: bool, created: bool, sent: bool, now: nat)

  class ClientSession {
    const udp: T.UdpManager
    const heartbeat: I.HeartbeatState
    var locals: map<Sid, C.Local>           // the ends the forwarding tasks hold, with their histories
    var streams: set<Sid>
    ghost var seen: set<Sid>
    var frameTx: seq<Frame>
    var terminated: bool
    var reason: Option<Result<Text>>        // why the server ended the session, if it did

    constructor ()
      ensures View() == C.Init() && frameTx == [] && !terminated && reason == None
      ensures fresh(udp) && udp.sessions == map[]
      ensures fresh(heartbeat) && heartbeat.Valid() && heartbeat.history == []
    {
      udp := new T.UdpManager();
      heartbeat := new I.HeartbeatState();
      locals, streams, seen, frameTx, terminated, reason := map[], {}, {}, [], false, None;
    }

    /** An error frame stops the reader for good. */
    ghost function View(): C.Client
      reads this
    {
      C.Client(locals, streams, if terminated then C.Stopped else C.Ready, seen)
    }

    method Attach(sid: U32, connects: bool)
      requires !terminated
      modifies this`seen, this`frameTx, this`streams, this`locals
      ensures View() == Handled(old(View()), Open(sid), connects)
      ensures frameTx == old(frameTx) + [BuildStreamOpenAck(sid, connects)]
    {
      seen := seen + {sid};
      frameTx := frameTx + [BuildStreamOpenAck(sid, connects)];
      if connects {
        streams := streams + {sid};
        locals := locals[sid := C.Local(C.Forwarding(None), [], [], [])];
      }
    }

    method Deliver(sid: U32, data: Chunk)
      requires !terminated
      modifies this`locals
      ensures View() == Handled(old(View()), Data(sid, data), true)
    {
      if sid in streams && sid in locals && C.ReceiverAlive(locals[sid].phase) {
        locals := locals[sid := locals[sid].(queue := locals[sid].queue + [data])];
      }
    }

    /** A frame that touches neither the stream table nor any task: a heartbeat, its answer, a datagram, an error. */
    method Beside(utf8: Utf8, lossy: Text -> Text, frame: Frame, w: World)
      requires ReasonReadable(frame) && !terminated && heartbeat.Valid()
      requires frame.frameType != FrameType.StreamOpen && frame.frameType != FrameType.StreamData
      requires frame.frameType != FrameType.StreamClose
      modifies this`frameTx, this`terminated, this`reason, udp, heartbeat
      ensures var m := ClientReads(utf8, lossy, frame);
        && View() == Handled(old(View()), m, w.connects)
        && frameTx == old(frameTx) + if m.Beat? then [HeartbeatAckFrame(m.timestamp)] else []
      ensures EndsWith(lossy, frame, old(reason))
      ensures heartbeat.Valid() && heartbeat.history == old(heartbeat.history) + Beats(frame)
      ensures udp.sessions == SessionsAfter(old(udp.sessions), utf8, frame, w)
      ensures frame.frameType == FrameType.Heartbeat ==> Echoed(old(frameTx), frameTx, frame)
    {
      hide ReadStr, ParseStreamOpenAck, ParseStreamOpen, Str, PutU64, PutU32, ParseError, U64At;
      hide I.Missed, T.AfterIncoming;
      assert old(heartbeat.history) + [] == old(heartbeat.history);
      if frame.frameType == FrameType.Heartbeat {
        var ts := ParseTimestamp(frame.payload);
        if ts.Ok? {
          U64Field(frame.payload, 0, ts.value);
          frameTx := frameTx + [HeartbeatAckFrame(ts.value)];
        }
      } else if frame.frameType == FrameType.HeartbeatAck {
        heartbeat.OnHeartbeatAck();
      } else if frame.frameType == FrameType.UdpDatagram {
        var datagram := ParseUdpDatagram(utf8, frame.payload);
        if datagram.Ok? {
          var to := udp.HandleIncoming(frame.streamId, datagram.value.text, w.now, w.created, w.sent);
        }
      } else if frame.frameType == FrameType.Error {
        reason, terminated := Some(ParseError(lossy, frame.payload)), true;
      }
    }

    /** The session ends with an error frame, for the reason in it, and with no other. */
    ghost predicate EndsWith(lossy: Text -> Text, frame: Frame, before: Option<Result<Text>>)
      reads this
      requires ReasonReadable(frame)
    {
      && (terminated <==> frame.frameType == FrameType.Error)
      && reason == if terminated then Some(ParseError(lossy, frame.payload)) else before
    }

    method DispatchFrame(utf8: Utf8, lossy: Text -> Text, frame: Frame, w: World)
      requires ReasonReadable(frame) && !terminated && heartbeat.Valid()
      modifies this, udp, heartbeat
      ensures var m := ClientReads(utf8, lossy, frame);
        && View() == Handled(old(View()), m, w.connects)
        && frameTx == old(frameTx) + (if m.Open? then [BuildStreamOpenAck(m.sid, w.connects)]
                                      else if m.Beat? then [HeartbeatAckFrame(m.timestamp)] else [])
      ensures EndsWith(lossy, frame, old(reason))
      ensures heartbeat.Valid() && heartbeat.history == old(heartbeat.history) + Beats(frame)
      ensures udp.sessions == SessionsAfter(old(udp.sessions), utf8, frame, w)
      ensures frame.frameType == FrameType.StreamData ==> HandedDown(old(View()), View(), frame)
      ensures frame.frameType == FrameType.StreamClose ==> streams == old(streams) - {frame.streamId}
      ensures frame.frameType == FrameType.StreamOpen && ParseStreamOpen(utf8, lossy, frame.payload).Ok? ==>
                && streams == (if w.connects then old(streams) + {frame.streamId} else old(streams))
                && frameTx == old(frameTx) + [BuildStreamOpenAck(frame.streamId, w.connects)]
      ensures frame.frameType == FrameType.Heartbeat ==> Echoed(old(frameTx), frameTx, frame)
    {
      hide ReadStr, ParseStreamOpenAck, ParseTimestamp, ParseStreamOpen, Str, PutU64, PutU32, ParseError, Handled;
      hide I.Missed;
      HandledLaws(View(), utf8, lossy, frame, w.connects);
      hide HandedDown, Echoed;
      var sid := frame.streamId;
      assert old(heartbeat.history) + [] == old(heartbeat.history);
      if frame.frameType == FrameType.StreamOpen {
        var request := ParseStreamOpen(utf8, lossy, frame.payload);
        if request.Ok? {
          Attach(sid, w.connects);
        } else {
          NothingHandled(View(), w.connects);
        }
      } else if frame.frameType == FrameType.StreamData {
        Deliver(sid, frame.payload);
        DataIgnoresDial(old(View()), sid, frame.payload, w.connects);
      } else if frame.frameType == FrameType.StreamClose {
        CloseHandled(View(), sid, w.connects);
        streams := streams - {sid};
      } else {
        Beside(utf8, lossy, frame, w);
      }
    }
  }

  /** What a frame means to the count of missed heartbeats. */
  function Beats(frame: Frame): seq<I.Beat> {
    if frame.frameType == FrameType.HeartbeatAck then [I.Acked] else []
  }

  /** The client's UDP sessions after a frame: only a readable datagram changes them. */
  function SessionsAfter(
      sessions: map<Sid, T.Socket>, utf8: Utf8, frame: Frame, w: World): map<Sid, T.Socket>
  {
    if frame.frameType == FrameType.UdpDatagram && ParseUdpDatagram(utf8, frame.payload).Ok?
    then T.AfterIncoming(sessions, frame.streamId, ParseUdpDatagram(utf8, frame.payload).value.text, w.now,
        w.created, w.sent)
    else sessions
  }

  lemma NothingHandled(c: C.Client, connects: bool)
    requires c.reader == C.Ready
    ensures Handled(c, Ignored, connects) == c
  {
  }

  lemma DataIgnoresDial(c: C.Client, sid: Sid, data: Chunk, connects: bool)
    requires c.reader == C.Ready
    ensures Handled(c, Data(sid, data), connects) == Handled(c, Data(sid, data), true)
  {
  }

  lemma CloseHandled(c: C.Client, sid: Sid, connects: bool)
    requires c.reader == C.Ready
    ensures Handled(c, Close(sid), connects) == c.(streams := c.streams - {sid})
  {
  }
}
