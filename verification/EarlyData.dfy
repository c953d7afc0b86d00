/** A run in which an early chunk is lost: why upstream delivery has its condition. */
module EarlyData {
  import opened Bytes
  import opened Messages
  import opened Delivery
  import S = Server
  import C = Client

  const FIRST: Chunk := [1]
  const SECOND: Chunk := [2]

  /** Stream 2 at both ends: the server's task, whether it is in the two tables, and the client's task. */
  function StreamTwo(conn: S.Conn, pending: bool, linked: bool, reader: S.Reader, local: Option<C.Local>,
                     creader: C.Reader, down: seq<Message>, up: seq<Message>): System {
    System(
      S.Server(4, map[2 := conn], if pending then {2} else {}, if linked then {2} else {}, {}, {}, reader),
      C.Client(if local.Some? then map[2 := local.value] else map[], if local.Some? then {2} else {}, creader,
               if local.Some? || creader != C.Ready then {2} else {}),
      down, up)
  }

  lemma Take(s: System, step: Step) returns (t: System)
    requires Reachable(s) && Enabled(s, step)
    ensures Reachable(t) && t == Do(s, step)
  {
    Extend(s, step);
    t := Do(s, step);
  }

  /** A public connection asks for stream 2. */
  lemma Opening() returns (s: System)
    ensures s == StreamTwo(S.Conn(S.Pended, None, [], [], [], 0), true, false, S.Ready,
                           None, C.Ready, [], [])
    ensures Reachable(s)
  {
    hide Reachable;
    InitReachable();
    s := Init();
    s := Take(s, AtServer(S.Allocate));
    s := Take(s, AtServer(S.Pend(2)));
  }

  lemma Asking() returns (s: System)
    ensures s == StreamTwo(S.Conn(S.Waiting, None, [], [], [], 0), true, false, S.Ready,
                           None, C.Acking(2), [], [])
    ensures Reachable(s)
  {
    hide Reachable;
    s := Opening();
    s := Take(s, AtServer(S.SendOpen(2)));
    s := Take(s, AtClient(C.Dispatch(Open(2))));
    s := Take(s, AtClient(C.Connected));
  }

  /** The client dials its target and accepts. */
  lemma Attached() returns (s: System)
    ensures s == StreamTwo(S.Conn(S.Waiting, None, [], [], [], 0), true, false, S.Ready,
                           Some(C.Local(C.Forwarding(None), [], [], [])), C.Ready, [], [Ack(2, true)])
    ensures Reachable(s)
  {
    hide Reachable;
    s := Asking();
    s := Take(s, AtClient(C.SendAck(true)));
    s := Take(s, AtClient(C.Link));
  }

  /** The client's task sends a chunk at once. */
  lemma FirstSent() returns (s: System)
    ensures s == StreamTwo(S.Conn(S.Waiting, None, [], [], [], 0), true, false, S.Ready,
                           Some(C.Local(C.Forwarding(None), [], [FIRST], [])), C.Ready, [],
                           [Ack(2, true), Data(2, FIRST)])
    ensures Reachable(s)
  {
    hide Reachable;
    s := Attached();
    s := Take(s, AtClient(C.ReadLocal(2, FIRST)));
    s := Take(s, AtClient(C.Forward(2)));
    var none: seq<Chunk> := [];
    assert none + [FIRST] == [FIRST];
  }

  /** The server's reader takes the answer and the chunk before the server's task runs again. */
  lemma FirstDropped() returns (s: System)
    ensures s == StreamTwo(S.Conn(S.Waiting, Some(true), [], [], [], 1), false, false, S.Refusing(2),
                           Some(C.Local(C.Forwarding(None), [], [FIRST], [])), C.Ready, [], [])
    ensures Reachable(s)
  {
    hide Reachable;
    s := FirstSent();
    s := Take(s, AtServer(S.Dispatch(Ack(2, true))));
    s := Take(s, AtServer(S.Dispatch(Data(2, FIRST))));
  }

  lemma Refused() returns (s: System)
    ensures s == StreamTwo(S.Conn(S.Resolved(true), Some(true), [], [], [], 1), false, false, S.Ready,
                           Some(C.Local(C.Forwarding(None), [], [FIRST], [])), C.Ready, [Close(2)], [])
    ensures Reachable(s)
  {
    hide Reachable;
    s := FirstDropped();
    s := Take(s, AtServer(S.FinishDispatch(true)));
    s := Take(s, AtServer(S.Resolve(2)));
  }

  /** Only now does the server's task enter the stream into the table. */
  lemma Linked() returns (s: System)
    ensures s == StreamTwo(S.Conn(S.Forwarding(None), Some(true), [], [], [], 1), false, true, S.Ready,
                           Some(C.Local(C.Forwarding(None), [], [FIRST], [])), C.Ready, [Close(2)], [])
    ensures Reachable(s)
  {
    hide Reachable;
    s := Refused();
    s := Take(s, AtServer(S.Unpend(2)));
    s := Take(s, AtServer(S.Link(2)));
  }

  /** The client's task, not yet told of the refusal, sends its second chunk. */
  lemma SecondSent() returns (s: System)
    ensures s == StreamTwo(S.Conn(S.Forwarding(None), Some(true), [], [], [], 1), false, true, S.Ready,
                           Some(C.Local(C.Forwarding(None), [], [FIRST, SECOND], [])), C.Ready, [Close(2)],
                           [Data(2, SECOND)])
    ensures Reachable(s)
  {
    hide Reachable;
    s := Linked();
    s := Take(s, AtClient(C.ReadLocal(2, SECOND)));
    s := Take(s, AtClient(C.Forward(2)));
    assert [FIRST] + [SECOND] == [FIRST, SECOND];
  }

  /** The second chunk is taken. */
  lemma SecondTaken() returns (s: System)
    ensures s == StreamTwo(S.Conn(S.Forwarding(None), Some(true), [SECOND], [], [], 1), false, true, S.Ready,
                           Some(C.Local(C.Forwarding(None), [], [FIRST, SECOND], [])), C.Ready, [Close(2)], [])
    ensures Reachable(s)
  {
    hide Reachable;
    s := SecondSent();
    s := Take(s, AtServer(S.Dispatch(Data(2, SECOND))));
    s := Take(s, AtServer(S.FinishDispatch(true)));
    var none: seq<Chunk> := [];
    assert none + [SECOND] == [SECOND];
  }

  /**
   * Without the condition on early chunks upstream delivery is no prefix: in this run the client's target
   * sent two chunks and only the second one reached the public connection.
   */
  lemma EarlyDataIsLost() returns (s: System)
    ensures Reachable(s) && 2 in s.server.conns && 2 in s.client.locals
    ensures s.client.locals[2].got == [FIRST, SECOND] && s.server.conns[2].put == SECOND
    ensures s.server.conns[2].early == 1
    ensures !(s.server.conns[2].put <= Flatten(s.client.locals[2].got))
  {
    s := SecondTaken();
    s := Take(s, AtServer(S.TakeChunk(2)));
    s := Take(s, AtServer(S.WriteSome(2, 1)));
    assert Flatten([FIRST, SECOND])[0] == 1;
  }
}
