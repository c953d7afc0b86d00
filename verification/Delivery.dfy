/**
 * The two ends of a tunnel joined by two FIFO channels of frames, and what a stream delivers in each
 * direction. `Wires` puts byte streams in the place of the channels.
 */
module Delivery {
  import opened Bytes
  import opened Messages
  import opened Streams
  import S = Server
  import C = Client

  datatype System = System(server: S.Server, client: C.Client, down: seq<Message>, up: seq<Message>)

  datatype Step =
    | AtServer(sa: S.Action)
    | AtClient(ca: C.Action)
    | DownChatter(m: Message)      // heartbeat acknowledgements, datagrams and the end of the session
    | UpChatter(m: Message)        // heartbeats and datagrams

  predicate IsChatter(m: Message) {
    m.Udp? || m.Beat? || m.End? || m.Ignored?
  }

  function Init(): System {
    System(S.Init(), C.Init(), [], [])
  }

  predicate Enabled(s: System, step: Step) {
    match step
    case AtServer(a) => S.Enabled(s.server, a) && (a.Dispatch? ==> s.up != [] && a.m == s.up[0])
    case AtClient(a) => C.Enabled(s.client, a) && (a.Dispatch? ==> s.down != [] && a.m == s.down[0])
    case DownChatter(m) => IsChatter(m)
    case UpChatter(m) => IsChatter(m)
  }

  function Do(s: System, step: Step): System
    requires Enabled(s, step)
  {
    match step
    case AtServer(a) =>
      System(S.Do(s.server, a), s.client, s.down + S.Emits(s.server, a), if a.Dispatch? then s.up[1..] else s.up)
    case AtClient(a) =>
      System(s.server, C.Do(s.client, a), if a.Dispatch? then s.down[1..] else s.down, s.up + C.Emits(s.client, a))
    case DownChatter(m) => s.(down := s.down + [m])
    case UpChatter(m) => s.(up := s.up + [m])
  }

  // ---- One stream, seen at both ends ----

  function PublicEndOf(s: S.Server, x: Sid): PublicEnd {
    PublicEnd(
      if x in s.conns then Some(s.conns[x]) else None,
      x in s.streams,
      if s.reader.Delivering? && s.reader.sid == x then [s.reader.data] else [])
  }

  function LocalEndOf(c: C.Client, x: Sid): LocalEnd {
    LocalEnd(
      if x in c.locals then Some(c.locals[x]) else None,
      x in c.streams,
      if c.reader.Delivering? && c.reader.sid == x then [c.reader.data] else [],
      (c.reader.Connecting? || c.reader.Acking? || c.reader.Linking?) && c.reader.sid == x,
      x in c.seen)
  }

  function ViewOf(s: System, x: Sid): View {
    View(PublicEndOf(s.server, x), LocalEndOf(s.client, x), Wire(s.down, x), DataOf(s.up, x))
  }

  // ---- A step about another stream ----

  /** The stream a server step is about, if any. */
  function ServerSubject(s: S.Server, a: S.Action): Option<Sid> {
    match a
    case Allocate => Some(s.next)
    case Dispatch(m) => SidOf(m)
    case FinishDispatch(_) => if s.reader == S.Ready then None else Some(s.reader.sid)
    case AllocateUdp => None
    case InsertUdp(_) => None
    case RemoveUdp(_) => None
    case _ => Some(a.x)
  }

  function ClientSubject(c: C.Client, a: C.Action): Option<Sid> {
    match a
    case Dispatch(m) => SidOf(m)
    case ReadLocal(x, _) => Some(x)
    case Forward(x) => Some(x)
    case ForwardFails(x) => Some(x)
    case TakeChunk(x) => Some(x)
    case WriteSome(x, _) => Some(x)
    case WriteDone(x) => Some(x)
    case WriteFails(x) => Some(x)
    case Break(x) => Some(x)
    case CloseTunnelSide(x, _) => Some(x)
    case Unlink(x) => Some(x)
    case EndSession => None
    case _ => if c.reader == C.Ready || c.reader == C.Stopped then None else Some(c.reader.sid)
  }

  lemma ServerFrame(s: S.Server, a: S.Action, x: Sid)
    requires S.Enabled(s, a) && ServerSubject(s, a) != Some(x)
    ensures PublicEndOf(S.Do(s, a), x) == PublicEndOf(s, x)
  {
  }

  lemma ServerEmitsAboutSubject(s: S.Server, a: S.Action)
    requires S.Enabled(s, a)
    ensures var e := S.Emits(s, a); |e| <= 1 && (e != [] ==> SidOf(e[0]) == ServerSubject(s, a))
  {
  }

  lemma ClientFrame(c: C.Client, a: C.Action, x: Sid)
    requires C.Enabled(c, a) && ClientSubject(c, a) != Some(x) && a != C.EndSession
    ensures LocalEndOf(C.Do(c, a), x) == LocalEndOf(c, x)
  {
  }

  lemma ClientEmitsAboutSubject(c: C.Client, a: C.Action)
    requires C.Enabled(c, a)
    ensures var e := C.Emits(c, a); |e| <= 1 && (e != [] ==> SidOf(e[0]) == ClientSubject(c, a))
  {
  }

  /** A step about another stream, or about none, does not show at either end of this one. */
  lemma StepFrame(s: System, step: Step, x: Sid)
    requires Enabled(s, step)
    requires step.AtServer? ==> ServerSubject(s.server, step.sa) != Some(x)
    requires step.AtClient? ==> ClientSubject(s.client, step.ca) != Some(x) && step.ca != C.EndSession
    ensures ViewOf(Do(s, step), x) == ViewOf(s, x)
  {
    hide S.Do, S.Emits, S.Enabled, C.Do, C.Emits, C.Enabled, PublicEndOf, LocalEndOf, DataOf, Wire;
    match step
    case AtServer(a) =>
      ServerFrame(s.server, a, x);
      ServerEmitsAboutSubject(s.server, a);
      AppendQuiet(s.down, S.Emits(s.server, a), x);
      if a.Dispatch? {
        TakeQuiet(s.up, x);
      }
    case AtClient(a) =>
      ClientFrame(s.client, a, x);
      ClientEmitsAboutSubject(s.client, a);
      AppendQuiet(s.up, C.Emits(s.client, a), x);
      if a.Dispatch? {
        TakeQuiet(s.down, x);
      }
    case DownChatter(m) =>
      AppendQuiet(s.down, [m], x);
    case UpChatter(m) =>
      AppendQuiet(s.up, [m], x);
  }

  // ---- A step about this stream ----

  ghost predicate ServerStepKeepsView(s: System, a: S.Action, x: Sid)
    requires Enabled(s, AtServer(a))
  {
    ViewInv(ViewOf(Do(s, AtServer(a)), x))
  }

  ghost predicate ClientStepKeepsView(s: System, a: C.Action, x: Sid)
    requires Enabled(s, AtClient(a))
  {
    ViewInv(ViewOf(Do(s, AtClient(a)), x))
  }

  /** Steps of a public connection up to its entry into the stream table. */
  lemma OpeningKeepsView(s: System, a: S.Action, x: Sid)
    requires Enabled(s, AtServer(a)) && S.IsOpening(a) && ServerSubject(s.server, a) == Some(x)
    requires S.InvAt(s.server, x) && ViewInv(ViewOf(s, x))
    ensures ServerStepKeepsView(s, a, x)
  {
    hide ViewInv, Wire, DataOf;
    var v, w := ViewOf(s, x), ViewOf(Do(s, AtServer(a)), x);
    assert s.down + [] == s.down;
    if a.Allocate? {
      Reserve(v);
    } else if a.SendOpen? {
      WireGrows(s.down, Open(x), x);
      assert w.down == v.down.(opens := v.down.opens + 1);
      OpenSent(v);
    } else if a.Link? {
      LinkPublic(v);
    } else {
      MoveBeforeLink(v, w.pub.conn.value.phase);
      assert w == WithConn(v, v.pub.conn.value.(phase := w.pub.conn.value.phase));
    }
  }

  /** Steps of a public connection that forwards. */
  lemma ForwardingKeepsView(s: System, a: S.Action, x: Sid)
    requires a.ReadPublic? || a.Forward? || a.TakeChunk? || a.WriteSome? || a.WriteDone?
    requires Enabled(s, AtServer(a)) && a.x == x && ViewInv(ViewOf(s, x))
    ensures ServerStepKeepsView(s, a, x)
  {
    hide ViewInv, Wire, DataOf;
    var v, w := ViewOf(s, x), ViewOf(Do(s, AtServer(a)), x);
    assert s.down + [] == s.down;
    if a.ReadPublic? {
      PublicReads(v, a.data);
    } else if a.Forward? {
      var c := s.server.conns[x].phase.held.value;
      WireGrows(s.down, Data(x, c), x);
      OpenIsAhead(v);
      assert w.down == Downward(v.down.opens, w.down.openFirst, v.down.data + [c]);
      PublicForwardsChunk(v, c, w.down.openFirst);
    } else if a.TakeChunk? {
      PublicTakes(v);
    } else if a.WriteSome? {
      PublicWrites(v, a.k);
    } else {
      PublicWrote(v);
    }
  }

  predicate IsLeaving(a: S.Action) {
    a.ForwardFails? || a.WriteFails? || a.Break? || a.CloseFirst? || a.Unlink? || a.CloseLast?
  }

  /** Steps of a public connection from the select loop to its end. */
  lemma LeavingKeepsView(s: System, a: S.Action, x: Sid)
    requires IsLeaving(a) && Enabled(s, AtServer(a)) && a.x == x && ViewInv(ViewOf(s, x))
    ensures ServerStepKeepsView(s, a, x)
  {
    hide ViewInv, Wire, DataOf;
    var v := ViewOf(s, x);
    AppendQuiet(s.down, S.Emits(s.server, a), x);
    LinkedForwards(v);
    if a.ForwardFails? || a.WriteFails? || a.Break? {
      PublicLeaves(v, S.Breaking, v.pub.linked);
    } else if a.CloseFirst? {
      PublicLeaves(v, S.Unlinking, v.pub.linked);
    } else if a.Unlink? {
      PublicLeaves(v, S.Finishing, false);
    } else {
      PublicLeaves(v, S.Finished(true), v.pub.linked);
    }
  }

  lemma LinkedForwards(v: View)
    requires ViewInv(v)
    ensures v.pub.linked ==> v.pub.conn.Some? && S.MayBeLinked(v.pub.conn.value.phase)
  {
  }

  /** What the server's reader does with a frame about this stream. */
  lemma ServerDispatchKeepsView(s: System, m: Message, x: Sid)
    requires Enabled(s, AtServer(S.Dispatch(m))) && SidOf(m) == Some(x)
    requires S.InvAt(s.server, x) && ViewInv(ViewOf(s, x))
    ensures ServerStepKeepsView(s, S.Dispatch(m), x)
  {
    hide ViewInv, Wire;
    var v, w := ViewOf(s, x), ViewOf(Do(s, AtServer(S.Dispatch(m))), x);
    assert s.down + [] == s.down;
    if m.Data? {
      assert v.up == [m.data] + w.up;
      if x in s.server.streams {
        ServerTakesData(v);
      } else if BeforeLink(v) {
        ServerDropsEarly(v);
      } else {
        ServerDropsLate(v);
      }
    } else {
      assert w.up == v.up;
      if m.Ack? && x in s.server.pending {
        Answered(v, Some(m.ok));
      } else if m.Close? {
        ServerUnlinks(v);
      }
    }
  }

  lemma ServerFinishKeepsView(s: System, sent: bool, x: Sid)
    requires Enabled(s, AtServer(S.FinishDispatch(sent))) && s.server.reader.sid == x
    requires S.InvAt(s.server, x) && ViewInv(ViewOf(s, x))
    ensures ServerStepKeepsView(s, S.FinishDispatch(sent), x)
  {
    hide ViewInv, Wire, DataOf;
    var v := ViewOf(s, x);
    AppendQuiet(s.down, S.Emits(s.server, S.FinishDispatch(sent)), x);
    if s.server.reader.Delivering? {
      ServerDelivers(v, s.server.reader.data);
    }
  }

  /** What the client's reader does with a frame about this stream. */
  lemma ClientDispatchKeepsView(s: System, m: Message, x: Sid)
    requires Enabled(s, AtClient(C.Dispatch(m))) && SidOf(m) == Some(x) && ViewInv(ViewOf(s, x))
    ensures ClientStepKeepsView(s, C.Dispatch(m), x)
  {
    hide ViewInv, DataOf;
    var v, w := ViewOf(s, x), ViewOf(Do(s, AtClient(C.Dispatch(m))), x);
    assert s.up + [] == s.up;
    if m.Open? {
      ClientTakesOpen(v, w.down.openFirst);
      assert w.down == Downward(v.down.opens - 1, w.down.openFirst, v.down.data);
    } else if m.Data? {
      assert v.down == Downward(w.down.opens, false, [m.data] + w.down.data);
      if x in s.client.streams {
        ClientTakesData(v, w.down.openFirst);
      } else {
        SeenUnlessOpenFirst(v);
        ClientDropsData(v, w.down.openFirst);
      }
    } else {
      TakeQuiet(s.down, x);
      if m.Close? {
        ClientUnbinds(v, v.loc.landing);
      }
    }
  }

  lemma SeenUnlessOpenFirst(v: View)
    requires ViewInv(v)
    ensures v.loc.seen || v.down.openFirst
  {
  }

  predicate IsAttaching(a: C.Action) {
    a.Connected? || a.ConnectFails? || a.SendAck? || a.Link? || a.SendNack? || a.Deliver?
  }

  /** The client's reader between taking a frame and being ready for the next. */
  lemma AttachingKeepsView(s: System, a: C.Action, x: Sid)
    requires IsAttaching(a) && Enabled(s, AtClient(a)) && s.client.reader.sid == x && ViewInv(ViewOf(s, x))
    ensures ClientStepKeepsView(s, a, x)
  {
    hide ViewInv, Wire, DataOf;
    var v := ViewOf(s, x);
    AppendQuiet(s.up, C.Emits(s.client, a), x);
    if a.ConnectFails? {
      ClientGivesUp(v);
    } else if a.Link? {
      ClientLinks(v);
    } else if a.Deliver? {
      LandingHasLocal(v);
      ClientDelivers(v, s.client.reader.data);
    }
  }

  lemma LandingHasLocal(v: View)
    requires ViewInv(v)
    ensures v.loc.landing != [] ==> v.loc.local.Some?
  {
  }

  /** Steps of a local target's task. */
  lemma LocalStepKeepsView(s: System, a: C.Action, x: Sid)
    requires !IsAttaching(a) && !a.Dispatch? && !a.EndSession?
    requires Enabled(s, AtClient(a)) && a.x == x && ViewInv(ViewOf(s, x))
    ensures ClientStepKeepsView(s, a, x)
  {
    hide ViewInv, Wire, DataOf;
    var v, w := ViewOf(s, x), ViewOf(Do(s, AtClient(a)), x);
    if a.ReadLocal? {
      assert s.up + [] == s.up;
      LocalReads(v, a.data);
    } else if a.Forward? {
      var c := s.client.locals[x].phase.held.value;
      DataGrows(s.up, Data(x, c), x);
      LocalForwardsChunk(v, c);
    } else if a.TakeChunk? || a.WriteSome? || a.WriteDone? {
      assert s.up + [] == s.up;
      LocalWriteKeepsView(s, a, x);
    } else {
      AppendQuiet(s.up, C.Emits(s.client, a), x);
      LocalLeaves(v, w.loc.local.value.phase, w.loc.bound);
      assert w == v.(loc := v.loc.(local := Some(v.loc.local.value.(phase := w.loc.local.value.phase)),
                                   bound := w.loc.bound));
    }
  }

  lemma LocalWriteKeepsView(s: System, a: C.Action, x: Sid)
    requires a.TakeChunk? || a.WriteSome? || a.WriteDone?
    requires Enabled(s, AtClient(a)) && a.x == x && ViewInv(ViewOf(s, x))
    ensures ClientStepKeepsView(s, a, x)
  {
    hide ViewInv, Wire, DataOf;
    var v := ViewOf(s, x);
    assert s.up + [] == s.up;
    if a.TakeChunk? {
      LocalTakes(v);
    } else if a.WriteSome? {
      LocalWrites(v, a.k);
    } else {
      LocalWrote(v);
    }
  }

  /** The end of the client's session takes every stream out of its table at once. */
  lemma EndOfSessionKeepsView(s: System, x: Sid)
    requires ViewInv(ViewOf(s, x))
    ensures ClientStepKeepsView(s, C.EndSession, x)
  {
    hide ViewInv, Wire, DataOf;
    var v := ViewOf(s, x);
    assert s.up + [] == s.up;
    if v.loc.attaching {
      ClientGivesUp(v);
      ClientUnbinds(v.(loc := v.loc.(attaching := false)), []);
    } else {
      ClientUnbinds(v, []);
    }
  }

  // ---- All runs ----

  ghost predicate Inv(s: System) {
    S.Inv(s.server) && forall x :: ViewInv(ViewOf(s, x))
  }

  lemma StepKeepsView(s: System, step: Step, x: Sid)
    requires Enabled(s, step) && S.InvAt(s.server, x) && ViewInv(ViewOf(s, x))
    ensures ViewInv(ViewOf(Do(s, step), x))
  {
    hide ViewInv, ViewOf, S.Do, S.Emits, C.Do, C.Emits, Do, S.InvAt;
    match step
    case AtServer(a) =>
      if ServerSubject(s.server, a) != Some(x) {
        StepFrame(s, step, x);
      } else if S.IsOpening(a) {
        OpeningKeepsView(s, a, x);
      } else if IsLeaving(a) {
        LeavingKeepsView(s, a, x);
      } else if a.Dispatch? {
        ServerDispatchKeepsView(s, a.m, x);
      } else if a.FinishDispatch? {
        ServerFinishKeepsView(s, a.sent, x);
      } else {
        ForwardingKeepsView(s, a, x);
      }
    case AtClient(a) =>
      if a.EndSession? {
        EndOfSessionKeepsView(s, x);
      } else if ClientSubject(s.client, a) != Some(x) {
        StepFrame(s, step, x);
      } else if a.Dispatch? {
        ClientDispatchKeepsView(s, a.m, x);
      } else if IsAttaching(a) {
        AttachingKeepsView(s, a, x);
      } else {
        LocalStepKeepsView(s, a, x);
      }
    case _ =>
      StepFrame(s, step, x);
  }

  lemma StepKeepsInv(s: System, step: Step)
    requires Enabled(s, step) && Inv(s)
    ensures Inv(Do(s, step))
  {
    hide ViewInv, ViewOf, S.InvAt, S.Do, C.Do;
    if step.AtServer? {
      S.StepKeepsInv(s.server, step.sa);
    }
    forall x
      ensures ViewInv(ViewOf(Do(s, step), x))
    {
      assert S.InvAt(s.server, x);
      StepKeepsView(s, step, x);
    }
  }

  lemma InitInv()
    ensures Inv(Init())
  {
    S.InitInv();
    forall x
      ensures ViewInv(ViewOf(Init(), x))
    {
      var none: seq<Chunk> := [];
      assert none + none == none;
      assert ViewOf(Init(), x).down == Downward(0, true, []);
    }
  }

  ghost predicate IsRun(states: seq<System>, steps: seq<Step>) {
    && |states| == |steps| + 1
    && states[0] == Init()
    && forall i :: 0 <= i < |steps| ==> Enabled(states[i], steps[i]) && states[i + 1] == Do(states[i], steps[i])
  }

  lemma {:induction false} RunKeepsInv(states: seq<System>, steps: seq<Step>, i: nat)
    requires IsRun(states, steps) && i < |states|
    ensures Inv(states[i])
  {
    hide Inv, Do, Enabled;
    if i == 0 {
      InitInv();
    } else {
      RunKeepsInv(states, steps, i - 1);
      assert states[i - 1 + 1] == Do(states[i - 1], steps[i - 1]);
      StepKeepsInv(states[i - 1], steps[i - 1]);
    }
  }

  /**
   * Downwards nothing is reordered, repeated or skipped: in every run, what a local target has been sent is
   * a prefix of what was read from the one public connection that was given the stream's id.
   */
  lemma DownstreamDelivery(states: seq<System>, steps: seq<Step>, i: nat, x: Sid)
    requires IsRun(states, steps) && i < |states| && x in states[i].client.locals
    ensures x in states[i].server.conns
    ensures states[i].client.locals[x].put <= Flatten(states[i].server.conns[x].got)
  {
    RunKeepsInv(states, steps, i);
    assert ViewInv(ViewOf(states[i], x));
  }

  lemma {:induction false} WireData(ch: seq<Message>, x: Sid)
    ensures Wire(ch, x).data == DataOf(ch, x)
  {
    if ch != [] {
      WireData(ch[1..], x);
    }
  }

  /** While both ends forward and the client holds the stream, nothing but what is in between is missing. */
  lemma NothingLostDownwards(states: seq<System>, steps: seq<Step>, i: nat, x: Sid)
    requires IsRun(states, steps) && i < |states|
    requires x in states[i].server.conns && states[i].server.conns[x].phase == S.Forwarding(None)
    requires x in states[i].client.locals && states[i].client.locals[x].phase.Forwarding?
        && x in states[i].client.streams
    requires states[i].client.locals[x].queue == [] && DataOf(states[i].down, x) == []
    requires !states[i].client.reader.Delivering?
    ensures states[i].client.locals[x].put == Flatten(states[i].server.conns[x].got)
  {
    RunKeepsInv(states, steps, i);
    var v := ViewOf(states[i], x);
    assert ViewInv(v);
    WireData(states[i].down, x);
    assert (LocalQueue(v) + v.loc.landing) + (v.down.data + HeldPublic(v)) == [];
  }

  /**
   * Upwards the reader drops what it dispatches before the stream is in the table, and exactly that: in
   * every run, what a public connection has been sent is a prefix of what its own local target's task read
   * from the first chunk on that was not dispatched too early.
   */
  lemma UpstreamDelivery(states: seq<System>, steps: seq<Step>, i: nat, x: Sid)
    requires IsRun(states, steps) && i < |states| && x in states[i].server.conns
    ensures var c := states[i].server.conns[x];
      var got := if x in states[i].client.locals then states[i].client.locals[x].got else [];
      && c.early <= |got|
      && c.put <= Flatten(got[c.early..])
      && (c.early == 0 ==> c.put <= Flatten(got))
  {
    RunKeepsInv(states, steps, i);
    assert ViewInv(ViewOf(states[i], x));
  }

  /** The same upwards, for what came after the early chunks. */
  lemma NothingLostUpwards(states: seq<System>, steps: seq<Step>, i: nat, x: Sid)
    requires IsRun(states, steps) && i < |states|
    requires x in states[i].server.conns && states[i].server.conns[x].phase.Forwarding? && x in states[i].server.streams
    requires x in states[i].client.locals && states[i].client.locals[x].phase == C.Forwarding(None)
    requires states[i].server.conns[x].queue == [] && DataOf(states[i].up, x) == []
    requires !states[i].server.reader.Delivering?
    ensures var c := states[i].server.conns[x];
      c.early <= |states[i].client.locals[x].got| && c.put == Flatten(states[i].client.locals[x].got[c.early..])
  {
    RunKeepsInv(states, steps, i);
    var v := ViewOf(states[i], x);
    assert ViewInv(v);
    assert (PublicFront(v.pub.conn.value) + v.pub.arriving) + (v.up + HeldLocal(v)) == [];
  }

  /** A STREAM_OPEN about to be taken is the first and only one of its stream. */
  lemma OpenComesOnce(states: seq<System>, steps: seq<Step>, i: nat, x: Sid)
    requires IsRun(states, steps) && i < |states| && states[i].down != [] && states[i].down[0] == Open(x)
    ensures x !in states[i].client.seen && x !in states[i].client.locals && x in states[i].server.conns
    ensures Wire(states[i].down[1..], x).opens == 0
  {
    RunKeepsInv(states, steps, i);
    assert ViewInv(ViewOf(states[i], x));
  }

  lemma {:induction false} NonemptyFlatten(chunks: seq<Chunk>)
    requires forall k :: 0 <= k < |chunks| ==> chunks[k] != []
    ensures Flatten(chunks) == [] <==> chunks == []
  {
    if chunks != [] {
      assert |Flatten(chunks)| >= |chunks[0]|;
    }
  }

  /** With nothing in between any more, everything has arrived upwards exactly if no chunk came too early. */
  lemma AllArrivesUpwardsIff(states: seq<System>, steps: seq<Step>, i: nat, x: Sid)
    requires IsRun(states, steps) && i < |states|
    requires x in states[i].server.conns && states[i].server.conns[x].phase.Forwarding? && x in states[i].server.streams
    requires x in states[i].client.locals && states[i].client.locals[x].phase == C.Forwarding(None)
    requires states[i].server.conns[x].queue == [] && DataOf(states[i].up, x) == []
    requires !states[i].server.reader.Delivering?
    requires forall k :: 0 <= k < |states[i].client.locals[x].got| ==> states[i].client.locals[x].got[k] != []
    ensures states[i].server.conns[x].put == Flatten(states[i].client.locals[x].got)
        <==> states[i].server.conns[x].early == 0
  {
    hide IsRun, Flatten;
    NothingLostUpwards(states, steps, i, x);
    var early, got := states[i].server.conns[x].early, states[i].client.locals[x].got;
    assert got == got[..early] + got[early..];
    FlattenAppend(got[..early], got[early..]);
    NonemptyFlatten(got[..early]);
  }

  ghost predicate Reachable(s: System) {
    exists states, steps :: IsRun(states, steps) && states[|steps|] == s
  }

  lemma InitReachable()
    ensures Reachable(Init())
  {
    assert IsRun([Init()], []);
  }

  lemma Extend(s: System, step: Step)
    requires Reachable(s) && Enabled(s, step)
    ensures Reachable(Do(s, step))
  {
    hide Do, Enabled;
    var states, steps :| IsRun(states, steps) && states[|steps|] == s;
    assert IsRun(states + [Do(s, step)], steps + [step]);
  }
}
