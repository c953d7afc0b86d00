/**
 * The server's half of a tunnel as a step system (src/server/tunnel.rs, src/server/listener.rs).
 *
 * Every public connection is handled by its own task, the reader task dispatches what the client sends,
 * and UDP listeners share the id allocator and the session. A step is what one task does between two
 * points where another task can run; shared tables are `pending`, `streams` and `udp`.
 */
module Server {
  import opened Allocator
  import opened Bytes
  import opened Messages

  /** Where the task of one public connection stands. */
  datatype Phase =
    | Reserved                            // has its id
    | Pended                              // is in the pending table
    | Waiting                             // STREAM_OPEN is queued; waits for the answer
    | Resolved(ok: bool)                  // answered or timed out
    | Accepted                            // out of the pending table, accepted
    | Forwarding(held: Option<Chunk>)     // in the select loop; `held` is read and not yet queued
    | Writing(rest: Chunk)                // in the select loop, writing what is left of a chunk
    | Breaking                            // left the loop
    | Unlinking                           // sent the first STREAM_CLOSE
    | Finishing                           // out of the stream table
    | Finished(served: bool)              // over, after forwarding or without it

  datatype Conn = Conn(
    phase: Phase,
    answer: Option<bool>,       // what the reader delivered through the oneshot channel
    queue: seq<Chunk>,          // the stream's data channel
    got: seq<Chunk>,            // history: chunks read from the public socket
    put: seq<Byte>,             // history: bytes written to the public socket
    early: nat)                 // history: chunks dispatched before the stream was in the table

  /** The reader between two awaits of one dispatch: delivering to a channel, or refusing with a close. */
  datatype Reader = Ready | Delivering(sid: Sid, data: Chunk) | Refusing(sid: Sid)

  datatype Server = Server(
    next: nat,
    conns: map<Sid, Conn>,
    pending: set<Sid>,
    streams: set<Sid>,
    udpIds: set<Sid>,
    udp: set<Sid>,
    reader: Reader)

  datatype Action =
    | Allocate
    | Pend(x: Sid)
    | SendOpen(x: Sid)
    | OpenFails(x: Sid)
    | Resolve(x: Sid)
    | TimeOut(x: Sid)
    | Unpend(x: Sid)
    | Link(x: Sid)
    | ReadPublic(x: Sid, data: Chunk)
    | Forward(x: Sid)
    | ForwardFails(x: Sid)
    | TakeChunk(x: Sid)
    | WriteSome(x: Sid, k: nat)
    | WriteDone(x: Sid)
    | WriteFails(x: Sid)
    | Break(x: Sid)
    | CloseFirst(x: Sid, sent: bool)
    | Unlink(x: Sid)
    | CloseLast(x: Sid, sent: bool)
    | Dispatch(m: Message)
    | FinishDispatch(sent: bool)
    | AllocateUdp
    | InsertUdp(x: Sid)
    | RemoveUdp(x: Sid)

  function Init(): Server {
    Server(SERVER_START, map[], {}, {}, {}, {}, Ready)
  }

  predicate At(s: Server, x: Sid, p: Phase) {
    x in s.conns && s.conns[x].phase == p
  }

  predicate Enabled(s: Server, a: Action) {
    match a
    case Allocate => s.next <= MAX_STREAMS
    case Pend(x) => At(s, x, Reserved)
    case SendOpen(x) => At(s, x, Pended)
    case OpenFails(x) => At(s, x, Pended)
    case Resolve(x) => At(s, x, Waiting) && s.conns[x].answer.Some?
    case TimeOut(x) => At(s, x, Waiting)
    case Unpend(x) => x in s.conns && s.conns[x].phase.Resolved?
    case Link(x) => At(s, x, Accepted)
    case ReadPublic(x, data) => At(s, x, Forwarding(None))
    case Forward(x) => x in s.conns && s.conns[x].phase.Forwarding? && s.conns[x].phase.held.Some?
    case ForwardFails(x) => x in s.conns && s.conns[x].phase.Forwarding? && s.conns[x].phase.held.Some?
    case TakeChunk(x) => At(s, x, Forwarding(None)) && s.conns[x].queue != []
    case WriteSome(x, k) => x in s.conns && s.conns[x].phase.Writing? && k <= |s.conns[x].phase.rest|
    case WriteDone(x) => At(s, x, Writing([]))
    case WriteFails(x) => x in s.conns && s.conns[x].phase.Writing?
    case Break(x) => At(s, x, Forwarding(None))
    case CloseFirst(x, _) => At(s, x, Breaking)
    case Unlink(x) => At(s, x, Unlinking)
    case CloseLast(x, _) => At(s, x, Finishing)
    case Dispatch(_) => s.reader == Ready
    case FinishDispatch(_) => s.reader != Ready
    case AllocateUdp => s.next <= MAX_STREAMS
    case InsertUdp(x) => x in s.udpIds
    case RemoveUdp(x) => x in s.udpIds
  }

  function SetPhase(s: Server, x: Sid, p: Phase): Server
    requires x in s.conns
  {
    s.(conns := s.conns[x := s.conns[x].(phase := p)])
  }

  /** Not yet through `Link`: data for the stream is refused. */
  predicate BeforeLink(p: Phase) {
    p.Reserved? || p.Pended? || p.Waiting? || p.Resolved? || p.Accepted?
  }

  /** The first half of `dispatch_frame`: table lookups and updates, up to the first await. */
  function Receive(s: Server, m: Message): Server {
    match m
    case Ack(x, ok) =>
      if x in s.pending then
        var s1 := s.(pending := s.pending - {x});
        if x in s.conns then s1.(conns := s.conns[x := s.conns[x].(answer := Some(ok))]) else s1
      else s
    case Data(x, data) =>
      if x in s.streams then s.(reader := Delivering(x, data))
      else
        var s1 := s.(reader := Refusing(x));
        if x in s.conns && BeforeLink(s.conns[x].phase)
        then s1.(conns := s.conns[x := s.conns[x].(early := s.conns[x].early + 1)]) else s1
    case Close(x) => s.(streams := s.streams - {x})
    case _ => s
  }

  function Do(s: Server, a: Action): Server
    requires Enabled(s, a)
  {
    match a
    case Allocate =>
      s.(next := s.next + 2, conns := s.conns[s.next := Conn(Reserved, None, [], [], [], 0)])
    case Pend(x) => SetPhase(s, x, Pended).(pending := s.pending + {x})
    case SendOpen(x) => SetPhase(s, x, Waiting)
    case OpenFails(x) => SetPhase(s, x, Finished(false)).(pending := s.pending - {x})
    case Resolve(x) => SetPhase(s, x, Resolved(s.conns[x].answer.value))
    case TimeOut(x) => SetPhase(s, x, Resolved(false))
    case Unpend(x) =>
      SetPhase(s, x, if s.conns[x].phase.ok then Accepted else Finished(false)).(pending := s.pending - {x})
    case Link(x) => SetPhase(s, x, Forwarding(None)).(streams := s.streams + {x})
    case ReadPublic(x, data) =>
      s.(conns := s.conns[x := s.conns[x].(phase := Forwarding(Some(data)), got := s.conns[x].got + [data])])
    case Forward(x) => SetPhase(s, x, Forwarding(None))
    case ForwardFails(x) => SetPhase(s, x, Breaking)
    case TakeChunk(x) =>
      var c := s.conns[x];
      s.(conns := s.conns[x := c.(phase := Writing(c.queue[0]), queue := c.queue[1..])])
    case WriteSome(x, k) =>
      var c := s.conns[x];
      s.(conns := s.conns[x := c.(phase := Writing(c.phase.rest[k..]), put := c.put + c.phase.rest[..k])])
    case WriteDone(x) => SetPhase(s, x, Forwarding(None))
    case WriteFails(x) => SetPhase(s, x, Breaking)
    case Break(x) => SetPhase(s, x, Breaking)
    case CloseFirst(x, _) => SetPhase(s, x, Unlinking)
    case Unlink(x) => SetPhase(s, x, Finishing).(streams := s.streams - {x})
    case CloseLast(x, _) => SetPhase(s, x, Finished(true))
    case Dispatch(m) => Receive(s, m)
    case FinishDispatch(_) =>
      var s1 := s.(reader := Ready);
      if s.reader.Delivering? && s.reader.sid in s.conns && ReceiverAlive(s.conns[s.reader.sid].phase) then
        var x := s.reader.sid;
        s1.(conns := s.conns[x := s.conns[x].(queue := s.conns[x].queue + [s.reader.data])])
      else s1
    case AllocateUdp => s.(next := s.next + 2, udpIds := s.udpIds + {s.next})
    case InsertUdp(x) => s.(udp := s.udp + {x})
    case RemoveUdp(x) => s.(udp := s.udp - {x})
  }

  /** The receiving end of the data channel lives as long as the forwarding call. */
  predicate ReceiverAlive(p: Phase) {
    p.Forwarding? || p.Writing? || p.Breaking?
  }

  /** The frames a step queues for the client. */
  function Emits(s: Server, a: Action): seq<Message>
    requires Enabled(s, a)
  {
    match a
    case SendOpen(x) => [Open(x)]
    case Forward(x) => [Data(x, s.conns[x].phase.held.value)]
    case CloseFirst(x, sent) => if sent then [Close(x)] else []
    case CloseLast(x, sent) => if sent then [Close(x)] else []
    case FinishDispatch(sent) => if s.reader.Refusing? && sent then [Close(s.reader.sid)] else []
    case _ => []
  }

  // ---- Invariant of the tables ----

  ghost predicate InvAt(s: Server, x: Sid) {
    && (x in s.conns || x in s.udpIds ==> x < s.next && x % 2 == 0)
    && !(x in s.conns && x in s.udpIds)
    && (x in s.pending ==> x in s.conns && MayBePending(s.conns[x].phase) && s.conns[x].answer == None)
    && (x in s.streams ==> x in s.conns && MayBeLinked(s.conns[x].phase))
    && (x in s.udp ==> x in s.udpIds)
    && (x in s.conns ==> ConnInv(s.conns[x]))
    && (s.reader.Delivering? && s.reader.sid == x ==> x in s.conns && !BeforeLink(s.conns[x].phase))
  }

  predicate MayBePending(p: Phase) {
    p.Pended? || p.Waiting? || p.Resolved?
  }

  predicate MayBeLinked(p: Phase) {
    p.Forwarding? || p.Writing? || p.Breaking? || p.Unlinking?
  }

  ghost predicate ConnInv(c: Conn) {
    && (c.phase.Resolved? && c.phase.ok ==> c.answer == Some(true))
    && (c.phase.Accepted? || MayBeLinked(c.phase) || c.phase.Finishing? ==> c.answer == Some(true))
    && (c.phase == Finished(true) ==> c.answer == Some(true))
    && (BeforeLink(c.phase) ==> c.queue == [] && c.got == [] && c.put == [])
    && (c.phase.Reserved? ==> c.answer == None)
  }

  ghost predicate Inv(s: Server) {
    && 2 <= s.next <= MAX_STREAMS + 1 && s.next % 2 == 0
    && forall x :: InvAt(s, x)
  }

  lemma InitInv()
    ensures Inv(Init())
  {
  }

  /** A step keeps the tables consistent, whatever the client sends. */
  lemma StepKeepsInv(s: Server, a: Action)
    requires Inv(s) && Enabled(s, a)
    ensures Inv(Do(s, a))
  {
    forall x
      ensures InvAt(Do(s, a), x)
    {
      assert InvAt(s, x);
      assert InvAt(s, s.next);
      StepKeepsInvAt(s, a, x);
    }
  }

  lemma StepKeepsInvAt(s: Server, a: Action, x: Sid)
    requires Enabled(s, a) && InvAt(s, x) && InvAt(s, s.next) && s.next % 2 == 0
    ensures InvAt(Do(s, a), x)
  {
    if IsOpening(a) {
      OpeningKeepsInvAt(s, a, x);
    } else if a.Dispatch? || a.FinishDispatch? {
      DispatchKeepsInvAt(s, a, x);
    } else {
      OtherStepKeepsInvAt(s, a, x);
    }
  }

  predicate IsOpening(a: Action) {
    a.Allocate? || a.Pend? || a.SendOpen? || a.OpenFails? || a.Resolve? || a.TimeOut? || a.Unpend? || a.Link?
  }

  lemma OpeningKeepsInvAt(s: Server, a: Action, x: Sid)
    requires IsOpening(a) && Enabled(s, a) && InvAt(s, x) && InvAt(s, s.next) && s.next % 2 == 0
    ensures InvAt(Do(s, a), x)
  {
  }

  lemma DispatchKeepsInvAt(s: Server, a: Action, x: Sid)
    requires (a.Dispatch? || a.FinishDispatch?) && Enabled(s, a) && InvAt(s, x)
    ensures InvAt(Do(s, a), x)
  {
  }

  predicate IsForwarding(a: Action) {
    a.ReadPublic? || a.Forward? || a.ForwardFails? || a.TakeChunk? || a.WriteSome? || a.WriteDone? || a.WriteFails?
  }

  lemma OtherStepKeepsInvAt(s: Server, a: Action, x: Sid)
    requires !IsOpening(a) && !a.Dispatch? && !a.FinishDispatch?
    requires Enabled(s, a) && InvAt(s, x) && InvAt(s, s.next) && s.next % 2 == 0
    ensures InvAt(Do(s, a), x)
  {
    hide InvAt, Do, Enabled;
    if IsForwarding(a) {
      ForwardingKeepsInvAt(s, a, x);
    } else {
      ClosingKeepsInvAt(s, a, x);
    }
  }

  lemma ForwardingKeepsInvAt(s: Server, a: Action, x: Sid)
    requires IsForwarding(a) && Enabled(s, a) && InvAt(s, x)
    ensures InvAt(Do(s, a), x)
  {
  }

  lemma ClosingKeepsInvAt(s: Server, a: Action, x: Sid)
    requires !IsOpening(a) && !a.Dispatch? && !a.FinishDispatch? && !IsForwarding(a)
    requires Enabled(s, a) && InvAt(s, x) && InvAt(s, s.next) && s.next % 2 == 0
    ensures InvAt(Do(s, a), x)
  {
  }

  // ---- Runs in which the client may send anything ----

  ghost predicate IsRun(states: seq<Server>, actions: seq<Action>) {
    && |states| == |actions| + 1
    && states[0] == Init()
    && forall i :: 0 <= i < |actions| ==> Enabled(states[i], actions[i]) && states[i + 1] == Do(states[i], actions[i])
  }

  lemma {:induction false} RunKeepsInv(states: seq<Server>, actions: seq<Action>, i: nat)
    requires IsRun(states, actions) && i < |states|
    ensures Inv(states[i])
  {
    hide Do, Enabled, Inv;
    if i == 0 {
      InitInv();
    } else {
      RunKeepsInv(states, actions, i - 1);
      assert states[i - 1 + 1] == Do(states[i - 1], actions[i - 1]);
      StepKeepsInv(states[i - 1], actions[i - 1]);
    }
  }

  /** Where an id stands, read off the tables and the task that owns it. */
  datatype Stage = Fresh | InPending | Decided | InStreams | Past

  function StageOf(s: Server, x: Sid): Stage {
    if x in s.streams then InStreams
    else if x in s.pending then InPending
    else if x !in s.conns || s.conns[x].phase.Reserved? then Fresh
    else if BeforeLink(s.conns[x].phase) then Decided
    else Past
  }

  function Rank(g: Stage): nat {
    match g
    case Fresh => 0
    case InPending => 1
    case Decided => 2
    case InStreams => 3
    case Past => 4
  }

  lemma StepMovesForward(s: Server, a: Action, x: Sid)
    requires Inv(s) && Enabled(s, a)
    ensures Rank(StageOf(s, x)) <= Rank(StageOf(Do(s, a), x))
  {
    assert InvAt(s, x) && InvAt(s, s.next);
    StepMovesForwardAt(s, a, x);
  }

  lemma StepMovesForwardAt(s: Server, a: Action, x: Sid)
    requires Enabled(s, a) && InvAt(s, x) && InvAt(s, s.next)
    ensures Rank(StageOf(s, x)) <= Rank(StageOf(Do(s, a), x))
  {
    if IsOpening(a) {
      OpeningMovesForward(s, a, x);
    } else {
      OtherStepMovesForward(s, a, x);
    }
  }

  lemma OpeningMovesForward(s: Server, a: Action, x: Sid)
    requires IsOpening(a) && Enabled(s, a) && InvAt(s, x) && InvAt(s, s.next)
    ensures Rank(StageOf(s, x)) <= Rank(StageOf(Do(s, a), x))
  {
  }

  lemma OtherStepMovesForward(s: Server, a: Action, x: Sid)
    requires !IsOpening(a) && Enabled(s, a) && InvAt(s, x)
    ensures Rank(StageOf(s, x)) <= Rank(StageOf(Do(s, a), x))
  {
  }

  /** An id never goes back: not into the pending table, not into the stream table, not to be used again. */
  lemma {:induction false} StagesOnlyAdvance(states: seq<Server>, actions: seq<Action>, x: Sid, i: nat, j: nat)
    requires IsRun(states, actions) && i <= j < |states|
    ensures Rank(StageOf(states[i], x)) <= Rank(StageOf(states[j], x))
  {
    hide Do, Enabled, Inv, StageOf, Rank;
    if i < j {
      StagesOnlyAdvance(states, actions, x, i, j - 1);
      RunKeepsInv(states, actions, j - 1);
      assert states[j - 1 + 1] == Do(states[j - 1], actions[j - 1]);
      StepMovesForward(states[j - 1], actions[j - 1], x);
    }
  }

  /** A STREAM_CLOSE takes its stream out of the table, and the stream never comes back. */
  lemma CloseIsFinal(states: seq<Server>, actions: seq<Action>, x: Sid, i: nat, j: nat)
    requires IsRun(states, actions) && i < j < |states|
    requires actions[i] == Dispatch(Close(x)) && x in states[i].streams
    ensures x !in states[j].streams
  {
    RunKeepsInv(states, actions, i);
    CloseIsPast(states[i], x);
    StagesOnlyAdvance(states, actions, x, i + 1, j);
  }

  lemma CloseIsPast(s: Server, x: Sid)
    requires Inv(s) && Enabled(s, Dispatch(Close(x))) && x in s.streams
    ensures StageOf(Do(s, Dispatch(Close(x))), x) == Past
  {
    assert InvAt(s, x);
  }

  /** No id is in two of the three tables. */
  lemma TablesDisjoint(states: seq<Server>, actions: seq<Action>, i: nat)
    requires IsRun(states, actions) && i < |states|
    ensures states[i].pending !! states[i].streams !! states[i].udp
  {
    RunKeepsInv(states, actions, i);
    var s := states[i];
    forall x
      ensures !(x in s.pending && x in s.streams) && !((x in s.pending || x in s.streams) && x in s.udp)
    {
      assert InvAt(s, x);
    }
  }

  /** A stream is open only if, earlier in the run, an accepting answer for it was taken while it was pending. */
  lemma {:induction false} OpenWasAccepted(states: seq<Server>, actions: seq<Action>, x: Sid, i: nat)
    requires IsRun(states, actions) && i < |states| && x in states[i].conns && states[i].conns[x].answer == Some(true)
    ensures exists k :: 0 <= k < i && actions[k] == Dispatch(Ack(x, true)) && x in states[k].pending
  {
    if i > 0 {
      var s, a := states[i - 1], actions[i - 1];
      assert Enabled(s, a) && states[i - 1 + 1] == Do(s, a);
      if x in s.conns && s.conns[x].answer == Some(true) {
        OpenWasAccepted(states, actions, x, i - 1);
      } else {
        AnswerComesFromAck(s, a, x);
      }
    }
  }

  lemma AnswerComesFromAck(s: Server, a: Action, x: Sid)
    requires Enabled(s, a)
    requires !(x in s.conns && s.conns[x].answer == Some(true))
    requires x in Do(s, a).conns && Do(s, a).conns[x].answer == Some(true)
    ensures a == Dispatch(Ack(x, true)) && x in s.pending
  {
  }

  lemma OpenStreamWasAccepted(states: seq<Server>, actions: seq<Action>, x: Sid, i: nat)
    requires IsRun(states, actions) && i < |states| && x in states[i].streams
    ensures exists k :: 0 <= k < i && actions[k] == Dispatch(Ack(x, true)) && x in states[k].pending
  {
    RunKeepsInv(states, actions, i);
    assert InvAt(states[i], x);
    OpenWasAccepted(states, actions, x, i);
  }

  /** Everything the server knows about one id. */
  ghost predicate SameAt(s: Server, t: Server, y: Sid) {
    && (y in s.conns <==> y in t.conns) && (y in s.conns ==> s.conns[y] == t.conns[y])
    && (y in s.pending <==> y in t.pending)
    && (y in s.streams <==> y in t.streams)
    && (y in s.udp <==> y in t.udp)
  }

  /** A frame about one id, early, late or repeated, leaves every other id alone. */
  lemma DispatchTouchesOneId(s: Server, m: Message, sent: bool, y: Sid)
    requires s.reader == Ready
    requires m.Ack? || m.Data? || m.Close? || m.Udp? ==> m.sid != y
    ensures var t := Receive(s, m);
      && SameAt(s, t, y)
      && (t.reader != Ready ==> SameAt(s, Do(t, FinishDispatch(sent)), y))
  {
  }

  /** Once an id has left the pending table or the stream table, frames about it change nothing any more. */
  lemma LateFramesAreHarmless(s: Server, m: Message, sent: bool)
    requires Inv(s) && s.reader == Ready
    requires m.Ack? ==> m.sid !in s.pending
    requires m.Data? ==> m.sid in s.conns && StageOf(s, m.sid) == Past
    requires m.Close? ==> m.sid !in s.streams
    ensures var t := Receive(s, m);
      && t.(reader := Ready) == s
      && (t.reader != Ready ==> Do(t, FinishDispatch(sent)) == s)
  {
  }
}
