/**
 * UDP over one tunnel session (src/server/udp.rs, src/client/udp.rs, src/server/tunnel.rs:325-342).
 *
 * Several listeners share the session's UDP table and its id allocator. Each listener is one task that
 * alternates between datagrams and sweeps; the reader task looks replies up and sends them; the client
 * keeps one socket per id. Steps are as fine as the separate table operations.
 */
module UdpRouting {
  import opened Allocator
  import opened Bytes

  type Sid = nat
  type Peer = nat
  type Target = seq<Byte>
  type Data = seq<Byte>

  const SESSION_TIMEOUT_MS: nat := 120_000

  /** A public peer, as seen by one listener. */
  datatype Origin = Origin(listener: nat, peer: Peer)

  datatype Entry = Entry(origin: Origin, last: nat)

  datatype Pc =
    | Idle
    | Inserting(peer: Peer, sid: Sid, data: Data)   // in the peer map, not yet in the session's table
    | Sending(peer: Peer, sid: Sid, data: Data)
    | Dropping(peer: Peer, sid: Sid)                // the send failed: out of the table, still in the peer map
    | Collecting(at: nat, todo: set<Peer>, left: set<Sid>)
    | Sweeping(left: set<Sid>)
    | Retaining(sid: Sid, left: set<Sid>)           // out of the table, still in the peer map

  datatype Listener = Listener(target: Target, peers: map<Peer, Sid>, pc: Pc)

  datatype Datagram = Datagram(sid: Sid, target: Target, data: Data)

  /** A reply frame of the client, and a reply on its way to a peer. */
  datatype Answer = Answer(sid: Sid, data: Data)

  datatype Reply = Reply(sid: Sid, to: Origin, data: Data)

  datatype System = System(
    now: nat,
    next: nat,
    udp: map<Sid, Entry>,
    listeners: seq<Listener>,
    down: seq<Datagram>,
    up: seq<Answer>,
    held: Option<Reply>,           // the reader between its lookup and its send
    sockets: map<Sid, Target>,     // the client's sessions and where their sockets are connected
    owner: map<Sid, Origin>,      // history: whose datagram made the id
    arrived: seq<Datagram>,        // history: what reached which target under which id
    replies: seq<Reply>)           // history: what was sent back to whom

  datatype Action =
    | Tick(ms: nat)
    | TakeId
    | Receive(l: nat, p: Peer, data: Data)
    | Insert(l: nat)
    | Send(l: nat, ok: bool)
    | Drop(l: nat)
    | SweepStart(l: nat)
    | SweepLook(l: nat, p: Peer)
    | SweepLooked(l: nat)
    | SweepRemove(l: nat, x: Sid)
    | SweepRetain(l: nat)
    | SweepEnd(l: nat)
    | Lookup
    | Deliver(ok: bool)
    | ClientTake(created: bool, sent: bool)
    | ClientClose(x: Sid)
    | ClientReply(x: Sid, data: Data)

  function Init(targets: seq<Target>): System {
    System(0, SERVER_START, map[], seq(|targets|, i requires 0 <= i < |targets| => Listener(targets[i], map[], Idle)),
           [], [], None, map[], map[], [], [])
  }

  /** More than the timeout has passed; a clock that went back counts as none. */
  predicate IdleTooLong(last: nat, now: nat) {
    (if now < last then 0 else now - last) > SESSION_TIMEOUT_MS
  }

  predicate Expired(e: Entry, now: nat) {
    IdleTooLong(e.last, now)
  }

  lemma ExpiredIs(e: Entry, now: nat)
    ensures Expired(e, now) <==> now > e.last + 120_000
  {
  }

  function Without(peers: map<Peer, Sid>, x: Sid): map<Peer, Sid> {
    map p | p in peers && peers[p] != x :: peers[p]
  }

  predicate Enabled(s: System, a: Action) {
    match a
    case Tick(_) => true
    case TakeId => s.next <= MAX_STREAMS
    case Receive(l, p, _) =>
      l < |s.listeners| && s.listeners[l].pc == Idle && (p in s.listeners[l].peers || s.next <= MAX_STREAMS)
    case Insert(l) => l < |s.listeners| && s.listeners[l].pc.Inserting?
    case Send(l, _) => l < |s.listeners| && s.listeners[l].pc.Sending?
    case Drop(l) => l < |s.listeners| && s.listeners[l].pc.Dropping?
    case SweepStart(l) => l < |s.listeners| && s.listeners[l].pc == Idle
    case SweepLook(l, p) => l < |s.listeners| && s.listeners[l].pc.Collecting? && p in s.listeners[l].pc.todo
    case SweepLooked(l) => l < |s.listeners| && s.listeners[l].pc.Collecting? && s.listeners[l].pc.todo == {}
    case SweepRemove(l, x) => l < |s.listeners| && s.listeners[l].pc.Sweeping? && x in s.listeners[l].pc.left
    case SweepRetain(l) => l < |s.listeners| && s.listeners[l].pc.Retaining?
    case SweepEnd(l) => l < |s.listeners| && s.listeners[l].pc == Sweeping({})
    case Lookup => s.up != [] && s.held == None
    case Deliver(_) => s.held.Some?
    case ClientTake(_, _) => s.down != []
    case ClientClose(x) => x in s.sockets
    case ClientReply(_, _) => true
  }

  function Touched(udp: map<Sid, Entry>, x: Sid, now: nat): map<Sid, Entry> {
    if x in udp then udp[x := Entry(udp[x].origin, now)] else udp
  }

  function Do(s: System, a: Action): System
    requires Enabled(s, a)
  {
    match a
    case Tick(ms) => s.(now := s.now + ms)
    case TakeId => s.(next := s.next + 2)
    case Receive(l, p, data) =>
      var li := s.listeners[l];
      if p in li.peers then
        s.(udp := Touched(s.udp, li.peers[p], s.now),
           listeners := s.listeners[l := li.(pc := Sending(p, li.peers[p], data))])
      else
        s.(next := s.next + 2,
           owner := s.owner[s.next := Origin(l, p)],
           listeners := s.listeners[l := li.(peers := li.peers[p := s.next], pc := Inserting(p, s.next, data))])
    case Insert(l) =>
      var li := s.listeners[l];
      s.(udp := s.udp[li.pc.sid := Entry(Origin(l, li.pc.peer), s.now)],
         listeners := s.listeners[l := li.(pc := Sending(li.pc.peer, li.pc.sid, li.pc.data))])
    case Send(l, ok) =>
      var li := s.listeners[l];
      if ok then
        s.(down := s.down + [Datagram(li.pc.sid, li.target, li.pc.data)],
           listeners := s.listeners[l := li.(pc := Idle)])
      else
        s.(udp := s.udp - {li.pc.sid},
           listeners := s.listeners[l := li.(pc := Dropping(li.pc.peer, li.pc.sid))])
    case Drop(l) =>
      var li := s.listeners[l];
      s.(listeners := s.listeners[l := li.(peers := li.peers - {li.pc.peer}, pc := Idle)])
    case SweepStart(l) =>
      var li := s.listeners[l];
      s.(listeners := s.listeners[l := li.(pc := Collecting(s.now, li.peers.Keys, {}))])
    case SweepLook(l, p) =>
      var li := s.listeners[l];
      var stale := p in li.peers && li.peers[p] in s.udp && Expired(s.udp[li.peers[p]], li.pc.at);
      s.(listeners := s.listeners[l := li.(pc := Collecting(li.pc.at, li.pc.todo - {p},
                                                            li.pc.left + if stale then {li.peers[p]} else {}))])
    case SweepLooked(l) =>
      s.(listeners := s.listeners[l := s.listeners[l].(pc := Sweeping(s.listeners[l].pc.left))])
    case SweepRemove(l, x) =>
      var li := s.listeners[l];
      s.(udp := s.udp - {x}, listeners := s.listeners[l := li.(pc := Retaining(x, li.pc.left - {x}))])
    case SweepRetain(l) =>
      var li := s.listeners[l];
      s.(listeners := s.listeners[l := li.(peers := Without(li.peers, li.pc.sid), pc := Sweeping(li.pc.left))])
    case SweepEnd(l) => s.(listeners := s.listeners[l := s.listeners[l].(pc := Idle)])
    case Lookup =>
      s.(up := s.up[1..],
         held := if s.up[0].sid in s.udp then Some(Reply(s.up[0].sid, s.udp[s.up[0].sid].origin, s.up[0].data))
                 else None)
    case Deliver(ok) =>
      s.(replies := if ok then s.replies + [s.held.value] else s.replies,
         udp := Touched(s.udp, s.held.value.sid, s.now),
         held := None)
    case ClientTake(created, sent) =>
      var d := s.down[0];
      var sockets :=
        if d.target != [] && d.sid !in s.sockets && created then s.sockets[d.sid := d.target] else s.sockets;
      if d.sid !in sockets then s.(down := s.down[1..])
      else if sent then
        s.(down := s.down[1..], sockets := sockets, arrived := s.arrived + [Datagram(d.sid, sockets[d.sid], d.data)])
      else s.(down := s.down[1..], sockets := sockets - {d.sid})
    case ClientClose(x) => s.(sockets := s.sockets - {x})
    case ClientReply(x, data) => s.(up := s.up + [Answer(x, data)])
  }

  ghost predicate Goes(start: System, actions: seq<Action>)
    decreases |actions|, 0
  {
    if actions == [] then true
    else
      var before := actions[..|actions| - 1];
      Goes(start, before) && Enabled(After(start, before), actions[|actions| - 1])
  }

  ghost function After(start: System, actions: seq<Action>): System
    requires Goes(start, actions)
    decreases |actions|, 1
  {
    if actions == [] then start
    else Do(After(start, actions[..|actions| - 1]), actions[|actions| - 1])
  }

  lemma Extend(start: System, actions: seq<Action>, a: Action)
    requires Goes(start, actions) && Enabled(After(start, actions), a)
    ensures Goes(start, actions + [a]) && After(start, actions + [a]) == Do(After(start, actions), a)
  {
    assert (actions + [a])[..|actions|] == actions;
  }

  ghost predicate Run(targets: seq<Target>, actions: seq<Action>) {
    Goes(Init(targets), actions)
  }

  ghost function End(targets: seq<Target>, actions: seq<Action>): System
    requires Run(targets, actions)
  {
    After(Init(targets), actions)
  }

  // ----- routing -----

  /** The peer map of listener `l` and the listener's own entries in the session's table are inverse. */
  ghost predicate Inverse(l: nat, peers: map<Peer, Sid>, udp: map<Sid, Entry>) {
    && (forall p :: p in peers ==> peers[p] in udp && udp[peers[p]].origin == Origin(l, p))
    && forall x :: x in udp && udp[x].origin.listener == l ==>
         udp[x].origin.peer in peers && peers[udp[x].origin.peer] == x
  }

  /** The id a listener's next table operation is about, which the peer map has and the table has not. */
  function Between(pc: Pc): Option<Sid> {
    if pc.Inserting? || pc.Dropping? || pc.Retaining? then Some(pc.sid) else None
  }

  ghost predicate ListenerInv(s: System, l: nat)
    requires l < |s.listeners|
  {
    var li := s.listeners[l];
    && (forall p :: p in li.peers ==>
          && li.peers[p] in s.owner && s.owner[li.peers[p]] == Origin(l, p)
          && (li.peers[p] in s.udp || Between(li.pc) == Some(li.peers[p])))
    && (forall x :: x in s.udp && s.udp[x].origin.listener == l ==>
          s.udp[x].origin.peer in li.peers && li.peers[s.udp[x].origin.peer] == x)
    && (li.pc.Inserting? || li.pc.Sending? || li.pc.Dropping? ==>
          li.pc.peer in li.peers && li.peers[li.pc.peer] == li.pc.sid)
    && (Between(li.pc).Some? ==>
          var x := Between(li.pc).value; x !in s.udp && x in s.owner && s.owner[x].listener == l)
    && (li.pc.Collecting? || li.pc.Sweeping? || li.pc.Retaining? ==>
          forall x :: x in li.pc.left ==> x in s.udp && s.udp[x].origin.listener == l)
  }

  ghost predicate TableInv(s: System) {
    && (forall x :: x in s.owner ==> x < s.next)
    && (forall x :: x in s.udp ==> x in s.owner && s.udp[x].origin == s.owner[x])
    && (forall x :: x in s.owner ==> s.owner[x].listener < |s.listeners|)
  }

  predicate Belongs(s: System, d: Datagram) {
    && d.sid in s.owner && s.owner[d.sid].listener < |s.listeners|
    && d.target == s.listeners[s.owner[d.sid].listener].target
  }

  predicate BelongsTo(s: System, r: Reply) {
    r.sid in s.owner && r.to == s.owner[r.sid]
  }

  ghost predicate TrafficInv(s: System) {
    && (forall i :: 0 <= i < |s.down| ==> Belongs(s, s.down[i]))
    && (forall x :: x in s.sockets ==> Belongs(s, Datagram(x, s.sockets[x], [])))
    && (forall i :: 0 <= i < |s.arrived| ==> Belongs(s, s.arrived[i]))
    && (s.held.Some? ==> BelongsTo(s, s.held.value))
    && (forall i :: 0 <= i < |s.replies| ==> BelongsTo(s, s.replies[i]))
  }

  ghost predicate Inv(s: System) {
    && TableInv(s)
    && (forall l :: 0 <= l < |s.listeners| ==> ListenerInv(s, l))
    && TrafficInv(s)
  }

  /** The listener whose task takes the step, if it is a listener's. */
  function Actor(a: Action): Option<nat> {
    if a.Receive? || a.Insert? || a.Send? || a.Drop? || a.SweepStart? || a.SweepLook? || a.SweepLooked?
       || a.SweepRemove? || a.SweepRetain? || a.SweepEnd?
    then Some(a.l) else None
  }

  /** Other tasks' steps leave a listener alone, and its own part of the session's table as well. */
  ghost predicate LeftAlone(s: System, s': System, l: nat)
    requires l < |s.listeners|
  {
    && l < |s'.listeners| && s'.listeners[l] == s.listeners[l]
    && (forall x :: x in s.owner ==> x in s'.owner && s'.owner[x] == s.owner[x])
    && (forall x :: x in s.udp && s.udp[x].origin.listener == l ==> x in s'.udp && s'.udp[x].origin == s.udp[x].origin)
    && (forall x :: x in s'.udp && s'.udp[x].origin.listener == l ==> x in s.udp)
    && (forall x :: x in s.owner && x !in s.udp && s.owner[x].listener == l ==> x !in s'.udp)
  }

  lemma OthersAreLeftAlone(s: System, a: Action, l: nat)
    requires Inv(s) && Enabled(s, a) && l < |s.listeners| && Actor(a) != Some(l)
    ensures LeftAlone(s, Do(s, a), l)
  {
    hide Do, LeftAlone, TableInv, TrafficInv, ListenerInv;
    if Actor(a) == None {
      NoListenerLeavesAlone(s, a, l);
    } else if a.Receive? || a.Insert? || a.Send? || a.Drop? {
      assert ListenerInv(s, a.l);
      DatagramLeavesAlone(s, a, l);
    } else {
      assert ListenerInv(s, a.l);
      SweepLeavesAlone(s, a, l);
    }
  }

  lemma NoListenerLeavesAlone(s: System, a: Action, l: nat)
    requires TableInv(s) && Enabled(s, a) && l < |s.listeners| && Actor(a) == None
    ensures LeftAlone(s, Do(s, a), l)
  {
  }

  lemma DatagramLeavesAlone(s: System, a: Action, l: nat)
    requires a.Receive? || a.Insert? || a.Send? || a.Drop?
    requires TableInv(s) && Enabled(s, a) && ListenerInv(s, a.l) && l < |s.listeners| && a.l != l
    ensures LeftAlone(s, Do(s, a), l)
  {
    hide Without, Expired;
  }

  lemma SweepLeavesAlone(s: System, a: Action, l: nat)
    requires a.SweepStart? || a.SweepLook? || a.SweepLooked? || a.SweepRemove? || a.SweepRetain? || a.SweepEnd?
    requires TableInv(s) && Enabled(s, a) && ListenerInv(s, a.l) && l < |s.listeners| && a.l != l
    ensures LeftAlone(s, Do(s, a), l)
  {
    hide Without, Expired;
  }

  lemma AloneKeepsInv(s: System, s': System, l: nat)
    requires TableInv(s) && TableInv(s') && l < |s.listeners| && ListenerInv(s, l) && LeftAlone(s, s', l)
    ensures ListenerInv(s', l)
  {
  }

  lemma ReceiveKeepsOwn(s: System, a: Action)
    requires a.Receive?
    requires TableInv(s) && Enabled(s, a) && ListenerInv(s, a.l)
    ensures a.l < |Do(s, a).listeners| && ListenerInv(Do(s, a), a.l)
  {
    hide Without, Expired;
    var s', li := Do(s, a), s.listeners[a.l];
    if a.p in li.peers {
      assert forall x :: x in s'.udp <==> x in s.udp;
      assert forall x :: x in s.udp ==> s'.udp[x].origin == s.udp[x].origin;
      assert s'.listeners[a.l] == li.(pc := Sending(a.p, li.peers[a.p], a.data));
      hide Do, Enabled, Touched;
    } else {
      assert s'.listeners[a.l] == li.(peers := li.peers[a.p := s.next], pc := Inserting(a.p, s.next, a.data));
      assert s.next !in s.udp && s.next !in s.owner && s'.udp == s.udp;
      assert s'.owner == s.owner[s.next := Origin(a.l, a.p)];
      hide Do, Enabled, Touched;
    }
  }

  lemma InsertKeepsOwn(s: System, a: Action)
    requires a.Insert?
    requires TableInv(s) && Enabled(s, a) && ListenerInv(s, a.l)
    ensures a.l < |Do(s, a).listeners| && ListenerInv(Do(s, a), a.l)
  {
    hide Without, Expired;
  }

  lemma SendKeepsOwn(s: System, a: Action)
    requires a.Send? || a.Drop?
    requires TableInv(s) && Enabled(s, a) && ListenerInv(s, a.l)
    ensures a.l < |Do(s, a).listeners| && ListenerInv(Do(s, a), a.l)
  {
    hide Without, Expired;
  }

  lemma SweepStartKeepsOwn(s: System, a: Action)
    requires a.SweepStart? || a.SweepLook? || a.SweepLooked? || a.SweepEnd?
    requires TableInv(s) && Enabled(s, a) && ListenerInv(s, a.l)
    ensures a.l < |Do(s, a).listeners| && ListenerInv(Do(s, a), a.l)
  {
    hide Expired;
  }

  lemma SweepKeepsOwn(s: System, a: Action)
    requires a.SweepRemove? || a.SweepRetain?
    requires TableInv(s) && Enabled(s, a) && ListenerInv(s, a.l)
    ensures a.l < |Do(s, a).listeners| && ListenerInv(Do(s, a), a.l)
  {
    hide Expired;
  }

  lemma OwnStepKeepsOwn(s: System, a: Action)
    requires Actor(a).Some?
    requires TableInv(s) && Enabled(s, a) && ListenerInv(s, a.l)
    ensures a.l < |Do(s, a).listeners| && ListenerInv(Do(s, a), a.l)
  {
    hide Do, Enabled, ListenerInv, TableInv;
    if a.Receive? {
      ReceiveKeepsOwn(s, a);
    } else if a.Insert? {
      InsertKeepsOwn(s, a);
    } else if a.Send? || a.Drop? {
      SendKeepsOwn(s, a);
    } else if a.SweepStart? || a.SweepLook? || a.SweepLooked? || a.SweepEnd? {
      SweepStartKeepsOwn(s, a);
    } else {
      SweepKeepsOwn(s, a);
    }
  }

  lemma StepKeepsTable(s: System, a: Action)
    requires TableInv(s) && Enabled(s, a)
    requires Actor(a).Some? ==> a.l < |s.listeners| && ListenerInv(s, a.l)
    ensures TableInv(Do(s, a)) && |Do(s, a).listeners| == |s.listeners|
  {
    hide Without, Expired;
    if Actor(a) == None {
      hide ListenerInv;
    } else {
      ListenerKeepsTable(s, a);
    }
  }

  lemma ListenerKeepsTable(s: System, a: Action)
    requires TableInv(s) && Enabled(s, a) && Actor(a).Some? && ListenerInv(s, a.l)
    ensures TableInv(Do(s, a)) && |Do(s, a).listeners| == |s.listeners|
  {
    hide Without, Expired;
  }

  /** A listener's step touches what is in flight only by queueing one datagram of its own. */
  lemma ListenerTraffic(s: System, a: Action)
    requires TableInv(s) && Enabled(s, a) && Actor(a).Some? && ListenerInv(s, a.l)
    ensures var s' := Do(s, a);
      && s'.held == s.held && s'.replies == s.replies && s'.sockets == s.sockets && s'.arrived == s.arrived
      && (s'.down == s.down
          || (exists d :: s'.down == s.down + [d] && Belongs(s, d)))
      && (forall d :: Belongs(s, d) ==> Belongs(s', d))
      && (forall r :: BelongsTo(s, r) ==> BelongsTo(s', r))
  {
    hide Without, Expired;
    if a.Send? && a.ok {
      assert Belongs(s, Datagram(s.listeners[a.l].pc.sid, s.listeners[a.l].target, s.listeners[a.l].pc.data));
    }
  }

  lemma ListenerKeepsTraffic(s: System, a: Action)
    requires TableInv(s) && TrafficInv(s) && Enabled(s, a) && Actor(a).Some? && ListenerInv(s, a.l)
    ensures TrafficInv(Do(s, a))
  {
    ListenerTraffic(s, a);
    hide Do, Enabled, ListenerInv, Belongs, BelongsTo;
  }

  /** The reader and the client keep what is in flight or done attributed to the owner of its id. */
  lemma OthersKeepTraffic(s: System, a: Action)
    requires TableInv(s) && TrafficInv(s) && Enabled(s, a) && Actor(a) == None
    ensures TrafficInv(Do(s, a))
  {
    SameOwners(s, a);
    hide Expired, ListenerInv;
    if a.Lookup? {
      hide Belongs;
      var a0 := s.up[0];
      assert a0.sid in s.udp ==> BelongsTo(s, Reply(a0.sid, s.udp[a0.sid].origin, a0.data));
      hide BelongsTo;
    } else if a.ClientTake? {
      ClientTakeKeepsTraffic(s, a);
    } else {
      hide Belongs, BelongsTo, TableInv;
    }
  }

  lemma ClientTakeKeepsTraffic(s: System, a: Action)
    requires TrafficInv(s) && Enabled(s, a) && a.ClientTake?
    ensures TrafficInv(Do(s, a))
  {
    SameOwners(s, a);
    var d := s.down[0];
    assert Belongs(s, d) && d.target == Datagram(d.sid, d.target, []).target;
    forall x | x in Do(s, a).sockets ensures Belongs(s, Datagram(x, Do(s, a).sockets[x], [])) {
      assert x in s.sockets ==> Belongs(s, Datagram(x, s.sockets[x], []));
    }
    assert d.sid in s.sockets ==> Belongs(s, Datagram(d.sid, s.sockets[d.sid], []));
    hide TableInv, ListenerInv;
  }

  lemma SameOwners(s: System, a: Action)
    requires Enabled(s, a) && Actor(a) == None
    ensures forall d :: Belongs(s, d) <==> Belongs(Do(s, a), d)
    ensures forall r :: BelongsTo(s, r) <==> BelongsTo(Do(s, a), r)
  {
    assert Do(s, a).owner == s.owner && Do(s, a).listeners == s.listeners;
    hide Do, Enabled;
  }

  lemma StepKeepsTraffic(s: System, a: Action)
    requires TableInv(s) && TrafficInv(s) && Enabled(s, a)
    requires Actor(a).Some? ==> a.l < |s.listeners| && ListenerInv(s, a.l)
    ensures TrafficInv(Do(s, a))
  {
    hide Do, Enabled, ListenerInv, TableInv, TrafficInv;
    if Actor(a).Some? {
      ListenerKeepsTraffic(s, a);
    } else {
      OthersKeepTraffic(s, a);
    }
  }

  lemma StepKeepsInv(s: System, a: Action)
    requires Inv(s) && Enabled(s, a)
    ensures Inv(Do(s, a))
  {
    hide Do, Enabled, ListenerInv, TableInv, TrafficInv, LeftAlone;
    var s' := Do(s, a);
    if Actor(a).Some? {
      ActorExists(s, a);
      assert ListenerInv(s, a.l);
    }
    StepKeepsTable(s, a);
    StepKeepsTraffic(s, a);
    forall l | 0 <= l < |s.listeners|
      ensures ListenerInv(s', l)
    {
      if Actor(a) == Some(l) {
        OwnStepKeepsOwn(s, a);
      } else {
        OthersAreLeftAlone(s, a, l);
        AloneKeepsInv(s, s', l);
      }
    }
  }

  lemma ActorExists(s: System, a: Action)
    requires Enabled(s, a) && Actor(a).Some?
    ensures a.l < |s.listeners|
  {
  }

  lemma InitInv(targets: seq<Target>)
    ensures Inv(Init(targets))
  {
  }

  lemma {:induction false} WalkKeepsInv(start: System, actions: seq<Action>)
    requires Inv(start) && Goes(start, actions)
    ensures Inv(After(start, actions))
  {
    if actions != [] {
      hide Do, Enabled, Inv;
      var before := actions[..|actions| - 1];
      WalkKeepsInv(start, before);
      StepKeepsInv(After(start, before), actions[|actions| - 1]);
    }
  }

  lemma RunKeepsInv(targets: seq<Target>, actions: seq<Action>)
    requires Run(targets, actions)
    ensures Inv(End(targets, actions))
  {
    hide Init, Inv;
    InitInv(targets);
    WalkKeepsInv(Init(targets), actions);
  }

  /**
   * Whenever a listener is between two rounds of its loop, its peer map and its entries in the session's
   * table are inverse to each other, whatever the other listeners, sweeps and failures have done.
   */
  lemma MapsAreInverse(targets: seq<Target>, actions: seq<Action>, l: nat)
    requires Run(targets, actions) && l < |End(targets, actions).listeners|
    requires End(targets, actions).listeners[l].pc == Idle
    ensures var s := End(targets, actions); Inverse(l, s.listeners[l].peers, s.udp)
  {
    hide Do, Enabled, End;
    RunKeepsInv(targets, actions);
    assert ListenerInv(End(targets, actions), l);
  }

  /**
   * A reply under an id goes only to the peer whose datagrams made the id, whatever the client sends; and
   * datagrams under that id reached only the target of the listener which that peer wrote to.
   */
  lemma RepliesGoHome(targets: seq<Target>, actions: seq<Action>)
    requires Run(targets, actions)
    ensures var s := End(targets, actions);
      && (forall i :: 0 <= i < |s.replies| ==> BelongsTo(s, s.replies[i]))
      && (forall i :: 0 <= i < |s.arrived| ==> Belongs(s, s.arrived[i]))
      && forall i, j :: 0 <= i < |s.replies| && 0 <= j < |s.arrived| && s.replies[i].sid == s.arrived[j].sid ==>
           && s.replies[i].to.listener < |s.listeners|
           && s.listeners[s.replies[i].to.listener].target == s.arrived[j].target
  {
    hide Do, Enabled, ListenerInv, End;
    RunKeepsInv(targets, actions);
  }

  // ----- ids that have left the table -----

  /** An id that has left the table, and is not on its way into it. */
  predicate Gone(s: System, x: Sid) {
    && x in s.owner && x !in s.udp
    && forall l :: 0 <= l < |s.listeners| && s.listeners[l].pc.Inserting? ==> s.listeners[l].pc.sid != x
  }

  lemma StepKeepsGone(s: System, a: Action, x: Sid)
    requires TableInv(s) && Gone(s, x) && Enabled(s, a)
    ensures Gone(Do(s, a), x)
  {
    hide Without, Expired;
  }

  /** The reader has looked the id up and not sent the reply yet. */
  predicate HeldUnder(s: System, x: Sid) {
    s.held.Some? && s.held.value.sid == x
  }

  function RepliesUnder(replies: seq<Reply>, x: Sid): seq<Reply> {
    if replies == [] then []
    else
      var last := replies[|replies| - 1];
      RepliesUnder(replies[..|replies| - 1], x) + if last.sid == x then [last] else []
  }

  /** From `n` on the first send of the reader, if there is one, succeeds. */
  ghost predicate FirstSendSucceeds(actions: seq<Action>, n: nat) {
    exists d :: n <= d < |actions| && actions[d] == Deliver(true) && NoSend(actions, n, d)
  }

  ghost predicate NoSend(actions: seq<Action>, n: nat, d: nat) {
    forall k :: n <= k < d && k < |actions| ==> !actions[k].Deliver?
  }

  /** While an id is gone a step sends a reply under it only if that was held, and holds no new one. */
  lemma GoneStep(s: System, a: Action, x: Sid)
    requires Gone(s, x) && Enabled(s, a)
    ensures HeldUnder(Do(s, a), x) <==> HeldUnder(s, x) && !a.Deliver?
    ensures RepliesUnder(Do(s, a).replies, x) ==
            RepliesUnder(s.replies, x) + if a == Deliver(true) && HeldUnder(s, x) then [s.held.value] else []
    ensures !a.Deliver? ==> (HeldUnder(s, x) ==> Do(s, a).held == s.held)
  {
    hide Without, Expired, Touched;
    if a == Deliver(true) {
      var more := s.replies + [s.held.value];
      assert more[..|more| - 1] == s.replies;
    } else {
      assert Do(s, a).replies == s.replies;
      assert RepliesUnder(s.replies, x) + [] == RepliesUnder(s.replies, x);
    }
  }

  /**
   * Once an id is gone it stays gone, and exactly one reply can still be sent under it: the one that the
   * reader had looked up before and holds, if its send succeeds. If none was held nobody gets any.
   */
  lemma {:induction false} GoneIdGetsOnlyTheHeldReply(start: System, actions: seq<Action>, n: nat, x: Sid)
    requires Inv(start) && n <= |actions| && Goes(start, actions)
    requires Goes(start, actions[..n]) && Gone(After(start, actions[..n]), x)
    ensures var s, end := After(start, actions[..n]), After(start, actions);
      && Gone(end, x)
      && (HeldUnder(end, x) <==> HeldUnder(s, x) && NoSend(actions, n, |actions|))
      && (HeldUnder(end, x) ==> end.held == s.held)
      && RepliesUnder(end.replies, x) ==
         RepliesUnder(s.replies, x) + if HeldUnder(s, x) && FirstSendSucceeds(actions, n) then [s.held.value] else []
    decreases |actions|
  {
    hide Do, Enabled, Gone, Inv, RepliesUnder, HeldUnder;
    var s := After(start, actions[..n]);
    if n == |actions| {
      assert actions[..n] == actions;
      assert RepliesUnder(s.replies, x) + [] == RepliesUnder(s.replies, x);
    } else {
      var before, a := actions[..|actions| - 1], actions[|actions| - 1];
      assert before[..n] == actions[..n];
      GoneIdGetsOnlyTheHeldReply(start, before, n, x);
      WalkKeepsTable(start, before);
      StepKeepsGone(After(start, before), a, x);
      GoneStep(After(start, before), a, x);
      FirstSendExtends(actions, n);
      assert RepliesUnder(s.replies, x) + [] == RepliesUnder(s.replies, x);
    }
  }

  lemma FirstSendExtends(actions: seq<Action>, n: nat)
    requires n < |actions|
    ensures var before, a := actions[..|actions| - 1], actions[|actions| - 1];
      && (NoSend(actions, n, |actions|) <==> NoSend(before, n, |before|) && !a.Deliver?)
      && (FirstSendSucceeds(actions, n) <==>
            FirstSendSucceeds(before, n) || (a == Deliver(true) && NoSend(before, n, |before|)))
      && !(FirstSendSucceeds(before, n) && NoSend(before, n, |before|))
  {
    var before, a := actions[..|actions| - 1], actions[|actions| - 1];
    assert forall k :: 0 <= k < |before| ==> before[k] == actions[k];
    if FirstSendSucceeds(before, n) {
      var d :| n <= d < |before| && before[d] == Deliver(true) && NoSend(before, n, d);
      assert NoSend(actions, n, d);
    }
    if a == Deliver(true) && NoSend(before, n, |before|) {
      assert NoSend(actions, n, |before|);
    }
    if FirstSendSucceeds(actions, n) {
      var d :| n <= d < |actions| && actions[d] == Deliver(true) && NoSend(actions, n, d);
      assert NoSend(before, n, d);
    }
  }

  lemma WalkKeepsTable(start: System, actions: seq<Action>)
    requires Inv(start) && Goes(start, actions)
    ensures TableInv(After(start, actions))
  {
    hide Do, Enabled, ListenerInv, TrafficInv, TableInv;
    WalkKeepsInv(start, actions);
  }

  // ----- a reply that comes after its session -----

  /** One listener whose only peer, 7, has made id 2. */
  function OnePeer(target: Target, now: nat, udp: map<Sid, Entry>, pc: Pc, down: seq<Datagram>, up: seq<Answer>,
                   held: Option<Reply>, arrived: seq<Datagram>, replies: seq<Reply>): System {
    System(now, 4, udp, [Listener(target, map[7 := 2], pc)], down, up, held,
           if arrived == [] then map[] else map[2 := target], map[2 := Origin(0, 7)], arrived, replies)
  }

  lemma Take(start: System, actions: seq<Action>, a: Action) returns (more: seq<Action>, s: System)
    requires Goes(start, actions) && Enabled(After(start, actions), a)
    ensures Goes(start, more) && more == actions + [a] && s == After(start, more) == Do(After(start, actions), a)
  {
    Extend(start, actions, a);
    more := actions + [a];
    s := After(start, more);
  }

  /** The peer's datagram has gone all the way to the target. */
  lemma DatagramArrived(target: Target, data: Data) returns (actions: seq<Action>, s: System)
    requires target != []
    ensures Run([target], actions) && End([target], actions) == s
    ensures s == OnePeer(target, 0, map[2 := Entry(Origin(0, 7), 0)], Idle, [], [], None,
        [Datagram(2, target, data)], [])
  {
    hide Goes, After;
    var start := Init([target]);
    assert start.listeners == [Listener(target, map[], Idle)];
    assert Goes(start, []) && After(start, []) == start by { Starts(start); }
    actions, s := Take(start, [], Receive(0, 7, data));
    assert s.listeners == [Listener(target, map[7 := 2], Inserting(7, 2, data))];
    actions, s := Take(start, actions, Insert(0));
    assert s.listeners == [Listener(target, map[7 := 2], Sending(7, 2, data))];
    actions, s := Take(start, actions, Send(0, true));
    assert s.listeners == [Listener(target, map[7 := 2], Idle)] && s.down == [Datagram(2, target, data)];
    actions, s := Take(start, actions, ClientTake(true, true));
  }

  lemma Starts(start: System)
    ensures Goes(start, []) && After(start, []) == start
  {
  }

  /** The target's answer is looked up just before the sweep that removes the session. */
  lemma ReplyIsHeld(target: Target, data: Data) returns (actions: seq<Action>, s: System)
    requires target != []
    ensures Run([target], actions) && End([target], actions) == s
    ensures s == OnePeer(target, 120_001, map[2 := Entry(Origin(0, 7), 0)], Collecting(120_001, {7}, {}), [], [],
                         Some(Reply(2, Origin(0, 7), data)), [Datagram(2, target, data)], [])
  {
    hide Goes, After;
    actions, s := DatagramArrived(target, data);
    var start := Init([target]);
    actions, s := Take(start, actions, ClientReply(2, data));
    actions, s := Take(start, actions, Tick(120_001));
    actions, s := Take(start, actions, Lookup);
    actions, s := Take(start, actions, SweepStart(0));
    assert map[7 := 2].Keys == {7};
    assert s.listeners == [Listener(target, map[7 := 2], Collecting(120_001, {7}, {}))];
  }

  /**
   * The reader sends what it has looked up even if a sweep removes the session meanwhile: in this run id 2
   * is gone after `n` steps, no reply has been sent, and yet its peer gets one.
   */
  lemma ReplyAfterExpiry(target: Target, data: Data) returns (actions: seq<Action>, n: nat)
    requires target != []
    ensures Run([target], actions) && n <= |actions| && Run([target], actions[..n])
    ensures Gone(End([target], actions[..n]), 2) && End([target], actions[..n]).replies == []
    ensures End([target], actions).replies == [Reply(2, Origin(0, 7), data)]
  {
    hide Goes, After;
    var s;
    actions, s := ReplyIsHeld(target, data);
    var start := Init([target]);
    actions, s := Take(start, actions, SweepLook(0, 7));
    assert {7} - {7} == {} && {} + {2} == {2};
    assert s.listeners == [Listener(target, map[7 := 2], Collecting(120_001, {}, {2}))];
    actions, s := Take(start, actions, SweepLooked(0));
    assert s.listeners == [Listener(target, map[7 := 2], Sweeping({2}))];
    actions, s := Take(start, actions, SweepRemove(0, 2));
    n := |actions|;
    var before := actions;
    actions, s := Take(start, actions, Deliver(true));
    assert actions[..n] == before;
  }
}
