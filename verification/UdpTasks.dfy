/**
 * The UDP loops as the code runs them: the rounds of one listener, each proved to be a run of the steps of
 * `UdpRouting`, and the client's session manager.
 */
module UdpTasks {
  import Allocator
  import opened Bytes
  import opened UdpRouting

  /** What the listeners of one tunnel share, and the datagrams queued for the client. */
  class UdpSession {
    var udp: map<Sid, Entry>
    var next: nat
    var sent: seq<Datagram>
    var udpTxBytes: nat

    constructor ()
      ensures udp == map[] && next == Allocator.SERVER_START && sent == [] && udpTxBytes == 0
    {
      udp, next, sent, udpTxBytes := map[], Allocator.SERVER_START, [], 0;
    }
  }

  function Keeping(peers: map<Peer, Sid>, gone: set<Sid>): map<Peer, Sid> {
    map p | p in peers && peers[p] !in gone :: peers[p]
  }

  /** The ids of those of a listener's peers that have been idle for more than 120 seconds at `now`. */
  function StaleAmong(some: set<Peer>, peers: map<Peer, Sid>, udp: map<Sid, Entry>, now: nat): set<Sid> {
    set p | p in some && p in peers && peers[p] in udp && Expired(udp[peers[p]], now) :: peers[p]
  }

  function Stale(peers: map<Peer, Sid>, udp: map<Sid, Entry>, now: nat): set<Sid> {
    StaleAmong(peers.Keys, peers, udp, now)
  }

  /** A look at one more peer: its id is none of those of the others. */
  lemma OneMoreLook(l: nat, some: set<Peer>, peers: map<Peer, Sid>, udp: map<Sid, Entry>, now: nat, p: Peer)
    requires Inverse(l, peers, udp) && p in peers && p !in some && some <= peers.Keys
    ensures peers[p] in udp && peers[p] !in StaleAmong(some, peers, udp, now)
    ensures StaleAmong(some + {p}, peers, udp, now) ==
            StaleAmong(some, peers, udp, now) + if Expired(udp[peers[p]], now) then {peers[p]} else {}
  {
    hide Expired;
  }

  /** Removing the stale ids from both tables leaves what is not stale, and the tables inverse. */
  lemma SweptOnBothSides(l: nat, peers: map<Peer, Sid>, udp: map<Sid, Entry>, gone: set<Sid>, now: nat)
    requires Inverse(l, peers, udp)
    requires forall x :: x in gone <==> x in Stale(peers, udp, now)
    ensures var udp' := udp - gone;
      var peers' := Keeping(peers, gone);
      && Inverse(l, peers', udp')
      && udp' == (map x | x in udp && !(udp[x].origin.listener == l && Expired(udp[x], now)) :: udp[x])
      && peers' == map p | p in peers && !Expired(udp[peers[p]], now) :: peers[p]
  {
    hide Expired;
  }

  lemma DroppedOnBothSides(l: nat, peers: map<Peer, Sid>, udp: map<Sid, Entry>, p: Peer)
    requires Inverse(l, peers, udp) && p in peers
    ensures Inverse(l, peers - {p}, udp - {peers[p]})
  {
  }

  lemma NewOnBothSides(l: nat, peers: map<Peer, Sid>, udp: map<Sid, Entry>, p: Peer, x: Sid, now: nat)
    requires Inverse(l, peers, udp) && p !in peers && x !in udp
    ensures Inverse(l, peers[p := x], udp[x := Entry(Origin(l, p), now)])
  {
  }

  /** A listener's own steps. */
  ghost predicate OwnSteps(actions: seq<Action>, l: nat) {
    forall i :: 0 <= i < |actions| ==> Actor(actions[i]) == Some(l)
  }

  /** One listener's variables, the session it shares, and where its task stands. */
  datatype Own = Own(peers: map<Peer, Sid>, udp: map<Sid, Entry>, next: nat, sent: seq<Datagram>, pc: Pc)

  ghost predicate Matches(s: System, l: nat, target: Target, o: Own) {
    && l < |s.listeners| && s.listeners[l] == Listener(target, o.peers, o.pc)
    && s.udp == o.udp && s.next == o.next && s.down == o.sent
  }

  // What the listener's steps do, as far as the listener can see.

  lemma ReceiveStep(s: System, l: nat, t: Target, o: Own, p: Peer, data: Data)
    requires Matches(s, l, t, o) && o.pc == Idle && (p in o.peers || o.next <= Allocator.MAX_STREAMS)
    ensures var a := Action.Receive(l, p, data);
      && Enabled(s, a) && Do(s, a).now == s.now
      && Matches(Do(s, a), l, t,
                 if p in o.peers then o.(udp := Touched(o.udp, o.peers[p], s.now), pc := Sending(p, o.peers[p], data))
                 else o.(peers := o.peers[p := o.next], next := o.next + 2, pc := Inserting(p, o.next, data)))
  {
  }

  lemma InsertStep(s: System, l: nat, t: Target, o: Own)
    requires Matches(s, l, t, o) && o.pc.Inserting?
    ensures Enabled(s, Insert(l)) && Do(s, Insert(l)).now == s.now
    ensures Matches(Do(s, Insert(l)), l, t, o.(udp := o.udp[o.pc.sid := Entry(Origin(l, o.pc.peer), s.now)],
                                               pc := Sending(o.pc.peer, o.pc.sid, o.pc.data)))
  {
  }

  lemma SendStep(s: System, l: nat, t: Target, o: Own, ok: bool)
    requires Matches(s, l, t, o) && o.pc.Sending?
    ensures Enabled(s, Send(l, ok))
    ensures Matches(Do(s, Send(l, ok)), l, t,
                    if ok then o.(sent := o.sent + [Datagram(o.pc.sid, t, o.pc.data)], pc := Idle)
                    else o.(udp := o.udp - {o.pc.sid}, pc := Dropping(o.pc.peer, o.pc.sid)))
  {
  }

  lemma DropStep(s: System, l: nat, t: Target, o: Own)
    requires Matches(s, l, t, o) && o.pc.Dropping?
    ensures Enabled(s, Drop(l))
    ensures Matches(Do(s, Drop(l)), l, t, o.(peers := o.peers - {o.pc.peer}, pc := Idle))
  {
  }

  lemma StartStep(s: System, l: nat, t: Target, o: Own)
    requires Matches(s, l, t, o) && o.pc == Idle
    ensures Enabled(s, SweepStart(l))
    ensures Matches(Do(s, SweepStart(l)), l, t, o.(pc := Collecting(s.now, o.peers.Keys, {})))
  {
  }

  lemma LookStep(s: System, l: nat, t: Target, o: Own, p: Peer)
    requires Matches(s, l, t, o) && o.pc.Collecting? && p in o.pc.todo && p in o.peers && o.peers[p] in o.udp
    ensures Enabled(s, SweepLook(l, p))
    ensures Matches(Do(s, SweepLook(l, p)), l, t,
                    o.(pc := Collecting(o.pc.at, o.pc.todo - {p},
                                        o.pc.left + if Expired(o.udp[o.peers[p]], o.pc.at) then {o.peers[p]} else {})))
  {
    hide Expired;
  }

  lemma LookedStep(s: System, l: nat, t: Target, o: Own)
    requires Matches(s, l, t, o) && o.pc.Collecting? && o.pc.todo == {}
    ensures Enabled(s, SweepLooked(l))
    ensures Matches(Do(s, SweepLooked(l)), l, t, o.(pc := Sweeping(o.pc.left)))
  {
  }

  lemma RemoveStep(s: System, l: nat, t: Target, o: Own, x: Sid)
    requires Matches(s, l, t, o) && o.pc.Sweeping? && x in o.pc.left
    ensures Enabled(s, SweepRemove(l, x))
    ensures Matches(Do(s, SweepRemove(l, x)), l, t, o.(udp := o.udp - {x}, pc := Retaining(x, o.pc.left - {x})))
  {
  }

  lemma RetainStep(s: System, l: nat, t: Target, o: Own)
    requires Matches(s, l, t, o) && o.pc.Retaining?
    ensures Enabled(s, SweepRetain(l))
    ensures Matches(Do(s, SweepRetain(l)), l, t, o.(peers := Without(o.peers, o.pc.sid), pc := Sweeping(o.pc.left)))
  {
  }

  lemma EndStep(s: System, l: nat, t: Target, o: Own)
    requires Matches(s, l, t, o) && o.pc == Sweeping({})
    ensures Enabled(s, SweepEnd(l))
    ensures Matches(Do(s, SweepEnd(l)), l, t, o.(pc := Idle))
  {
  }

  function Elements(xs: seq<Sid>): set<Sid> {
    set x | x in xs
  }

  lemma Walked(start: System, actions: seq<Action>, a: Action, l: nat) returns (more: seq<Action>)
    requires Goes(start, actions) && Enabled(After(start, actions), a) && OwnSteps(actions, l) && Actor(a) == Some(l)
    ensures Goes(start, more) && After(start, more) == Do(After(start, actions), a) && OwnSteps(more, l)
  {
    Extend(start, actions, a);
    more := actions + [a];
  }

  class UdpListener {
    const id: nat
    const target: Target
    var peers: map<Peer, Sid>

    constructor (id: nat, target: Target)
      ensures this.id == id && this.target == target && peers == map[]
    {
      this.id, this.target, peers := id, target, map[];
    }

    /** The listener's map matches its part of the table, and every id in use has been allocated. */
    ghost predicate Valid(session: UdpSession)
      reads this, session
    {
      Inverse(id, peers, session.udp) && forall x :: x in session.udp ==> x < session.next
    }

    ghost function Seen(session: UdpSession, pc: Pc): Own
      reads this, session
    {
      Own(peers, session.udp, session.next, session.sent, pc)
    }

    /** The step system is where this listener and the session are, with the listener's task at `pc`. */
    ghost predicate At(session: UdpSession, s: System, pc: Pc)
      reads this, session
    {
      Matches(s, id, target, Seen(session, pc))
    }

    /** The id under which datagrams of `peer` go: the one it has, or else the next, if there is one. */
    method IdFor(session: UdpSession, peer: Peer, data: Data, now: nat, ghost start: System)
      returns (id: Option<Sid>, ghost steps: seq<Action>)
      requires Valid(session) && At(session, start, Idle) && start.now == now
      modifies this`peers, session`next, session`udp
      ensures Valid(session)
      ensures id == None <==> old(peer !in peers && session.next > Allocator.MAX_STREAMS)
      ensures id == None ==> peers == old(peers) && session.udp == old(session.udp) && session.next == old(session.next)
      ensures id.Some? ==>
                && id.value == (if peer in old(peers) then old(peers)[peer] else old(session.next))
                && session.next == old(session.next) + (if peer in old(peers) then 0 else 2)
                && peers == old(peers)[peer := id.value]
                && session.udp == old(session.udp)[id.value := Entry(Origin(this.id, peer), now)]
      ensures Goes(start, steps) && OwnSteps(steps, this.id) && After(start, steps).now == now
      ensures At(session, After(start, steps), if id == None then Idle else Sending(peer, id.value, data))
    {
      Starts(start);
      hide Goes, After, Do, Enabled;
      if peer in peers {
        var sid := peers[peer];
        ReceiveStep(start, this.id, target, Seen(session, Idle), peer, data);
        steps := Walked(start, [], Action.Receive(this.id, peer, data), this.id);
        session.udp := session.udp[sid := Entry(session.udp[sid].origin, now)];
        return Some(sid), steps;
      }
      if session.next > Allocator.MAX_STREAMS {
        return None, [];
      }
      var sid;
      sid, steps := NewId(session, peer, data, now, start);
      id := Some(sid);
    }

    method NewId(session: UdpSession, peer: Peer, data: Data, now: nat, ghost start: System)
      returns (sid: Sid, ghost steps: seq<Action>)
      requires Valid(session) && At(session, start, Idle) && start.now == now
      requires peer !in peers && session.next <= Allocator.MAX_STREAMS
      modifies this`peers, session`next, session`udp
      ensures Valid(session)
      ensures sid == old(session.next) && session.next == old(session.next) + 2
      ensures peers == old(peers)[peer := sid]
      ensures session.udp == old(session.udp)[sid := Entry(Origin(this.id, peer), now)]
      ensures Goes(start, steps) && OwnSteps(steps, this.id) && After(start, steps).now == now
      ensures At(session, After(start, steps), Sending(peer, sid, data))
    {
      Starts(start);
      hide Goes, After, Do, Enabled;
      sid := session.next;
      ReceiveStep(start, this.id, target, Seen(session, Idle), peer, data);
      steps := Walked(start, [], Action.Receive(this.id, peer, data), this.id);
      NewOnBothSides(this.id, peers, session.udp, peer, sid, now);
      hide Inverse;
      session.next := session.next + 2;
      peers := peers[peer := sid];
      InsertStep(After(start, steps), this.id, target, Seen(session, Inserting(peer, sid, data)));
      steps := Walked(start, steps, Insert(this.id), this.id);
      session.udp := session.udp[sid := Entry(Origin(this.id, peer), now)];
    }

    /**
     * One datagram from `peer`. An exhausted allocator drops it; a closed tunnel (`open` is false) undoes
     * the peer's entry on both sides; otherwise it goes out under the peer's id, an old one or the next.
     * It is counted as downstream traffic either way. No other peer's and no other listener's entry is
     * touched, and the round is a run of the listener's own steps.
     */
    method Receive(session: UdpSession, peer: Peer, data: Data, now: nat, open: bool, ghost start: System)
      returns (ghost steps: seq<Action>)
      requires Valid(session) && At(session, start, Idle) && start.now == now
      modifies this, session
      ensures Valid(session)
      ensures old(peer !in peers && session.next > Allocator.MAX_STREAMS) ==>
                && peers == old(peers) && session.udp == old(session.udp) && session.sent == old(session.sent)
                && session.udpTxBytes == old(session.udpTxBytes)
      ensures old(peer in peers || session.next <= Allocator.MAX_STREAMS) ==>
                && session.udpTxBytes == old(session.udpTxBytes) + |data|
                && var x := if peer in old(peers) then old(peers)[peer] else old(session.next);
                if open then
                  && peers == old(peers)[peer := x]
                  && session.udp == old(session.udp)[x := Entry(Origin(this.id, peer), now)]
                  && session.sent == old(session.sent) + [Datagram(x, target, data)]
                else
                  && peers == old(peers) - {peer} && session.udp == old(session.udp) - {x}
                  && session.sent == old(session.sent)
      ensures session.next
           == old(session.next) + if old(peer !in peers && session.next <= Allocator.MAX_STREAMS) then 2 else 0
      ensures Goes(start, steps) && OwnSteps(steps, id) && At(session, After(start, steps), Idle)
    {
      hide Goes, After, Inverse;
      var sid;
      sid, steps := IdFor(session, peer, data, now, start);
      if sid == None {
        return;
      }
      session.udpTxBytes := session.udpTxBytes + |data|;
      steps := Finish(session, peer, sid.value, data, open, start, steps);
    }

    /** The send of a datagram, and what its failure undoes. */
    method Finish(session: UdpSession, peer: Peer, sid: Sid, data: Data, open: bool, ghost start: System,
                  ghost before: seq<Action>)
      returns (ghost steps: seq<Action>)
      requires Valid(session) && peer in peers && peers[peer] == sid
      requires Goes(start, before) && OwnSteps(before, id)
      requires At(session, After(start, before), Sending(peer, sid, data))
      modifies this`peers, session`udp, session`sent
      ensures Valid(session)
      ensures peers == (if open then old(peers) else old(peers) - {peer})
      ensures session.udp == (if open then old(session.udp) else old(session.udp) - {sid})
      ensures session.sent == old(session.sent) + if open then [Datagram(sid, target, data)] else []
      ensures Goes(start, steps) && OwnSteps(steps, id) && At(session, After(start, steps), Idle)
    {
      hide Goes, After, Inverse, Do, Enabled;
      SendStep(After(start, before), id, target, Seen(session, Sending(peer, sid, data)), open);
      steps := Walked(start, before, Send(id, open), id);
      if open {
        session.sent := session.sent + [Datagram(sid, target, data)];
      } else {
        DroppedOnBothSides(id, peers, session.udp, peer);
        session.udp := session.udp - {sid};
        DropStep(After(start, steps), id, target, Seen(session, Dropping(peer, sid)));
        steps := Walked(start, steps, Drop(id), id);
        peers := peers - {peer};
      }
    }

    /** The sweep's look at every peer; an id is collected once, since no two peers share one. */
    method Collect(session: UdpSession, now: nat, ghost start: System)
      returns (expired: seq<Sid>, ghost steps: seq<Action>)
      requires Valid(session) && At(session, start, Idle) && start.now == now
      ensures forall x :: x in expired <==> x in Stale(peers, session.udp, now)
      ensures forall i, j :: 0 <= i < j < |expired| ==> expired[i] != expired[j]
      ensures Goes(start, steps) && OwnSteps(steps, id)
      ensures At(session, After(start, steps), Sweeping(Elements(expired)))
    {
      Starts(start);
      hide Goes, After, Expired, Do, Enabled, Inverse, StaleAmong, Elements;
      expired, steps := [], [];
      StartStep(start, id, target, Seen(session, Idle));
      steps := Walked(start, [], SweepStart(id), id);
      var left := peers.Keys;
      NoElements();
      NoneStale(peers, session.udp, now);
      while left != {}
        invariant left <= peers.Keys
        invariant Elements(expired) == StaleAmong(peers.Keys - left, peers, session.udp, now)
        invariant forall i, j :: 0 <= i < j < |expired| ==> expired[i] != expired[j]
        invariant Goes(start, steps) && OwnSteps(steps, id)
        invariant At(session, After(start, steps), Collecting(now, left, Elements(expired)))
        decreases left
      {
        var p :| p in left;
        OneMoreLook(id, peers.Keys - left, peers, session.udp, now, p);
        assert peers.Keys - (left - {p}) == (peers.Keys - left) + {p};
        LookStep(After(start, steps), id, target, Seen(session, Collecting(now, left, Elements(expired))), p);
        steps := Walked(start, steps, SweepLook(id, p), id);
        left := left - {p};
        if Expired(session.udp[peers[p]], now) {
          OneMoreElement(expired, peers[p]);
          expired := expired + [peers[p]];
        }
      }
      assert peers.Keys - {} == peers.Keys;
      ElementsAre(expired);
      LookedStep(After(start, steps), id, target, Seen(session, Collecting(now, {}, Elements(expired))));
      steps := Walked(start, steps, SweepLooked(id), id);
    }

    /** A sweep removes exactly the listener's expired peers, on both sides, and nothing of the others'. */
    method Sweep(session: UdpSession, now: nat, ghost start: System)
      returns (ghost steps: seq<Action>)
      requires Valid(session) && At(session, start, Idle) && start.now == now
      modifies this, session`udp
      ensures Valid(session)
      ensures session.udp == map x | x in old(session.udp) &&
                !(old(session.udp)[x].origin.listener == id && Expired(old(session.udp)[x], now)) :: old(session.udp)[x]
      ensures peers == map p | p in old(peers) && !Expired(old(session.udp)[old(peers)[p]], now) :: old(peers)[p]
      ensures Goes(start, steps) && OwnSteps(steps, id) && At(session, After(start, steps), Idle)
    {
      hide Inverse, Expired, Goes, After;
      var expired;
      expired, steps := Collect(session, now, start);
      ghost var gone := Elements(expired);
      steps := Remove(session, expired, start, steps);
      SweptOnBothSides(id, old(peers), old(session.udp), gone, now);
    }

    method Remove(session: UdpSession, expired: seq<Sid>, ghost start: System, ghost before: seq<Action>)
      returns (ghost steps: seq<Action>)
      requires Goes(start, before) && OwnSteps(before, id)
      requires forall i, j :: 0 <= i < j < |expired| ==> expired[i] != expired[j]
      requires At(session, After(start, before), Sweeping(Elements(expired)))
      modifies this`peers, session`udp
      ensures session.udp == old(session.udp) - Elements(expired)
      ensures peers == Keeping(old(peers), Elements(expired))
      ensures Goes(start, steps) && OwnSteps(steps, id) && At(session, After(start, steps), Idle)
    {
      hide Goes, After, Do, Enabled, Elements;
      steps := before;
      NoElements();
      var i := 0;
      assert expired[..0] == [] && expired[0..] == expired;
      while i < |expired|
        invariant i <= |expired|
        invariant session.udp == old(session.udp) - Elements(expired[..i])
        invariant peers == Keeping(old(peers), Elements(expired[..i]))
        invariant Goes(start, steps) && OwnSteps(steps, id)
        invariant At(session, After(start, steps), Sweeping(Elements(expired[i..])))
      {
        ghost var left := Elements(expired[i..]);
        OneLess(expired, i);
        RemoveStep(After(start, steps), id, target, Seen(session, Sweeping(left)), expired[i]);
        steps := Walked(start, steps, SweepRemove(id, expired[i]), id);
        session.udp := session.udp - {expired[i]};
        RetainStep(After(start, steps), id, target, Seen(session, Retaining(expired[i], left - {expired[i]})));
        steps := Walked(start, steps, SweepRetain(id), id);
        peers := Without(peers, expired[i]);
        i := i + 1;
      }
      assert expired[..i] == expired && expired[i..] == [];
      EndStep(After(start, steps), id, target, Seen(session, Sweeping({})));
      steps := Walked(start, steps, SweepEnd(id), id);
    }
  }

  lemma NoneStale(peers: map<Peer, Sid>, udp: map<Sid, Entry>, now: nat)
    ensures StaleAmong(peers.Keys - peers.Keys, peers, udp, now) == {}
  {
  }

  lemma OneMoreElement(xs: seq<Sid>, x: Sid)
    ensures Elements(xs + [x]) == Elements(xs) + {x}
    ensures x !in Elements(xs) ==> forall i :: 0 <= i < |xs| ==> xs[i] != x
  {
  }

  lemma ElementsAre(xs: seq<Sid>)
    ensures forall x :: x in xs <==> x in Elements(xs)
  {
  }

  lemma NoElements()
    ensures Elements([]) == {}
  {
  }

  lemma OneLess(xs: seq<Sid>, i: nat)
    requires i < |xs| && forall j, k :: 0 <= j < k < |xs| ==> xs[j] != xs[k]
    ensures Elements(xs[i..]) - {xs[i]} == Elements(xs[i + 1..])
    ensures xs[i] in Elements(xs[i..])
    ensures Elements(xs[..i + 1]) == Elements(xs[..i]) + {xs[i]}
  {
    assert xs[i..] == [xs[i]] + xs[i + 1..] && xs[..i + 1] == xs[..i] + [xs[i]];
  }

  // ----- the client's side -----

  datatype Socket = Socket(target: Target, last: nat)

  predicate TimedOut(e: Socket, now: nat) {
    IdleTooLong(e.last, now)
  }

  function SocketTargets(sessions: map<Sid, Socket>): map<Sid, Target> {
    map x | x in sessions :: sessions[x].target
  }

  /** The sessions after a datagram for `sid`: made, refreshed or closed. */
  function AfterIncoming(
      sessions: map<Sid, Socket>, sid: Sid, target: Target, now: nat, created: bool, sent: bool): map<Sid, Socket>
  {
    if sid in sessions then if sent then sessions[sid := Socket(sessions[sid].target, now)] else sessions - {sid}
    else if target != [] && created && sent then sessions[sid := Socket(target, now)]
    else sessions
  }

  /** The target that a datagram for `sid` reaches: the one of the session's own socket, or of a new one. */
  function Reached(
      sessions: map<Sid, Socket>, sid: Sid, target: Target, created: bool, sent: bool): Option<Target>
  {
    if !sent then None
    else if sid in sessions then Some(sessions[sid].target)
    else if target != [] && created then Some(target)
    else None
  }

  /** What the manager does with a datagram and where it sends it is the client's step of `UdpRouting`, times aside. */
  lemma IncomingIsClientTake(s: System, sessions: map<Sid, Socket>, now: nat, created: bool, sent: bool)
    requires s.down != [] && s.sockets == SocketTargets(sessions)
    ensures var d, s' := s.down[0], Do(s, ClientTake(created, sent));
      var to := Reached(sessions, d.sid, d.target, created, sent);
      && s'.sockets == SocketTargets(AfterIncoming(sessions, d.sid, d.target, now, created, sent))
      && s'.arrived == s.arrived + (if to.Some? then [Datagram(d.sid, to.value, d.data)] else [])
  {
    assert s.arrived + [] == s.arrived;
  }

  /** The client's sockets by id, and the ids whose reply task has been told to stop. */
  class UdpManager {
    var sessions: map<Sid, Socket>
    var cancelled: seq<Sid>

    constructor ()
      ensures sessions == map[] && cancelled == []
    {
      sessions, cancelled := map[], [];
    }

    /**
     * A datagram for `sid`. A first one with a target makes the socket (`created` says whether that works);
     * it goes to the socket's own target, whatever `target` says later; a failing send closes the session.
     */
    method HandleIncoming(sid: Sid, target: Target, now: nat, created: bool, sent: bool) returns (to: Option<Target>)
      modifies this
      ensures sessions == AfterIncoming(old(sessions), sid, target, now, created, sent)
      ensures var present := sid in old(sessions) || (target != [] && created);
        var t := if sid in old(sessions) then old(sessions)[sid].target else target;
        && to == Reached(old(sessions), sid, target, created, sent)
        && to == (if present && sent then Some(t) else None)
        && (sid in sessions <==> present && sent)
        && (sid in sessions ==> sessions[sid] == Socket(t, now))
        && cancelled == (if present && !sent then old(cancelled) + [sid] else old(cancelled))
    {
      if target != [] && sid !in sessions {
        if !created {
          return None;
        }
        sessions := sessions[sid := Socket(target, now)];
      }
      if sid !in sessions {
        return None;
      }
      sessions := sessions[sid := Socket(sessions[sid].target, now)];
      if sent {
        return Some(sessions[sid].target);
      }
      CloseSession(sid);
      return None;
    }

    method CloseSession(sid: Sid)
      modifies this
      ensures sessions == old(sessions) - {sid}
      ensures cancelled == if sid in old(sessions) then old(cancelled) + [sid] else old(cancelled)
    {
      if sid in sessions {
        sessions := sessions - {sid};
        cancelled := cancelled + [sid];
      }
    }

    /** Every reply task is told to stop, once, before the table is emptied. */
    method Clear()
      modifies this
      ensures sessions == map[]
      ensures |cancelled| == |old(cancelled)| + |old(sessions)|
      ensures old(cancelled) <= cancelled
      ensures forall x :: x in old(sessions) ==> x in cancelled[|old(cancelled)|..]
    {
      var left := sessions.Keys;
      while left != {}
        invariant left <= sessions.Keys && sessions == old(sessions)
        invariant old(cancelled) <= cancelled
        invariant |cancelled| == |old(cancelled)| + |sessions.Keys| - |left|
        invariant forall x :: x in sessions && x !in left ==> x in cancelled[|old(cancelled)|..]
        decreases left
      {
        var x :| x in left;
        assert (cancelled + [x])[|old(cancelled)|..] == cancelled[|old(cancelled)|..] + [x];
        cancelled := cancelled + [x];
        left := left - {x};
      }
      sessions := map[];
    }

    /** Exactly the sessions idle for more than 120 seconds go, and each is told to stop. */
    method Sweep(now: nat)
      modifies this
      ensures sessions == map x | x in old(sessions) && !TimedOut(old(sessions)[x], now) :: old(sessions)[x]
      ensures old(cancelled) <= cancelled
      ensures forall x :: x in cancelled[|old(cancelled)|..] <==> x in old(sessions) && TimedOut(old(sessions)[x], now)
    {
      var expired := [];
      var left := sessions.Keys;
      while left != {}
        invariant left <= sessions.Keys
        invariant forall x :: x in expired <==> x in sessions && x !in left && TimedOut(sessions[x], now)
        invariant forall i, j :: 0 <= i < j < |expired| ==> expired[i] != expired[j]
        decreases left
      {
        var x :| x in left;
        left := left - {x};
        if TimedOut(sessions[x], now) {
          expired := expired + [x];
        }
      }
      var i := 0;
      while i < |expired|
        invariant i <= |expired|
        invariant sessions == map x | x in old(sessions) && x !in expired[..i] :: old(sessions)[x]
        invariant cancelled == old(cancelled) + expired[..i]
      {
        CloseSession(expired[i]);
        i := i + 1;
      }
    }
  }
}
