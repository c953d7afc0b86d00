/**
 * Proxy rules and the sockets behind them (src/server/proxy.rs).
 *
 * A TCP rule's address is bound exactly while its listener runs. The socket of a UDP rule is shared: every
 * entry that its listener makes in a session's UDP table keeps the socket open (src/server/udp.rs:92-99), and
 * so does a reader that has looked an entry up and still sends (src/server/tunnel.rs:334-340). An endpoint is
 * bound to one socket at a time, so that the endpoint names the socket.
 */
module Proxies {
  import opened Bytes

  datatype Rule = Rule(name: string, kind: string, listen: Option<string>, clientId: Option<string>, target: string)

  /** A public endpoint: protocol and listen address. */
  datatype Endpoint = Endpoint(kind: string, listen: string)

  datatype StartError = AlreadyRunning | MissingListen | BindFailed | UnsupportedType

  datatype Event = Stopped(name: string) | Started(rule: Rule)

  type Running = map<string, Rule>

  /** Who besides its listener keeps a UDP socket open: an entry of a session's table, or that session's reader. */
  datatype Holder = Entry(session: nat, sid: nat) | Reader(session: nat)

  /** What happens around the listeners. */
  datatype World = World(
    taken: set<Endpoint>,          // bound by others on the machine
    online: map<string, nat>,      // the registered session of each client
    next: nat,                     // sessions so far
    held: map<Holder, Endpoint>)   // UDP sockets kept open, by where they are bound

  datatype Move =
    | OthersBind(e: Endpoint)
    | OthersClose(e: Endpoint)
    | Connect(c: string)
    | Leave(c: string)
    | NewPeer(name: string, sid: nat)                 // a rule's listener gets a datagram of a new peer
    | Forget(name: string, session: nat, sid: nat)    // a listener's sweep or failed send removes an entry
    | Lookup(session: nat, sid: nat)                  // a session's reader takes an entry in its hand
    | Sent(session: nat)
    | SessionGone(session: nat)                       // the last reference to a session that has left

  /** Where the listener of a running rule is bound; a UDP listener without a client gives its socket up at once. */
  function Bound(r: Rule): Option<Endpoint> {
    if r.listen.Some? && (r.kind == "tcp" || (r.kind == "udp" && r.clientId.Some?))
    then Some(Endpoint(r.kind, r.listen.value)) else None
  }

  /** Somebody holds a socket that is bound to the endpoint. */
  predicate Held(w: World, e: Endpoint) {
    exists h :: h in w.held && w.held[h] == e
  }

  /** The endpoint can be bound: no other program, no running rule and no session has a socket there. */
  predicate Free(running: Running, w: World, e: Endpoint) {
    && e !in w.taken
    && (forall n :: n in running ==> Bound(running[n]) != Some(e))
    && !Held(w, e)
  }

  function StartResult(running: Running, w: World, r: Rule): Option<StartError> {
    if r.name in running then Some(AlreadyRunning)
    else if r.kind != "tcp" && r.kind != "udp" then Some(UnsupportedType)
    else if r.listen == None then Some(MissingListen)
    else if !Free(running, w, Endpoint(r.kind, r.listen.value)) then Some(BindFailed)
    else None
  }

  /** The session that the listener of a running UDP rule works with. */
  function SessionOf(running: Running, w: World, name: string): Option<nat> {
    if name in running && running[name].kind == "udp" && Bound(running[name]).Some?
       && running[name].clientId.value in w.online
    then Some(w.online[running[name].clientId.value]) else None
  }

  predicate CanMove(running: Running, w: World, m: Move) {
    match m
    case OthersBind(e) => Free(running, w, e)
    case OthersClose(e) => e in w.taken
    case Connect(c) => c !in w.online
    case Leave(c) => c in w.online
    case NewPeer(name, sid) =>
      var id := SessionOf(running, w, name);
      id.Some? && Entry(id.value, sid) !in w.held
    case Forget(name, session, sid) => SessionOf(running, w, name) == Some(session) && Entry(session, sid) in w.held
    case Lookup(session, sid) => Entry(session, sid) in w.held && Reader(session) !in w.held
    case Sent(session) => Reader(session) in w.held
    case SessionGone(session) => forall c :: c in w.online ==> w.online[c] != session
  }

  /** A move that the state does not allow changes nothing. */
  function Moved(running: Running, w: World, m: Move): World {
    if !CanMove(running, w, m) then w
    else
      match m
      case OthersBind(e) => w.(taken := w.taken + {e})
      case OthersClose(e) => w.(taken := w.taken - {e})
      case Connect(c) => w.(online := w.online[c := w.next], next := w.next + 1)
      case Leave(c) => w.(online := w.online - {c})
      case NewPeer(name, sid) =>
        w.(held := w.held[Entry(SessionOf(running, w, name).value, sid) := Bound(running[name]).value])
      case Forget(_, session, sid) => w.(held := w.held - {Entry(session, sid)})
      case Lookup(session, sid) => w.(held := w.held[Reader(session) := w.held[Entry(session, sid)]])
      case Sent(session) => w.(held := w.held - {Reader(session)})
      case SessionGone(session) => w.(held := map h | h in w.held && h.session != session :: w.held[h])
  }

  function Moves(running: Running, w: World, moves: seq<Move>): World {
    if moves == [] then w
    else Moved(running, Moves(running, w, moves[..|moves| - 1]), moves[|moves| - 1])
  }

  /** Listener tasks by rule name, and the world they bind their sockets in. */
  class ProxyManager {
    var tasks: Running
    var world: World
    var log: seq<Event>

    constructor (taken: set<Endpoint>)
      ensures tasks == map[] && world == World(taken, map[], 0, map[]) && log == []
    {
      tasks, world, log := map[], World(taken, map[], 0, map[]), [];
    }

    /** What happens while the caller awaits. */
    method Await(moves: seq<Move>)
      modifies this`world
      ensures world == Moves(tasks, old(world), moves)
    {
      var i := 0;
      while i < |moves|
        invariant i <= |moves|
        invariant world == Moves(tasks, old(world), moves[..i])
      {
        assert moves[..i + 1][..i] == moves[..i];
        world := Moved(tasks, world, moves[i]);
        i := i + 1;
      }
      assert moves[..i] == moves;
    }

    method Bind(e: Endpoint) returns (ok: bool)
      ensures ok == Free(tasks, world, e)
    {
      if e in world.taken {
        return false;
      }
      var left := tasks.Keys;
      while left != {}
        invariant left <= tasks.Keys
        invariant forall n :: n in tasks && n !in left ==> Bound(tasks[n]) != Some(e)
        decreases left
      {
        var n :| n in left;
        if Bound(tasks[n]) == Some(e) {
          return false;
        }
        left := left - {n};
      }
      return e !in world.held.Values;
    }

    method Start(r: Rule) returns (error: Option<StartError>)
      modifies this`tasks, this`log
      ensures error == StartResult(old(tasks), world, r)
      ensures error.Some? ==> tasks == old(tasks) && log == old(log)
      ensures error == None ==> tasks == old(tasks)[r.name := r] && log == old(log) + [Started(r)]
    {
      if r.name in tasks {
        return Some(AlreadyRunning);
      }
      if r.kind != "tcp" && r.kind != "udp" {
        return Some(UnsupportedType);
      }
      if r.listen == None {
        return Some(MissingListen);
      }
      var bound := Bind(Endpoint(r.kind, r.listen.value));
      if !bound {
        return Some(BindFailed);
      }
      tasks := tasks[r.name := r];
      log := log + [Started(r)];
      return None;
    }

    /** The listener ends. What its entries hold stays as it is. */
    method Stop(name: string) returns (found: bool)
      modifies this`tasks, this`log
      ensures found == (name in old(tasks))
      ensures tasks == if found then old(tasks) - {name} else old(tasks)
      ensures log == if found then old(log) + [Stopped(name)] else old(log)
    {
      found := name in tasks;
      if found {
        tasks := tasks - {name};
        log := log + [Stopped(name)];
      }
    }
  }

  /** When a rule starts, case by case, and which error it gives otherwise. */
  lemma StartsIff(running: Running, w: World, r: Rule)
    ensures StartResult(running, w, r) == None <==>
              && r.name !in running && (r.kind == "tcp" || r.kind == "udp") && r.listen.Some?
              && Endpoint(r.kind, r.listen.value) !in w.taken
              && (forall n :: n in running ==>
                    !(running[n].listen == r.listen && running[n].kind == r.kind &&
                      (r.kind == "tcp" || running[n].clientId.Some?)))
              && forall h :: h in w.held ==> w.held[h] != Endpoint(r.kind, r.listen.value)
    ensures r.name in running ==> StartResult(running, w, r) == Some(AlreadyRunning)
    ensures r.name !in running && r.kind != "tcp" && r.kind != "udp" ==>
              StartResult(running, w, r) == Some(UnsupportedType)
    ensures r.name !in running && (r.kind == "tcp" || r.kind == "udp") && r.listen == None ==>
              StartResult(running, w, r) == Some(MissingListen)
  {
    if (r.kind == "tcp" || r.kind == "udp") && r.listen.Some? {
      forall n | n in running
        ensures Bound(running[n]) == Some(Endpoint(r.kind, r.listen.value)) <==>
                  running[n].listen == r.listen && running[n].kind == r.kind &&
                  (r.kind == "tcp" || running[n].clientId.Some?)
      {
      }
    }
  }

  // ----- who owns an endpoint -----

  /**
   * No endpoint has two owners: a program outside, one running listener, or the sessions that hold the
   * socket of that listener or of one that has been stopped.
   */
  ghost predicate Owned(running: Running, w: World) {
    && (forall n :: n in running && Bound(running[n]).Some? ==> Bound(running[n]).value !in w.taken)
    && (forall n, m :: n in running && m in running && Bound(running[n]).Some? ==>
          Bound(running[n]) == Bound(running[m]) ==> n == m)
    && (forall h :: h in w.held ==> w.held[h] !in w.taken && w.held[h].kind == "udp")
  }

  lemma MoveKeepsOwned(running: Running, w: World, m: Move)
    requires Owned(running, w)
    ensures Owned(running, Moved(running, w, m))
  {
  }

  lemma StopKeepsOwned(running: Running, w: World, name: string)
    requires Owned(running, w)
    ensures Owned(running - {name}, w)
  {
  }

  lemma StartKeepsOwned(running: Running, w: World, r: Rule)
    requires Owned(running, w) && StartResult(running, w, r) == None
    ensures Owned(running[r.name := r], w)
  {
  }

  /** What the administration and the world do, one step at a time. */
  datatype Action = Starting(rule: Rule) | Stopping(name: string) | Happening(move: Move)

  datatype State = State(running: Running, world: World)

  function Init(taken: set<Endpoint>): State {
    State(map[], World(taken, map[], 0, map[]))
  }

  function Do(s: State, a: Action): State {
    match a
    case Starting(r) => if StartResult(s.running, s.world, r) == None then s.(running := s.running[r.name := r]) else s
    case Stopping(name) => s.(running := s.running - {name})
    case Happening(m) => s.(world := Moved(s.running, s.world, m))
  }

  function After(s: State, actions: seq<Action>): State {
    if actions == [] then s else Do(After(s, actions[..|actions| - 1]), actions[|actions| - 1])
  }

  lemma {:induction false} RunKeepsOwned(taken: set<Endpoint>, actions: seq<Action>)
    ensures var s := After(Init(taken), actions); Owned(s.running, s.world)
  {
    hide Owned, Moved, StartResult;
    if actions == [] {
      NothingOwned(taken);
    } else {
      var before, a := actions[..|actions| - 1], actions[|actions| - 1];
      RunKeepsOwned(taken, before);
      var s := After(Init(taken), before);
      match a
      case Starting(r) => if StartResult(s.running, s.world, r) == None { StartKeepsOwned(s.running, s.world, r); }
      case Stopping(name) => StopKeepsOwned(s.running, s.world, name);
      case Happening(m) => MoveKeepsOwned(s.running, s.world, m);
    }
  }

  lemma NothingOwned(taken: set<Endpoint>)
    ensures Owned(map[], World(taken, map[], 0, map[]))
  {
  }

  // ----- what a stop gives back -----

  /** In every run, stopping a rule frees its address if and only if no session holds the socket any more. */
  lemma StopFreesIff(taken: set<Endpoint>, actions: seq<Action>, name: string)
    requires var s := After(Init(taken), actions); name in s.running && Bound(s.running[name]).Some?
    ensures var s := After(Init(taken), actions);
      var e := Bound(s.running[name]).value;
      && (Free(s.running - {name}, s.world, e) <==> !Held(s.world, e))
      && (e.kind == "tcp" ==> !Held(s.world, e))
  {
    RunKeepsOwned(taken, actions);
    hide After;
  }

  /** The move takes a holder away. */
  predicate Drops(m: Move, h: Holder) {
    match m
    case Forget(_, session, sid) => h == Entry(session, sid)
    case Sent(session) => h == Reader(session)
    case SessionGone(session) => h.session == session
    case _ => false
  }

  predicate Spares(moves: seq<Move>, h: Holder) {
    forall i :: 0 <= i < |moves| ==> !Drops(moves[i], h)
  }

  /**
   * An entry stays, with the socket it holds, until its session is gone or a running listener of the
   * client that the session is registered for forgets it. Once no listener of that client runs, only the
   * end of the session gives the socket back.
   */
  lemma EntryStays(running: Running, w: World, m: Move, session: nat, sid: nat)
    requires Entry(session, sid) in w.held
    ensures var h, w' := Entry(session, sid), Moved(running, w, m);
      && (h in w'.held ==> w'.held[h] == w.held[h])
      && (h !in w'.held <==>
            || (m == SessionGone(session) && forall c :: c in w.online ==> w.online[c] != session)
            || (m.Forget? && m.session == session && m.sid == sid && SessionOf(running, w, m.name) == Some(session)))
  {
  }

  /** A reader that holds an entry keeps its socket open, even when the entry is forgotten, until it has sent. */
  lemma ReaderOutlivesEntry(running: Running, w: World, session: nat, sid: nat, name: string)
    requires CanMove(running, w, Lookup(session, sid))
    ensures var e, w1 := w.held[Entry(session, sid)], Moved(running, w, Lookup(session, sid));
      var w2 := Moved(running, w1, Forget(name, session, sid));
      && Reader(session) in w2.held && w2.held[Reader(session)] == e
      && (CanMove(running, w1, Forget(name, session, sid)) ==> Entry(session, sid) !in w2.held)
      && Moved(running, w2, Sent(session)).held == w2.held - {Reader(session)}
  {
  }

  lemma {:induction false} SparedStays(running: Running, w: World, moves: seq<Move>, h: Holder)
    requires h in w.held && Spares(moves, h)
    ensures var w' := Moves(running, w, moves); h in w'.held && w'.held[h] == w.held[h]
  {
    if moves != [] {
      var before, m := moves[..|moves| - 1], moves[|moves| - 1];
      SparedStays(running, w, before, h);
      assert !Drops(m, h);
      MoveSpares(running, Moves(running, w, before), m, h);
    }
  }

  lemma MoveSpares(running: Running, w: World, m: Move, h: Holder)
    requires h in w.held && !Drops(m, h)
    ensures var w' := Moved(running, w, m); h in w'.held && w'.held[h] == w.held[h]
  {
  }

  /** Three steps from the start: the rule listens, its client is there, and one datagram has come. */
  lemma AnEntryIsMade(r: Rule, sid: nat) returns (actions: seq<Action>)
    requires r.kind == "udp" && r.listen.Some? && r.clientId.Some?
    ensures After(Init({}), actions) ==
            State(map[r.name := r], World({}, map[r.clientId.value := 0], 1,
                                          map[Entry(0, sid) := Endpoint("udp", r.listen.value)]))
  {
    var a, b, c := Starting(r), Happening(Connect(r.clientId.value)), Happening(NewPeer(r.name, sid));
    actions := [a, b, c];
    assert actions[..2] == [a, b] && [a, b][..1] == [a] && [a][..0] == [];
    var s0 := Init({});
    assert After(s0, []) == s0;
    assert StartResult(s0.running, s0.world, r) == None;
    var s1 := State(map[r.name := r], s0.world);
    assert After(s0, [a]) == s1;
    var s2 := State(map[r.name := r], World({}, map[r.clientId.value := 0], 1, map[]));
    assert After(s0, [a, b]) == s2;
    assert SessionOf(s2.running, s2.world, r.name) == Some(0);
    assert After(s0, actions) == Do(s2, c);
  }
}
