/** The server's table of online clients and its kick list (src/server/manager.rs). */
module Registry {
  import opened Bytes
  import opened Traffic

  type SessionId = nat

  type Table = map<Client, SessionId>

  /** The session registered for `c` is `id`. */
  predicate Holds(table: Table, c: Client, id: SessionId) {
    c in table && table[c] == id
  }

  function Enter(table: Table, c: Client, id: SessionId): Table {
    if c in table then table else table[c := id]
  }

  /** A kick at `at` still refuses a handshake at `now` (both ends of the window included). */
  predicate Refuses(kicked: map<Client, nat>, c: Client, now: nat, windowSecs: nat) {
    c in kicked && (if now < kicked[c] then 0 else now - kicked[c]) <= windowSecs * 1000
  }

  /** A kick and a question put together: the answer depends on the latest kick of that client alone. */
  lemma KickRefusesItsWindow(kicked: map<Client, nat>, c: Client, at: nat, d: Client, now: nat, windowSecs: nat)
    ensures Refuses(kicked[c := at], d, now, windowSecs) <==>
              if d == c then now <= at + windowSecs * 1000 else Refuses(kicked, d, now, windowSecs)
  {
  }

  datatype Session = Session(client: Client, id: SessionId)

  class TunnelManager {
    var sessions: Table
    var kicked: map<Client, nat>

    constructor ()
      ensures sessions == map[] && kicked == map[]
    {
      sessions, kicked := map[], map[];
    }

    /**
     * From now on, whatever windows are asked about, a handshake of the client is refused exactly until the
     * window after this kick has passed, an earlier kick notwithstanding; every other client is refused as
     * before.
     */
    method MarkKicked(c: Client, now: nat)
      modifies this`kicked
      ensures kicked == old(kicked)[c := now]
      ensures forall t: nat, window: nat :: Refuses(kicked, c, t, window) <==> t <= now + window * 1000
      ensures forall d, t: nat, window: nat :: d != c ==>
                (Refuses(kicked, d, t, window) <==> Refuses(old(kicked), d, t, window))
    {
      kicked := kicked[c := now];
      hide Refuses;
      forall d, t: nat, window: nat
        ensures Refuses(kicked, d, t, window) <==>
                  if d == c then t <= now + window * 1000 else Refuses(old(kicked), d, t, window)
      {
        KickRefusesItsWindow(old(kicked), c, now, d, t, window);
      }
    }

    method IsKicked(c: Client, now: nat, windowSecs: nat) returns (yes: bool)
      ensures yes == Refuses(kicked, c, now, windowSecs)
    {
      if c in kicked {
        var age := if now < kicked[c] then 0 else now - kicked[c];
        return age <= windowSecs * 1000;
      }
      return false;
    }

    method Register(s: Session) returns (ok: bool)
      modifies this`sessions
      ensures sessions == Enter(old(sessions), s.client, s.id)
      ensures ok <==> s.client !in old(sessions)
    {
      if s.client in sessions {
        return false;
      }
      sessions := sessions[s.client := s.id];
      return true;
    }

    method Unregister(c: Client) returns (removed: Option<SessionId>)
      modifies this`sessions
      ensures sessions == old(sessions) - {c}
      ensures removed == if c in old(sessions) then Some(old(sessions)[c]) else None
    {
      removed := if c in sessions then Some(sessions[c]) else None;
      sessions := sessions - {c};
    }

    /** The first half of a cleanup: a look at the table under a read lock that is then let go. */
    method IsCurrent(s: Session) returns (yes: bool)
      ensures yes == Holds(sessions, s.client, s.id)
    {
      if s.client !in sessions {
        return false;
      }
      return sessions[s.client] == s.id;
    }

    /** Both halves with nothing in between: only the session's own entry can go, and every other stays. */
    method UnregisterIfCurrent(s: Session) returns (removed: Option<SessionId>)
      modifies this`sessions
      ensures removed.Some? <==> Holds(old(sessions), s.client, s.id)
      ensures removed.Some? ==> removed.value == s.id
      ensures s.client !in sessions || sessions[s.client] != s.id
      ensures forall c ::
        c in old(sessions) && !(c == s.client && removed.Some?) ==> Holds(sessions, c, old(sessions)[c])
      ensures sessions.Keys <= old(sessions).Keys
    {
      var current := IsCurrent(s);
      if current {
        removed := Unregister(s.client);
        return;
      }
      return None;
    }

    method Get(c: Client) returns (id: Option<SessionId>)
      ensures id.Some? <==> c in sessions
      ensures id.Some? ==> sessions[c] == id.value
    {
      id := if c in sessions then Some(sessions[c]) else None;
    }

    /** Every online client once, in no particular order. */
    method List() returns (online: seq<Session>)
      ensures forall c :: c in sessions ==> Session(c, sessions[c]) in online
      ensures forall s :: s in online ==> Holds(sessions, s.client, s.id)
      ensures forall i, j :: 0 <= i < j < |online| ==> online[i].client != online[j].client
    {
      online := [];
      var left := sessions.Keys;
      while left != {}
        invariant left <= sessions.Keys
        invariant forall s :: s in online ==> Holds(sessions, s.client, s.id) && s.client !in left
        invariant forall c :: c in sessions && c !in left ==> Session(c, sessions[c]) in online
        invariant forall i, j :: 0 <= i < j < |online| ==> online[i].client != online[j].client
        decreases left
      {
        var c :| c in left;
        left := left - {c};
        online := online + [Session(c, sessions[c])];
      }
    }
  }
}
