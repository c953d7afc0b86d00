/**
 * Sessions from handshake to cleanup, together with administrative kicks and traffic queries
 * (src/server/tunnel.rs:118-236, src/server/manager.rs, src/server/admin.rs:804-817 and 939-953).
 *
 * Every tunnel, kick and query is a task of its own, and a step is what one task does between two points
 * where others can run. In particular a cleanup looks at the table in one step and removes in another.
 * Sessions are numbered in the order of their handshakes, so session ids are distinct.
 */
module Lifetimes {
  import opened Bytes
  import opened Traffic
  import opened Registry

  const KICK_WINDOW_SECS: nat := 60

  datatype Phase =
    | Waiting               // past the kick gate, not registered yet
    | Rejected              // another session of the client was online
    | Registered            // in the table, the acknowledgement not written yet
    | Orphaned              // writing the acknowledgement failed: returns without a cleanup
    | Running
    | Matched               // cleanup: saw its own id in the table
    | Clear                 // cleanup: done with the table
    | Taken(delta: Counter) // read its counters
    | Settled               // merged

  /** When a handshake passed the kick gate, and how many kicks had been recorded by then. */
  datatype Gate = Gate(at: nat, seen: nat)

  datatype Mark = Mark(client: Client, at: nat)

  datatype Kick = Found(client: Client) | Removed(client: Client) | Recorded

  datatype Query = Query(
    acc: map<Client, Counter>,
    shares: map<SessionId, Counter>,  // history: what each session contributed
    visited: set<Client>,
    holding: Option<SessionId>)

  /** The history sampler reads the counters of the sessions in the table first, then the totals. */
  datatype Sampling =
    | Looking(online: map<Client, Counter>,
              live: map<SessionId, Counter>,      // history: the sessions read
              visited: set<Client>)
    | Point(acc: map<Client, Counter>,
            live: map<SessionId, Counter>,        // history: the sessions read
            settled: map<SessionId, Counter>)     // history: what was merged when the totals were read

  datatype System = System(
    now: nat,
    table: Table,
    kicked: map<Client, nat>,
    marks: seq<Mark>,                   // history of recorded kicks
    clients: seq<Client>,
    gates: seq<Gate>,
    phases: seq<Phase>,
    counters: map<SessionId, Counter>,
    kicks: seq<Kick>,
    totals: map<Client, Counter>,
    merged: map<SessionId, Counter>,    // history: what each session merged
    queries: seq<Query>,
    samples: seq<Sampling>)

  datatype Action =
    | Tick(ms: nat)
    | Admit(c: Client)
    | Register(i: SessionId)
    | AckSent(i: SessionId)
    | AckFails(i: SessionId)
    | Count(i: SessionId, delta: Counter)
    | CleanupRead(i: SessionId)
    | CleanupRemove(i: SessionId)
    | TakeSnapshot(i: SessionId)
    | Merge(i: SessionId)
    | KickGet(c: Client)
    | KickRemove(k: nat)
    | KickMark(k: nat)
    | QueryStart
    | QueryVisit(q: nat, c: Client)
    | QueryAdd(q: nat)
    | SampleStart
    | SampleVisit(q: nat, c: Client)
    | SampleTotals(q: nat)

  function Init(loaded: map<Client, Counter>): System {
    System(0, map[], map[], [], [], [], [], map[], [], loaded, map[], [], [])
  }

  predicate At(s: System, i: SessionId, p: Phase) {
    i < |s.phases| && s.phases[i] == p
  }

  predicate Enabled(s: System, a: Action) {
    && |s.phases| == |s.clients|
    && match a
       case Tick(_) => true
       case Admit(c) => !Refuses(s.kicked, c, s.now, KICK_WINDOW_SECS)
       case Register(i) => At(s, i, Waiting)
       case AckSent(i) => At(s, i, Registered)
       case AckFails(i) => At(s, i, Registered)
       case Count(i, delta) =>
         && i < |s.phases| && !s.phases[i].Waiting? && !s.phases[i].Rejected?
         && i in s.counters && AtMost(ZERO, delta)
       case CleanupRead(i) => At(s, i, Running)
       case CleanupRemove(i) => At(s, i, Matched)
       case TakeSnapshot(i) => At(s, i, Clear) && i in s.counters
       case Merge(i) => i < |s.phases| && s.phases[i].Taken?
       case KickGet(c) => c in s.table
       case KickRemove(k) => k < |s.kicks| && s.kicks[k].Found?
       case KickMark(k) => k < |s.kicks| && s.kicks[k].Removed?
       case QueryStart => true
       case QueryVisit(q, c) => q < |s.queries| && c !in s.queries[q].visited && s.queries[q].holding == None
       case QueryAdd(q) =>
         && q < |s.queries| && s.queries[q].holding.Some?
         && s.queries[q].holding.value < |s.clients| && s.queries[q].holding.value in s.counters
       case SampleStart => true
       case SampleVisit(q, c) =>
         && q < |s.samples| && s.samples[q].Looking? && c !in s.samples[q].visited
         && (c in s.table ==> s.table[c] in s.counters)
       case SampleTotals(q) => q < |s.samples| && s.samples[q].Looking?
  }

  function Do(s: System, a: Action): System
    requires Enabled(s, a)
  {
    match a
    case Tick(ms) => s.(now := s.now + ms)
    case Admit(c) =>
      s.(clients := s.clients + [c], gates := s.gates + [Gate(s.now, |s.marks|)],
         phases := s.phases + [Waiting], counters := s.counters[|s.clients| := ZERO])
    case Register(i) =>
      s.(table := Enter(s.table, s.clients[i], i),
         phases := s.phases[i := if s.clients[i] in s.table then Rejected else Registered])
    case AckSent(i) => s.(phases := s.phases[i := Running])
    case AckFails(i) => s.(phases := s.phases[i := Orphaned])
    case Count(i, delta) => s.(counters := s.counters[i := Add(s.counters[i], delta)])
    case CleanupRead(i) =>
      s.(phases := s.phases[i := if Holds(s.table, s.clients[i], i) then Matched else Clear])
    case CleanupRemove(i) => s.(table := s.table - {s.clients[i]}, phases := s.phases[i := Clear])
    case TakeSnapshot(i) => s.(phases := s.phases[i := Taken(s.counters[i])])
    case Merge(i) =>
      s.(totals := Merged(s.totals, s.clients[i], s.phases[i].delta),
         merged := s.merged[i := s.phases[i].delta],
         phases := s.phases[i := Settled])
    case KickGet(c) => s.(kicks := s.kicks + [Found(c)])
    case KickRemove(k) =>
      s.(table := s.table - {s.kicks[k].client}, kicks := s.kicks[k := Removed(s.kicks[k].client)])
    case KickMark(k) =>
      s.(kicked := s.kicked[s.kicks[k].client := s.now],
         marks := s.marks + [Mark(s.kicks[k].client, s.now)],
         kicks := s.kicks[k := Recorded])
    case QueryStart => s.(queries := s.queries + [Query(s.totals, s.merged, {}, None)])
    case QueryVisit(q, c) =>
      var query := s.queries[q];
      var found := if c in s.table then Some(s.table[c]) else None;
      s.(queries := s.queries[q := query.(visited := query.visited + {c}, holding := found)])
    case QueryAdd(q) =>
      var query := s.queries[q];
      var i := query.holding.value;
      s.(queries := s.queries[q := query.(acc := Plus(query.acc, s.clients[i], s.counters[i]),
                                         shares := query.shares[i := s.counters[i]],
                                         holding := None)])
    case SampleStart => s.(samples := s.samples + [Looking(map[], map[], {})])
    case SampleVisit(q, c) =>
      var sample := s.samples[q];
      s.(samples := s.samples[q :=
           if c in s.table then
             Looking(sample.online[c := s.counters[s.table[c]]], sample.live[s.table[c] := s.counters[s.table[c]]],
                     sample.visited + {c})
           else sample.(visited := sample.visited + {c})])
    case SampleTotals(q) =>
      s.(samples := s.samples[q := Point(Laid(s.totals, s.samples[q].online), s.samples[q].live, s.merged)])
  }

  ghost predicate Run(loaded: map<Client, Counter>, actions: seq<Action>)
    decreases |actions|, 0
  {
    if actions == [] then true
    else
      var before := actions[..|actions| - 1];
      Run(loaded, before) && Enabled(After(loaded, before), actions[|actions| - 1])
  }

  ghost function After(loaded: map<Client, Counter>, actions: seq<Action>): System
    requires Run(loaded, actions)
    decreases |actions|, 1
  {
    if actions == [] then Init(loaded)
    else Do(After(loaded, actions[..|actions| - 1]), actions[|actions| - 1])
  }

  // ----- the session table -----

  predicate Tabled(p: Phase) {
    p.Registered? || p.Orphaned? || p.Running? || p.Matched?
  }

  /** Every entry names a session of its client that has not finished with the table. */
  ghost predicate TableInv(s: System) {
    && |s.phases| == |s.clients|
    && forall c :: c in s.table ==>
         s.table[c] < |s.clients| && s.clients[s.table[c]] == c && Tabled(s.phases[s.table[c]])
  }

  lemma StepKeepsTable(s: System, a: Action)
    requires TableInv(s) && Enabled(s, a)
    ensures TableInv(Do(s, a))
  {
    var s' := Do(s, a);
    assert |s'.phases| == |s'.clients| && s.clients <= s'.clients by {
      hide Merged, Plus, Laid, Add, AtMost, Refuses, TableInv;
    }
    forall c | c in s'.table
      ensures s'.table[c] < |s.clients| && s.clients[s'.table[c]] == c && Tabled(s'.phases[s'.table[c]])
    {
      EntryStays(s, a, c);
    }
    hide Do, Enabled;
  }

  /** The steps of a session's own life. */
  predicate IsLife(a: Action) {
    a.Register? || a.AckSent? || a.AckFails? || a.CleanupRead? || a.CleanupRemove? || a.TakeSnapshot? || a.Merge?
  }

  lemma EntryStays(s: System, a: Action, c: Client)
    requires TableInv(s) && Enabled(s, a) && c in Do(s, a).table
    ensures var s' := Do(s, a);
      && s'.table[c] < |s.clients|
      && s'.table[c] < |s'.phases| && s.clients[s'.table[c]] == c && Tabled(s'.phases[s'.table[c]])
  {
    hide Do, Enabled, TableInv, Tabled;
    if IsLife(a) {
      LifeKeepsEntry(s, a, c);
    } else {
      OthersKeepEntry(s, a, c);
    }
  }

  lemma LifeKeepsEntry(s: System, a: Action, c: Client)
    requires IsLife(a) && TableInv(s) && Enabled(s, a) && c in Do(s, a).table
    ensures var s' := Do(s, a);
      && s'.table[c] < |s.clients|
      && s'.table[c] < |s'.phases| && s.clients[s'.table[c]] == c && Tabled(s'.phases[s'.table[c]])
  {
    hide Merged, Plus, Laid, Add, AtMost, Refuses;
    if c in s.table {
      assert Tabled(s.phases[s.table[c]]);
    }
  }

  lemma OthersKeepEntry(s: System, a: Action, c: Client)
    requires !IsLife(a) && TableInv(s) && Enabled(s, a) && c in Do(s, a).table
    ensures var s' := Do(s, a);
      && s'.table[c] < |s.clients|
      && s'.table[c] < |s'.phases| && s.clients[s'.table[c]] == c && Tabled(s'.phases[s'.table[c]])
  {
    hide Merged, Plus, Laid, Add, AtMost, Refuses, Tabled;
    assert c in s.table;
  }

  /** A cleanup that has matched still owns its entry. */
  ghost predicate MatchesHold(s: System) {
    forall i :: 0 <= i < |s.phases| && i < |s.clients| && s.phases[i] == Matched ==> Holds(s.table, s.clients[i], i)
  }

  /** The step is not a kick that removes a client whose cleanup stands between its two halves. */
  predicate MissesGap(s: System, a: Action) {
    a.KickRemove? && a.k < |s.kicks| && s.kicks[a.k].Found? && s.kicks[a.k].client in s.table ==>
      !At(s, s.table[s.kicks[a.k].client], Matched)
  }

  lemma StepKeepsMatches(s: System, a: Action)
    requires TableInv(s) && MatchesHold(s) && Enabled(s, a) && MissesGap(s, a)
    ensures MatchesHold(Do(s, a))
  {
    hide Merged, Plus, Laid, Add, AtMost, Refuses;
  }

  /** Every session still to be cleaned up is the one registered for its client. */
  ghost predicate AllHold(s: System) {
    forall i :: 0 <= i < |s.phases| && i < |s.clients| && Tabled(s.phases[i]) ==> Holds(s.table, s.clients[i], i)
  }

  lemma StepKeepsAll(s: System, a: Action)
    requires TableInv(s) && AllHold(s) && Enabled(s, a) && !a.KickRemove?
    ensures AllHold(Do(s, a))
  {
    hide Merged, Plus, Laid, Add, AtMost, Refuses;
  }

  lemma {:induction false} RunKeepsTable(loaded: map<Client, Counter>, actions: seq<Action>)
    requires Run(loaded, actions)
    ensures TableInv(After(loaded, actions))
  {
    hide Do, Enabled, TableInv;
    if actions == [] {
      assert TableInv(Init(loaded)) by { InitTable(loaded); }
    } else {
      var before := actions[..|actions| - 1];
      RunKeepsTable(loaded, before);
      StepKeepsTable(After(loaded, before), actions[|actions| - 1]);
    }
  }

  lemma InitTable(loaded: map<Client, Counter>)
    ensures TableInv(Init(loaded)) && MatchesHold(Init(loaded)) && AllHold(Init(loaded))
  {
  }

  // ----- what cleanups remove -----

  /** No kick of the run lands between the two halves of a cleanup of the same client. */
  ghost predicate NoKickInAGap(loaded: map<Client, Counter>, actions: seq<Action>)
    requires Run(loaded, actions)
    decreases |actions|
  {
    if actions == [] then true
    else
      var before := actions[..|actions| - 1];
      NoKickInAGap(loaded, before) && MissesGap(After(loaded, before), actions[|actions| - 1])
  }

  lemma {:induction false} RunKeepsMatches(loaded: map<Client, Counter>, actions: seq<Action>)
    requires Run(loaded, actions) && NoKickInAGap(loaded, actions)
    ensures MatchesHold(After(loaded, actions))
  {
    hide Do, Enabled, TableInv, MatchesHold, MissesGap;
    if actions == [] {
      assert MatchesHold(Init(loaded)) by { InitTable(loaded); }
    } else {
      var before := actions[..|actions| - 1];
      RunKeepsMatches(loaded, before);
      RunKeepsTable(loaded, before);
      StepKeepsMatches(After(loaded, before), actions[|actions| - 1]);
    }
  }

  /** A cleanup removes its own session and nothing else, in every run whose kicks miss the gaps. */
  lemma CleanupTakesOnlyItsOwn(loaded: map<Client, Counter>, actions: seq<Action>, i: SessionId)
    requires Run(loaded, actions) && NoKickInAGap(loaded, actions)
    requires Enabled(After(loaded, actions), CleanupRemove(i))
    ensures var s := After(loaded, actions);
      && Holds(s.table, s.clients[i], i)
      && Do(s, CleanupRemove(i)).table == map c | c in s.table && s.table[c] != i :: s.table[c]
  {
    RunKeepsMatches(loaded, actions);
    RunKeepsTable(loaded, actions);
    var s := After(loaded, actions);
    assert s.phases[i] == Matched;
    assert forall c :: c in s.table && s.table[c] == i ==> c == s.clients[i];
  }

  lemma Extend(loaded: map<Client, Counter>, before: seq<Action>, a: Action)
    requires Run(loaded, before) && Enabled(After(loaded, before), a)
    ensures Run(loaded, before + [a]) && After(loaded, before + [a]) == Do(After(loaded, before), a)
  {
    assert (before + [a])[..|before|] == before;
  }

  // ----- when a cleanup takes another session -----

  /** The second half of the cleanup of `i` would remove another session of the client. */
  predicate TakesForeign(s: System, i: SessionId) {
    && At(s, i, Matched) && i < |s.clients|
    && s.clients[i] in s.table && s.table[s.clients[i]] != i
  }

  /** Then that session is registered and alive, and the step takes it out of the table. */
  lemma ForeignIsLost(s: System, i: SessionId)
    requires TableInv(s) && TakesForeign(s, i)
    ensures Enabled(s, CleanupRemove(i))
    ensures var c := s.clients[i];
      var j, s' := s.table[c], Do(s, CleanupRemove(i));
      && j != i && j < |s'.phases| && s'.clients[j] == c && Tabled(s'.phases[j]) && c !in s'.table
  {
    assert Tabled(s.phases[s.table[s.clients[i]]]);
  }

  /** So much later every kick of the client recorded so far refuses nobody any more. */
  function Later(s: System, c: Client): nat {
    (if c in s.kicked then s.kicked[c] else 0) + KICK_WINDOW_SECS * 1000 + 1
  }

  /**
   * From any state in which a kick lands in the gap of the cleanup of `i`: the client can reconnect, and
   * the cleanup then takes its new session.
   */
  lemma KickInTheGapRemovesTheNewer(s: System, k: nat, i: SessionId)
    requires TableInv(s) && Enabled(s, KickRemove(k))
    requires var c := s.kicks[k].client; c in s.table && s.table[c] == i && At(s, i, Matched)
    ensures var c, j := s.kicks[k].client, |s.clients|;
      var s1 := Do(s, KickRemove(k));
      && MatchedAside(s1, c, i)
      && Enabled(s1, Tick(Later(s1, c)))
      && var s2 := Do(s1, Tick(Later(s1, c)));
      && Enabled(s2, Admit(c))
      && var s3 := Do(s2, Admit(c));
      && Enabled(s3, Register(j))
      && var s4 := Do(s3, Register(j));
      && Holds(s4.table, c, j) && TakesForeign(s4, i)
  {
    KickLeavesMatched(s, k, i);
    Reconnects(Do(s, KickRemove(k)), s.kicks[k].client, i);
  }

  /** A cleanup has matched, and its client has no entry any more. */
  predicate MatchedAside(s: System, c: Client, i: SessionId) {
    At(s, i, Matched) && i < |s.clients| == |s.phases| && s.clients[i] == c && c !in s.table
  }

  lemma KickLeavesMatched(s: System, k: nat, i: SessionId)
    requires TableInv(s) && Enabled(s, KickRemove(k))
    requires var c := s.kicks[k].client; c in s.table && s.table[c] == i && At(s, i, Matched)
    ensures MatchedAside(Do(s, KickRemove(k)), s.kicks[k].client, i)
    ensures Do(s, KickRemove(k)).clients == s.clients
  {
  }

  lemma Reconnects(s: System, c: Client, i: SessionId)
    requires MatchedAside(s, c, i)
    ensures var j := |s.clients|;
      && Enabled(s, Tick(Later(s, c)))
      && var s2 := Do(s, Tick(Later(s, c)));
      && Enabled(s2, Admit(c))
      && var s3 := Do(s2, Admit(c));
      && Enabled(s3, Register(j))
      && var s4 := Do(s3, Register(j));
      && Holds(s4.table, c, j) && TakesForeign(s4, i)
  {
    hide Merged, Plus, Laid, Add, AtMost;
  }

  /** The kicks from step `n` on miss the gaps. */
  ghost predicate KicksMiss(loaded: map<Client, Counter>, actions: seq<Action>, n: nat)
    requires Run(loaded, actions)
    decreases |actions|
  {
    if |actions| <= n then true
    else
      var before := actions[..|actions| - 1];
      KicksMiss(loaded, before, n) && MissesGap(After(loaded, before), actions[|actions| - 1])
  }

  /** However the run goes on, as long as no further kick lands in a gap, no cleanup takes another session. */
  ghost predicate SafeOnwards(loaded: map<Client, Counter>, actions: seq<Action>) {
    forall more, i: SessionId ::
      Run(loaded, actions + more) && KicksMiss(loaded, actions + more, |actions|) ==>
        !TakesForeign(After(loaded, actions + more), i)
  }

  lemma {:induction false} MissesJoin(loaded: map<Client, Counter>, actions: seq<Action>, n: nat)
    requires n <= |actions| && Run(loaded, actions) && Run(loaded, actions[..n])
    requires NoKickInAGap(loaded, actions[..n]) && KicksMiss(loaded, actions, n)
    ensures NoKickInAGap(loaded, actions)
    decreases |actions|
  {
    if n == |actions| {
      assert actions[..n] == actions;
    } else {
      assert actions[..|actions| - 1][..n] == actions[..n];
      MissesJoin(loaded, actions[..|actions| - 1], n);
    }
  }

  lemma MatchesAreNotForeign(loaded: map<Client, Counter>, actions: seq<Action>, i: SessionId)
    requires Run(loaded, actions) && NoKickInAGap(loaded, actions)
    ensures !TakesForeign(After(loaded, actions), i)
  {
    RunKeepsMatches(loaded, actions);
  }

  lemma NoGapMeansSafe(loaded: map<Client, Counter>, actions: seq<Action>)
    requires Run(loaded, actions) && NoKickInAGap(loaded, actions)
    ensures SafeOnwards(loaded, actions)
  {
    hide Run, After, NoKickInAGap, KicksMiss, TakesForeign;
    forall more, i: SessionId | Run(loaded, actions + more) && KicksMiss(loaded, actions + more, |actions|)
      ensures !TakesForeign(After(loaded, actions + more), i)
    {
      assert (actions + more)[..|actions|] == actions;
      MissesJoin(loaded, actions + more, |actions|);
      MatchesAreNotForeign(loaded, actions + more, i);
    }
  }

  lemma MissOn(loaded: map<Client, Counter>, before: seq<Action>, a: Action, n: nat)
    requires Run(loaded, before) && Enabled(After(loaded, before), a) && n <= |before|
    requires KicksMiss(loaded, before, n) && !a.KickRemove?
    ensures Run(loaded, before + [a]) && KicksMiss(loaded, before + [a], n)
  {
    Extend(loaded, before, a);
    assert (before + [a])[..|before|] == before;
  }

  lemma MissNone(loaded: map<Client, Counter>, actions: seq<Action>)
    requires Run(loaded, actions)
    ensures KicksMiss(loaded, actions, |actions|)
  {
  }

  /** A kick in a gap leaves a cleanup that has matched and a client that has no entry. */
  lemma GapLeavesMatched(loaded: map<Client, Counter>, actions: seq<Action>) returns (c: Client, i: SessionId)
    requires Run(loaded, actions) && actions != [] && Run(loaded, actions[..|actions| - 1])
    requires !MissesGap(After(loaded, actions[..|actions| - 1]), actions[|actions| - 1])
    ensures MatchedAside(After(loaded, actions), c, i)
  {
    var before, a := actions[..|actions| - 1], actions[|actions| - 1];
    var s := After(loaded, before);
    RunKeepsTable(loaded, before);
    assert After(loaded, actions) == Do(s, a);
    c := s.kicks[a.k].client;
    i := s.table[c];
    hide Run, After, Do, Enabled;
    KickLeavesMatched(s, a.k, i);
  }

  /** Then the run can go on to a cleanup that takes another session. */
  lemma GapMeansUnsafe(loaded: map<Client, Counter>, actions: seq<Action>, c: Client, i: SessionId)
    requires Run(loaded, actions) && MatchedAside(After(loaded, actions), c, i)
    ensures !SafeOnwards(loaded, actions)
  {
    hide Run, After, Do, Enabled, KicksMiss, TakesForeign, MatchedAside;
    var s := After(loaded, actions);
    Reconnects(s, c, i);
    var n, tick, j := |actions|, Tick(Later(s, c)), |s.clients|;
    MissNone(loaded, actions);
    Extend(loaded, actions, tick);
    MissOn(loaded, actions, tick, n);
    var two := actions + [tick];
    Extend(loaded, two, Admit(c));
    MissOn(loaded, two, Admit(c), n);
    var three := two + [Admit(c)];
    Extend(loaded, three, Register(j));
    MissOn(loaded, three, Register(j), n);
    var more := [tick] + [Admit(c)] + [Register(j)];
    assert three + [Register(j)] == actions + more;
    assert TakesForeign(After(loaded, actions + more), i);
  }

  /**
   * Exactly the kicks in gaps are to blame: no kick of a run lands in a gap if and only if, at every point of
   * the run, every continuation without further kicks in gaps has cleanups that take only their own sessions.
   */
  lemma SafeIffNoKickInAGap(loaded: map<Client, Counter>, actions: seq<Action>)
    requires Run(loaded, actions)
    ensures NoKickInAGap(loaded, actions) <==>
              forall n :: 0 <= n <= |actions| ==> SafeOnwards(loaded, actions[..n])
    decreases |actions|
  {
    hide SafeOnwards, MissesGap, Do, Enabled;
    assert actions[..|actions|] == actions;
    if NoKickInAGap(loaded, actions) {
      NoGapMeansSafe(loaded, actions);
    }
    if actions != [] {
      var before := actions[..|actions| - 1];
      SafeIffNoKickInAGap(loaded, before);
      assert forall n :: 0 <= n <= |before| ==> before[..n] == actions[..n];
      if !MissesGap(After(loaded, before), actions[|actions| - 1]) {
        var c, i := GapLeavesMatched(loaded, actions);
        GapMeansUnsafe(loaded, actions, c, i);
      }
    }
  }

  /**
   * The history of a cleanup of `i` that takes `j`: it saw its own id at `r`, its entry was removed at `m`,
   * and session `j` of the same client was entered at `g` and is there ever since.
   */
  ghost predicate Overtaken(
      loaded: map<Client, Counter>, actions: seq<Action>, i: SessionId, r: nat, m: nat, g: nat, j: SessionId)
    requires Run(loaded, actions)
  {
    && r < m < g < |actions| && j != i
    && actions[r] == CleanupRead(i) && (actions[m].KickRemove? || actions[m].CleanupRemove?)
    && actions[g] == Register(j)
    && var c := ClientOf(After(loaded, actions), i);
      && HeldAt(loaded, actions, c, i, m) && !HeldAt(loaded, actions, c, i, m + 1)
      && forall k :: g < k <= |actions| ==> HeldAt(loaded, actions, c, j, k)
  }

  function ClientOf(s: System, i: SessionId): Client {
    if i < |s.clients| then s.clients[i] else ""
  }

  /** After `k` steps session `i` was registered for `c`. */
  ghost predicate HeldAt(loaded: map<Client, Counter>, actions: seq<Action>, c: Client, i: SessionId, k: nat) {
    k <= |actions| && Run(loaded, actions[..k]) && Holds(After(loaded, actions[..k]).table, c, i)
  }

  lemma HeldBefore(loaded: map<Client, Counter>, actions: seq<Action>, c: Client, i: SessionId, k: nat)
    requires actions != [] && k < |actions|
    ensures HeldAt(loaded, actions, c, i, k) <==> HeldAt(loaded, actions[..|actions| - 1], c, i, k)
  {
    assert actions[..|actions| - 1][..k] == actions[..k];
  }

  lemma HeldNow(loaded: map<Client, Counter>, actions: seq<Action>, c: Client, i: SessionId)
    requires Run(loaded, actions)
    ensures HeldAt(loaded, actions, c, i, |actions|) <==> Holds(After(loaded, actions).table, c, i)
  {
    assert actions[..|actions|] == actions;
  }

  /** What one step does to the entry of a client. */
  lemma EntryStep(s: System, a: Action, c: Client, i: SessionId)
    requires TableInv(s) && Enabled(s, a)
    ensures Holds(Do(s, a).table, c, i) && !Holds(s.table, c, i) ==> a == Register(i)
    ensures !Holds(Do(s, a).table, c, i) && Holds(s.table, c, i) ==> a.KickRemove? || a.CleanupRemove?
    ensures At(Do(s, a), i, Matched) && !At(s, i, Matched) ==>
              a == CleanupRead(i) && i < |s.clients| && Holds(s.table, s.clients[i], i)
    ensures s.clients <= Do(s, a).clients
  {
    hide Merged, Plus, Laid, Add, AtMost, Refuses;
  }

  /** A session that is matched now saw its own id, and its client has not changed. */
  lemma {:induction false} MatchedSince(loaded: map<Client, Counter>, actions: seq<Action>, i: SessionId)
    returns (r: nat)
    requires Run(loaded, actions) && At(After(loaded, actions), i, Matched)
    ensures r < |actions| && actions[r] == CleanupRead(i)
    ensures HeldAt(loaded, actions, ClientOf(After(loaded, actions), i), i, r)
    decreases |actions|
  {
    hide Do, Enabled, At, TableInv, HeldAt;
    if actions == [] {
      NobodyMatched(loaded, i);
    } else {
      var before, a := actions[..|actions| - 1], actions[|actions| - 1];
      var s := After(loaded, before);
      RunKeepsTable(loaded, before);
      var c := ClientOf(After(loaded, actions), i);
      EntryStep(s, a, c, i);
      MatchedHasClient(loaded, before, i);
      if At(s, i, Matched) {
        r := MatchedSince(loaded, before, i);
        HeldBefore(loaded, actions, c, i, r);
      } else {
        r := |before|;
        HeldNow(loaded, before, c, i);
        HeldBefore(loaded, actions, c, i, r);
      }
    }
  }

  lemma NobodyMatched(loaded: map<Client, Counter>, i: SessionId)
    ensures !At(Init(loaded), i, Matched)
  {
  }

  lemma MatchedHasClient(loaded: map<Client, Counter>, actions: seq<Action>, i: SessionId)
    requires Run(loaded, actions)
    ensures At(After(loaded, actions), i, Matched) ==> i < |After(loaded, actions).clients|
  {
    RunKeepsTable(loaded, actions);
  }

  /** The entry that stands now was made by its session's registration, and has stood since. */
  lemma {:induction false} HeldSince(loaded: map<Client, Counter>, actions: seq<Action>, c: Client, j: SessionId)
    returns (g: nat)
    requires Run(loaded, actions) && Holds(After(loaded, actions).table, c, j)
    ensures g < |actions| && actions[g] == Register(j) && !HeldAt(loaded, actions, c, j, g)
    ensures forall k :: g < k <= |actions| ==> HeldAt(loaded, actions, c, j, k)
    decreases |actions|
  {
    hide Do, Enabled, TableInv, HeldAt;
    if actions == [] {
      NobodyHolds(loaded, c, j);
    } else {
      var before, a := actions[..|actions| - 1], actions[|actions| - 1];
      var s := After(loaded, before);
      RunKeepsTable(loaded, before);
      EntryStep(s, a, c, j);
      HeldNow(loaded, actions, c, j);
      HeldNow(loaded, before, c, j);
      forall k | 0 <= k < |actions| ensures HeldAt(loaded, actions, c, j, k) <==> HeldAt(loaded, before, c, j, k) {
        HeldBefore(loaded, actions, c, j, k);
      }
      if Holds(s.table, c, j) {
        g := HeldSince(loaded, before, c, j);
      } else {
        g := |before|;
      }
    }
  }

  lemma NobodyHolds(loaded: map<Client, Counter>, c: Client, j: SessionId)
    ensures !Holds(Init(loaded).table, c, j)
  {
  }

  /** An entry that stood at `r` and is not the one at `g` was removed in between. */
  lemma {:induction false} RemovedBetween(
      loaded: map<Client, Counter>, actions: seq<Action>, c: Client, i: SessionId, r: nat, g: nat)
    returns (m: nat)
    requires Run(loaded, actions) && r <= g <= |actions|
    requires HeldAt(loaded, actions, c, i, r) && !HeldAt(loaded, actions, c, i, g)
    ensures r <= m < g && HeldAt(loaded, actions, c, i, m) && !HeldAt(loaded, actions, c, i, m + 1)
    ensures actions[m].KickRemove? || actions[m].CleanupRemove?
    decreases g
  {
    hide Do, Enabled, TableInv;
    if HeldAt(loaded, actions, c, i, g - 1) {
      m := g - 1;
      RemovalAt(loaded, actions, c, i, m);
    } else {
      m := RemovedBetween(loaded, actions, c, i, r, g - 1);
    }
  }

  lemma RemovalAt(loaded: map<Client, Counter>, actions: seq<Action>, c: Client, i: SessionId, m: nat)
    requires Run(loaded, actions) && m < |actions|
    requires HeldAt(loaded, actions, c, i, m) && !HeldAt(loaded, actions, c, i, m + 1)
    ensures actions[m].KickRemove? || actions[m].CleanupRemove?
  {
    hide Do, Enabled, TableInv;
    PrefixRuns(loaded, actions, m + 1);
    assert actions[..m + 1][..m] == actions[..m];
    RunKeepsTable(loaded, actions[..m]);
    EntryStep(After(loaded, actions[..m]), actions[m], c, i);
  }

  lemma {:induction false} PrefixRuns(loaded: map<Client, Counter>, actions: seq<Action>, n: nat)
    requires Run(loaded, actions) && n <= |actions|
    ensures Run(loaded, actions[..n])
    ensures n < |actions| ==> Enabled(After(loaded, actions[..n]), actions[n])
    decreases |actions|
  {
    if n == |actions| {
      assert actions[..n] == actions;
    } else {
      var before := actions[..|actions| - 1];
      assert before[..n] == actions[..n];
      if n < |before| {
        PrefixRuns(loaded, before, n);
      }
    }
  }

  /** Nobody but `i` holds the entry where `i` does. */
  lemma OneHolder(loaded: map<Client, Counter>, actions: seq<Action>, c: Client, i: SessionId, j: SessionId, k: nat)
    requires HeldAt(loaded, actions, c, i, k) && HeldAt(loaded, actions, c, j, k)
    ensures i == j
  {
  }

  /**
   * In every run, a cleanup between its halves would take another session if and only if, since it saw its
   * own id, its entry was removed (by a kick, or by another cleanup that itself takes what is not its own)
   * and a session of the same client was registered that is still there.
   */
  lemma TakesForeignIff(loaded: map<Client, Counter>, actions: seq<Action>, i: SessionId)
    requires Run(loaded, actions) && At(After(loaded, actions), i, Matched)
    ensures TakesForeign(After(loaded, actions), i) <==>
              exists r, m, g, j: SessionId :: Overtaken(loaded, actions, i, r, m, g, j)
  {
    hide Do, Enabled, TableInv, Run, After, HeldAt;
    var s := After(loaded, actions);
    MatchedHasClient(loaded, actions, i);
    var c := ClientOf(s, i);
    if TakesForeign(s, i) {
      var j := s.table[c];
      var r := MatchedSince(loaded, actions, i);
      var g := HeldSince(loaded, actions, c, j);
      if g < r {
        OneHolder(loaded, actions, c, i, j, r);
      }
      NotHeldAfter(loaded, actions, c, i, j, g);
      var m := RemovedBetween(loaded, actions, c, i, r, g + 1);
      assert Overtaken(loaded, actions, i, r, m, g, j);
    }
    if r, m, g, j: SessionId :| Overtaken(loaded, actions, i, r, m, g, j) {
      HeldNow(loaded, actions, c, j);
    }
  }

  lemma NotHeldAfter(loaded: map<Client, Counter>, actions: seq<Action>, c: Client, i: SessionId, j: SessionId, g: nat)
    requires i != j && HeldAt(loaded, actions, c, j, g + 1)
    ensures !HeldAt(loaded, actions, c, i, g + 1)
  {
  }

  /** A kick in a gap is six steps away from the start: the client reconnects while its old session is kicked. */
  lemma TheGapIsReached(loaded: map<Client, Counter>, c: Client) returns (actions: seq<Action>)
    ensures Run(loaded, actions)
    ensures var s := After(loaded, actions);
      && TableInv(s) && Enabled(s, KickRemove(0)) && !MissesGap(s, KickRemove(0))
      && At(s, 0, Matched) && Holds(s.table, s.kicks[0].client, 0)
      && At(s, 1, Waiting) && s.clients[1] == s.kicks[0].client
  {
    hide Run, After, Merged, Plus, Add, AtMost;
    var before, s := OneReconnecting(loaded, c);
    Extend(loaded, before, CleanupRead(0));
    actions := before + [CleanupRead(0)];
    assert After(loaded, actions).phases == [Matched, Waiting];
  }

  lemma OneReconnecting(loaded: map<Client, Counter>, c: Client) returns (actions: seq<Action>, s: System)
    ensures Run(loaded, actions) && After(loaded, actions) == s
    ensures s.table == map[c := 0] && s.clients == [c, c] && s.phases == [Running, Waiting] && s.kicks == [Found(c)]
  {
    hide Run, After, Merged, Plus, Add, AtMost;
    var three, s3 := OneRunning(loaded, c);
    Extend(loaded, three, Admit(c));
    Extend(loaded, three + [Admit(c)], KickGet(c));
    actions := three + [Admit(c)] + [KickGet(c)];
    s := After(loaded, actions);
    assert s.phases == [Running, Waiting] && s.clients == [c, c] && s.kicks == [Found(c)];
  }

  /** One session of client `c` runs. */
  lemma OneRunning(loaded: map<Client, Counter>, c: Client) returns (actions: seq<Action>, s: System)
    ensures Run(loaded, actions) && After(loaded, actions) == s
    ensures s == System(0, map[c := 0], map[], [], [c], [Gate(0, 0)], [Running], map[0 := ZERO], [], loaded, map[],
        [], [])
  {
    hide Run, After, Merged, Plus, Laid, Add, AtMost;
    StartOfRun(loaded);
    Extend(loaded, [], Admit(c));
    var s1 := After(loaded, [] + [Admit(c)]);
    assert s1.clients == [c] && s1.phases == [Waiting] && s1.gates == [Gate(0, 0)];
    Extend(loaded, [] + [Admit(c)], Register(0));
    var s2 := After(loaded, [] + [Admit(c)] + [Register(0)]);
    assert s2.phases == [Registered] && s2.table == map[c := 0];
    actions := [] + [Admit(c)] + [Register(0)] + [AckSent(0)];
    Extend(loaded, [] + [Admit(c)] + [Register(0)], AckSent(0));
    s := After(loaded, actions);
    assert s.phases == [Running];
  }

  lemma StartOfRun(loaded: map<Client, Counter>)
    ensures Run(loaded, []) && After(loaded, []) == Init(loaded)
  {
  }

  ghost predicate KickFree(actions: seq<Action>) {
    forall k :: 0 <= k < |actions| ==> !actions[k].KickRemove?
  }

  lemma {:induction false} KickFreeMissesGaps(loaded: map<Client, Counter>, actions: seq<Action>)
    requires Run(loaded, actions) && KickFree(actions)
    ensures NoKickInAGap(loaded, actions)
    decreases |actions|
  {
    if actions != [] {
      KickFreeMissesGaps(loaded, actions[..|actions| - 1]);
    }
  }

  /** Both halves of every cleanup are one step: after a match, its own removal comes next. */
  ghost predicate HalvesAdjacent(loaded: map<Client, Counter>, actions: seq<Action>)
    requires Run(loaded, actions)
    decreases |actions|
  {
    if actions == [] then true
    else
      var before, a := actions[..|actions| - 1], actions[|actions| - 1];
      && HalvesAdjacent(loaded, before)
      && forall i :: 0 <= i < |After(loaded, before).phases| && After(loaded, before).phases[i] == Matched ==>
           a == CleanupRemove(i)
  }

  lemma {:induction false} AdjacentHalvesHaveNoGap(loaded: map<Client, Counter>, actions: seq<Action>)
    requires Run(loaded, actions) && HalvesAdjacent(loaded, actions)
    ensures NoKickInAGap(loaded, actions)
    decreases |actions|
  {
    if actions != [] {
      AdjacentHalvesHaveNoGap(loaded, actions[..|actions| - 1]);
    }
  }

  /** Without kicks a client has at most one session that is registered or still to be cleaned up. */
  lemma {:induction false} OneSessionPerClient(
      loaded: map<Client, Counter>, actions: seq<Action>, i: SessionId, j: SessionId)
    requires Run(loaded, actions) && KickFree(actions)
    ensures var s := After(loaded, actions);
      && AllHold(s)
      && |s.phases| == |s.clients|
      && (i < |s.phases| && j < |s.phases| && s.clients[i] == s.clients[j] ==>
            Tabled(s.phases[i]) ==> Tabled(s.phases[j]) ==> i == j)
    decreases |actions|
  {
    RunKeepsTable(loaded, actions);
    if actions == [] {
      InitTable(loaded);
    } else {
      var before := actions[..|actions| - 1];
      assert forall k :: 0 <= k < |before| ==> before[k] == actions[k];
      OneSessionPerClient(loaded, before, i, j);
      RunKeepsTable(loaded, before);
      StepKeepsAll(After(loaded, before), actions[|actions| - 1]);
    }
  }

  // ----- what a kick does -----

  /** A kick takes whatever session the client has out of the table, and leaves every other client alone. */
  lemma KickRemoves(s: System, k: nat)
    requires Enabled(s, KickRemove(k))
    ensures var c, s' := s.kicks[k].client, Do(s, KickRemove(k));
      && c !in s'.table && s'.phases == s.phases
      && forall d :: d != c ==> (d in s'.table <==> d in s.table) && (d in s.table ==> s'.table[d] == s.table[d])
  {
  }

  /** Once it is recorded, a handshake of the client passes the gate only when more than 60 seconds have gone by. */
  lemma KickCloses(s: System, k: nat, ms: nat)
    requires Enabled(s, KickMark(k))
    ensures var c, s' := s.kicks[k].client, Do(s, KickMark(k));
      && s'.marks == s.marks + [Mark(c, s.now)]
      && (Enabled(Do(s', Tick(ms)), Admit(c)) <==> ms > 60_000)
      && forall d :: d != c ==> (Enabled(s', Admit(d)) <==> Enabled(s, Admit(d)))
  {
    KickRefusesItsWindow(s.kicked, s.kicks[k].client, s.now, s.kicks[k].client, s.now + ms, KICK_WINDOW_SECS);
    forall d | d != s.kicks[k].client
      ensures Enabled(Do(s, KickMark(k)), Admit(d)) <==> Enabled(s, Admit(d))
    {
      KickRefusesItsWindow(s.kicked, s.kicks[k].client, s.now, d, s.now, KICK_WINDOW_SECS);
    }
  }

  /** A session is registered exactly if its client has none. */
  lemma RegisterIs(s: System, i: SessionId)
    requires Enabled(s, Register(i)) && |s.clients| == |s.phases|
    ensures var c, s' := s.clients[i], Do(s, Register(i));
      && (c !in s.table ==> s'.table == s.table[c := i] && At(s', i, Registered))
      && (c in s.table ==> s'.table == s.table && At(s', i, Rejected))
  {
  }

  // ----- the kick gate -----

  ghost predicate GatesInv(s: System) {
    && |s.gates| == |s.clients|
    && (forall c :: c in s.kicked ==> s.kicked[c] <= s.now)
    && (forall m :: 0 <= m < |s.marks| ==>
          s.marks[m].client in s.kicked && s.marks[m].at <= s.kicked[s.marks[m].client])
    && forall i, m ::
         0 <= i < |s.gates| && 0 <= m < s.gates[i].seen && m < |s.marks| && s.marks[m].client == s.clients[i] ==>
           s.gates[i].at - s.marks[m].at > 60_000
  }

  lemma StepKeepsGates(s: System, a: Action)
    requires GatesInv(s) && Enabled(s, a)
    requires forall i :: 0 <= i < |s.gates| ==> s.gates[i].seen <= |s.marks|
    ensures GatesInv(Do(s, a))
    ensures forall i :: 0 <= i < |Do(s, a).gates| ==> Do(s, a).gates[i].seen <= |Do(s, a).marks|
  {
    hide Merged, Plus, Laid, Add, AtMost, Of, Enter, Holds;
  }

  /**
   * Within the 60 seconds after a recorded kick no handshake of that client passes the gate, though one
   * that passed before the kick was recorded may still register.
   */
  lemma {:induction false} GateHolds(loaded: map<Client, Counter>, actions: seq<Action>)
    requires Run(loaded, actions)
    ensures GatesInv(After(loaded, actions))
    ensures var s := After(loaded, actions); forall i :: 0 <= i < |s.gates| ==> s.gates[i].seen <= |s.marks|
  {
    if actions != [] {
      hide Do, Enabled, GatesInv;
      GateHolds(loaded, actions[..|actions| - 1]);
      StepKeepsGates(After(loaded, actions[..|actions| - 1]), actions[|actions| - 1]);
    }
  }
}
