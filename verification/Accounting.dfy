/**
 * Traffic in the interleavings of `Lifetimes`: what a client's total is made of, and what queries and history
 * samples report while sessions come, go and are merged (src/server/tunnel.rs:206-209,
 * src/server/admin.rs:804-817, src/server/mod.rs:72-80, src/server/traffic.rs).
 */
module Accounting {
  import opened Bytes
  import opened Traffic
  import opened Registry
  import opened Lifetimes

  /** What the sessions of `c` contributed to `shares`, together. */
  function Shared(clients: seq<Client>, shares: map<SessionId, Counter>, c: Client): Counter {
    if clients == [] then ZERO
    else
      var i := |clients| - 1;
      Add(Shared(clients[..i], shares, c), if clients[i] == c && i in shares then shares[i] else ZERO)
  }

  lemma {:induction false} ShareAdded(
      clients: seq<Client>, shares: map<SessionId, Counter>, i: SessionId, delta: Counter, c: Client)
    requires i !in shares
    ensures Shared(clients, shares[i := delta], c) ==
            if i < |clients| && clients[i] == c then Add(Shared(clients, shares, c), delta)
            else Shared(clients, shares, c)
  {
    hide Add;
    if clients != [] {
      var k := |clients| - 1;
      ShareAdded(clients[..k], shares, i, delta, c);
      AddSwaps(Shared(clients[..k], shares, c), delta, if clients[k] == c && k in shares then shares[k] else ZERO);
      if i == k {
        AddZero(Shared(clients[..k], shares, c));
      }
    }
  }

  lemma ClientAdded(clients: seq<Client>, shares: map<SessionId, Counter>, d: Client, c: Client)
    requires |clients| !in shares
    ensures Shared(clients + [d], shares, c) == Shared(clients, shares, c)
  {
    assert (clients + [d])[..|clients|] == clients;
  }

  /** Contributions that are each at most the session's counter add up to at most all counters. */
  lemma {:induction false} SharesAreBounded(
      clients: seq<Client>, shares: map<SessionId, Counter>, counters: map<SessionId, Counter>, c: Client)
    requires forall i :: i in shares ==> i in counters && AtMost(shares[i], counters[i])
    requires forall i :: i in counters ==> AtMost(ZERO, counters[i])
    ensures AtMost(Shared(clients, shares, c), Shared(clients, counters, c))
  {
    if clients != [] {
      SharesAreBounded(clients[..|clients| - 1], shares, counters, c);
    }
  }

  /** `table` is what was loaded plus the contributions in `shares`, client by client. */
  ghost predicate Accounts(
      s: System, loaded: map<Client, Counter>, table: map<Client, Counter>, shares: map<SessionId, Counter>)
  {
    && (forall i :: i in shares ==> i in s.counters && AtMost(shares[i], s.counters[i]))
    && forall c :: Of(table, c) == Add(Of(loaded, c), Shared(s.clients, shares, c))
  }

  ghost predicate SessionsInv(s: System) {
    && |s.phases| == |s.clients|
    && (forall i :: i in s.counters <==> 0 <= i < |s.phases|)
    && (forall i :: i in s.counters ==> AtMost(ZERO, s.counters[i]))
    && (forall i :: i in s.counters && s.phases[i].Taken? ==> AtMost(s.phases[i].delta, s.counters[i]))
    && forall i :: i in s.merged <==> 0 <= i < |s.phases| && s.phases[i] == Settled
  }

  ghost predicate TotalsInv(s: System, loaded: map<Client, Counter>) {
    Accounts(s, loaded, s.totals, s.merged)
  }

  /** A query has counted a session only if it was merged before, or its client has been visited. */
  ghost predicate QueryInv(s: System, loaded: map<Client, Counter>, q: Query) {
    && Accounts(s, loaded, q.acc, q.shares)
    && (forall i :: i in q.shares ==> 0 <= i < |s.phases| && i < |s.clients|
                                      && (s.phases[i] == Settled || s.clients[i] in q.visited))
    && (q.holding.Some? ==> q.holding.value < |s.clients| && q.holding.value !in q.shares
                            && s.clients[q.holding.value] in q.visited)
  }

  ghost predicate QueriesInv(s: System, loaded: map<Client, Counter>) {
    forall q :: 0 <= q < |s.queries| ==> QueryInv(s, loaded, s.queries[q])
  }

  /** The fields each group of steps leaves alone. */
  lemma Untouched(s: System, a: Action)
    requires Enabled(s, a)
    ensures var s' := Do(s, a);
      && (!a.Admit? ==> s'.clients == s.clients)
      && (!a.Admit? && !a.Count? ==> s'.counters == s.counters)
      && (!a.Merge? ==> s'.merged == s.merged && s'.totals == s.totals)
      && (a.Tick? || a.Count? || a.KickGet? || a.KickRemove? || a.KickMark?
          || a.QueryStart? || a.QueryVisit? || a.QueryAdd?
          ==> s'.phases == s.phases)
      && (!a.QueryStart? && !a.QueryVisit? && !a.QueryAdd? ==> s'.queries == s.queries)
      && (!a.SampleStart? && !a.SampleVisit? && !a.SampleTotals? ==> s'.samples == s.samples)
  {
  }

  /** A step moves at most one session, and settles exactly the session it merges. */
  lemma OneSessionMoves(s: System, a: Action, i: SessionId)
    requires |s.phases| == |s.clients| && Enabled(s, a) && i < |s.phases|
    ensures var s' := Do(s, a);
      && |s'.phases| == |s'.clients| == |s.phases| + (if a.Admit? then 1 else 0)
      && (s'.phases[i] == s.phases[i]
          || (a == Merge(i) && s.phases[i].Taken? && s'.phases[i] == Settled)
          || (a == TakeSnapshot(i) && s.phases[i].Clear? && i in s.counters && s'.phases[i] == Taken(s.counters[i]))
          || (!s.phases[i].Taken? && s.phases[i] != Settled && !s'.phases[i].Taken? && s'.phases[i] != Settled))
      && (a == Merge(i) ==> s'.phases[i] == Settled && s'.merged == s.merged[i := s.phases[i].delta])
  {
    hide Merged, Plus, Refuses, Add, AtMost, Of, Holds, Enter;
  }

  lemma StepKeepsSessions(s: System, a: Action)
    requires SessionsInv(s) && Enabled(s, a)
    ensures SessionsInv(Do(s, a))
  {
    hide Do, Enabled, SessionsInv;
    if a.Count? {
      CountKeepsSessions(s, a);
    } else if a.Admit? {
      AdmitKeepsSessions(s, a);
    } else {
      MoveKeepsSessions(s, a);
    }
  }

  lemma MoveKeepsSessions(s: System, a: Action)
    requires SessionsInv(s) && Enabled(s, a) && !a.Count? && !a.Admit?
    ensures SessionsInv(Do(s, a))
  {
    hide Do, Enabled, AtMost;
    var s' := Do(s, a);
    Untouched(s, a);
    assert |s'.phases| == |s.phases| by {
      if |s.phases| > 0 {
        OneSessionMoves(s, a, 0);
      } else {
        NothingMoves(s, a);
      }
    }
    if a.Merge? {
      MergeTarget(s, a);
      OneSessionMoves(s, a, a.i);
    }
    forall i | 0 <= i < |s.phases|
      ensures (i in s'.merged <==> s'.phases[i] == Settled)
      ensures s'.phases[i].Taken? ==> AtMost(s'.phases[i].delta, s'.counters[i])
    {
      OneSessionMoves(s, a, i);
      AtMostLaws(s.counters[i], ZERO, ZERO);
    }
  }

  lemma MergeTarget(s: System, a: Action)
    requires Enabled(s, a) && a.Merge?
    ensures a.i < |s.phases| && s.phases[a.i].Taken?
  {
  }

  lemma NothingMoves(s: System, a: Action)
    requires Enabled(s, a) && !a.Admit? && s.phases == []
    ensures Do(s, a).phases == []
  {
  }

  lemma AdmitKeepsSessions(s: System, a: Action)
    requires SessionsInv(s) && Enabled(s, a) && a.Admit?
    ensures SessionsInv(Do(s, a))
  {
    hide Refuses, AtMost, Add;
    AtMostLaws(ZERO, ZERO, ZERO);
  }

  lemma CountKeepsSessions(s: System, a: Action)
    requires SessionsInv(s) && Enabled(s, a) && a.Count?
    ensures SessionsInv(Do(s, a))
  {
    hide Add, AtMost;
    AtMostLaws(ZERO, s.counters[a.i], a.delta);
    if s.phases[a.i].Taken? {
      AtMostLaws(s.phases[a.i].delta, s.counters[a.i], a.delta);
    }
  }

  /** Counters only grow, and clients are only added. */
  lemma SharesKept(s: System, a: Action, shares: map<SessionId, Counter>)
    requires SessionsInv(s) && Enabled(s, a)
    requires forall i :: i in shares ==> i in s.counters && AtMost(shares[i], s.counters[i])
    ensures var s' := Do(s, a);
      && s.clients <= s'.clients
      && (forall i :: i in shares ==> i in s'.counters && AtMost(shares[i], s'.counters[i]))
      && forall c :: Shared(s'.clients, shares, c) == Shared(s.clients, shares, c)
  {
    hide Of, Add, AtMost, Shared, Merged, Plus, Laid;
    Untouched(s, a);
    if a.Count? {
      if a.i in shares {
        AtMostLaws(shares[a.i], s.counters[a.i], a.delta);
      }
    }
    if a.Admit? {
      forall c ensures Shared(Do(s, a).clients, shares, c) == Shared(s.clients, shares, c) {
        ClientAdded(s.clients, shares, a.c, c);
      }
    }
  }

  /** A step that adds neither to `table` nor to `shares` keeps an account. */
  lemma AccountKept(
      s: System, a: Action, loaded: map<Client, Counter>, table: map<Client, Counter>, shares: map<SessionId, Counter>)
    requires SessionsInv(s) && Enabled(s, a) && Accounts(s, loaded, table, shares)
    ensures Accounts(Do(s, a), loaded, table, shares)
  {
    SharesKept(s, a, shares);
    hide Do, Enabled, SessionsInv, Of, Add, AtMost, Shared;
  }

  /** Adding one session that is not in the account yet. */
  lemma AccountGrows(
      s: System, loaded: map<Client, Counter>, table: map<Client, Counter>, shares: map<SessionId, Counter>,
      i: SessionId, delta: Counter, table': map<Client, Counter>)
    requires Accounts(s, loaded, table, shares)
    requires i !in shares && i < |s.clients| && i in s.counters && AtMost(delta, s.counters[i])
    requires forall c :: Of(table', c) == if c == s.clients[i] then Add(Of(table, c), delta) else Of(table, c)
    ensures Accounts(s, loaded, table', shares[i := delta])
  {
    hide Shared, Add, AtMost, Of;
    forall c
      ensures Of(table', c) == Add(Of(loaded, c), Shared(s.clients, shares[i := delta], c))
    {
      ShareAdded(s.clients, shares, i, delta, c);
      AddSwaps(Of(loaded, c), Shared(s.clients, shares, c), delta);
    }
  }

  lemma StepKeepsTotals(s: System, a: Action, loaded: map<Client, Counter>)
    requires SessionsInv(s) && TotalsInv(s, loaded) && Enabled(s, a)
    ensures TotalsInv(Do(s, a), loaded)
  {
    hide Accounts, Add, AtMost, Of, Merged, Plus;
    Untouched(s, a);
    AccountKept(s, a, loaded, s.totals, s.merged);
    if a.Merge? {
      var c, delta := s.clients[a.i], s.phases[a.i].delta;
      forall d
        ensures Of(Merged(s.totals, c, delta), d) == if d == c then Add(Of(s.totals, c), delta) else Of(s.totals, d)
      {
        MergeAddsOnce(s.totals, c, delta, d);
      }
      AccountGrows(Do(s, a), loaded, s.totals, s.merged, a.i, delta, Do(s, a).totals);
    }
  }

  /** A query that a step does not change keeps what is known of it. */
  lemma QueryKept(s: System, a: Action, loaded: map<Client, Counter>, q: Query)
    requires SessionsInv(s) && Enabled(s, a) && QueryInv(s, loaded, q)
    ensures QueryInv(Do(s, a), loaded, q)
  {
    var s' := Do(s, a);
    AccountKept(s, a, loaded, q.acc, q.shares);
    hide Accounts, Add, AtMost, Of;
    assert s.clients <= s'.clients by {
      Untouched(s, a);
    }
    forall i | i in q.shares
      ensures i < |s'.phases| && (s'.phases[i] == Settled || s'.clients[i] in q.visited)
    {
      hide Do, Enabled;
      OneSessionMoves(s, a, i);
    }
    hide Do, Enabled;
  }

  /** The session a query comes upon has not been counted by it: not live, and not as merged before. */
  lemma VisitedIsNew(s: System, a: Action, loaded: map<Client, Counter>)
    requires SessionsInv(s) && TableInv(s) && Enabled(s, a) && a.QueryVisit? && QueryInv(s, loaded, s.queries[a.q])
    ensures QueryInv(Do(s, a), loaded, Do(s, a).queries[a.q])
  {
    var q := s.queries[a.q];
    hide Add, AtMost, Of, Shared;
    assert Accounts(Do(s, a), loaded, q.acc, q.shares) by {
      AccountKept(s, a, loaded, q.acc, q.shares);
    }
    if a.c in s.table {
      assert Tabled(s.phases[s.table[a.c]]);
      assert s.table[a.c] !in q.shares;
    }
    hide Accounts;
  }

  lemma AddKeepsQuery(s: System, a: Action, loaded: map<Client, Counter>)
    requires SessionsInv(s) && Enabled(s, a) && a.QueryAdd? && QueryInv(s, loaded, s.queries[a.q])
    ensures QueryInv(Do(s, a), loaded, Do(s, a).queries[a.q])
  {
    var s', q := Do(s, a), s.queries[a.q];
    var i := q.holding.value;
    hide Add, AtMost, Shared, Of;
    AccountKept(s, a, loaded, q.acc, q.shares);
    AtMostLaws(s.counters[i], ZERO, ZERO);
    forall c
      ensures Of(Plus(q.acc, s.clients[i], s.counters[i]), c) ==
              if c == s.clients[i] then Add(Of(q.acc, c), s.counters[i]) else Of(q.acc, c)
    {
      PlusAddsOnce(q.acc, s.clients[i], s.counters[i], c);
    }
    hide Plus, Accounts;
    AccountGrows(s', loaded, q.acc, q.shares, i, s.counters[i], s'.queries[a.q].acc);
  }

  lemma StepKeepsQueries(s: System, a: Action, loaded: map<Client, Counter>)
    requires SessionsInv(s) && TableInv(s) && TotalsInv(s, loaded) && QueriesInv(s, loaded) && Enabled(s, a)
    ensures QueriesInv(Do(s, a), loaded)
  {
    hide QueryInv, SessionsInv, TableInv, TotalsInv, Enabled, Do;
    var s' := Do(s, a);
    forall k | 0 <= k < |s'.queries|
      ensures QueryInv(s', loaded, s'.queries[k])
    {
      QueryChanges(s, a, k);
      if a.QueryVisit? && k == a.q {
        VisitedIsNew(s, a, loaded);
      } else if a.QueryAdd? && k == a.q {
        AddKeepsQuery(s, a, loaded);
      } else if a.QueryStart? && k == |s.queries| {
        StartKeepsQuery(s, a, loaded);
      } else {
        QueryKept(s, a, loaded, s.queries[k]);
      }
    }
  }

  /** A step changes at most the query it is a step of. */
  lemma QueryChanges(s: System, a: Action, k: nat)
    requires Enabled(s, a) && k < |Do(s, a).queries|
    ensures var s' := Do(s, a);
      if a.QueryStart? && k == |s.queries| then s'.queries[k] == Query(s.totals, s.merged, {}, None)
      else k < |s.queries| && (((a.QueryVisit? || a.QueryAdd?) && k == a.q) || s'.queries[k] == s.queries[k])
  {
    hide Merged, Plus, Add, AtMost, Refuses, Of, Enter, Holds;
  }

  lemma StartKeepsQuery(s: System, a: Action, loaded: map<Client, Counter>)
    requires SessionsInv(s) && TotalsInv(s, loaded) && Enabled(s, a) && a.QueryStart?
    ensures QueryInv(Do(s, a), loaded, Query(s.totals, s.merged, {}, None))
  {
    AccountKept(s, a, loaded, s.totals, s.merged);
    hide Accounts;
  }

  // ----- history samples -----

  /** What a sampler has read live, and what a point was made of. */
  ghost predicate SampleInv(s: System, loaded: map<Client, Counter>, q: Sampling) {
    && (forall i :: i in q.live ==> i in s.counters && AtMost(q.live[i], s.counters[i]))
    && match q
       case Looking(online, live, visited) =>
         && (forall i :: i in live ==> 0 <= i < |s.clients| && s.clients[i] in visited)
         && forall c :: Of(online, c) == Shared(s.clients, live, c)
       case Point(acc, live, settled) =>
         && (forall i :: i in settled ==> i in s.counters && AtMost(settled[i], s.counters[i]))
         && forall c :: Of(acc, c) ==
                        Add(Add(Of(loaded, c), Shared(s.clients, settled, c)), Shared(s.clients, live, c))
  }

  ghost predicate SamplesInv(s: System, loaded: map<Client, Counter>) {
    forall q :: 0 <= q < |s.samples| ==> SampleInv(s, loaded, s.samples[q])
  }

  lemma SampleKept(s: System, a: Action, loaded: map<Client, Counter>, q: Sampling)
    requires SessionsInv(s) && Enabled(s, a) && SampleInv(s, loaded, q)
    ensures SampleInv(Do(s, a), loaded, q)
  {
    hide Do, Enabled, SessionsInv, Of, Add, AtMost, Shared;
    var s' := Do(s, a);
    SharesKept(s, a, q.live);
    if q.Point? {
      SharesKept(s, a, q.settled);
    } else {
      forall i | i in q.live ensures i < |s'.clients| && s'.clients[i] in q.visited {
        assert s'.clients[i] == s.clients[i];
      }
    }
  }

  /** The session a sampler comes upon has not been read by it. */
  lemma SampleVisitKeeps(s: System, a: Action, loaded: map<Client, Counter>)
    requires SessionsInv(s) && TableInv(s) && Enabled(s, a) && a.SampleVisit?
    requires SampleInv(s, loaded, s.samples[a.q])
    ensures SampleInv(Do(s, a), loaded, Do(s, a).samples[a.q])
  {
    hide Merged, Plus, Laid, Add;
    var q, s' := s.samples[a.q], Do(s, a);
    assert s'.clients == s.clients && s'.counters == s.counters;
    if a.c in s.table {
      var i := s.table[a.c];
      assert i !in q.live;
      assert s'.samples[a.q] ==
        Looking(q.online[a.c := s.counters[i]], q.live[i := s.counters[i]], q.visited + {a.c});
      hide Do, Enabled, Add, AtMost, Shared, SessionsInv;
      AtMostLaws(s.counters[i], ZERO, ZERO);
      ReadingGrows(s.clients, q.online, q.live, a.c, i, s.counters[i], s'.samples[a.q].online, s'.samples[a.q].live);
    }
  }

  /** One more session in the live reading, of a client that had none in it. */
  lemma ReadingGrows(clients: seq<Client>, online: map<Client, Counter>, live: map<SessionId, Counter>, c: Client,
                     i: SessionId, delta: Counter, online': map<Client, Counter>, live': map<SessionId, Counter>)
    requires i !in live && i < |clients| && clients[i] == c && Absent(clients, live, c)
    requires forall d :: Of(online, d) == Shared(clients, live, d)
    requires online' == online[c := delta] && live' == live[i := delta]
    ensures forall d :: Of(online', d) == Shared(clients, live', d)
  {
    hide Add, Shared, Absent;
    NothingShared(clients, live, c);
    forall d ensures Of(online', d) == Shared(clients, live', d) {
      ShareAdded(clients, live, i, delta, d);
      ZeroPlus(delta);
    }
  }

  lemma ZeroPlus(a: Counter)
    ensures Add(ZERO, a) == a
  {
  }

  /** No session of the client is among the shares. */
  ghost predicate Absent(clients: seq<Client>, shares: map<SessionId, Counter>, c: Client) {
    forall i :: 0 <= i < |clients| && clients[i] == c ==> i !in shares
  }

  lemma {:induction false} NothingShared(clients: seq<Client>, shares: map<SessionId, Counter>, c: Client)
    requires Absent(clients, shares, c)
    ensures Shared(clients, shares, c) == ZERO
  {
    hide Add;
    if clients != [] {
      var before := clients[..|clients| - 1];
      assert Absent(before, shares, c) by {
        assert forall i :: 0 <= i < |before| ==> before[i] == clients[i];
      }
      NothingShared(before, shares, c);
      AddZero(ZERO);
    }
  }

  lemma SampleTotalsKeeps(s: System, a: Action, loaded: map<Client, Counter>)
    requires SessionsInv(s) && TotalsInv(s, loaded) && Enabled(s, a) && a.SampleTotals?
    requires SampleInv(s, loaded, s.samples[a.q])
    ensures SampleInv(Do(s, a), loaded, Do(s, a).samples[a.q])
  {
    hide Merged, Plus, Laid, Of, Add, AtMost, Shared, SessionsInv;
    var q, s' := s.samples[a.q], Do(s, a);
    assert s'.clients == s.clients && s'.counters == s.counters;
    var point := Point(Laid(s.totals, q.online), q.live, s.merged);
    assert s'.samples[a.q] == point;
    hide Do, Enabled;
    PointAdds(s.clients, loaded, s.totals, s.merged, q.online, q.live, point.acc);
  }

  lemma PointAdds(clients: seq<Client>, loaded: map<Client, Counter>, totals: map<Client, Counter>,
                  merged: map<SessionId, Counter>, online: map<Client, Counter>, live: map<SessionId, Counter>,
                  acc: map<Client, Counter>)
    requires forall c :: Of(totals, c) == Add(Of(loaded, c), Shared(clients, merged, c))
    requires forall c :: Of(online, c) == Shared(clients, live, c)
    requires acc == Laid(totals, online)
    ensures forall c :: Of(acc, c) == Add(Add(Of(loaded, c), Shared(clients, merged, c)), Shared(clients, live, c))
  {
    hide Laid, Of, Add, Shared;
    forall c
      ensures Of(acc, c) == Add(Add(Of(loaded, c), Shared(clients, merged, c)), Shared(clients, live, c))
    {
      LaidAdds(totals, online, c);
    }
  }

  lemma SampleStartKeeps(s: System, loaded: map<Client, Counter>)
    ensures SampleInv(s, loaded, Looking(map[], map[], {}))
  {
    forall c ensures Shared(s.clients, map[], c) == ZERO {
      assert Absent(s.clients, map[], c);
      NothingShared(s.clients, map[], c);
    }
    hide Shared;
  }

  /** A step changes at most the sample it is a step of. */
  lemma SampleChanges(s: System, a: Action, k: nat)
    requires Enabled(s, a) && k < |Do(s, a).samples|
    ensures var s' := Do(s, a);
      if a.SampleStart? && k == |s.samples| then s'.samples[k] == Looking(map[], map[], {})
      else k < |s.samples| && (((a.SampleVisit? || a.SampleTotals?) && k == a.q) || s'.samples[k] == s.samples[k])
  {
    hide Merged, Plus, Laid, Add, AtMost, Refuses, Of, Enter, Holds;
  }

  lemma StepKeepsSamples(s: System, a: Action, loaded: map<Client, Counter>)
    requires SessionsInv(s) && TableInv(s) && TotalsInv(s, loaded) && SamplesInv(s, loaded) && Enabled(s, a)
    ensures SamplesInv(Do(s, a), loaded)
  {
    hide SampleInv, SessionsInv, TableInv, TotalsInv, Enabled, Do;
    var s' := Do(s, a);
    forall k | 0 <= k < |s'.samples|
      ensures SampleInv(s', loaded, s'.samples[k])
    {
      SampleChanges(s, a, k);
      if a.SampleVisit? && k == a.q {
        SampleVisitKeeps(s, a, loaded);
      } else if a.SampleTotals? && k == a.q {
        SampleTotalsKeeps(s, a, loaded);
      } else if a.SampleStart? && k == |s.samples| {
        SampleStartKeeps(s', loaded);
      } else {
        SampleKept(s, a, loaded, s.samples[k]);
      }
    }
  }

  ghost predicate TrafficInv(s: System, loaded: map<Client, Counter>) {
    TableInv(s) && SessionsInv(s) && TotalsInv(s, loaded) && QueriesInv(s, loaded) && SamplesInv(s, loaded)
  }

  lemma InitTraffic(loaded: map<Client, Counter>)
    ensures TrafficInv(Init(loaded), loaded)
  {
    hide Of, Add, AtMost;
    assert forall c :: Shared([], map[], c) == ZERO;
    forall c ensures Of(loaded, c) == Add(Of(loaded, c), ZERO) {
      AddZero(Of(loaded, c));
    }
  }

  lemma {:induction false} RunKeepsTraffic(loaded: map<Client, Counter>, actions: seq<Action>)
    requires Run(loaded, actions)
    ensures TrafficInv(After(loaded, actions), loaded)
  {
    hide Do, Enabled, TableInv, SessionsInv, TotalsInv, QueriesInv, SamplesInv;
    if actions == [] {
      InitTraffic(loaded);
    } else {
      var before, a := actions[..|actions| - 1], actions[|actions| - 1];
      RunKeepsTraffic(loaded, before);
      var s := After(loaded, before);
      StepKeepsTable(s, a);
      StepKeepsSessions(s, a);
      StepKeepsTotals(s, a, loaded);
      StepKeepsQueries(s, a, loaded);
      StepKeepsSamples(s, a, loaded);
    }
  }

  /**
   * In every run a client's total is the loaded value plus exactly one snapshot of each of its sessions
   * that reached the end of its cleanup, each at most what the session has counted.
   */
  lemma TotalsAreExact(loaded: map<Client, Counter>, actions: seq<Action>, c: Client)
    requires Run(loaded, actions)
    ensures var s := After(loaded, actions);
      && Of(s.totals, c) == Add(Of(loaded, c), Shared(s.clients, s.merged, c))
      && |s.phases| == |s.clients|
      && (forall i :: i in s.merged <==> 0 <= i < |s.phases| && s.phases[i] == Settled)
      && (forall i :: i in s.merged ==> i in s.counters && AtMost(s.merged[i], s.counters[i]))
  {
    hide Run, After, Do, Enabled, Of, Add, AtMost, Shared, QueriesInv, TableInv;
    RunKeepsTraffic(loaded, actions);
  }

  /**
   * No query counts a session twice, whatever registers, is kicked or is cleaned up meanwhile: what it
   * adds live is not in it yet, and what it reports never exceeds the loaded value plus what all
   * sessions of the client have counted.
   */
  lemma NothingIsCountedTwice(loaded: map<Client, Counter>, actions: seq<Action>, q: nat, c: Client)
    requires Run(loaded, actions) && q < |After(loaded, actions).queries|
    ensures var s := After(loaded, actions);
      var query := s.queries[q];
      && (query.holding.Some? ==> query.holding.value !in query.shares)
      && Of(query.acc, c) == Add(Of(loaded, c), Shared(s.clients, query.shares, c))
      && AtMost(Of(query.acc, c), Add(Of(loaded, c), Shared(s.clients, s.counters, c)))
  {
    hide Run, After, Do, Enabled, Of, Shared, TotalsInv, TableInv;
    RunKeepsTraffic(loaded, actions);
    var s := After(loaded, actions);
    assert QueryInv(s, loaded, s.queries[q]);
    SharesAreBounded(s.clients, s.queries[q].shares, s.counters, c);
  }

  /** What a point counts once: every session in it, with its merged value if there is one. */
  function Once(q: Sampling): map<SessionId, Counter>
    requires q.Point?
  {
    q.live + q.settled
  }

  /** What it counts on top of that: the live readings of sessions that were merged by then. */
  function Again(q: Sampling): map<SessionId, Counter>
    requires q.Point?
  {
    map i | i in q.live && i in q.settled :: q.live[i]
  }

  lemma {:induction false} OnceAndAgain(clients: seq<Client>, q: Sampling, c: Client)
    requires q.Point?
    ensures Add(Shared(clients, q.settled, c), Shared(clients, q.live, c)) ==
            Add(Shared(clients, Once(q), c), Shared(clients, Again(q), c))
  {
    hide Add;
    if clients != [] {
      var i, before := |clients| - 1, clients[..|clients| - 1];
      OnceAndAgain(before, q, c);
      var a, b := Shared(before, q.settled, c), Shared(before, q.live, c);
      var d, e := Shared(before, Once(q), c), Shared(before, Again(q), c);
      var x := if clients[i] == c && i in q.settled then q.settled[i] else ZERO;
      var y := if clients[i] == c && i in q.live then q.live[i] else ZERO;
      PairwiseSums(a, b, d, e, x, y);
      AddZero(x);
      ZeroPlus(y);
    } else {
      AddZero(ZERO);
    }
  }

  lemma PairwiseSums(a: Counter, b: Counter, d: Counter, e: Counter, x: Counter, y: Counter)
    requires Add(a, b) == Add(d, e)
    ensures Add(Add(a, x), Add(b, y)) == Add(Add(d, x), Add(e, y))
    ensures Add(Add(a, x), Add(b, y)) == Add(Add(d, Add(x, y)), Add(e, ZERO))
    ensures Add(Add(a, x), Add(b, y)) == Add(Add(d, y), Add(e, x))
  {
  }

  /**
   * In every run a history point is, client by client, the loaded value plus each session's contribution
   * once, which together is at most what the sessions have counted, plus the live readings of exactly those
   * sessions that were in the online reading and had settled before the totals were read: these, and no
   * others, it counts twice.
   */
  lemma SampleCountsTwiceExactly(loaded: map<Client, Counter>, actions: seq<Action>, q: nat, c: Client)
    requires Run(loaded, actions) && q < |After(loaded, actions).samples| && After(loaded, actions).samples[q].Point?
    ensures var s := After(loaded, actions);
      var point := s.samples[q];
      && Of(point.acc, c) ==
         Add(Add(Of(loaded, c), Shared(s.clients, Once(point), c)), Shared(s.clients, Again(point), c))
      && AtMost(Shared(s.clients, Once(point), c), Shared(s.clients, s.counters, c))
      && forall i :: i in Again(point) <==> i in point.live && i in point.settled
  {
    hide Run, After, Do, Enabled, Of, TotalsInv, TableInv, QueriesInv;
    RunKeepsTraffic(loaded, actions);
    var s := After(loaded, actions);
    var point := s.samples[q];
    assert SampleInv(s, loaded, point);
    OnceAndAgain(s.clients, point, c);
    AddSwaps(Of(loaded, c), Shared(s.clients, point.settled, c), Shared(s.clients, point.live, c));
    AddSwaps(Of(loaded, c), Shared(s.clients, Once(point), c), Shared(s.clients, Again(point), c));
    hide Shared, Add, AtMost;
    SharesAreBounded(s.clients, Once(point), s.counters, c);
  }

  /** Step `j` is the sampler's look at the table in which it comes upon session `i`. */
  ghost predicate ReadAt(loaded: map<Client, Counter>, actions: seq<Action>, q: nat, i: SessionId, j: nat)
    requires Run(loaded, actions)
  {
    && j < |actions| && actions[j].SampleVisit? && actions[j].q == q
    && Run(loaded, actions[..j]) && Holds(After(loaded, actions[..j]).table, actions[j].c, i)
  }

  lemma ReadBefore(loaded: map<Client, Counter>, actions: seq<Action>, q: nat, i: SessionId, j: nat)
    requires Run(loaded, actions) && actions != [] && Run(loaded, actions[..|actions| - 1]) && j < |actions| - 1
    ensures ReadAt(loaded, actions, q, i, j) <==> ReadAt(loaded, actions[..|actions| - 1], q, i, j)
  {
    assert actions[..|actions| - 1][..j] == actions[..j];
  }

  lemma SamplesOnlyGrow(s: System, a: Action)
    requires Enabled(s, a)
    ensures |s.samples| <= |Do(s, a).samples|
  {
    hide Merged, Plus, Laid, Add, AtMost, Refuses, Of, Enter, Holds;
  }

  /** A sampler that has not started has read nothing. */
  lemma {:induction false} NothingReadYet(loaded: map<Client, Counter>, actions: seq<Action>, q: nat, i: SessionId)
    requires Run(loaded, actions) && q >= |After(loaded, actions).samples|
    ensures forall j: nat :: !ReadAt(loaded, actions, q, i, j)
    decreases |actions|
  {
    hide Do;
    if actions != [] {
      var before, a := actions[..|actions| - 1], actions[|actions| - 1];
      SamplesOnlyGrow(After(loaded, before), a);
      NothingReadYet(loaded, before, q, i);
      forall j: nat ensures !ReadAt(loaded, actions, q, i, j) {
        if j < |before| {
          ReadBefore(loaded, actions, q, i, j);
        }
      }
    }
  }

  /** What one step adds to a live reading. */
  lemma LiveStep(s: System, a: Action, q: nat, i: SessionId)
    requires Enabled(s, a) && q < |s.samples|
    ensures q < |Do(s, a).samples|
    ensures i in Do(s, a).samples[q].live <==>
              i in s.samples[q].live || (a.SampleVisit? && a.q == q && Holds(s.table, a.c, i))
  {
    hide Merged, Plus, Laid, Add, AtMost, Refuses, Of, Enter;
  }

  /** A session is in the live reading exactly if the sampler came upon it in the table. */
  lemma {:induction false} LiveIsWhatWasRead(loaded: map<Client, Counter>, actions: seq<Action>, q: nat, i: SessionId)
    requires Run(loaded, actions) && q < |After(loaded, actions).samples|
    ensures i in After(loaded, actions).samples[q].live <==> exists j: nat :: ReadAt(loaded, actions, q, i, j)
    decreases |actions|
  {
    hide Do, Enabled, ReadAt;
    var n := |actions| - 1;
    var before, a := actions[..n], actions[n];
    var s := After(loaded, before);
    forall j | 0 <= j < n ensures ReadAt(loaded, actions, q, i, j) <==> ReadAt(loaded, before, q, i, j) {
      ReadBefore(loaded, actions, q, i, j);
    }
    ReadLast(loaded, actions, q, i);
    if q < |s.samples| {
      LiveIsWhatWasRead(loaded, before, q, i);
      LiveStep(s, a, q, i);
    } else {
      NothingReadYet(loaded, before, q, i);
      FreshSample(s, a, q);
    }
    ReadIsInRange(loaded, actions, q, i);
    ReadIsInRange(loaded, before, q, i);
  }

  lemma ReadIsInRange(loaded: map<Client, Counter>, actions: seq<Action>, q: nat, i: SessionId)
    requires Run(loaded, actions)
    ensures forall j: nat :: ReadAt(loaded, actions, q, i, j) ==> j < |actions|
  {
  }

  lemma ReadLast(loaded: map<Client, Counter>, actions: seq<Action>, q: nat, i: SessionId)
    requires Run(loaded, actions) && actions != []
    ensures var n := |actions| - 1;
      ReadAt(loaded, actions, q, i, n) <==>
        actions[n].SampleVisit? && actions[n].q == q && Holds(After(loaded, actions[..n]).table, actions[n].c, i)
  {
  }

  lemma FreshSample(s: System, a: Action, q: nat)
    requires Enabled(s, a) && |s.samples| <= q < |Do(s, a).samples|
    ensures Do(s, a).samples[q].live == map[] && !(a.SampleVisit? && a.q == q)
  {
    hide Merged, Plus, Laid, Add, AtMost, Refuses, Of, Enter, Holds;
  }

  /** When a point was made, and what had settled then. */
  lemma {:induction false} PointWasMade(loaded: map<Client, Counter>, actions: seq<Action>, q: nat) returns (k: nat)
    requires Run(loaded, actions) && q < |After(loaded, actions).samples| && After(loaded, actions).samples[q].Point?
    ensures k < |actions| && actions[k] == SampleTotals(q) && Run(loaded, actions[..k])
    ensures var s, point := After(loaded, actions[..k]), After(loaded, actions).samples[q];
      && q < |s.samples| && point.live == s.samples[q].live
      && forall i: SessionId :: i in point.settled <==> At(s, i, Settled)
    decreases |actions|
  {
    hide Do, Enabled, SessionsInv;
    var n := |actions| - 1;
    var before, a := actions[..n], actions[n];
    var s := After(loaded, before);
    if a == SampleTotals(q) {
      k := n;
      PointOfNow(loaded, before, q);
    } else {
      PointStays(s, a, q);
      k := PointWasMade(loaded, before, q);
      assert before[..k] == actions[..k];
    }
  }

  lemma PointOfNow(loaded: map<Client, Counter>, before: seq<Action>, q: nat)
    requires Run(loaded, before) && Enabled(After(loaded, before), SampleTotals(q))
    ensures var s := After(loaded, before);
      var point := Do(s, SampleTotals(q)).samples[q];
      && q < |s.samples| && point.Point? && point.live == s.samples[q].live
      && forall i: SessionId :: i in point.settled <==> At(s, i, Settled)
  {
    hide Run, After;
    RunKeepsTraffic(loaded, before);
    hide TableInv, TotalsInv, QueriesInv, SamplesInv, Laid;
  }

  lemma PointStays(s: System, a: Action, q: nat)
    requires Enabled(s, a) && q < |Do(s, a).samples| && Do(s, a).samples[q].Point? && a != SampleTotals(q)
    ensures q < |s.samples| && s.samples[q] == Do(s, a).samples[q]
  {
    hide Merged, Plus, Laid, Add, AtMost, Refuses, Of, Enter, Holds;
  }

  /**
   * A point counts a session twice if and only if the sampler came upon the session in the table, and the
   * session had settled by the time the sampler read the totals.
   */
  lemma CountedTwiceIff(loaded: map<Client, Counter>, actions: seq<Action>, q: nat, i: SessionId) returns (k: nat)
    requires Run(loaded, actions) && q < |After(loaded, actions).samples| && After(loaded, actions).samples[q].Point?
    ensures k < |actions| && actions[k] == SampleTotals(q) && Run(loaded, actions[..k])
    ensures i in Again(After(loaded, actions).samples[q]) <==>
              (exists j: nat :: ReadAt(loaded, actions, q, i, j)) && At(After(loaded, actions[..k]), i, Settled)
  {
    hide Run, After, ReadAt;
    k := PointWasMade(loaded, actions, q);
    LiveIsWhatWasRead(loaded, actions, q, i);
  }

  /** A session has counted `delta` and been read by the sampler. */
  lemma OneRead(loaded: map<Client, Counter>, c: Client, delta: Counter) returns (actions: seq<Action>, s: System)
    requires AtMost(ZERO, delta)
    ensures Run(loaded, actions) && After(loaded, actions) == s
    ensures s == System(0, map[c := 0], map[], [], [c], [Gate(0, 0)], [Running], map[0 := delta], [], loaded, map[], [],
                        [Looking(map[c := delta], map[0 := delta], {c})])
  {
    hide Run, After, Merged, Plus, Laid, Add, AtMost;
    var before;
    before, s := OneRunning(loaded, c);
    Extend(loaded, before, Count(0, delta));
    ZeroPlus(delta);
    assert Do(s, Count(0, delta)).counters == map[0 := delta];
    Extend(loaded, before + [Count(0, delta)], SampleStart);
    Extend(loaded, before + [Count(0, delta)] + [SampleStart], SampleVisit(0, c));
    actions := before + [Count(0, delta)] + [SampleStart] + [SampleVisit(0, c)];
    s := After(loaded, actions);
    var q := s.samples[0];
    assert q.online == map[c := delta] && q.live == map[0 := delta] && q.visited == {c};
    assert s.samples == [Looking(map[c := delta], map[0 := delta], {c})];
  }

  /** The same session has been cleaned up and merged before the sampler goes on. */
  lemma OneReadAndMerged(loaded: map<Client, Counter>, c: Client, delta: Counter)
    returns (actions: seq<Action>, s: System)
    requires AtMost(ZERO, delta)
    ensures Run(loaded, actions) && After(loaded, actions) == s
    ensures s.totals == Merged(loaded, c, delta) && s.merged == map[0 := delta] && s.phases == [Settled]
    ensures s.clients == [c] && s.samples == [Looking(map[c := delta], map[0 := delta], {c})]
  {
    hide Run, After, Merged, Plus, Laid, Add, AtMost;
    var before;
    before, s := OneRead(loaded, c, delta);
    Extend(loaded, before, CleanupRead(0));
    assert Do(s, CleanupRead(0)).phases == [Matched];
    Extend(loaded, before + [CleanupRead(0)], CleanupRemove(0));
    var s2 := After(loaded, before + [CleanupRead(0)] + [CleanupRemove(0)]);
    assert s2.phases == [Clear];
    Extend(loaded, before + [CleanupRead(0)] + [CleanupRemove(0)], TakeSnapshot(0));
    var s3 := After(loaded, before + [CleanupRead(0)] + [CleanupRemove(0)] + [TakeSnapshot(0)]);
    assert s3.phases == [Phase.Taken(delta)];
    Extend(loaded, before + [CleanupRead(0)] + [CleanupRemove(0)] + [TakeSnapshot(0)], Merge(0));
    actions := before + [CleanupRead(0)] + [CleanupRemove(0)] + [TakeSnapshot(0)] + [Merge(0)];
    s := After(loaded, actions);
    assert s.phases == [Settled];
  }

  /** It happens: a run whose only session counts `delta` and whose point says twice that on top of what was loaded. */
  lemma ASampleCountsTwice(loaded: map<Client, Counter>, c: Client, delta: Counter) returns (actions: seq<Action>)
    requires AtMost(ZERO, delta)
    ensures Run(loaded, actions)
    ensures var s := After(loaded, actions);
      && s.clients == [c] && |s.samples| == 1 && s.samples[0].Point? && 0 in Again(s.samples[0])
      && Of(s.samples[0].acc, c) == Add(Add(Of(loaded, c), delta), delta)
  {
    hide Run, After, Plus, Laid, Add, AtMost;
    var before, s := OneReadAndMerged(loaded, c, delta);
    Extend(loaded, before, SampleTotals(0));
    actions := before + [SampleTotals(0)];
    var point := After(loaded, actions).samples[0];
    assert point == Point(Laid(Merged(loaded, c, delta), map[c := delta]), map[0 := delta], map[0 := delta]);
    MergeAddsOnce(loaded, c, delta, c);
    hide Merged;
    LaidAdds(Merged(loaded, c, delta), map[c := delta], c);
  }

  /** A query that comes upon a client's session adds its counters to that client, and nothing else. */
  lemma QueryAddsWhatIsLive(s: System, q: nat, c: Client)
    requires Enabled(s, QueryVisit(q, c)) && SessionsInv(s) && TableInv(s)
    ensures var s1 := Do(s, QueryVisit(q, c));
      if c in s.table then
        && Enabled(s1, QueryAdd(q))
        && forall d :: Of(Do(s1, QueryAdd(q)).queries[q].acc, d) ==
             if d == c then Add(Of(s.queries[q].acc, c), s.counters[s.table[c]]) else Of(s.queries[q].acc, d)
      else s1.queries[q].acc == s.queries[q].acc && s1.queries[q].holding == None
  {
    hide Plus, Add, Of, Laid, Merged, AtMost, Refuses, Holds, Enter;
    if c in s.table {
      forall d
        ensures Of(Plus(s.queries[q].acc, c, s.counters[s.table[c]]), d) ==
                if d == c then Add(Of(s.queries[q].acc, c), s.counters[s.table[c]]) else Of(s.queries[q].acc, d)
      {
        PlusAddsOnce(s.queries[q].acc, c, s.counters[s.table[c]], d);
      }
    }
  }

  /** The query as one caller runs it: the totals first, then each online client's session on top. */
  method TrafficTotals(tracker: TrafficTracker, manager: TunnelManager, counters: map<SessionId, Counter>)
    returns (totals: map<Client, Counter>)
    requires forall c :: c in manager.sessions ==> manager.sessions[c] in counters
    ensures forall c :: Of(totals, c) == Add(Of(tracker.totals, c),
                          if c in manager.sessions then counters[manager.sessions[c]] else ZERO)
  {
    hide Of, Add, Plus, Holds;
    totals := tracker.totals;
    var online := manager.List();
    var i := 0;
    forall c ensures Of(totals, c) == Add(Of(tracker.totals, c), ZERO) {
      AddZero(Of(totals, c));
    }
    ghost var seen: set<Client> := {};
    while i < |online|
      invariant i <= |online|
      invariant forall c :: c in seen <==> exists k :: 0 <= k < i && online[k].client == c
      invariant forall c :: Of(totals, c) == Add(Of(tracker.totals, c),
                              if c in seen && c in manager.sessions then counters[manager.sessions[c]] else ZERO)
    {
      var c := online[i].client;
      var id := manager.Get(c);
      assert Holds(manager.sessions, c, online[i].id);
      assert c in manager.sessions by { HoldsIn(manager.sessions, c, online[i].id); }
      assert c !in seen;
      ghost var before := totals;
      totals := Plus(totals, c, counters[id.value]);
      forall d ensures Of(totals, d) == if d == c then Add(Of(before, c), counters[id.value]) else Of(before, d) {
        PlusAddsOnce(before, c, counters[id.value], d);
      }
      AddZero(Of(tracker.totals, c));
      seen := seen + {c};
      i := i + 1;
    }
    forall c | c in manager.sessions ensures c in seen {
      var k :| 0 <= k < |online| && online[k] == Session(c, manager.sessions[c]);
      assert online[k].client == c;
    }
  }

  lemma HoldsIn(table: Table, c: Client, id: SessionId)
    requires Holds(table, c, id)
    ensures c in table
  {
  }
}
