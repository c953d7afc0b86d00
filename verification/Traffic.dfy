/** Per-client traffic totals and their sampled history (src/server/traffic.rs). */
module Traffic {
  import opened Rings

  type Client = string

  datatype Counter = Counter(tcpUp: int, tcpDown: int, udpUp: int, udpDown: int)

  const ZERO: Counter := Counter(0, 0, 0, 0)
  const HISTORY_POINTS: nat := 200

  function Add(a: Counter, b: Counter): Counter {
    Counter(a.tcpUp + b.tcpUp, a.tcpDown + b.tcpDown, a.udpUp + b.udpUp, a.udpDown + b.udpDown)
  }

  predicate AtMost(a: Counter, b: Counter) {
    a.tcpUp <= b.tcpUp && a.tcpDown <= b.tcpDown && a.udpUp <= b.udpUp && a.udpDown <= b.udpDown
  }

  lemma AddZero(a: Counter)
    ensures Add(a, ZERO) == a
  {
  }

  lemma AddSwaps(a: Counter, b: Counter, c: Counter)
    ensures Add(Add(a, b), c) == Add(Add(a, c), b)
    ensures Add(a, Add(b, c)) == Add(Add(a, b), c)
  {
  }

  lemma AtMostLaws(a: Counter, b: Counter, c: Counter)
    ensures AtMost(a, a)
    ensures AtMost(a, b) && AtMost(ZERO, c) ==> AtMost(a, Add(b, c))
    ensures AtMost(a, b) && AtMost(b, c) ==> AtMost(a, c)
  {
  }

  /** What a table says of a client; a client it does not list has no traffic. */
  function Of(table: map<Client, Counter>, c: Client): Counter {
    if c in table then table[c] else ZERO
  }

  /** The table after `delta` is added to the entry of `c`, which is made if it is missing. */
  function Plus(table: map<Client, Counter>, c: Client, delta: Counter): map<Client, Counter> {
    table[c := Add(Of(table, c), delta)]
  }

  /** What closing one session does to the totals: an idle session leaves no entry behind. */
  function Merged(totals: map<Client, Counter>, c: Client, delta: Counter): map<Client, Counter> {
    if delta == ZERO then totals else Plus(totals, c, delta)
  }

  lemma PlusAddsOnce(table: map<Client, Counter>, c: Client, delta: Counter, d: Client)
    ensures Of(Plus(table, c, delta), d) == if d == c then Add(Of(table, c), delta) else Of(table, d)
  {
  }

  /** Merging changes one client's total, by exactly the delta, whether or not the entry is skipped. */
  lemma MergeAddsOnce(totals: map<Client, Counter>, c: Client, delta: Counter, d: Client)
    ensures Of(Merged(totals, c, delta), d) == if d == c then Add(Of(totals, c), delta) else Of(totals, d)
  {
  }

  /** The totals with live traffic laid over them. */
  function Laid(totals: map<Client, Counter>, online: map<Client, Counter>): map<Client, Counter> {
    map c | c in totals.Keys + online.Keys :: Add(Of(totals, c), Of(online, c))
  }

  lemma LaidAdds(totals: map<Client, Counter>, online: map<Client, Counter>, c: Client)
    ensures Of(Laid(totals, online), c) == Add(Of(totals, c), Of(online, c))
  {
  }

  lemma SameTable(a: map<Client, Counter>, b: map<Client, Counter>)
    requires a.Keys == b.Keys && forall c :: Of(a, c) == Of(b, c)
    ensures a == b
  {
    forall c | c in a ensures a[c] == b[c] {
      assert Of(a, c) == Of(b, c);
    }
  }

  datatype Sample = Sample(at: nat, totals: map<Client, Counter>)

  class TrafficTracker {
    var totals: map<Client, Counter>
    var history: seq<Sample>

    constructor (loaded: map<Client, Counter>)
      ensures totals == loaded && history == []
    {
      totals, history := loaded, [];
    }

    method Merge(c: Client, delta: Counter)
      modifies this`totals
      ensures totals == Merged(old(totals), c, delta)
    {
      if delta == ZERO {
        return;
      }
      var e := if c in totals then totals[c] else ZERO;
      totals := totals[c := Counter(e.tcpUp + delta.tcpUp, e.tcpDown + delta.tcpDown,
                                    e.udpUp + delta.udpUp, e.udpDown + delta.udpDown)];
    }

    /** The totals of every client with the live traffic of the clients online laid over them. */
    method Overlay(online: map<Client, Counter>) returns (all: map<Client, Counter>)
      ensures all == Laid(totals, online)
    {
      all := totals;
      var left := online.Keys;
      while left != {}
        invariant left <= online.Keys
        invariant all.Keys == totals.Keys + (online.Keys - left)
        invariant forall c :: Of(all, c) == if c in left then Of(totals, c) else Add(Of(totals, c), Of(online, c))
        decreases left
      {
        var c :| c in left;
        all := Plus(all, c, online[c]);
        left := left - {c};
      }
      forall c ensures Of(Laid(totals, online), c) == Add(Of(totals, c), Of(online, c)) {
        LaidAdds(totals, online, c);
      }
      SameTable(all, Laid(totals, online));
    }

    /**
     * One more history point. The history is the last 200 points ever taken; `taken` names them all.
     */
    method TakeSample(online: map<Client, Counter>, now: nat, ghost taken: seq<Sample>)
      returns (ghost point: Sample)
      requires history == Last(taken, 200)
      modifies this`history
      ensures history == Last(taken + [point], 200)
      ensures point.at == now
      ensures point.totals == Laid(totals, online)
    {
      hide Of, Add, Laid;
      var all := Overlay(online);
      var latest := Sample(now, all);
      PushKeepsLast(taken, latest, HISTORY_POINTS);
      if |history| >= HISTORY_POINTS {
        history := history[1..];
      }
      history := history + [latest];
      point := latest;
    }
  }
}
