/**
 * The hot reload of proxy rules (src/server/admin.rs:1199-1248).
 *
 * A reload awaits whenever it stops or starts a listener, and meanwhile datagrams arrive, sessions come and
 * go and other programs bind addresses: a `Weather` says what happens at which await.
 */
module Reload {
  import opened Bytes
  import opened Proxies

  // ----- rule lists -----

  function Names(rules: seq<Rule>): set<string> {
    set i | 0 <= i < |rules| :: rules[i].name
  }

  /** The first rule of that name. */
  function Find(rules: seq<Rule>, name: string): (r: Option<Rule>)
    ensures r.Some? <==> name in Names(rules)
    ensures r.Some? ==> r.value in rules && r.value.name == name
  {
    if rules == [] then None
    else if rules[0].name == name then
      assert rules[0].name in Names(rules);
      Some(rules[0])
    else
      assert Names(rules) == Names(rules[1..]) + {rules[0].name} by {
        assert forall i :: 1 <= i < |rules| ==> rules[i] == rules[1..][i - 1];
      }
      Find(rules[1..], name)
  }

  predicate Distinct(rules: seq<Rule>) {
    forall i, j :: 0 <= i < j < |rules| ==> rules[i].name != rules[j].name
  }

  lemma {:induction false} FindAt(rules: seq<Rule>, i: nat)
    requires Distinct(rules) && i < |rules|
    ensures Find(rules, rules[i].name) == Some(rules[i])
  {
    if i > 0 {
      assert rules[1..][i - 1] == rules[i];
      assert forall j, k :: 0 <= j < k < |rules[1..]| ==> rules[1..][j].name != rules[1..][k].name;
      FindAt(rules[1..], i - 1);
    }
  }

  function AsMap(rules: seq<Rule>): Running {
    map n | n in Names(rules) :: Find(rules, n).value
  }

  /** The rule is in both lists, unchanged. */
  predicate Kept(current: seq<Rule>, desired: seq<Rule>, r: Rule) {
    r in desired && Find(current, r.name) == Some(r)
  }

  /** What runs once the first `i` desired rules are applied: those, and the old versions of later ones. */
  function Midway(current: seq<Rule>, desired: seq<Rule>, i: nat): Running
    requires i <= |desired|
  {
    map n | n in Names(desired[..i]) + Names(current) * Names(desired) ::
      if n in Names(desired[..i]) then Find(desired[..i], n).value else Find(current, n).value
  }

  lemma MidwayEnds(current: seq<Rule>, desired: seq<Rule>)
    requires Distinct(current) && Distinct(desired)
    ensures Midway(current, desired, |desired|) == AsMap(desired)
    ensures Midway(current, desired, 0) == map n | n in Names(current) && n in Names(desired) :: Find(current, n).value
  {
    assert desired[..|desired|] == desired;
    assert Names(desired[..0]) == {};
  }

  lemma NamesGrow(rules: seq<Rule>, k: nat)
    requires k < |rules|
    ensures Names(rules[..k + 1]) == Names(rules[..k]) + {rules[k].name}
    ensures Distinct(rules) ==> rules[k].name !in Names(rules[..k])
  {
    var before, after := rules[..k], rules[..k + 1];
    forall n | n in Names(before) ensures n in Names(after) {
      var j :| 0 <= j < |before| && before[j].name == n;
      assert after[j] == before[j];
    }
    assert after[k] == rules[k];
  }

  lemma FindGrows(rules: seq<Rule>, k: nat, n: string)
    requires Distinct(rules) && k < |rules| && n in Names(rules[..k + 1])
    ensures Find(rules[..k + 1], n) == if n == rules[k].name then Some(rules[k]) else Find(rules[..k], n)
  {
    var before, after := rules[..k], rules[..k + 1];
    var j :| 0 <= j < |after| && after[j].name == n;
    FindAt(after, j);
    if j < k {
      assert before[j] == after[j];
      FindAt(before, j);
    }
  }

  lemma MidwayStep(current: seq<Rule>, desired: seq<Rule>, i: nat)
    requires Distinct(desired) && i < |desired|
    ensures Midway(current, desired, i + 1) == Midway(current, desired, i)[desired[i].name := desired[i]]
    ensures desired[i].name in Midway(current, desired, i) <==> desired[i].name in Names(current)
    ensures desired[i].name in Names(current) ==>
              Midway(current, desired, i)[desired[i].name] == Find(current, desired[i].name).value
  {
    var d := desired[i];
    NamesGrow(desired, i);
    assert d.name in Names(desired);
    forall n | n in Names(desired[..i + 1])
      ensures Find(desired[..i + 1], n) == if n == d.name then Some(d) else Find(desired[..i], n)
    {
      FindGrows(desired, i, n);
    }
    hide Names, Find, Distinct;
  }

  // ----- the reload as a fold over the two lists -----

  datatype Progress = Progress(running: Running, world: World, log: seq<Event>, failed: Option<(Rule, StartError)>)

  /** What happens before the listener of a rule has ended, and between that and the start of its new one. */
  datatype Gap = Gap(before: seq<Move>, between: seq<Move>)

  /** What happens before the stop of each configured rule, and around the stop and start of each desired one. */
  datatype Weather = Weather(stops: nat -> seq<Move>, starts: nat -> Gap)

  /** Nothing happens. */
  function Calm(): Weather {
    Weather(i => [], i => Gap([], []))
  }

  function Blown(p: Progress, moves: seq<Move>): Progress {
    p.(world := Moves(p.running, p.world, moves))
  }

  function StopOne(p: Progress, name: string): Progress {
    if name in p.running then p.(running := p.running - {name}, log := p.log + [Stopped(name)]) else p
  }

  function StartOne(p: Progress, r: Rule): Progress {
    var error := StartResult(p.running, p.world, r);
    if error.Some? then p.(failed := Some((r, error.value)))
    else p.(running := p.running[r.name := r], log := p.log + [Started(r)])
  }

  function StopRemoved(p: Progress, current: seq<Rule>, desired: seq<Rule>, stops: nat -> seq<Move>): Progress {
    if current == [] then p
    else
      var n := |current| - 1;
      var q := StopRemoved(p, current[..n], desired, stops);
      if current[n].name in Names(desired) then q else StopOne(Blown(q, stops(n)), current[n].name)
  }

  predicate Changed(current: seq<Rule>, d: Rule) {
    Find(current, d.name) != Some(d)
  }

  /** The state in which the start of a changed or new rule is attempted. */
  function Cleared(p: Progress, current: seq<Rule>, d: Rule, gap: Gap): Progress {
    Blown(if d.name in Names(current) then StopOne(Blown(p, gap.before), d.name) else p, gap.between)
  }

  function ApplyRule(p: Progress, current: seq<Rule>, d: Rule, gap: Gap): Progress {
    if !Changed(current, d) then p else StartOne(Cleared(p, current, d, gap), d)
  }

  function ApplyRules(p: Progress, current: seq<Rule>, desired: seq<Rule>, starts: nat -> Gap): Progress {
    if desired == [] then p
    else
      var n := |desired| - 1;
      var q := ApplyRules(p, current, desired[..n], starts);
      if q.failed.Some? then q else ApplyRule(q, current, desired[n], starts(n))
  }

  function ReloadAll(p: Progress, current: seq<Rule>, desired: seq<Rule>, weather: Weather): Progress {
    ApplyRules(StopRemoved(p, current, desired, weather.stops), current, desired, weather.starts)
  }

  lemma {:induction false} FailureStays(
      p: Progress, current: seq<Rule>, desired: seq<Rule>, starts: nat -> Gap, i: nat)
    requires i <= |desired| && ApplyRules(p, current, desired[..i], starts).failed.Some?
    ensures ApplyRules(p, current, desired, starts) == ApplyRules(p, current, desired[..i], starts)
  {
    if i == |desired| {
      assert desired[..i] == desired;
    } else {
      assert desired[..|desired| - 1][..i] == desired[..i];
      FailureStays(p, current, desired[..|desired| - 1], starts, i);
    }
  }

  datatype Config = Config(token: string, proxies: seq<Rule>)

  datatype Response = Ok | NoConfigPath | LoadFailed | StartFailed(name: string, error: StartError)

  class AdminState {
    const configPath: string
    const manager: ProxyManager
    var token: string
    var proxies: seq<Rule>
    var base: Config

    constructor (configPath: string, manager: ProxyManager, config: Config)
      ensures this.configPath == configPath && this.manager == manager
      ensures token == config.token && proxies == config.proxies && base == config
    {
      this.configPath, this.manager := configPath, manager;
      token, proxies, base := config.token, config.proxies, config;
    }

    ghost function Now(failed: Option<(Rule, StartError)>): Progress
      reads this, manager
    {
      Progress(manager.tasks, manager.world, manager.log, failed)
    }

    method StopAllRemoved(current: seq<Rule>, desired: seq<Rule>, stops: nat -> seq<Move>)
      modifies manager
      ensures Now(None) == StopRemoved(old(Now(None)), current, desired, stops)
    {
      hide Names, Moves;
      var i := 0;
      ghost var start := Now(None);
      while i < |current|
        invariant i <= |current|
        invariant Now(None) == StopRemoved(start, current[..i], desired, stops)
      {
        assert current[..i + 1][..i] == current[..i];
        if current[i].name !in Names(desired) {
          manager.Await(stops(i));
          var found := manager.Stop(current[i].name);
        }
        i := i + 1;
      }
      assert current[..i] == current;
    }

    method Apply(current: seq<Rule>, d: Rule, gap: Gap) returns (failed: Option<(Rule, StartError)>)
      modifies manager
      ensures Now(failed) == ApplyRule(old(Now(None)), current, d, gap)
    {
      hide Names, StartResult, Moves;
      var same := Find(current, d.name);
      if same != Some(d) {
        if same.Some? {
          manager.Await(gap.before);
          var found := manager.Stop(d.name);
        }
        manager.Await(gap.between);
        var error := manager.Start(d);
        if error.Some? {
          return Some((d, error.value));
        }
      }
      return None;
    }

    method ApplyAll(current: seq<Rule>, desired: seq<Rule>, starts: nat -> Gap)
      returns (failed: Option<(Rule, StartError)>)
      modifies manager
      ensures Now(failed) == ApplyRules(old(Now(None)), current, desired, starts)
    {
      hide ApplyRule;
      var i := 0;
      ghost var start := Now(None);
      while i < |desired|
        invariant i <= |desired|
        invariant Now(None) == ApplyRules(start, current, desired[..i], starts)
      {
        assert desired[..i + 1][..i] == desired[..i];
        failed := Apply(current, desired[i], starts(i));
        assert Now(failed) == ApplyRules(start, current, desired[..i + 1], starts);
        if failed.Some? {
          FailureStays(start, current, desired, starts, i + 1);
          return;
        }
        i := i + 1;
      }
      assert desired[..i] == desired;
      failed := None;
    }

    /**
     * `loaded` is the configuration on disk, if it can be read; `weather` is what happens meanwhile. The token
     * changes even if a rule then fails.
     */
    method ApiReload(loaded: Option<Config>, weather: Weather) returns (response: Response)
      modifies this, manager
      ensures configPath == "" || loaded == None ==>
                && response == (if configPath == "" then NoConfigPath else LoadFailed)
                && token == old(token) && proxies == old(proxies) && base == old(base)
                && Now(None) == old(Now(None))
      ensures configPath != "" && loaded.Some? ==>
                var end := ReloadAll(old(Now(None)), old(proxies), loaded.value.proxies, weather);
                && token == loaded.value.token
                && Now(end.failed) == end
                && response == (if end.failed == None then Ok
                                else StartFailed(end.failed.value.0.name, end.failed.value.1))
                && proxies == (if end.failed == None then loaded.value.proxies else old(proxies))
                && base == (if end.failed == None then loaded.value else old(base))
    {
      if configPath == "" {
        return NoConfigPath;
      }
      if loaded == None {
        return LoadFailed;
      }
      token := loaded.value.token;
      var desired, current := loaded.value.proxies, proxies;
      StopAllRemoved(current, desired, weather.stops);
      var failed := ApplyAll(current, desired, weather.starts);
      if failed.Some? {
        return StartFailed(failed.value.0.name, failed.value.1);
      }
      proxies, base := desired, loaded.value;
      return Ok;
    }
  }

  // ----- what a reload achieves -----

  /** The log has gone on, and no event that came to it concerns the name. */
  predicate SilentSince(before: seq<Event>, log: seq<Event>, name: string) {
    && before <= log
    && forall i :: |before| <= i < |log| ==>
         match log[i] case Stopped(n) => n != name case Started(r) => r.name != name
  }

  lemma {:induction false} StopsLeave(
      p: Progress, current: seq<Rule>, desired: seq<Rule>, stops: nat -> seq<Move>, k: nat)
    requires k <= |current| && p.failed == None
    ensures var q := StopRemoved(p, current[..k], desired, stops);
      && q.failed == None
      && q.running == (map n | n in p.running && (n in Names(desired) || n !in Names(current[..k])) :: p.running[n])
      && forall n :: n in Names(desired) ==> SilentSince(p.log, q.log, n)
    decreases k
  {
    hide Moves;
    if k == 0 {
      assert current[..0] == [];
    } else {
      var before, after := current[..k - 1], current[..k];
      assert after[..|after| - 1] == before;
      StopsLeave(p, current, desired, stops, k - 1);
      NamesGrow(current, k - 1);
    }
  }

  /** The world around the start of desired rule `i`, if every start before it succeeds. */
  function Met(w: World, current: seq<Rule>, desired: seq<Rule>, starts: nat -> Gap, i: nat): World
    requires i < |desired|
    decreases i, 1
  {
    var v, name := Around(w, current, desired, starts, i), desired[i].name;
    var ended := if name in Names(current) then Moves(Midway(current, desired, i), v, starts(i).before) else v;
    Moves(Midway(current, desired, i) - {name}, ended, starts(i).between)
  }

  /** The world once the first `i` desired rules are applied. */
  function Around(w: World, current: seq<Rule>, desired: seq<Rule>, starts: nat -> Gap, i: nat): World
    requires i <= |desired|
    decreases i, 0
  {
    if i == 0 then w
    else if Changed(current, desired[i - 1]) then Met(w, current, desired, starts, i - 1)
    else Around(w, current, desired, starts, i - 1)
  }

  /** The start that a reload attempts for a changed or new rule, at the moment it attempts it. */
  function Attempt(w: World, current: seq<Rule>, desired: seq<Rule>, starts: nat -> Gap, i: nat): Option<StartError>
    requires i < |desired|
  {
    if !Changed(current, desired[i]) then None
    else StartResult(Midway(current, desired, i) - {desired[i].name}, Met(w, current, desired, starts, i), desired[i])
  }

  /** The reload stopped at rule `k`, the first whose start fails, in the state it had reached there. */
  predicate FailedAt(w: World, current: seq<Rule>, desired: seq<Rule>, starts: nat -> Gap, k: nat, q: Progress)
    requires k < |desired|
  {
    && (forall j :: 0 <= j < k ==> Attempt(w, current, desired, starts, j) == None)
    && Attempt(w, current, desired, starts, k).Some?
    && q.failed == Some((desired[k], Attempt(w, current, desired, starts, k).value))
    && q.running == Midway(current, desired, k) - {desired[k].name}
    && q.world == Met(w, current, desired, starts, k)
  }

  /**
   * Up to its first failing start a reload walks through the midway states, whatever happens around it;
   * rules kept in both lists are neither stopped nor started; and a failure leaves the midway state without
   * the failing rule.
   */
  lemma {:induction false} ReloadProgress(
      p: Progress, current: seq<Rule>, desired: seq<Rule>, weather: Weather, i: nat)
    requires Distinct(current) && Distinct(desired) && i <= |desired|
    requires p.running == AsMap(current) && p.failed == None
    ensures var first := StopRemoved(p, current, desired, weather.stops);
      var q := ApplyRules(first, current, desired[..i], weather.starts);
      && (forall r :: Kept(current, desired, r) ==> SilentSince(p.log, q.log, r.name))
      && (q.failed == None <==>
            forall k :: 0 <= k < i ==> Attempt(first.world, current, desired, weather.starts, k) == None)
      && (q.failed == None ==>
            && q.running == Midway(current, desired, i)
            && q.world == Around(first.world, current, desired, weather.starts, i))
      && (q.failed.Some? ==>
            exists k :: 0 <= k < i && FailedAt(first.world, current, desired, weather.starts, k, q))
    decreases i
  {
    var first, starts := StopRemoved(p, current, desired, weather.stops), weather.starts;
    hide Attempt, Kept, SilentSince, ApplyRule, Distinct, Around, Midway, AsMap, Met, Moves, Changed, Names;
    if i == 0 {
      ReloadStarts(p, current, desired, weather);
    } else {
      var before := desired[..i - 1];
      assert desired[..i][..i - 1] == before && desired[..i][i - 1] == desired[i - 1];
      ReloadProgress(p, current, desired, weather, i - 1);
      var q := ApplyRules(first, current, before, starts);
      if q.failed == None {
        RuleApplied(first.world, current, desired, starts, i - 1, q);
        forall r | Kept(current, desired, r)
          ensures SilentSince(p.log, ApplyRule(q, current, desired[i - 1], starts(i - 1)).log, r.name)
        {
          RuleSilent(p.log, current, desired, i - 1, starts(i - 1), q, r);
        }
        if Attempt(first.world, current, desired, starts, i - 1).Some? {
          assert FailedAt(first.world, current, desired, starts, i - 1,
                          ApplyRule(q, current, desired[i - 1], starts(i - 1)));
        }
      }
    }
  }

  lemma ReloadStarts(p: Progress, current: seq<Rule>, desired: seq<Rule>, weather: Weather)
    requires Distinct(current) && Distinct(desired) && p.running == AsMap(current) && p.failed == None
    ensures var first := StopRemoved(p, current, desired, weather.stops);
      && desired[..0] == []
      && first.failed == None && first.running == Midway(current, desired, 0)
      && Around(first.world, current, desired, weather.starts, 0) == first.world
      && forall r :: Kept(current, desired, r) ==> SilentSince(p.log, first.log, r.name)
  {
    hide Moves;
    StopsLeave(p, current, desired, weather.stops, |current|);
    assert current[..|current|] == current;
    MidwayEnds(current, desired);
  }

  lemma RuleApplied(w: World, current: seq<Rule>, desired: seq<Rule>, starts: nat -> Gap, i: nat, q: Progress)
    requires Distinct(current) && Distinct(desired) && i < |desired|
    requires q.failed == None && q.running == Midway(current, desired, i)
    requires q.world == Around(w, current, desired, starts, i)
    ensures var d, error := desired[i], Attempt(w, current, desired, starts, i);
      var q' := ApplyRule(q, current, d, starts(i));
      if error == None then
        && q'.failed == None && q'.running == Midway(current, desired, i + 1)
        && q'.world == Around(w, current, desired, starts, i + 1)
      else
        && q'.failed == Some((d, error.value)) && q'.running == Midway(current, desired, i) - {d.name}
        && q'.world == Met(w, current, desired, starts, i)
  {
    var d := desired[i];
    MidwayStep(current, desired, i);
    ApplyRuleIs(q, current, d, starts(i));
    hide Midway, StartResult, Names, Find, Distinct, ApplyRule, Moves;
    PutOver(Midway(current, desired, i), d.name, d);
  }

  lemma PutOver<K, V>(m: map<K, V>, k: K, v: V)
    ensures m[k := v] == (m - {k})[k := v]
    ensures k in m && m[k] == v ==> m[k := v] == m
  {
  }

  /** A rule is applied to what runs without it. */
  lemma ApplyRuleIs(q: Progress, current: seq<Rule>, d: Rule, gap: Gap)
    requires q.failed == None && (d.name in q.running <==> d.name in Names(current))
    ensures var q', rest := ApplyRule(q, current, d, gap), q.running - {d.name};
      var ended := if d.name in Names(current) then Moves(q.running, q.world, gap.before) else q.world;
      var met := Moves(rest, ended, gap.between);
      var error := StartResult(rest, met, d);
      if !Changed(current, d) then q' == q
      else if error == None then q'.failed == None && q'.running == rest[d.name := d] && q'.world == met
      else q'.failed == Some((d, error.value)) && q'.running == rest && q'.world == met
  {
    hide StartResult, Names, Find, Moves;
    if d.name !in q.running {
      assert q.running - {d.name} == q.running;
    }
  }

  lemma RuleSilent(
      log: seq<Event>, current: seq<Rule>, desired: seq<Rule>, i: nat, gap: Gap, q: Progress, r: Rule)
    requires Distinct(desired) && i < |desired|
    requires Kept(current, desired, r) && SilentSince(log, q.log, r.name)
    ensures SilentSince(log, ApplyRule(q, current, desired[i], gap).log, r.name)
  {
    hide StartResult, Names, Moves;
    var k :| 0 <= k < |desired| && desired[k] == r;
    if r.name == desired[i].name {
      assert k == i;
    }
  }

  /**
   * With distinct names and the running listeners matching the configured list, a reload succeeds exactly
   * if every changed or new rule can start in the state it then meets, whatever happens around it; on
   * success exactly the rules on disk are running.
   */
  lemma ReloadSucceedsIff(p: Progress, current: seq<Rule>, desired: seq<Rule>, weather: Weather)
    requires Distinct(current) && Distinct(desired) && p.running == AsMap(current) && p.failed == None
    ensures var end := ReloadAll(p, current, desired, weather);
      var w := StopRemoved(p, current, desired, weather.stops).world;
      && (end.failed == None <==>
            forall k :: 0 <= k < |desired| ==> Attempt(w, current, desired, weather.starts, k) == None)
      && (end.failed == None ==> end.running == AsMap(desired))
  {
    hide Attempt, Names, Midway, Moves;
    assert desired[..|desired|] == desired;
    ReloadProgress(p, current, desired, weather, |desired|);
    MidwayEnds(current, desired);
  }

  lemma {:induction false} NothingMoves(w: World, current: seq<Rule>, desired: seq<Rule>, i: nat)
    requires i <= |desired|
    ensures Around(w, current, desired, Calm().starts, i) == w
    ensures i < |desired| ==> Met(w, current, desired, Calm().starts, i) == w
    decreases i
  {
    if i > 0 {
      NothingMoves(w, current, desired, i - 1);
    }
  }

  lemma CalmAttempt(w: World, current: seq<Rule>, desired: seq<Rule>, k: nat)
    requires k < |desired|
    ensures Attempt(w, current, desired, Calm().starts, k) == None <==>
              (Changed(current, desired[k]) ==>
                 StartResult(Midway(current, desired, k) - {desired[k].name}, w, desired[k]) == None)
  {
    NothingMoves(w, current, desired, k);
    hide Midway, StartResult, Changed, Met;
  }

  lemma {:induction false} CalmStops(p: Progress, current: seq<Rule>, desired: seq<Rule>)
    ensures StopRemoved(p, current, desired, Calm().stops).world == p.world
  {
    if current != [] {
      CalmStops(p, current[..|current| - 1], desired);
    }
  }

  /**
   * While nothing else happens, whether a reload will succeed can be told before it begins: every changed or
   * new rule can start beside those that run at its turn, in the world as it is.
   */
  lemma CalmReloadSucceedsIff(p: Progress, current: seq<Rule>, desired: seq<Rule>)
    requires Distinct(current) && Distinct(desired) && p.running == AsMap(current) && p.failed == None
    ensures ReloadAll(p, current, desired, Calm()).failed == None <==>
              forall k :: 0 <= k < |desired| && Changed(current, desired[k]) ==>
                StartResult(Midway(current, desired, k) - {desired[k].name}, p.world, desired[k]) == None
  {
    hide Midway, StartResult, Changed, Met, Attempt;
    ReloadSucceedsIff(p, current, desired, Calm());
    CalmStops(p, current, desired);
    forall k | 0 <= k < |desired|
      ensures Attempt(p.world, current, desired, Calm().starts, k) == None <==>
                (Changed(current, desired[k]) ==>
                   StartResult(Midway(current, desired, k) - {desired[k].name}, p.world, desired[k]) == None)
    {
      CalmAttempt(p.world, current, desired, k);
    }
  }

  /** A rule identical in both lists is never stopped or restarted, whether or not the reload succeeds. */
  lemma KeptRulesAreUntouched(p: Progress, current: seq<Rule>, desired: seq<Rule>, weather: Weather, r: Rule)
    requires Distinct(current) && Distinct(desired) && Kept(current, desired, r)
    requires p.running == AsMap(current) && p.failed == None
    ensures var end := ReloadAll(p, current, desired, weather);
      && SilentSince(p.log, end.log, r.name)
      && r.name in end.running && end.running[r.name] == r
  {
    hide Midway, AsMap, SilentSince, Names, ApplyRules, StopRemoved, Attempt, Met, Around, Moves;
    assert desired[..|desired|] == desired;
    ReloadProgress(p, current, desired, weather, |desired|);
    var n :| 0 <= n < |desired| && desired[n] == r;
    KeptMidway(current, desired, |desired|, n);
    var end, w := ReloadAll(p, current, desired, weather), StopRemoved(p, current, desired, weather.stops).world;
    if end.failed.Some? {
      var k :| 0 <= k < |desired| && FailedAt(w, current, desired, weather.starts, k, end);
      KeptMidway(current, desired, k, n);
      AttemptsAreChanges(w, current, desired, weather.starts, k);
      assert r.name == desired[k].name ==> k == n;
    }
  }

  lemma AttemptsAreChanges(w: World, current: seq<Rule>, desired: seq<Rule>, starts: nat -> Gap, k: nat)
    requires k < |desired| && Attempt(w, current, desired, starts, k).Some?
    ensures Changed(current, desired[k])
  {
  }

  lemma KeptMidway(current: seq<Rule>, desired: seq<Rule>, k: nat, n: nat)
    requires Distinct(current) && Distinct(desired) && k <= |desired| && n < |desired|
    requires Kept(current, desired, desired[n])
    ensures desired[n].name in Midway(current, desired, k) && Midway(current, desired, k)[desired[n].name] == desired[n]
  {
    var name := desired[n].name;
    assert name in Names(desired);
    if name in Names(desired[..k]) {
      var j :| 0 <= j < k && desired[..k][j].name == name;
      assert desired[j] == desired[..k][j];
      assert j == n;
      FindAt(desired[..k], j);
    }
  }

  // ----- rules whose UDP socket is still held -----

  lemma SameNames(current: seq<Rule>, k: nat, d: Rule)
    requires k < |current| && d.name == current[k].name
    ensures Names(current[k := d]) == Names(current)
  {
    var desired := current[k := d];
    assert forall i :: 0 <= i < |current| ==> desired[i].name == current[i].name;
  }

  lemma {:induction false} NothingRemoved(
      p: Progress, current: seq<Rule>, desired: seq<Rule>, stops: nat -> seq<Move>, i: nat)
    requires i <= |current| && Names(current) <= Names(desired)
    ensures StopRemoved(p, current[..i], desired, stops) == p
  {
    if i > 0 {
      assert current[..i][..i - 1] == current[..i - 1];
      assert current[i - 1].name in Names(current);
      NothingRemoved(p, current, desired, stops, i - 1);
    }
  }

  lemma {:induction false} UnchangedAreSkipped(
      p: Progress, current: seq<Rule>, desired: seq<Rule>, starts: nat -> Gap, i: nat, k: nat)
    requires i <= k <= |desired| && forall j :: i <= j < k ==> !Changed(current, desired[j])
    ensures ApplyRules(p, current, desired[..k], starts) == ApplyRules(p, current, desired[..i], starts)
  {
    hide Changed;
    if i < k {
      assert desired[..k][..k - 1] == desired[..k - 1];
      UnchangedAreSkipped(p, current, desired, starts, i, k - 1);
    }
  }

  lemma OneMore(p: Progress, current: seq<Rule>, desired: seq<Rule>, starts: nat -> Gap, k: nat)
    requires k < |desired| && ApplyRules(p, current, desired[..k], starts).failed == None
    ensures ApplyRules(p, current, desired[..k + 1], starts)
         == ApplyRule(ApplyRules(p, current, desired[..k], starts), current, desired[k], starts(k))
  {
    assert desired[..k + 1][..k] == desired[..k];
  }

  lemma OthersUnchanged(current: seq<Rule>, desired: seq<Rule>, k: nat)
    requires Distinct(current) && k < |current| == |desired| && desired == current[k := desired[k]]
    requires desired[k].name == current[k].name && desired[k] != current[k]
    ensures desired[k].name in Names(current) && Changed(current, desired[k])
    ensures forall j :: 0 <= j < |desired| && j != k ==> !Changed(current, desired[j])
  {
    FindAt(current, k);
    forall j | 0 <= j < |desired| && j != k ensures !Changed(current, desired[j]) {
      FindAt(current, j);
    }
  }

  /** When one rule of the list is new, a reload is what it does to that rule. */
  lemma OneRuleReloaded(p: Progress, current: seq<Rule>, k: nat, d: Rule, weather: Weather)
    requires Distinct(current) && k < |current| && d.name == current[k].name && d != current[k] && p.failed == None
    ensures ReloadAll(p, current, current[k := d], weather) == ApplyRule(p, current, d, weather.starts(k))
  {
    var desired, starts := current[k := d], weather.starts;
    assert current[..|current|] == current && desired[..|current|] == desired;
    SameNames(current, k, d);
    NothingRemoved(p, current, desired, weather.stops, |current|);
    OthersUnchanged(current, desired, k);
    assert desired[..0] == [] && ApplyRules(p, current, [], starts) == p;
    hide Names, Changed, ApplyRule, ApplyRules, Distinct;
    UnchangedAreSkipped(p, current, desired, starts, 0, k);
    OneMore(p, current, desired, starts, k);
    UnchangedAreSkipped(p, current, desired, starts, k + 1, |current|);
  }

  /**
   * A running UDP rule is changed and keeps its address. In every run, and with nothing else happening while
   * the reload awaits, it restarts if and only if no session holds the socket of its listener any more.
   * Otherwise the bind fails, and the rule is left stopped.
   */
  lemma ChangedUdpRuleRestartsIff(
      taken: set<Endpoint>, actions: seq<Action>, log: seq<Event>, current: seq<Rule>, k: nat, d: Rule)
    requires Distinct(current) && k < |current| && d.name == current[k].name && d != current[k]
    requires d.kind == "udp" && d.listen.Some? && Bound(current[k]) == Some(Endpoint("udp", d.listen.value))
    requires After(Init(taken), actions).running == AsMap(current)
    ensures var s := After(Init(taken), actions);
      var end := ReloadAll(Progress(s.running, s.world, log, None), current, current[k := d], Calm());
      && (end.failed == None <==> !Held(s.world, Endpoint("udp", d.listen.value)))
      && (end.failed == None ==> end.running == AsMap(current)[d.name := d] && end.world == s.world)
      && (end.failed.Some? ==>
            end == Progress(s.running - {d.name}, s.world, log + [Stopped(d.name)], Some((d, BindFailed))))
  {
    var s := After(Init(taken), actions);
    FindAt(current, k);
    hide After, AsMap;
    OneRuleReloaded(Progress(s.running, s.world, log, None), current, k, d, Calm());
    RunsInList(current, k);
    StopFreesIff(taken, actions, d.name);
    PutOver(s.running, d.name, d);
    hide Free, Names, Find;
  }

  lemma RunsInList(current: seq<Rule>, k: nat)
    requires Distinct(current) && k < |current|
    ensures current[k].name in Names(current)
    ensures current[k].name in AsMap(current) && AsMap(current)[current[k].name] == current[k]
  {
    FindAt(current, k);
  }

  /** Nothing that happens during the reload takes the holder away. */
  ghost predicate Lets(weather: Weather, h: Holder) {
    forall i: nat ::
      Spares(weather.stops(i), h) && Spares(weather.starts(i).before, h) && Spares(weather.starts(i).between, h)
  }

  predicate Holds(p: Progress, h: Holder, e: Endpoint) {
    h in p.world.held && p.world.held[h] == e
  }

  lemma {:induction false} StopsLeaveHeld(
      p: Progress, current: seq<Rule>, desired: seq<Rule>, weather: Weather, h: Holder, e: Endpoint)
    requires Holds(p, h, e) && Lets(weather, h) && p.failed == None
    ensures var q := StopRemoved(p, current, desired, weather.stops); Holds(q, h, e) && q.failed == None
  {
    if current != [] {
      var n := |current| - 1;
      StopsLeaveHeld(p, current[..n], desired, weather, h, e);
      var q := StopRemoved(p, current[..n], desired, weather.stops);
      SparedStays(q.running, q.world, weather.stops(n), h);
    }
  }

  lemma ClearedLeavesHeld(p: Progress, current: seq<Rule>, d: Rule, gap: Gap, h: Holder, e: Endpoint)
    requires Holds(p, h, e) && Spares(gap.before, h) && Spares(gap.between, h)
    ensures Holds(Cleared(p, current, d, gap), h, e)
    ensures d.name in Names(current) ==> d.name !in Cleared(p, current, d, gap).running
  {
    hide Names;
    SparedStays(p.running, p.world, gap.before, h);
    var ended := if d.name in Names(current) then StopOne(Blown(p, gap.before), d.name) else p;
    SparedStays(ended.running, ended.world, gap.between, h);
  }

  lemma {:induction false} StartsLeaveHeld(
      p: Progress, current: seq<Rule>, desired: seq<Rule>, weather: Weather, h: Holder, e: Endpoint)
    requires Holds(p, h, e) && Lets(weather, h)
    ensures Holds(ApplyRules(p, current, desired, weather.starts), h, e)
  {
    if desired != [] {
      var n := |desired| - 1;
      StartsLeaveHeld(p, current, desired[..n], weather, h, e);
      var q := ApplyRules(p, current, desired[..n], weather.starts);
      ClearedLeavesHeld(q, current, desired[n], weather.starts(n), h, e);
    }
  }

  /**
   * From any state whatsoever: as long as a session holds a socket at the address of a changed or new UDP rule, a
   * reload fails. If the rule is the first that is changed, it is this rule that fails, and it does not run.
   */
  lemma HeldAddressFails(
      p: Progress, current: seq<Rule>, desired: seq<Rule>, weather: Weather, k: nat, h: Holder)
    requires p.failed == None && k < |desired| && Changed(current, desired[k])
    requires desired[k].kind == "udp" && desired[k].listen.Some?
    requires Holds(p, h, Endpoint("udp", desired[k].listen.value)) && Lets(weather, h)
    ensures var d, end := desired[k], ReloadAll(p, current, desired, weather);
      && end.failed.Some? && Holds(end, h, Endpoint("udp", d.listen.value))
      && (d.name in Names(current) && (forall j :: 0 <= j < k ==> !Changed(current, desired[j])) ==>
            end.failed == Some((d, BindFailed)) && d.name !in end.running)
  {
    var d, e, starts := desired[k], Endpoint("udp", desired[k].listen.value), weather.starts;
    var first := StopRemoved(p, current, desired, weather.stops);
    StopsLeaveHeld(p, current, desired, weather, h, e);
    StartsLeaveHeld(first, current, desired[..k], weather, h, e);
    StartsLeaveHeld(first, current, desired, weather, h, e);
    var q := ApplyRules(first, current, desired[..k], starts);
    hide Changed, Cleared, Names, Moves, Holds, StopRemoved, ApplyRules, ApplyRule;
    if forall j :: 0 <= j < k ==> !Changed(current, desired[j]) {
      UnchangedAreSkipped(first, current, desired, starts, 0, k);
    }
    if q.failed.Some? {
      FailureStays(first, current, desired, starts, k);
    } else {
      ClearedLeavesHeld(q, current, d, starts(k), h, e);
      HeldStartFails(q, current, d, starts(k), h);
      OneMore(first, current, desired, starts, k);
      FailureStays(first, current, desired, starts, k + 1);
    }
  }

  lemma HeldStartFails(q: Progress, current: seq<Rule>, d: Rule, gap: Gap, h: Holder)
    requires q.failed == None && Changed(current, d) && d.kind == "udp" && d.listen.Some?
    requires Holds(Cleared(q, current, d, gap), h, Endpoint("udp", d.listen.value))
    ensures var q' := ApplyRule(q, current, d, gap);
      && q'.failed.Some?
      && (d.name !in Cleared(q, current, d, gap).running ==>
            q'.failed == Some((d, BindFailed)) && d.name !in q'.running)
  {
    hide Cleared, Changed;
    assert Held(Cleared(q, current, d, gap).world, Endpoint("udp", d.listen.value));
  }

  /** A rule that could not restart stays down however often the reload is tried, as long as the socket is held. */
  method ReloadTwice(
      state: AdminState, config: Config, k: nat, ghost h: Holder, first: Weather, second: Weather)
    returns (once: Response, again: Response)
    requires state.configPath != "" && k < |state.proxies| == |config.proxies|
    requires config.proxies == state.proxies[k := config.proxies[k]] && Distinct(state.proxies)
    requires config.proxies[k] != state.proxies[k] && config.proxies[k].name == state.proxies[k].name
    requires config.proxies[k].kind == "udp" && config.proxies[k].listen.Some?
    requires Holds(state.Now(None), h, Endpoint("udp", config.proxies[k].listen.value))
    requires Lets(first, h) && Lets(second, h)
    modifies state, state.manager
    ensures once == again == StartFailed(config.proxies[k].name, BindFailed)
    ensures state.proxies == old(state.proxies) && config.proxies[k].name !in state.manager.tasks
    ensures Holds(state.Now(None), h, Endpoint("udp", config.proxies[k].listen.value))
  {
    hide Holds, Lets, ReloadAll, Names;
    ghost var current, desired := state.proxies, config.proxies;
    ghost var e := Endpoint("udp", desired[k].listen.value);
    OthersUnchanged(current, desired, k);
    HeldAddressFails(state.Now(None), current, desired, first, k, h);
    once := state.ApiReload(Some(config), first);
    HeldIsOfWorld(state.Now(Some((desired[k], BindFailed))), state.Now(None), h, e);
    HeldAddressFails(state.Now(None), current, desired, second, k, h);
    again := state.ApiReload(Some(config), second);
    HeldIsOfWorld(state.Now(Some((desired[k], BindFailed))), state.Now(None), h, e);
  }

  lemma HeldIsOfWorld(p: Progress, q: Progress, h: Holder, e: Endpoint)
    requires Holds(p, h, e) && p.world == q.world
    ensures Holds(q, h, e)
  {
  }

  /**
   * It happens to every UDP rule with a client: one datagram of one peer, and the rule can no longer be
   * changed by a reload, although the new rule would start on its own.
   */
  lemma ChangedUdpRuleFails(a: Rule, d: Rule, sid: nat) returns (actions: seq<Action>)
    requires a.kind == "udp" && a.listen.Some? && a.clientId.Some?
    requires d.name == a.name && d.kind == "udp" && d.listen == a.listen && d != a
    ensures var s := After(Init({}), actions);
      && s.running == AsMap([a])
      && ReloadAll(Progress(s.running, s.world, [], None), [a], [d], Calm())
         == Progress(map[], s.world, [Stopped(a.name)], Some((d, BindFailed)))
      && StartResult(map[], Init({}).world, d) == None
  {
    actions := AnEntryIsMade(a, sid);
    var s := After(Init({}), actions);
    assert Distinct([a]) && [a][0 := d] == [d];
    RunsInList([a], 0);
    assert Names([a]) == {a.name};
    assert s.running == AsMap([a]);
    assert s.world.held[Entry(0, sid)] == Endpoint("udp", a.listen.value);
    hide After, AsMap;
    ChangedUdpRuleRestartsIff({}, actions, [], [a], 0, d);
    assert s.running - {d.name} == map[];
  }

  // ----- a reload is a run -----

  function StateOf(p: Progress): State {
    State(p.running, p.world)
  }

  lemma {:induction false} AfterMore(s: State, a: seq<Action>, b: seq<Action>)
    ensures After(s, a + b) == After(After(s, a), b)
  {
    if b == [] {
      assert a + b == a;
    } else {
      var n := |b| - 1;
      assert (a + b)[..|a + b| - 1] == a + b[..n];
      AfterMore(s, a, b[..n]);
    }
  }

  lemma {:induction false} MovesAreSteps(s: State, moves: seq<Move>) returns (actions: seq<Action>)
    ensures After(s, actions) == s.(world := Moves(s.running, s.world, moves))
  {
    hide Moved;
    if moves == [] {
      actions := [];
    } else {
      var n := |moves| - 1;
      var before := MovesAreSteps(s, moves[..n]);
      actions := before + [Happening(moves[n])];
      AfterMore(s, before, [Happening(moves[n])]);
      OneStep(After(s, before), Happening(moves[n]));
    }
  }

  lemma OneStep(s: State, a: Action)
    ensures After(s, [a]) == Do(s, a)
  {
    assert [a][..0] == [];
  }

  lemma StopIsStep(p: Progress, moves: seq<Move>, name: string) returns (actions: seq<Action>)
    ensures After(StateOf(p), actions) == StateOf(StopOne(Blown(p, moves), name))
  {
    hide Moves;
    var s := StateOf(p);
    var before := MovesAreSteps(s, moves);
    actions := before + [Stopping(name)];
    AfterMore(s, before, [Stopping(name)]);
    OneStep(After(s, before), Stopping(name));
    var q := Blown(p, moves);
    assert name !in q.running ==> q.running - {name} == q.running;
  }

  lemma RuleIsSteps(p: Progress, current: seq<Rule>, d: Rule, gap: Gap) returns (actions: seq<Action>)
    ensures After(StateOf(p), actions) == StateOf(ApplyRule(p, current, d, gap))
  {
    hide Moves, StartResult, Names, Find;
    var s := StateOf(p);
    if !Changed(current, d) {
      return [];
    }
    var a, q := [], p;
    if d.name in Names(current) {
      a := StopIsStep(p, gap.before, d.name);
      q := StopOne(Blown(p, gap.before), d.name);
    }
    assert After(s, a) == StateOf(q);
    var b := MovesAreSteps(StateOf(q), gap.between);
    AfterMore(s, a, b);
    actions := a + b + [Starting(d)];
    AfterMore(s, a + b, [Starting(d)]);
    OneStep(After(s, a + b), Starting(d));
  }

  lemma {:induction false} StopsAreSteps(
      p: Progress, current: seq<Rule>, desired: seq<Rule>, stops: nat -> seq<Move>) returns (actions: seq<Action>)
    ensures After(StateOf(p), actions) == StateOf(StopRemoved(p, current, desired, stops))
  {
    hide Names, Moves;
    if current == [] {
      actions := [];
    } else {
      var n := |current| - 1;
      actions := StopsAreSteps(p, current[..n], desired, stops);
      if current[n].name !in Names(desired) {
        var q := StopRemoved(p, current[..n], desired, stops);
        var more := StopIsStep(q, stops(n), current[n].name);
        AfterMore(StateOf(p), actions, more);
        actions := actions + more;
      }
    }
  }

  lemma {:induction false} StartsAreSteps(
      p: Progress, current: seq<Rule>, desired: seq<Rule>, starts: nat -> Gap) returns (actions: seq<Action>)
    ensures After(StateOf(p), actions) == StateOf(ApplyRules(p, current, desired, starts))
  {
    hide ApplyRule;
    if desired == [] {
      actions := [];
    } else {
      var n := |desired| - 1;
      actions := StartsAreSteps(p, current, desired[..n], starts);
      var q := ApplyRules(p, current, desired[..n], starts);
      if q.failed == None {
        var more := RuleIsSteps(q, current, desired[n], starts(n));
        AfterMore(StateOf(p), actions, more);
        actions := actions + more;
      }
    }
  }

  /** What a reload reaches, a run of starts, stops and moves reaches too. */
  lemma ReloadIsRun(p: Progress, current: seq<Rule>, desired: seq<Rule>, weather: Weather)
    returns (actions: seq<Action>)
    ensures After(StateOf(p), actions) == StateOf(ReloadAll(p, current, desired, weather))
  {
    var first := StopRemoved(p, current, desired, weather.stops);
    var stops := StopsAreSteps(p, current, desired, weather.stops);
    var starts := StartsAreSteps(first, current, desired, weather.starts);
    AfterMore(StateOf(p), stops, starts);
    actions := stops + starts;
  }

  // ----- exchanged addresses -----

  /**
   * A list that could start on its own can still fail as a reload: two rules that exchange their addresses
   * meet each other's old listener, whatever happens meanwhile. The first is then gone and the second still
   * runs its old version, while the configured list is the old one.
   */
  lemma ExchangedAddressesFail(a: Rule, b: Rule, w: World, log: seq<Event>, weather: Weather)
    requires a.name != b.name && a.kind == "tcp" && b.kind == "tcp" && a.listen.Some? && b.listen.Some?
    requires a.listen != b.listen
    ensures var desired := [a.(listen := b.listen), b.(listen := a.listen)];
      && ReloadAll(Progress(map[], Init({}).world, [], None), [], desired, Calm()).failed == None
      && var end := ReloadAll(Progress(AsMap([a, b]), w, log, None), [a, b], desired, weather);
      && end.failed == Some((desired[0], BindFailed))
      && end.running == map[b.name := b]
  {
    var current, desired := [a, b], [a.(listen := b.listen), b.(listen := a.listen)];
    RunsInList(current, 0);
    RunsInList(current, 1);
    FindAt(current, 0);
    assert Names(current) == {a.name, b.name};
    assert Names(desired) == {a.name, b.name} by {
      assert desired[0].name == a.name && desired[1].name == b.name;
    }
    assert desired[..1] == [desired[0]] && desired[..1][..0] == [] && current[..|current|] == current;
    var p := Progress(AsMap(current), w, log, None);
    assert AsMap(current).Keys == {a.name, b.name};
    hide Names, Find, AsMap, Moves;
    NothingRemoved(p, current, desired, weather.stops, |current|);
    var rest := map[b.name := b];
    assert p.running - {a.name} == rest;
    BoundFails(rest, Cleared(p, current, desired[0], weather.starts(0)).world, b.name, desired[0]);
    assert ApplyRules(p, current, desired[..0], weather.starts) == p;
    ApplyRuleIs(p, current, desired[0], weather.starts(0));
    OneMore(p, current, desired, weather.starts, 0);
    hide StartResult, ApplyRule;
    assert ApplyRules(p, current, desired[..1], weather.starts).failed == Some((desired[0], BindFailed));
    FailureStays(p, current, desired, weather.starts, 1);
    FreshListStarts(desired);
  }

  /** A running listener has its address, in every world. */
  lemma BoundFails(running: Running, w: World, name: string, d: Rule)
    requires name in running && d.name !in running && d.kind == "tcp" && d.listen.Some?
    requires Bound(running[name]) == Some(Endpoint("tcp", d.listen.value))
    ensures StartResult(running, w, d) == Some(BindFailed)
  {
  }

  lemma FreshListStarts(desired: seq<Rule>)
    requires |desired| == 2 && desired[0].name != desired[1].name && desired[0].listen != desired[1].listen
    requires desired[0].kind == "tcp" && desired[1].kind == "tcp" && desired[0].listen.Some? && desired[1].listen.Some?
    ensures ReloadAll(Progress(map[], Init({}).world, [], None), [], desired, Calm()).failed == None
  {
    assert desired[..1] == [desired[0]] && desired[..0] == [] && desired[..1][..0] == [];
    var p, starts := Progress(map[], Init({}).world, [], None), Calm().starts;
    assert Names([]) == {};
    assert ApplyRules(p, [], [], starts) == p;
    assert ApplyRules(p, [], desired[..1], starts) == ApplyRule(p, [], desired[0], starts(0));
  }
}
