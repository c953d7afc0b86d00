/** The login limiter of the admin interface (src/server/admin.rs:41-45 and 599-665). */
module LoginLimiter {
  import opened Bytes

  type Ip = string

  const LOGIN_FAIL_LIMIT: nat := 5
  const BLOCK_DURATION_MS: nat := 1_800_000
  const FAIL_WINDOW_MS: nat := 1_800_000

  datatype Window = Window(count: nat, first: nat)

  /** What the two tables hold for one address. */
  datatype Address = Address(window: Option<Window>, until: Option<nat>)

  /** A failed login, a successful one, or a connection that asks whether the address is blocked. */
  datatype Event = Failed(at: nat) | Succeeded(at: nat) | Asked(at: nat)

  const FRESH: Address := Address(None, None)

  /** A clock that runs backwards makes the unsigned difference huge, so it ends the window too. */
  predicate WindowOver(w: Window, now: nat) {
    now < w.first || now - w.first > FAIL_WINDOW_MS
  }

  function Counted(w: Option<Window>, now: nat): Window {
    if w.Some? && !WindowOver(w.value, now) then Window(w.value.count + 1, w.value.first) else Window(1, now)
  }

  function Step(a: Address, e: Event): Address {
    match e
    case Failed(now) =>
      var w := Counted(a.window, now);
      if w.count >= LOGIN_FAIL_LIMIT then Address(None, Some(now + BLOCK_DURATION_MS)) else Address(Some(w), a.until)
    case Succeeded(_) => a.(window := None)
    case Asked(now) => if a.until.Some? && now >= a.until.value then a.(until := None) else a
  }

  /** The answer to a connection at `now`. */
  predicate Blocks(a: Address, now: nat) {
    a.until.Some? && now < a.until.value
  }

  class Limiter {
    var failures: map<Ip, Window>
    var blocked: map<Ip, nat>

    constructor ()
      ensures forall ip :: Of(ip) == FRESH
    {
      failures, blocked := map[], map[];
    }

    function Of(ip: Ip): Address
      reads this
    {
      Address(if ip in failures then Some(failures[ip]) else None, if ip in blocked then Some(blocked[ip]) else None)
    }

    method RecordFailure(ip: Ip, now: nat)
      modifies this
      ensures Of(ip) == Step(old(Of(ip)), Failed(now))
      ensures forall other :: other != ip ==> Of(other) == old(Of(other))
    {
      var entry := if ip in failures then failures[ip] else Window(0, now);
      failures := failures[ip := if now < entry.first || now - entry.first > FAIL_WINDOW_MS then Window(1, now)
                                 else Window(entry.count + 1, entry.first)];
      if failures[ip].count >= LOGIN_FAIL_LIMIT {
        blocked := blocked[ip := now + BLOCK_DURATION_MS];
        failures := failures - {ip};
      }
    }

    method RecordSuccess(ip: Ip, now: nat)
      modifies this`failures
      ensures Of(ip) == Step(old(Of(ip)), Succeeded(now))
      ensures forall other :: other != ip ==> Of(other) == old(Of(other))
    {
      failures := failures - {ip};
    }

    method IsBlocked(ip: Ip, now: nat) returns (yes: bool)
      modifies this`blocked
      ensures yes == Blocks(old(Of(ip)), now)
      ensures Of(ip) == Step(old(Of(ip)), Asked(now))
      ensures forall other :: other != ip ==> Of(other) == old(Of(other))
    {
      if ip !in blocked {
        return false;
      }
      if now < blocked[ip] {
        return true;
      }
      blocked := blocked - {ip};
      return false;
    }
  }

  // ----- histories of one address -----

  function After(h: seq<Event>): Address {
    if h == [] then FRESH else Step(After(h[..|h| - 1]), h[|h| - 1])
  }

  function Failures(h: seq<Event>): nat {
    if h == [] then 0 else Failures(h[..|h| - 1]) + (if h[|h| - 1].Failed? then 1 else 0)
  }

  predicate InOrder(h: seq<Event>) {
    forall i, j :: 0 <= i < j < |h| ==> h[i].at <= h[j].at
  }

  /**
   * Which failure of a history opened the counting window that is still current, read off the history
   * alone: a success ends the window, and so does its fifth failure; a failure more than 30 minutes after
   * the opener opens the next one.
   */
  function Opener(h: seq<Event>): (p: Option<nat>)
    ensures p.Some? ==> p.value < |h| && h[p.value].Failed?
  {
    if h == [] then None else OpenerAfter(h, Opener(h[..|h| - 1]))
  }

  /** The opener after the last event of `h`, if `p` was the one before it. */
  function OpenerAfter(h: seq<Event>, p: Option<nat>): (r: Option<nat>)
    requires h != [] && (p.Some? ==> p.value < |h| - 1 && h[p.value].Failed?)
    ensures r.Some? ==> r.value < |h| && h[r.value].Failed?
  {
    var n := |h| - 1;
    match h[n]
    case Succeeded(_) => None
    case Asked(_) => p
    case Failed(now) =>
      if p == None || now - h[p.value].at > 1_800_000 then Some(n)
      else if Failures(h[p.value..]) == 5 then None
      else p
  }

  /** Event `k` is a failure that opens a counting window. */
  predicate Opens(h: seq<Event>, k: nat)
    requires k < |h|
  {
    var p := Opener(h[..k]);
    h[k].Failed? && (p == None || h[k].at - h[p.value].at > 1_800_000)
  }

  /** The limiter begins a new count at event `k`. */
  predicate BeginsCount(h: seq<Event>, k: nat)
    requires k < |h|
  {
    var w := After(h[..k]).window;
    h[k].Failed? && (w == None || WindowOver(w.value, h[k].at))
  }

  /** Event `j` is a failure that makes the limiter block the address. */
  predicate StartsBlock(h: seq<Event>, j: nat)
    requires j < |h|
  {
    h[j].Failed? && Counted(After(h[..j]).window, h[j].at).count >= 5
  }

  predicate NoSuccess(h: seq<Event>, i: nat, j: nat)
    requires i <= j <= |h|
  {
    forall k :: i <= k < j ==> !h[k].Succeeded?
  }

  /** From `k` to `j` run exactly five failures and no success, and all lie within the window that `k` opens. */
  predicate FiveInWindow(h: seq<Event>, k: nat, j: nat)
    requires k <= j < |h|
  {
    && Opens(h, k) && h[j].Failed? && NoSuccess(h, k, j)
    && Failures(h[k..j + 1]) == 5
    && h[j].at - h[k].at <= 1_800_000
  }

  lemma FailuresStep(h: seq<Event>, k: nat, j: nat)
    requires k <= j < |h|
    ensures Failures(h[k..j + 1]) == Failures(h[k..j]) + (if h[j].Failed? then 1 else 0)
  {
    assert h[k..j + 1][..j - k] == h[k..j];
  }

  lemma AfterStep(h: seq<Event>, j: nat)
    requires j < |h|
    ensures After(h[..j + 1]) == Step(After(h[..j]), h[j])
  {
    assert h[..j + 1][..j] == h[..j];
  }

  /** While the window that `k` opened is the current one, its count is the number of failures since `k`. */
  predicate InWindowOf(h: seq<Event>, k: nat, j: nat)
    requires k < j <= |h|
  {
    && BeginsCount(h, k) && NoSuccess(h, k, j)
    && After(h[..j]).window == Some(Window(Failures(h[k..j]), h[k].at))
    && 1 <= Failures(h[k..j]) < 5
  }

  lemma WindowGrows(h: seq<Event>, k: nat, j: nat)
    requires InOrder(h) && k < j < |h| && InWindowOf(h, k, j) && !h[j].Succeeded?
    ensures h[j].Failed? && h[j].at - h[k].at <= 1_800_000 && !StartsBlock(h, j) ==> InWindowOf(h, k, j + 1)
    ensures !h[j].Failed? ==> InWindowOf(h, k, j + 1)
    ensures h[j].Failed? ==>
              (StartsBlock(h, j) <==> h[j].at - h[k].at <= 1_800_000 && Failures(h[k..j + 1]) == 5)
  {
    FailuresStep(h, k, j);
    AfterStep(h, j);
  }

  lemma WindowBegins(h: seq<Event>, k: nat)
    requires k < |h| && BeginsCount(h, k)
    ensures InWindowOf(h, k, k + 1)
  {
    AfterStep(h, k);
    assert h[k..k + 1] == [h[k]];
    assert [h[k]][..0] == [];
  }

  /** A current window was opened by some failure of the history, and has counted since. */
  lemma {:induction false} WindowHasOpening(h: seq<Event>, j: nat) returns (k: nat)
    requires InOrder(h) && j <= |h| && After(h[..j]).window.Some?
    ensures k < j && InWindowOf(h, k, j)
    decreases j
  {
    AfterStep(h, j - 1);
    hide After, Failures, InWindowOf;
    if h[j - 1].Failed? && BeginsCount(h, j - 1) {
      k := j - 1;
      WindowBegins(h, k);
    } else {
      k := WindowHasOpening(h, j - 1);
      WindowGrows(h, k, j - 1);
    }
  }

  lemma {:induction false} StaysInWindow(h: seq<Event>, k: nat, m: nat)
    requires InOrder(h) && k < m <= |h| && BeginsCount(h, k) && NoSuccess(h, k, m)
    requires Failures(h[k..m]) < 5 && h[m - 1].at - h[k].at <= 1_800_000
    ensures InWindowOf(h, k, m)
    decreases m
  {
    hide After, Failures, InWindowOf, BeginsCount;
    if m == k + 1 {
      WindowBegins(h, k);
    } else {
      FailuresStep(h, k, m - 1);
      assert h[m - 2].at <= h[m - 1].at;
      StaysInWindow(h, k, m - 1);
      WindowGrows(h, k, m - 1);
    }
  }

  /** The limiter's window is the one that the history opened, with the failures since then counted. */
  lemma {:induction false} WindowIsOpeners(h: seq<Event>)
    requires InOrder(h)
    ensures var p := Opener(h);
      && After(h).window == (if p == None then None else Some(Window(Failures(h[p.value..]), h[p.value].at)))
      && (p.Some? ==> Failures(h[p.value..]) < 5)
  {
    if h != [] {
      var n := |h| - 1;
      WindowIsOpeners(h[..n]);
      OpenerCounts(h, n);
      assert After(h) == Step(After(h[..n]), h[n]);
      assert Opener(h) == OpenerAfter(h, Opener(h[..n]));
      hide Failures, After, Opener, InOrder;
    }
  }

  /** How the failures since the opener go on. */
  lemma OpenerCounts(h: seq<Event>, n: nat)
    requires n < |h| && n + 1 == |h|
    ensures h[n].Failed? ==> Failures(h[n..]) == 1
    ensures var p := Opener(h[..n]);
      p.Some? ==> Failures(h[p.value..]) == Failures(h[..n][p.value..]) + if h[n].Failed? then 1 else 0
  {
    assert h[n..] == [h[n]] && [h[n]][..0] == [];
    var p := Opener(h[..n]);
    if p.Some? {
      assert h[..n][p.value..] == h[p.value..n] && h[p.value..n + 1] == h[p.value..];
      FailuresStep(h, p.value, n);
    }
  }

  /** Windows open exactly where the history says. */
  lemma OpenersAgree(h: seq<Event>, k: nat)
    requires InOrder(h) && k < |h|
    ensures Opens(h, k) <==> BeginsCount(h, k)
  {
    WindowIsOpeners(h[..k]);
    assert Opener(h[..k]).Some? ==> h[..k][Opener(h[..k]).value] == h[Opener(h[..k]).value];
    hide Failures, After, Opener;
  }

  /**
   * A failure starts a block exactly if it is the fifth within 30 minutes of one that opened a counting
   * window, with no success between; the block then runs for 30 minutes from that failure.
   */
  lemma FifthFailureBlocks(h: seq<Event>, j: nat)
    requires InOrder(h) && j < |h|
    ensures StartsBlock(h, j) <==> exists k :: 0 <= k <= j && FiveInWindow(h, k, j)
    ensures StartsBlock(h, j) ==> After(h[..j + 1]) == Address(None, Some(h[j].at + 1_800_000))
  {
    AfterStep(h, j);
    hide After, Opener;
    if StartsBlock(h, j) {
      var k := WindowHasOpening(h, j);
      WindowGrows(h, k, j);
      OpenersAgree(h, k);
      assert FiveInWindow(h, k, j);
    }
    if k :| 0 <= k <= j && FiveInWindow(h, k, j) {
      OpenersAgree(h, k);
      FailuresStep(h, k, j);
      assert h[k..k] == [];
      assert h[j - 1].at <= h[j].at;
      StaysInWindow(h, k, j);
      WindowGrows(h, k, j);
    }
  }

  /** A block holds for exactly its 30 minutes, whatever is asked, fails or succeeds, unless another starts. */
  lemma {:induction false} BlockLasts(h: seq<Event>, j: nat, m: nat, now: nat)
    requires InOrder(h) && j < m <= |h| && StartsBlock(h, j)
    requires forall k :: j < k < m ==> !StartsBlock(h, k)
    requires h[m - 1].at <= now
    ensures Blocks(After(h[..m]), now) <==> now < h[j].at + 1_800_000
    decreases m
  {
    AfterStep(h, m - 1);
    if m > j + 1 {
      assert !StartsBlock(h, m - 1);
      assert h[m - 2].at <= h[m - 1].at;
      BlockLasts(h, j, m - 1, now);
      BlockLasts(h, j, m - 1, h[m - 1].at);
    }
  }

  /** How many failures since `i`, at most, the current window allows. */
  predicate Bounded(h: seq<Event>, i: nat, m: nat)
    requires i < m <= |h|
  {
    var n, w := Failures(h[i..m]), After(h[..m]).window;
    && (w.Some? ==> w.value.count < 5)
    && (n == 0 || (w.Some? && (n < w.value.count || (h[i].at <= w.value.first && n <= w.value.count + 3))))
  }

  lemma {:induction false} CountIsSmall(h: seq<Event>)
    ensures After(h).window.Some? ==> 1 <= After(h).window.value.count < 5
  {
    if h != [] {
      CountIsSmall(h[..|h| - 1]);
    }
  }

  lemma BoundedStep(h: seq<Event>, i: nat, m: nat)
    requires i <= m < |h| && h[i].at <= h[m].at && h[m].at - h[i].at <= 1_800_000
    requires m == i || Bounded(h, i, m)
    requires InOrder(h)
    requires !h[m].Succeeded? && !StartsBlock(h, m)
    ensures Bounded(h, i, m + 1)
  {
    AfterStep(h, m);
    FailuresStep(h, i, m);
    CountIsSmall(h[..m]);
    assert h[i..i] == [];
    if After(h[..m]).window.Some? {
      var k := WindowHasOpening(h, m);
      assert After(h[..m]).window.value.first <= h[m].at;
    }
    hide After, Failures;
  }

  lemma {:induction false} StaysBounded(h: seq<Event>, i: nat, m: nat)
    requires InOrder(h) && i < m <= |h| && NoSuccess(h, i, m)
    requires h[m - 1].at - h[i].at <= 1_800_000
    requires forall k :: i <= k < m ==> !StartsBlock(h, k)
    ensures Bounded(h, i, m)
    decreases m
  {
    assert !StartsBlock(h, m - 1);
    if m > i + 1 {
      assert h[m - 2].at <= h[m - 1].at;
      StaysBounded(h, i, m - 1);
    }
    BoundedStep(h, i, m - 1);
  }

  /** A closed interval of 30 minutes in which no login succeeds and no block starts holds at most 7 failures. */
  lemma AtMostSeven(h: seq<Event>, i: nat, m: nat)
    requires InOrder(h) && i < m <= |h| && NoSuccess(h, i, m)
    requires h[m - 1].at - h[i].at <= 1_800_000
    requires forall k :: i <= k < m ==> !StartsBlock(h, k)
    ensures Failures(h[i..m]) <= 7
  {
    StaysBounded(h, i, m);
  }

  /** One failure, three more at the very end of its window, and four just after it. */
  function SevenInHalfAnHour(): seq<Event> {
    seq(8, i => Failed(if i == 0 then 0 else if i < 4 then 1_800_000 else 1_800_000 + 1))
  }

  lemma {:induction false} SevenWindows(h: seq<Event>, j: nat)
    requires h == SevenInHalfAnHour() && 1 <= j <= 8
    ensures After(h[..j]) == Address(Some(if j <= 4 then Window(j, 0) else Window(j - 4, 1_800_000 + 1)), None)
  {
    AfterStep(h, j - 1);
    if j == 1 {
      assert h[..0] == [];
    } else {
      SevenWindows(h, j - 1);
    }
  }

  /** Seven are possible: three within a window opened before the interval, and four within the next. */
  lemma SevenWithoutABlock()
    ensures var h := SevenInHalfAnHour();
      && InOrder(h) && NoSuccess(h, 0, 8) && h[7].at - h[1].at <= 1_800_000
      && Failures(h[1..8]) == 7
      && forall k :: 1 <= k < 8 ==> !StartsBlock(h, k)
  {
    var h := SevenInHalfAnHour();
    AllFail(h[1..8]);
    forall k | 1 <= k < 8 ensures !StartsBlock(h, k) {
      SevenWindows(h, k);
    }
    hide Failures, After;
  }

  lemma {:induction false} AllFail(h: seq<Event>)
    requires forall i :: 0 <= i < |h| ==> h[i].Failed?
    ensures Failures(h) == |h|
  {
    if h != [] {
      AllFail(h[..|h| - 1]);
    }
  }
}
