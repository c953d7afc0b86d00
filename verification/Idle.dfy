/**
 * Heartbeats and the idle monitor in time (src/server/tunnel.rs:378-393, src/client/mod.rs:160-185,
 * src/protocol/heartbeat.rs). Times are milliseconds since the session was made.
 */
module Idle {
  import opened Bytes

  const IDLE_CHECK_INTERVAL_MS: nat := 5000
  const HEARTBEAT_MISS_MAX: nat := 3

  function Timeout(hbMax: nat): nat {
    (hbMax * 3 + 10) * 1000
  }

  /** The longest one-way delay for which the timeout is meant. */
  function Delay(hbMax: nat): nat {
    hbMax * 1000 + 5000
  }

  datatype State = State(
    now: nat,
    alive: bool,          // the client sends in time and the network delivers in time
    started: bool,        // the acknowledgement has reached the client
    lastSend: nat,        // when the client last sent a heartbeat, or started
    flight: seq<nat>,     // send times of the frames on their way, oldest first
    last: nat,            // the server's last activity
    lastTick: nat,
    fired: Option<nat>)

  datatype Action = Advance(ms: nat) | AckArrives | SendHeartbeat | SendOther | Deliver | Tick | Stops

  function Init(): State {
    State(0, true, false, 0, [], 0, 0, None)
  }

  /**
   * Time may pass as long as the monitor's next tick is not overdue and, while the client is alive, neither
   * the acknowledgement, nor the next heartbeat, nor the oldest frame on its way is.
   */
  predicate Enabled(s: State, a: Action, hbMax: nat) {
    && s.fired == None
    && match a
       case Advance(ms) =>
         && s.now + ms <= s.lastTick + IDLE_CHECK_INTERVAL_MS
         && (s.alive ==>
               && (!s.started ==> s.now + ms <= Delay(hbMax))
               && (s.started ==> s.now + ms <= s.lastSend + hbMax * 1000)
               && (s.flight != [] ==> s.now + ms <= s.flight[0] + Delay(hbMax)))
       case AckArrives => !s.started
       case SendHeartbeat => s.started
       case SendOther => s.started
       case Deliver => s.flight != []
       case Tick => true
       case Stops => true
  }

  function Do(s: State, a: Action, hbMax: nat): State
    requires Enabled(s, a, hbMax)
  {
    match a
    case Advance(ms) => s.(now := s.now + ms)
    case AckArrives => s.(started := true, lastSend := s.now)
    case SendHeartbeat => s.(flight := s.flight + [s.now], lastSend := s.now)
    case SendOther => s.(flight := s.flight + [s.now])
    case Deliver => s.(flight := s.flight[1..], last := s.now)
    case Tick =>
      s.(lastTick := s.now,
         fired := if s.last <= s.now && s.now - s.last > Timeout(hbMax) then Some(s.now) else None)
    case Stops => s.(alive := false)
  }

  ghost predicate Run(hbMax: nat, actions: seq<Action>)
    decreases |actions|, 0
  {
    if actions == [] then true
    else
      var before := actions[..|actions| - 1];
      Run(hbMax, before) && Enabled(After(hbMax, before), actions[|actions| - 1], hbMax)
  }

  ghost function After(hbMax: nat, actions: seq<Action>): State
    requires Run(hbMax, actions)
    decreases |actions|, 1
  {
    if actions == [] then Init()
    else Do(After(hbMax, actions[..|actions| - 1]), actions[|actions| - 1], hbMax)
  }

  ghost predicate ClockInv(s: State, hbMax: nat) {
    && s.last <= s.now && s.lastSend <= s.now && s.lastTick <= s.now <= s.lastTick + IDLE_CHECK_INTERVAL_MS
    && (forall i :: 0 <= i < |s.flight| ==> s.flight[i] <= s.now)
    && (s.fired == None ==> s.lastTick <= s.last + Timeout(hbMax))
    && (s.fired.Some? ==> s.fired.value == s.now && s.now > s.last + Timeout(hbMax))
  }

  /** While the client is alive, the oldest frame on its way, or else the next heartbeat, still comes in time. */
  ghost predicate AliveInv(s: State, hbMax: nat) {
    && s.fired == None
    && (!s.started ==> s.flight == [] && s.last == 0 && s.now <= Delay(hbMax))
    && (s.started ==> s.now <= s.lastSend + hbMax * 1000)
    && (s.started && s.flight == [] ==> s.lastSend <= s.last + Delay(hbMax))
    && (s.flight != [] ==> s.flight[0] <= s.last + Delay(hbMax) + hbMax * 1000 && s.now <= s.flight[0] + Delay(hbMax))
    && (forall i, j :: 0 <= i < j < |s.flight| ==> s.flight[i] <= s.flight[j])
    && (s.started && s.flight != [] ==> s.lastSend <= s.flight[|s.flight| - 1])
  }

  lemma StepKeepsClocks(s: State, a: Action, hbMax: nat)
    requires ClockInv(s, hbMax) && Enabled(s, a, hbMax)
    ensures ClockInv(Do(s, a, hbMax), hbMax)
  {
  }

  lemma StepKeepsAlive(s: State, a: Action, hbMax: nat)
    requires ClockInv(s, hbMax) && AliveInv(s, hbMax) && s.alive && Enabled(s, a, hbMax) && a != Stops
    ensures AliveInv(Do(s, a, hbMax), hbMax)
  {
  }

  lemma {:induction false} RunKeepsInv(hbMax: nat, actions: seq<Action>)
    requires Run(hbMax, actions)
    ensures ClockInv(After(hbMax, actions), hbMax)
    ensures Stops !in actions ==> After(hbMax, actions).alive && AliveInv(After(hbMax, actions), hbMax)
  {
    if actions != [] {
      var before, a := actions[..|actions| - 1], actions[|actions| - 1];
      assert actions == before + [a];
      RunKeepsInv(hbMax, before);
      hide AliveInv, ClockInv;
      StepKeepsClocks(After(hbMax, before), a, hbMax);
      if Stops !in actions {
        StepKeepsAlive(After(hbMax, before), a, hbMax);
      }
    }
  }

  /**
   * If heartbeats go out at most hbMax apart and one-way delays are at most hbMax + 5 seconds, the monitor
   * never fires, whenever it looks.
   */
  lemma NeverFires(hbMax: nat, actions: seq<Action>)
    requires Run(hbMax, actions) && Stops !in actions
    ensures var s := After(hbMax, actions); s.fired == None && s.now - s.last <= 3000 * hbMax + 10_000
  {
    RunKeepsInv(hbMax, actions);
  }

  /**
   * Whatever the client and the network do, the monitor fires only after more than the timeout without a
   * frame, and no later than one check interval after that.
   */
  lemma FiresInTime(hbMax: nat, actions: seq<Action>)
    requires Run(hbMax, actions)
    ensures var s := After(hbMax, actions);
      && (s.fired == None ==> s.now <= s.last + 3000 * hbMax + 15_000)
      && (s.fired.Some? ==> s.last + 3000 * hbMax + 10_000 < s.fired.value <= s.last + 3000 * hbMax + 15_000)
  {
    RunKeepsInv(hbMax, actions);
    if actions != [] {
      RunKeepsInv(hbMax, actions[..|actions| - 1]);
    }
  }

  lemma Extend(hbMax: nat, before: seq<Action>, a: Action)
    requires Run(hbMax, before) && Enabled(After(hbMax, before), a, hbMax)
    ensures Run(hbMax, before + [a]) && After(hbMax, before + [a]) == Do(After(hbMax, before), a, hbMax)
  {
    assert (before + [a])[..|before|] == before;
  }

  /** Time passes up to `until`, with a check of the monitor at least every second. */
  lemma {:induction false} Wait(hbMax: nat, before: seq<Action>, until: nat) returns (actions: seq<Action>)
    requires Run(hbMax, before) && Stops !in before
    requires var s := After(hbMax, before);
      && s.now <= until && s.lastTick == s.now && s.alive
      && (!s.started ==> until <= Delay(hbMax))
      && (s.started ==> until <= s.lastSend + hbMax * 1000)
      && (s.flight != [] ==> until <= s.flight[0] + Delay(hbMax))
    ensures Run(hbMax, actions) && Stops !in actions
    ensures After(hbMax, actions) == After(hbMax, before).(now := until, lastTick := until)
    decreases until - After(hbMax, before).now
  {
    NeverFires(hbMax, before);
    var s := After(hbMax, before);
    if s.now == until {
      actions := before;
    } else {
      var step := if until - s.now > 1000 then 1000 else until - s.now;
      Extend(hbMax, before, Advance(step));
      NeverFires(hbMax, before + [Advance(step)]);
      Extend(hbMax, before + [Advance(step)], Tick);
      NeverFires(hbMax, before + [Advance(step)] + [Tick]);
      actions := Wait(hbMax, before + [Advance(step)] + [Tick], until);
    }
  }

  /**
   * The timeout is as short as it can be (for intervals of five seconds or more): an acknowledgement and a
   * first heartbeat that both take the longest delay leave the server without a frame for all of it.
   */
  lemma TimeoutIsReached(hbMax: nat) returns (actions: seq<Action>)
    requires 5 <= hbMax
    ensures Run(hbMax, actions) && Stops !in actions
    ensures var s := After(hbMax, actions); s.now - s.last == 3000 * hbMax + 10_000
  {
    hide Run, After;
    var h, d := hbMax * 1000, Delay(hbMax);
    assert Run(hbMax, []) && After(hbMax, []) == Init() by { StartOfRun(hbMax); }
    var started := Wait(hbMax, [], d);
    Extend(hbMax, started, AckArrives);
    var first := Wait(hbMax, started + [AckArrives], d + h);
    Extend(hbMax, first, SendHeartbeat);
    var second := Wait(hbMax, first + [SendHeartbeat], d + 2 * h);
    Extend(hbMax, second, SendHeartbeat);
    actions := Wait(hbMax, second + [SendHeartbeat], 2 * d + h);
  }

  lemma StartOfRun(hbMax: nat)
    ensures Run(hbMax, []) && After(hbMax, []) == Init()
  {
  }

  /** Time passes for a dead client, with a check of the monitor at least every second. */
  lemma {:induction false} WaitDead(hbMax: nat, before: seq<Action>, until: nat) returns (actions: seq<Action>)
    requires Run(hbMax, before)
    requires var s := After(hbMax, before);
      s.now <= until <= s.last + 3000 * hbMax + 10_000 && s.lastTick == s.now && !s.alive && s.fired == None
    ensures Run(hbMax, actions)
    ensures After(hbMax, actions) == After(hbMax, before).(now := until, lastTick := until)
    decreases until - After(hbMax, before).now
  {
    var s := After(hbMax, before);
    if s.now == until {
      actions := before;
    } else {
      var step := if until - s.now > 1000 then 1000 else until - s.now;
      Extend(hbMax, before, Advance(step));
      Extend(hbMax, before + [Advance(step)], Tick);
      actions := WaitDead(hbMax, before + [Advance(step)] + [Tick], until);
    }
  }

  /** Nor can the check interval be shortened: a client that stops at once is noticed five seconds late. */
  lemma FiresAsLate(hbMax: nat) returns (actions: seq<Action>)
    ensures Run(hbMax, actions)
    ensures var s := After(hbMax, actions); s.last == 0 && s.fired == Some(3000 * hbMax + 15_000)
  {
    hide Run, After;
    StartOfRun(hbMax);
    Extend(hbMax, [], Stops);
    var quiet := WaitDead(hbMax, [] + [Stops], 3000 * hbMax + 10_000);
    Extend(hbMax, quiet, Advance(5000));
    Extend(hbMax, quiet + [Advance(5000)], Tick);
    actions := quiet + [Advance(5000)] + [Tick];
  }

  /**
   * The monitor's loop over its readings of the clock and of the last activity: it returns at the first one
   * that is too old. A reading from before the activity counts as age zero.
   */
  method IdleMonitor(readings: seq<(nat, nat)>, hbMax: U32) returns (fired: Option<nat>)
    ensures fired.Some? ==>
              && fired.value < |readings|
              && readings[fired.value].0 - readings[fired.value].1 > 3000 * hbMax + 10_000
              && forall i :: 0 <= i < fired.value ==> readings[i].0 - readings[i].1 <= 3000 * hbMax + 10_000
    ensures fired == None ==> forall i :: 0 <= i < |readings| ==> readings[i].0 - readings[i].1 <= 3000 * hbMax + 10_000
  {
    var timeout := (hbMax * 3 + 10) * 1000;
    var tick := 0;
    while tick < |readings|
      invariant tick <= |readings|
      invariant forall i :: 0 <= i < tick ==> readings[i].0 - readings[i].1 <= 3000 * hbMax + 10_000
    {
      var now, last := readings[tick].0, readings[tick].1;
      var age := if now < last then 0 else now - last;
      if age > timeout {
        return Some(tick);
      }
      tick := tick + 1;
    }
    return None;
  }

  // ----- the client's own count of missed heartbeats -----

  datatype Beat = Sent | Acked

  /** How many heartbeats were sent since the last acknowledgement. */
  function Missed(h: seq<Beat>): nat {
    if h == [] || h[|h| - 1].Acked? then 0 else Missed(h[..|h| - 1]) + 1
  }

  class HeartbeatState {
    var missCount: U32
    ghost var history: seq<Beat>

    /** The count saturates at the largest 32-bit number. */
    ghost predicate Valid()
      reads this
    {
      missCount == if Missed(history) < U32_SIZE then Missed(history) else U32_SIZE - 1
    }

    constructor ()
      ensures Valid() && history == []
    {
      missCount, history := 0, [];
    }

    method OnHeartbeatSent()
      requires Valid()
      modifies this
      ensures Valid() && history == old(history) + [Sent]
    {
      assert (history + [Sent])[..|history|] == history;
      missCount := if missCount == U32_SIZE - 1 then missCount else missCount + 1;
      history := history + [Sent];
    }

    method OnHeartbeatAck()
      requires Valid()
      modifies this
      ensures Valid() && history == old(history) + [Acked]
    {
      missCount := 0;
      history := history + [Acked];
    }

    /** The connection is given up exactly if the last three things that happened are unanswered heartbeats. */
    method IsDead() returns (dead: bool)
      requires Valid()
      ensures dead <==> |history| >= 3 && forall i :: |history| - 3 <= i < |history| ==> history[i] == Sent
    {
      ThreeMissed(history);
      dead := missCount >= HEARTBEAT_MISS_MAX;
    }
  }

  lemma {:induction false} ThreeMissed(h: seq<Beat>)
    ensures Missed(h) >= 3 <==> |h| >= 3 && forall i :: |h| - 3 <= i < |h| ==> h[i] == Sent
  {
    if |h| >= 1 {
      var h1 := h[..|h| - 1];
      if |h| >= 2 {
        assert h1[|h1| - 1] == h[|h| - 2];
        var h2 := h1[..|h1| - 1];
        if |h| >= 3 {
          assert h2[|h2| - 1] == h[|h| - 3];
          assert h[|h| - 1] == Sent && h[|h| - 2] == Sent && h[|h| - 3] == Sent ==> Missed(h2) >= 1;
        }
      }
    }
  }
}
