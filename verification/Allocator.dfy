/**
 * The lock-free stream id allocator of src/protocol/multiplex.rs: any number of threads, each loading
 * the counter and then trying to replace it. Loads are relaxed, so a load may see any value the counter
 * has held; the compare-exchange always acts on the latest one.
 */
module Allocator {
  import opened Bytes

  const MAX_STREAMS: U32 := 65535
  const SERVER_START: U32 := 2
  const CLIENT_START: U32 := 1

  type ThreadId = nat

  datatype State = State(
    values: seq<int>,               // every value the counter has held, oldest first
    loaded: map<ThreadId, int>,     // threads between their load and their compare-exchange
    returned: seq<int>,             // ids handed out, in order
    exhausted: bool)                // some call has reported exhaustion

  function Counter(s: State): int
    requires s.values != []
  {
    s.values[|s.values| - 1]
  }

  ghost predicate Init(s: State, start: U32) {
    s == State([start], map[], [], false)
  }

  datatype Action = Load(t: ThreadId, at: nat) | CompareExchange(t: ThreadId)

  ghost predicate Next(s: State, a: Action, s': State) {
    && s.values != []
    && match a
       case Load(t, at) =>
         && t !in s.loaded && at < |s.values|
         && s' == if s.values[at] > MAX_STREAMS then s.(exhausted := true)
                  else s.(loaded := s.loaded[t := s.values[at]])
       case CompareExchange(t) =>
         && t in s.loaded
         && s' == (if s.loaded[t] == Counter(s)
                   then s.(values := s.values + [s.loaded[t] + 2], returned := s.returned + [s.loaded[t]])
                   else s).(loaded := s.loaded - {t})
  }

  ghost predicate IsRun(states: seq<State>, actions: seq<Action>, start: U32) {
    && |states| == |actions| + 1
    && Init(states[0], start)
    && forall i :: 0 <= i < |actions| ==> Next(states[i], actions[i], states[i + 1])
  }

  ghost predicate Inv(s: State, start: U32) {
    && |s.values| == |s.returned| + 1
    && (forall i :: 0 <= i < |s.values| ==> s.values[i] == start + 2 * i)
    && (forall i :: 0 <= i < |s.returned| ==> s.returned[i] == start + 2 * i && s.returned[i] <= MAX_STREAMS)
    && (forall t :: t in s.loaded ==> s.loaded[t] <= MAX_STREAMS)
    && (s.exhausted ==> Counter(s) > MAX_STREAMS)
  }

  lemma {:induction false} RunKeepsInv(states: seq<State>, actions: seq<Action>, start: U32, i: nat)
    requires IsRun(states, actions, start) && start <= 2 && i < |states|
    ensures Inv(states[i], start)
  {
    if i > 0 {
      RunKeepsInv(states, actions, start, i - 1);
      var s, s' := states[i - 1], states[i];
      assert Next(s, actions[i - 1], s');
    }
  }

  /**
   * In every interleaving the server's ids are 2, 4, ..., counter - 2, each handed out once, at most 32767
   * of them; exhaustion is reported only once all 32767 are gone; and the checked addition never fails.
   */
  lemma ServerIds(states: seq<State>, actions: seq<Action>, i: nat)
    requires IsRun(states, actions, SERVER_START) && i < |states|
    ensures var s := states[i];
      && s.values != []
      && Counter(s) == 2 + 2 * |s.returned|
      && (forall k :: 0 <= k < |s.returned| ==> s.returned[k] == 2 + 2 * k)
      && |s.returned| <= 32767
      && (s.exhausted ==> |s.returned| == 32767)
      && (forall t :: t in s.loaded ==> s.loaded[t] + 2 < U32_SIZE)
  {
    RunKeepsInv(states, actions, SERVER_START, i);
    var s := states[i];
    if |s.returned| > 0 {
      assert s.returned[|s.returned| - 1] == 2 * |s.returned|;
    }
  }

  /** The client's side: the odd ids from 1, of which there is one more. */
  lemma ClientIds(states: seq<State>, actions: seq<Action>, i: nat)
    requires IsRun(states, actions, CLIENT_START) && i < |states|
    ensures var s := states[i];
      && (forall k :: 0 <= k < |s.returned| ==> s.returned[k] == 1 + 2 * k)
      && |s.returned| <= 32768
      && (s.exhausted ==> |s.returned| == 32768)
  {
    RunKeepsInv(states, actions, CLIENT_START, i);
    var s := states[i];
    if |s.returned| > 0 {
      assert s.returned[|s.returned| - 1] == 2 * |s.returned| - 1;
    }
  }

  /** The allocator as one caller sees it while others allocate between its load and its exchange. */
  class StreamIdAllocator {
    var next: U32

    constructor Server()
      ensures next == SERVER_START
    {
      next := SERVER_START;
    }

    constructor Client()
      ensures next == CLIENT_START
    {
      next := CLIENT_START;
    }

    method CompareExchange(cur: U32, nxt: U32) returns (ok: bool)
      modifies this
      ensures ok == (old(next) == cur)
      ensures next == if ok then nxt else old(next)
    {
      ok := next == cur;
      if ok {
        next := nxt;
      }
    }

    /** `n` ids taken by other threads, as far as there are any left. */
    method TakenByOthers(n: nat) returns (taken: nat)
      requires next <= MAX_STREAMS + 2
      modifies this
      ensures taken <= n && next == old(next) + 2 * taken && next <= MAX_STREAMS + 2
    {
      taken := 0;
      while taken < n && next <= MAX_STREAMS
        invariant taken <= n && next == old(next) + 2 * taken && next <= MAX_STREAMS + 2
      {
        next := next + 2;
        taken := taken + 1;
      }
    }

    /**
     * Retries until its exchange succeeds; `interference[i]` ids go to others during attempt `i`.
     * The id is the one right after everything the others took before, and nobody else's.
     */
    method Next(interference: seq<nat>) returns (id: Option<U32>, ghost others: nat)
      requires next <= MAX_STREAMS + 2
      modifies this
      ensures next <= MAX_STREAMS + 2
      ensures id.Some? ==> id.value == old(next) + 2 * others && id.value <= MAX_STREAMS && next == id.value + 2
      ensures id == None ==> next == old(next) + 2 * others && next > MAX_STREAMS
    {
      others := 0;
      var attempt := 0;
      while true
        invariant attempt <= |interference|
        invariant next == old(next) + 2 * others && next <= MAX_STREAMS + 2
        decreases |interference| - attempt
      {
        var cur := next;
        if cur > MAX_STREAMS {
          return None, others;
        }
        var nxt := cur + 2;
        var taken := 0;
        if attempt < |interference| {
          taken := TakenByOthers(interference[attempt]);
          attempt := attempt + 1;
        }
        var ok := CompareExchange(cur, nxt);
        if ok {
          return Some(cur), others;
        }
        others := others + taken;
      }
    }
  }
}
