/** Bounded queues that drop their oldest element, as the traffic history and the audit log use them. */
module Rings {

  /** The last `n` elements of `s`. */
  function Last<T>(s: seq<T>, n: nat): (r: seq<T>)
    ensures |r| == if |s| <= n then |s| else n
  {
    if |s| <= n then s else s[|s| - n..]
  }

  /** One push on a full or partly filled queue: drop the front first when it already holds `n`. */
  function Push<T>(ring: seq<T>, x: T, n: nat): seq<T>
    requires 0 < n
  {
    (if |ring| >= n then ring[1..] else ring) + [x]
  }

  /** A queue that holds the last `n` elements of a history still does after one push. */
  lemma PushKeepsLast<T>(history: seq<T>, x: T, n: nat)
    requires 0 < n
    ensures Push(Last(history, n), x, n) == Last(history + [x], n)
  {
    var whole := history + [x];
    if |history| < n {
      assert Last(whole, n) == whole;
    } else {
      assert whole[|whole| - n..] == history[|history| - n + 1..] + [x];
    }
  }
}
