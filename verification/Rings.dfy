/** Rings that keep the last `cap` of what was stored: a list that grows until it is
    full, then overwrites its oldest entry. */
module Rings {

  /** The last `cap` entries of a log, or all of it. */
  function Recent<T>(log: seq<T>, cap: nat): (r: seq<T>)
    ensures |r| == if |log| <= cap then |log| else cap
  {
    if |log| <= cap then log else log[|log| - cap..]
  }

  /** The ring holds the last `cap` entries of the log, the oldest at `next`. */
  ghost predicate Holds<T>(ring: seq<T>, next: nat, log: seq<T>, cap: nat) {
    && |ring| <= cap && (if |ring| < cap then next == 0 && |log| < cap else next < cap)
    && next <= |ring| && ring[next..] + ring[..next] == Recent(log, cap)
  }

  function Next(next: nat, cap: nat): nat { if next + 1 == cap then 0 else next + 1 }

  function Pushed<T>(ring: seq<T>, next: nat, x: T, cap: nat): (seq<T>, nat)
    requires next <= |ring| && (|ring| >= cap ==> next < |ring|)
  {
    if |ring| < cap then (ring + [x], next) else (ring[next := x], Next(next, cap))
  }

  lemma RecentMore<T>(log: seq<T>, x: T, cap: nat)
    requires cap > 0
    ensures |log| < cap ==> Recent(log + [x], cap) == Recent(log, cap) + [x]
    ensures |log| >= cap ==> Recent(log + [x], cap) == Recent(log, cap)[1..] + [x]
  {
  }

  lemma PushHolds<T>(ring: seq<T>, next: nat, log: seq<T>, x: T, cap: nat)
    requires cap > 0 && Holds(ring, next, log, cap)
    ensures var (after, n) := Pushed(ring, next, x, cap); Holds(after, n, log + [x], cap)
  {
    RecentMore(log, x, cap);
    if |ring| < cap {
      assert ring[0..] + ring[..0] == ring;
      assert (ring + [x])[0..] + (ring + [x])[..0] == ring + [x];
    } else {
      Overwrites(ring, next, x);
    }
  }

  /** Overwriting the oldest entry drops it and appends the new one. */
  lemma Overwrites<T>(ring: seq<T>, next: nat, x: T)
    requires next < |ring|
    ensures var n := Next(next, |ring|);
            ring[next := x][n..] + ring[next := x][..n] == (ring[next..] + ring[..next])[1..] + [x]
  {
    var after, n := ring[next := x], Next(next, |ring|);
    if n == 0 {
      assert after == ring[..next] + [x];
    } else {
      assert after[n..] == ring[n..] && after[..n] == ring[..next] + [x];
    }
  }

  /** What the ring holds is what was stored last, whatever the order. */
  lemma SameEntries<T>(ring: seq<T>, next: nat, log: seq<T>, x: T, cap: nat)
    requires Holds(ring, next, log, cap)
    ensures x in ring <==> x in Recent(log, cap)
  {
    assert ring == ring[..next] + ring[next..];
  }
}
