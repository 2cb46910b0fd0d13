/**
 * The fixed-window rate limiter of security.ts:4-45: a map from a key to the number of
 * calls counted in the current window and the time the window ends. Time is the `now`
 * the caller passes in, in milliseconds.
 */
module RateLimit {

  /** `RateLimitEntry` (security.ts:4-7). */
  datatype Entry = Entry(count: int, resetAt: int)

  function Min(a: int, b: int): int {
    if a <= b then a else b
  }

  function Max(a: int, b: int): int {
    if a >= b then a else b
  }

  /**
   * One call of `isRateLimited` (security.ts:18-33): whether the call is refused, and the
   * store afterwards. An absent or expired key opens a new window counting this call; inside
   * a window a call is refused once `count` has reached `maxRequests`, and otherwise counted.
   */
  function Step(store: map<string, Entry>, key: string, maxRequests: int, windowMs: int, now: int)
    : (bool, map<string, Entry>)
  {
    if key !in store || now > store[key].resetAt then
      (false, store[key := Entry(1, now + windowMs)])
    else if store[key].count >= maxRequests then
      (true, store)
    else
      (false, store[key := store[key].(count := store[key].count + 1)])
  }

  /** Opening a window: a call on an absent or expired key is allowed and counted as the first. */
  lemma StepOpensWindow(store: map<string, Entry>, key: string, maxRequests: int, windowMs: int, now: int)
    requires key !in store || now > store[key].resetAt
    ensures var (limited, after) := Step(store, key, maxRequests, windowMs, now);
      !limited && after == store[key := Entry(1, now + windowMs)]
  {
  }

  /**
   * Inside a window a call is refused exactly when `count >= maxRequests`; a refused call
   * changes nothing, an allowed one adds one to `count` and keeps the window's end.
   */
  lemma StepWithinWindow(store: map<string, Entry>, key: string, maxRequests: int, windowMs: int, now: int)
    requires key in store && now <= store[key].resetAt
    ensures var (limited, after) := Step(store, key, maxRequests, windowMs, now);
      && (limited <==> store[key].count >= maxRequests)
      && (limited ==> after == store)
      && (!limited ==> after == store[key := Entry(store[key].count + 1, store[key].resetAt)])
  {
  }

  /** Every stored count lies between 1 and `max(1, maxRequests)`. */
  ghost predicate CountsBounded(store: map<string, Entry>, maxRequests: int) {
    forall k :: k in store ==> 1 <= store[k].count <= Max(1, maxRequests)
  }

  /** A call never pushes a count past `max(1, maxRequests)`. */
  lemma StepKeepsCountsBounded(store: map<string, Entry>, key: string, maxRequests: int, windowMs: int, now: int)
    requires CountsBounded(store, maxRequests)
    ensures CountsBounded(Step(store, key, maxRequests, windowMs, now).1, maxRequests)
  {
  }

  /** A run of calls on one key at the times `nows`: how many were allowed, and the store afterwards. */
  function Run(store: map<string, Entry>, key: string, maxRequests: int, windowMs: int, nows: seq<int>)
    : (nat, map<string, Entry>)
    decreases |nows|
  {
    if nows == [] then (0, store)
    else
      var (limited, next) := Step(store, key, maxRequests, windowMs, nows[0]);
      var (allowed, last) := Run(next, key, maxRequests, windowMs, nows[1..]);
      (if limited then allowed else allowed + 1, last)
  }

  /**
   * Calls that all fall inside the current window are allowed until the window has
   * `maxRequests` calls and refused from then on; the window itself is kept.
   */
  lemma {:induction false} RunWithinWindow(store: map<string, Entry>, key: string, maxRequests: int,
                                           windowMs: int, nows: seq<int>)
    requires key in store
    requires forall i :: 0 <= i < |nows| ==> nows[i] <= store[key].resetAt
    ensures var (allowed, last) := Run(store, key, maxRequests, windowMs, nows);
      var room := Max(0, maxRequests - store[key].count);
      && allowed == Min(|nows|, room)
      && key in last
      && last[key] == Entry(store[key].count + allowed, store[key].resetAt)
    decreases |nows|
  {
    if nows != [] {
      var (limited, next) := Step(store, key, maxRequests, windowMs, nows[0]);
      StepWithinWindow(store, key, maxRequests, windowMs, nows[0]);
      assert key in next && next[key].resetAt == store[key].resetAt;
      assert forall i :: 0 <= i < |nows[1..]| ==> nows[1..][i] <= next[key].resetAt by {
        forall i | 0 <= i < |nows[1..]| ensures nows[1..][i] <= next[key].resetAt {
          assert nows[1..][i] == nows[i + 1];
        }
      }
      RunWithinWindow(next, key, maxRequests, windowMs, nows[1..]);
    }
  }

  /**
   * A window opened by the first of `nows` and holding all of them allows exactly
   * `min(|nows|, maxRequests)` calls when `maxRequests >= 1`.
   */
  lemma WindowAllowsMaxRequests(store: map<string, Entry>, key: string, maxRequests: int,
                                windowMs: int, nows: seq<int>)
    requires nows != [] && maxRequests >= 1
    requires key !in store || nows[0] > store[key].resetAt
    requires forall i :: 0 <= i < |nows| ==> nows[i] <= nows[0] + windowMs
    ensures Run(store, key, maxRequests, windowMs, nows).0 == Min(|nows|, maxRequests)
  {
    var next := Step(store, key, maxRequests, windowMs, nows[0]).1;
    StepOpensWindow(store, key, maxRequests, windowMs, nows[0]);
    assert forall i :: 0 <= i < |nows[1..]| ==> nows[1..][i] <= next[key].resetAt by {
      forall i | 0 <= i < |nows[1..]| ensures nows[1..][i] <= next[key].resetAt {
        assert nows[1..][i] == nows[i + 1];
      }
    }
    RunWithinWindow(next, key, maxRequests, windowMs, nows[1..]);
  }

  /** With a limit of 5 per second, five calls in the same second pass, the sixth is refused. */
  lemma FiveThenBlocked()
    ensures Run(map[], "203.0.113.7", 5, 1000, [0, 100, 200, 300, 400, 500]).0 == 5
  {
    var nows := [0, 100, 200, 300, 400, 500];
    WindowAllowsMaxRequests(map[], "203.0.113.7", 5, 1000, nows);
  }

  /** The store after `cleanupRateLimits` at time `now`: the entries whose window has not ended. */
  function Sweep(store: map<string, Entry>, now: int): map<string, Entry> {
    map k | k in store && !(now > store[k].resetAt) :: store[k]
  }

  /**
   * Cleaning up is invisible to later calls: from any time on, a call answers the same
   * whether or not the expired entries were removed first, and leaves the same entry behind.
   */
  lemma SweepIsUnobservable(store: map<string, Entry>, now: int, key: string, maxRequests: int,
                            windowMs: int, later: int)
    requires now <= later
    ensures var (l1, s1) := Step(Sweep(store, now), key, maxRequests, windowMs, later);
      var (l2, s2) := Step(store, key, maxRequests, windowMs, later);
      l1 == l2 && key in s1 && key in s2 && s1[key] == s2[key]
  {
  }

  /** The module-level `rateLimitStore` (security.ts:9) and the two functions that update it. */
  class RateLimiter {
    var store: map<string, Entry>

    constructor ()
      ensures store == map[]
    {
      store := map[];
    }

    /** `isRateLimited` (security.ts:18-33); `true` means the call is refused. */
    method IsRateLimited(key: string, maxRequests: int, windowMs: int, now: int) returns (limited: bool)
      modifies this
      ensures (limited, store) == Step(old(store), key, maxRequests, windowMs, now)
      ensures CountsBounded(old(store), maxRequests) ==> CountsBounded(store, maxRequests)
    {
      if key !in store || now > store[key].resetAt {
        store := store[key := Entry(1, now + windowMs)];
        return false;
      }
      var entry := store[key];
      if entry.count >= maxRequests {
        return true;
      }
      store := store[key := entry.(count := entry.count + 1)];
      limited := false;
    }

    /**
     * `cleanupRateLimits` (security.ts:38-45): visits every key once and deletes the entries
     * whose window has ended; every other entry is left as it was.
     */
    method CleanupRateLimits(now: int)
      modifies this
      ensures store == Sweep(old(store), now)
    {
      ghost var original := store;
      var pending := store.Keys;
      while pending != {}
        invariant pending <= original.Keys
        invariant forall k :: k in store <==> k in original && (k in pending || !(now > original[k].resetAt))
        invariant forall k :: k in store ==> store[k] == original[k]
        decreases pending
      {
        var key :| key in pending;
        if now > store[key].resetAt {
          store := store - {key};
        }
        pending := pending - {key};
      }
      assert store.Keys == Sweep(original, now).Keys;
    }
  }
}
