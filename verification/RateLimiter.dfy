/** The limiter object; Allow is its critical section. */
module RateLimiter {
  import opened Basics
  import opened RateLimiterSpec

  lemma PruneStep(slots: seq<int>, start: int)
    requires slots != [] && slots[0] < start
    ensures Prune(slots, start) == Prune(slots[1..], start)
  {
  }

  class RateLimiter {
    var hits: Hits
    const n: int
    const window: int

    constructor (n: int, window: int)
      ensures this.n == n && this.window == window && hits == map[]
    {
      this.n, this.window, hits := n, window, map[];
    }

    method Allow(ip: Id, now: int) returns (ok: bool)
      modifies this
      ensures (hits, ok) == Request(old(hits), n, window, ip, now)
    {
      var windowStart := now - window;
      var slots: seq<int> := [];
      if ip in hits {
        slots := hits[ip];
      }
      var cut := 0;
      while cut < |slots| && slots[cut] < windowStart
        invariant 0 <= cut <= |slots| && hits == old(hits)
        invariant Prune(slots, windowStart) == Prune(slots[cut..], windowStart)
      {
        PruneStep(slots[cut..], windowStart);
        assert slots[cut..][1..] == slots[cut + 1..];
        cut := cut + 1;
      }
      assert Prune(slots, windowStart) == slots[cut..];
      slots := slots[cut..];
      if |slots| >= n {
        return false;
      }
      slots := slots + [now];
      hits := hits[ip := slots];
      if |hits| > MAX_IPS {
        hits := map[];
        hits := hits[ip := slots];
      }
      return true;
    }
  }
}
