/** The fixed-window rate limiter in front of the API
    (middleware/rate_limit.rs): one counter per client address in the
    store, incremented on every request, given an expiry when it is created,
    and compared with the allowance. Whether the store answers, and whether
    setting the expiry succeeds, are parameters; the passing of the window is
    the `EndWindow` method. */
module RateLimit {
  import opened Wrappers

  /** The largest count the middleware can read back (it reads an `i32`). */
  const I32Max: int := 0x7FFF_FFFF

  /** The store key of a client: its address, or "unknown" when the
      connection has none. */
  function ClientKey(ip: Option<string>): (key: string)
    ensures ip.Some? ==> key == "rate_limit:" + ip.value
    ensures ip.None? ==> key == "rate_limit:unknown"
  {
    "rate_limit:" + ip.GetOr("unknown")
  }

  /** Distinct addresses have distinct counters; every client without an
      address shares the counter of the address "unknown". */
  lemma ClientKeysSeparate(a: Option<string>, b: Option<string>)
    ensures a.Some? && b.Some? ==> (ClientKey(a) == ClientKey(b) <==> a == b)
    ensures ClientKey(None) == ClientKey(Some("unknown"))
  {
    if a.Some? && b.Some? && ClientKey(a) == ClientKey(b) {
      var p := "rate_limit:";
      assert ClientKey(a)[|p|..] == a.value;
      assert ClientKey(b)[|p|..] == b.value;
    }
  }

  datatype Outcome = Forwarded | TooManyRequests(message: string)

  /** Whether the request that brings a counter to `count` gets through:
      when the count is beyond what an `i32` holds, reading it fails and the
      request is let through as on any store error; otherwise it gets
      through when the count is within the allowance. */
  predicate PassesAt(count: int, maxRequests: nat) {
    count > I32Max || count <= maxRequests
  }

  /** How many of the requests counted 1 to `count` got through. */
  function Passed(count: nat, maxRequests: nat): (n: nat)
    ensures n <= count
  {
    if count == 0 then 0
    else Passed(count - 1, maxRequests) + (if PassesAt(count, maxRequests) then 1 else 0)
  }

  /** Within the range of an `i32`, exactly the first `maxRequests` requests
      of a window get through. */
  lemma {:induction false} PassedWithinWindow(count: nat, maxRequests: nat)
    requires count <= I32Max
    ensures Passed(count, maxRequests) == if count <= maxRequests then count else maxRequests
  {
    if count > 0 {
      PassedWithinWindow(count - 1, maxRequests);
    }
  }

  class RateLimiter {
    const maxRequests: nat
    const windowSecs: nat
    /** The counters in the store, by key. */
    var counters: map<string, int>
    /** The counters whose expiry has been set. */
    var expiring: set<string>
    /** How many requests each counter has let through in its window. */
    ghost var passed: map<string, nat>

    ghost predicate Valid()
      reads this
    {
      expiring <= counters.Keys
      && passed.Keys == counters.Keys
      && forall k :: k in counters ==> counters[k] >= 1 && passed[k] == Passed(counters[k], maxRequests)
    }

    constructor (maxRequests: nat, windowSecs: nat)
      ensures Valid()
      ensures this.maxRequests == maxRequests && this.windowSecs == windowSecs
      ensures counters == map[] && expiring == {}
    {
      this.maxRequests := maxRequests;
      this.windowSecs := windowSecs;
      counters := map[];
      expiring := {};
      passed := map[];
    }

    /** The middleware's handling of one request. When the store is down the
        request is let through and nothing is counted. Otherwise the
        client's counter goes up by exactly one, gets its expiry when it has
        just been created (if setting it succeeds), and the request is
        refused exactly when the new count, read as an `i32`, exceeds the
        allowance. */
    method Call(ip: Option<string>, storeUp: bool, expireOk: bool) returns (outcome: Outcome)
      requires Valid()
      modifies this
      ensures Valid()
      ensures !storeUp ==>
        outcome == Forwarded && counters == old(counters) && expiring == old(expiring) && passed == old(passed)
      ensures storeUp ==>
        var key := ClientKey(ip);
        var count := (if key in old(counters) then old(counters)[key] else 0) + 1;
        counters == old(counters)[key := count]
        && expiring == (if count == 1 && expireOk then old(expiring) + {key} else old(expiring))
        && (outcome == Forwarded <==> PassesAt(count, maxRequests))
        && (outcome.TooManyRequests? ==> outcome.message == "Rate limit exceeded")
    {
      if !storeUp {
        return Forwarded;
      }
      var key := ClientKey(ip);
      var count := (if key in counters then counters[key] else 0) + 1;
      counters := counters[key := count];
      passed := passed[key := Passed(count, maxRequests)];
      if count > I32Max {
        return Forwarded;
      }
      if count == 1 && expireOk {
        expiring := expiring + {key};
      }
      if count > maxRequests {
        return TooManyRequests("Rate limit exceeded");
      }
      outcome := Forwarded;
    }

    /** The expiry of a counter: its window ends and the count starts over.
        A counter whose expiry was never set does not expire. */
    method EndWindow(key: string)
      requires Valid() && key in expiring
      modifies this
      ensures Valid()
      ensures counters == old(counters) - {key} && expiring == old(expiring) - {key}
    {
      counters := counters - {key};
      expiring := expiring - {key};
      passed := passed - {key};
    }

    /** At most `maxRequests` requests of a client get through in one
        window, as long as the count fits an `i32`. */
    lemma AtMostMaxPerWindow(key: string)
      requires Valid() && key in counters && counters[key] <= I32Max
      ensures passed[key] <= maxRequests
      ensures passed[key] == if counters[key] <= maxRequests then counters[key] else maxRequests
    {
      PassedWithinWindow(counters[key], maxRequests);
    }
  }
}
