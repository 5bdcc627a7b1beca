/**
 * The sliding-window rate limiter: per client address, the times of the
 * requests it let through. A request is let through when fewer than `limit`
 * of the client's earlier requests lie within `window` of it; the periodic
 * cleanup forgets clients with no request inside the window.
 */
module RateLimiting {
  import opened Models
  import opened DocumentQuery

  /** A request at `t` still counts at `now`. */
  function InWindow(now: Time, window: Duration): Time -> bool
  {
    t => now - t <= window
  }

  /** The requests of `requests` that still count at `now`, in their original order. */
  function Recent(requests: seq<Time>, now: Time, window: Duration): seq<Time>
  {
    Select(requests, InWindow(now, window))
  }

  /** Pruning keeps exactly the requests within the window, each as often as it occurred. */
  lemma RecentExactly(requests: seq<Time>, now: Time, window: Duration, t: Time)
    ensures multiset(Recent(requests, now, window))[t] ==
              if now - t <= window then multiset(requests)[t] else 0
    ensures t in Recent(requests, now, window) <==> t in requests && now - t <= window
  {
    SelectCount(requests, InWindow(now, window), t);
  }

  /** Pruning twice at the same instant prunes nothing more. */
  lemma {:induction false} RecentIdempotent(requests: seq<Time>, now: Time, window: Duration)
    ensures Recent(Recent(requests, now, window), now, window) == Recent(requests, now, window)
  {
    if requests != [] {
      RecentIdempotent(requests[1..], now, window);
      var rest := Recent(requests[1..], now, window);
      if now - requests[0] <= window {
        assert Recent(requests, now, window) == [requests[0]] + rest;
        assert ([requests[0]] + rest)[1..] == rest;
      }
    }
  }

  class RateLimiter {
    var clients: map<string, seq<Time>>
    const limit: int
    const window: Duration

    /** No client has more requests on record than the limit allows. */
    ghost predicate Valid()
      reads this
    {
      forall ip :: ip in clients ==> |clients[ip]| <= (if limit > 0 then limit else 0)
    }

    constructor(limit: int, window: Duration)
      ensures Valid()
      ensures clients == map[] && this.limit == limit && this.window == window
    {
      clients := map[];
      this.limit := limit;
      this.window := window;
    }

    /** The pruning loop of `Allow`: the requests that still count at `now`. */
    method PruneRequests(requests: seq<Time>, now: Time) returns (kept: seq<Time>)
      ensures kept == Recent(requests, now, window)
    {
      kept := [];
      for i := 0 to |requests|
        invariant kept == Recent(requests[..i], now, window)
      {
        assert requests[..i + 1] == requests[..i] + [requests[i]];
        SelectAppend(requests[..i], requests[i], InWindow(now, window));
        if now - requests[i] <= window {
          kept := kept + [requests[i]];
        }
      }
      assert requests[..|requests|] == requests;
    }

    /**
     * `Allow(clientIP)`: a new client starts with no requests; the client's
     * record is pruned, and the request is let through and recorded only
     * when fewer than `limit` requests remain. Other clients are untouched.
     */
    method Allow(clientIP: string, now: Time) returns (allowed: bool)
      requires Valid()
      modifies this
      ensures Valid()
      ensures var kept := Recent(if clientIP in old(clients) then old(clients)[clientIP] else [], now, window);
              && allowed == (|kept| < limit)
              && clients == old(clients)[clientIP := if allowed then kept + [now] else kept]
    {
      var requests := if clientIP in clients then clients[clientIP] else [];
      var kept := PruneRequests(requests, now);
      clients := clients[clientIP := kept];
      if |kept| >= limit {
        return false;
      }
      clients := clients[clientIP := kept + [now]];
      return true;
    }

    /** The inner loop of `cleanup`: whether any request still counts at `now`, stopping at the first. */
    method HasRecentRequests(requests: seq<Time>, now: Time) returns (recent: bool)
      ensures recent <==> exists i :: 0 <= i < |requests| && now - requests[i] <= window
    {
      recent := false;
      var i := 0;
      while i < |requests|
        invariant 0 <= i <= |requests|
        invariant forall k :: 0 <= k < i ==> now - requests[k] > window
      {
        if now - requests[i] <= window {
          recent := true;
          break;
        }
        i := i + 1;
      }
    }

    /**
     * `cleanup`: forget every client with no request inside the window at
     * `now`; the others keep their records as they are.
     */
    method Cleanup(now: Time)
      requires Valid()
      modifies this
      ensures Valid()
      ensures clients == map ip | ip in old(clients) && Recent(old(clients)[ip], now, window) != []
                               :: old(clients)[ip]
    {
      var remaining := clients.Keys;
      while remaining != {}
        invariant remaining <= old(clients).Keys
        invariant clients == map ip | ip in old(clients) &&
                                      (ip in remaining || Recent(old(clients)[ip], now, window) != [])
                                   :: old(clients)[ip]
        decreases |remaining|
      {
        var ip :| ip in remaining;
        var recent := HasRecentRequests(clients[ip], now);
        RecentEmpty(clients[ip], now, window);
        if !recent {
          clients := map k | k in clients && k != ip :: clients[k];
        }
        remaining := remaining - {ip};
      }
    }
  }

  /** A record has a request in the window exactly when pruning leaves something. */
  lemma RecentEmpty(requests: seq<Time>, now: Time, window: Duration)
    ensures Recent(requests, now, window) != [] <==>
              exists i :: 0 <= i < |requests| && now - requests[i] <= window
  {
    if exists i :: 0 <= i < |requests| && now - requests[i] <= window {
      var i :| 0 <= i < |requests| && now - requests[i] <= window;
      RecentExactly(requests, now, window, requests[i]);
    }
    if Recent(requests, now, window) != [] {
      var t := Recent(requests, now, window)[0];
      RecentExactly(requests, now, window, t);
    }
  }
}
