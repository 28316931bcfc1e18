// The fixed-window limiter of proxy/rate_limiter.py.
module RateLimiter {
  import opened Wrappers
  import opened KeyLedger

  const MINUTE: int := 60 * SECOND

  // The start of the clock minute of t.
  function WindowStart(t: Instant): Instant { t - t % MINUTE }

  // The allowed requests each user has in the current window.
  type Windows = map<string, seq<Instant>>

  function Stored(windows: Windows, u: string): seq<Instant> { if u in windows then windows[u] else [] }

  datatype Decision = Decision(allowed: bool, retryAfter: Option<int>, remaining: int)

  // The entries of a list from `start` on.
  function Since(list: seq<Instant>, start: Instant): seq<Instant> {
    if list == [] then []
    else Since(list[..|list|-1], start) + (if list[|list|-1] >= start then [list[|list|-1]] else [])
  }

  function RetryAfter(now: Instant): int {
    var seconds := (WindowStart(now) + MINUTE - now) / SECOND;
    if seconds > 1 then seconds else 1
  }

  // The stored lists and the decision after one check.
  function CheckStep(limit: nat, windows: Windows, u: string, now: Instant): (Windows, Decision) {
    var active := Since(Stored(windows, u), WindowStart(now));
    if |active| >= limit then (windows[u := active], Decision(false, Some(RetryAfter(now)), 0))
    else (windows[u := active + [now]], Decision(true, None, limit - |active| - 1))
  }

  class InMemoryRateLimiter {
    const limit: nat
    var windows: Windows

    constructor (requestsPerMinute: int)
      ensures limit == (if requestsPerMinute > 1 then requestsPerMinute else 1)
      ensures windows == map[]
    {
      limit := if requestsPerMinute > 1 then requestsPerMinute else 1;
      windows := map[];
    }

    // The purged list replaces the user's list and the new request is appended to it in place.
    method Check(u: string, now: Instant) returns (d: Decision)
      modifies this
      ensures (windows, d) == CheckStep(limit, old(windows), u, now)
      ensures forall v | v != u :: Stored(windows, v) == Stored(old(windows), v)
      ensures d.allowed <==> |Since(Stored(old(windows), u), WindowStart(now))| < limit
      ensures d.allowed ==> Stored(windows, u) == Since(Stored(old(windows), u), WindowStart(now)) + [now]
      ensures d.allowed ==> d.retryAfter == None && d.remaining == limit - |Stored(windows, u)|
      ensures !d.allowed ==> Stored(windows, u) == Since(Stored(old(windows), u), WindowStart(now))
      ensures !d.allowed ==> d.retryAfter == Some(RetryAfter(now)) && d.remaining == 0
    {
      var windowStart := now - now % MINUTE;
      var windowEnd := windowStart + MINUTE;
      var active: seq<Instant> := [];
      var list := if u in windows then windows[u] else [];
      for i := 0 to |list|
        invariant active == Since(list[..i], windowStart)
      {
        assert list[..i+1][..i] == list[..i];
        if list[i] >= windowStart { active := active + [list[i]]; } else { assert active + [] == active; }
      }
      assert list[..|list|] == list;
      windows := windows[u := active];
      if |active| >= limit {
        var seconds := (windowEnd - now) / SECOND;
        return Decision(false, Some(if seconds > 1 then seconds else 1), 0);
      }
      windows := windows[u := windows[u] + [now]];
      assert windows == old(windows)[u := active + [now]];
      d := Decision(true, None, limit - |windows[u]|);
    }
  }
}
