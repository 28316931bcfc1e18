// Whole runs of the limiter under one clock that never goes back, against the log of what was allowed.
module RateLimitRuns {
  import opened Wrappers
  import opened KeyLedger
  import opened RateLimiter

  datatype Request = Request(user: string, now: Instant)

  predicate Ordered(reqs: seq<Request>) { forall i, j | 0 <= i < j < |reqs| :: reqs[i].now <= reqs[j].now }

  // The stored lists after a run, and the requests allowed in it.
  function After(limit: nat, reqs: seq<Request>): Windows {
    if reqs == [] then map[]
    else var r := reqs[|reqs|-1]; CheckStep(limit, After(limit, reqs[..|reqs|-1]), r.user, r.now).0
  }

  // The decision on r after a run.
  function Decide(limit: nat, reqs: seq<Request>, r: Request): Decision {
    CheckStep(limit, After(limit, reqs), r.user, r.now).1
  }

  function Log(limit: nat, reqs: seq<Request>): seq<Request> {
    if reqs == [] then []
    else
      var earlier, r := reqs[..|reqs|-1], reqs[|reqs|-1];
      Log(limit, earlier) + (if Decide(limit, earlier, r).allowed then [r] else [])
  }

  // How many requests of u a log holds in the interval [from, to).
  function CountIn(log: seq<Request>, u: string, from: Instant, to: Instant): nat {
    if log == [] then 0
    else
      var r := log[|log|-1];
      CountIn(log[..|log|-1], u, from, to) + (if r.user == u && from <= r.now < to then 1 else 0)
  }

  function CountInMinute(log: seq<Request>, u: string, start: Instant): nat { CountIn(log, u, start, start + MINUTE) }

  // --- Reading a run from its end ---------------------------------------------

  lemma AfterSnoc(limit: nat, reqs: seq<Request>, r: Request)
    ensures After(limit, reqs + [r]) == CheckStep(limit, After(limit, reqs), r.user, r.now).0
  {
    assert (reqs + [r])[..|reqs + [r]|-1] == reqs;
  }

  lemma LogSnoc(limit: nat, reqs: seq<Request>, r: Request)
    ensures Log(limit, reqs + [r]) == Log(limit, reqs) + (if Decide(limit, reqs, r).allowed then [r] else [])
  {
    assert (reqs + [r])[..|reqs + [r]|-1] == reqs;
  }

  lemma CountSnoc(log: seq<Request>, r: Request, u: string, from: Instant, to: Instant)
    ensures CountIn(log + [r], u, from, to) ==
            CountIn(log, u, from, to) + (if r.user == u && from <= r.now < to then 1 else 0)
  {
    assert (log + [r])[..|log + [r]|-1] == log;
  }

  // A log with at most one more request.
  lemma CountMaybe(log: seq<Request>, r: Request, more: bool, u: string, from: Instant, to: Instant)
    ensures CountIn(log + (if more then [r] else []), u, from, to) ==
            CountIn(log, u, from, to) + (if more && r.user == u && from <= r.now < to then 1 else 0)
  {
    if more { CountSnoc(log, r, u, from, to); } else { assert log + [] == log; }
  }

  lemma LogCount(limit: nat, reqs: seq<Request>, r: Request, u: string, from: Instant, to: Instant)
    ensures CountIn(Log(limit, reqs + [r]), u, from, to) ==
            CountIn(Log(limit, reqs), u, from, to) +
            (if Decide(limit, reqs, r).allowed && r.user == u && from <= r.now < to then 1 else 0)
  {
    LogSnoc(limit, reqs, r);
    CountMaybe(Log(limit, reqs), r, Decide(limit, reqs, r).allowed, u, from, to);
  }

  lemma OrderedPrefix(reqs: seq<Request>, r: Request)
    requires Ordered(reqs + [r])
    ensures Ordered(reqs)
    ensures forall i | 0 <= i < |reqs| :: reqs[i].now <= r.now
  {
    var all := reqs + [r];
    forall i | 0 <= i < |reqs| ensures all[i] == reqs[i] && reqs[i].now <= r.now {
      assert all[i].now <= all[|reqs|].now;
    }
  }

  // --- Clock minutes ----------------------------------------------------------

  predicate IsWindowStart(t: Instant) { t % 60_000_000 == 0 }

  lemma Window(now: Instant)
    ensures IsWindowStart(WindowStart(now))
    ensures WindowStart(now) <= now < WindowStart(now) + MINUTE == WindowStart(now) + 60_000_000
    ensures IsWindowStart(WindowStart(now) + MINUTE)
  {
    assert now == (now / MINUTE) * MINUTE + now % MINUTE;
    assert WindowStart(now) == (now / MINUTE) * MINUTE;
  }

  // Two window starts are equal or a minute apart.
  lemma WindowsApart(a: Instant, b: Instant)
    requires IsWindowStart(a) && IsWindowStart(b) && a < b
    ensures a + MINUTE <= b
  {
    assert a == (a / MINUTE) * MINUTE && b == (b / MINUTE) * MINUTE;
  }

  lemma SameMinute(start: Instant, now: Instant)
    requires IsWindowStart(start) && start <= now < start + MINUTE
    ensures WindowStart(now) == start
  {
    Window(now);
    if WindowStart(now) < start { WindowsApart(WindowStart(now), start); }
    if start < WindowStart(now) { WindowsApart(start, WindowStart(now)); }
  }

  lemma WindowStartMonotone(a: Instant, b: Instant)
    requires a <= b
    ensures WindowStart(a) <= WindowStart(b)
  {
    Window(a);
    Window(b);
    if WindowStart(b) < WindowStart(a) { WindowsApart(WindowStart(b), WindowStart(a)); }
  }

  // --- The invariant ----------------------------------------------------------

  // A user's list holds as many entries from a window start on as the log holds in that minute.
  ghost predicate Agrees(limit: nat, reqs: seq<Request>, u: string, start: Instant) {
    CountInMinute(Log(limit, reqs), u, start) == |Since(Stored(After(limit, reqs), u), start)|
  }

  // No more entries than the limit, none later than `now`, and agreement with the log from the minute of `now` on.
  ghost predicate Tracks(limit: nat, reqs: seq<Request>, u: string, now: Instant) {
    && |Stored(After(limit, reqs), u)| <= limit
    && (forall i | 0 <= i < |Stored(After(limit, reqs), u)| :: Stored(After(limit, reqs), u)[i] <= now)
    && forall start | IsWindowStart(start) && start >= WindowStart(now) :: Agrees(limit, reqs, u, start)
  }

  lemma {:induction false} SinceBounds(list: seq<Instant>, start: Instant)
    ensures |Since(list, start)| <= |list|
    ensures forall i | 0 <= i < |Since(list, start)| :: Since(list, start)[i] in list
  {
    if list != [] { SinceBounds(list[..|list|-1], start); }
  }

  lemma SinceSnoc(list: seq<Instant>, t: Instant, start: Instant)
    ensures Since(list + [t], start) == Since(list, start) + (if t >= start then [t] else [])
  {
    assert (list + [t])[..|list + [t]|-1] == list;
  }

  lemma {:induction false} SinceTwice(list: seq<Instant>, start: Instant, later: Instant)
    requires start <= later
    ensures Since(Since(list, start), later) == Since(list, later)
  {
    if list != [] {
      var front, t := Since(list[..|list|-1], start), list[|list|-1];
      SinceTwice(list[..|list|-1], start, later);
      SinceSnoc(front, t, later);
      assert front + [] == front;
    }
  }

  // The list a check leaves, seen from its own minute start or a later one.
  lemma CheckedSince(limit: nat, windows: Windows, u: string, now: Instant, start: Instant)
    requires WindowStart(now) <= start
    ensures Since(Stored(CheckStep(limit, windows, u, now).0, u), start) ==
            Since(Stored(windows, u), start)
            + (if CheckStep(limit, windows, u, now).1.allowed && now >= start then [now] else [])
  {
    var list := Stored(windows, u);
    SinceTwice(list, WindowStart(now), start);
    SinceSnoc(Since(list, WindowStart(now)), now, start);
    assert Since(list, start) + [] == Since(list, start);
  }

  lemma CheckedCount(limit: nat, windows: Windows, u: string, now: Instant, start: Instant)
    requires WindowStart(now) <= start
    ensures |Since(Stored(CheckStep(limit, windows, u, now).0, u), start)| ==
            |Since(Stored(windows, u), start)|
            + (if CheckStep(limit, windows, u, now).1.allowed && now >= start then 1 else 0)
  {
    CheckedSince(limit, windows, u, now, start);
  }

  lemma CheckedOther(limit: nat, windows: Windows, u: string, now: Instant, v: string)
    requires u != v
    ensures Stored(CheckStep(limit, windows, u, now).0, v) == Stored(windows, v)
  {
  }

  lemma CheckedAny(limit: nat, windows: Windows, u: string, now: Instant, v: string, start: Instant)
    requires WindowStart(now) <= start
    ensures |Since(Stored(CheckStep(limit, windows, u, now).0, v), start)| ==
            |Since(Stored(windows, v), start)|
            + (if CheckStep(limit, windows, u, now).1.allowed && u == v && now >= start then 1 else 0)
  {
    if u == v { CheckedCount(limit, windows, u, now, start); } else { CheckedOther(limit, windows, u, now, v); }
  }

  lemma StepCounts(limit: nat, reqs: seq<Request>, r: Request, u: string, start: Instant)
    requires WindowStart(r.now) <= start
    ensures |Since(Stored(After(limit, reqs + [r]), u), start)| ==
            |Since(Stored(After(limit, reqs), u), start)|
            + (if Decide(limit, reqs, r).allowed && r.user == u && start <= r.now < start + MINUTE then 1 else 0)
  {
    AfterSnoc(limit, reqs, r);
    Window(r.now);
    CheckedAny(limit, After(limit, reqs), r.user, r.now, u, start);
  }

  lemma StepAgrees(limit: nat, reqs: seq<Request>, r: Request, u: string, start: Instant)
    requires Agrees(limit, reqs, u, start) && WindowStart(r.now) <= start
    ensures Agrees(limit, reqs + [r], u, start)
  {
    LogCount(limit, reqs, r, u, start, start + MINUTE);
    StepCounts(limit, reqs, r, u, start);
  }

  lemma CheckBounds(limit: nat, windows: Windows, u: string, now: Instant)
    requires |Stored(windows, u)| <= limit && forall i | 0 <= i < |Stored(windows, u)| :: Stored(windows, u)[i] <= now
    ensures var after := Stored(CheckStep(limit, windows, u, now).0, u);
      |after| <= limit && forall i | 0 <= i < |after| :: after[i] <= now
  {
    SinceBounds(Stored(windows, u), WindowStart(now));
  }

  lemma StepBounds(limit: nat, reqs: seq<Request>, r: Request, u: string)
    requires Tracks(limit, reqs, u, r.now)
    ensures |Stored(After(limit, reqs + [r]), u)| <= limit
    ensures forall i | 0 <= i < |Stored(After(limit, reqs + [r]), u)| :: Stored(After(limit, reqs + [r]), u)[i] <= r.now
  {
    AfterSnoc(limit, reqs, r);
    if r.user == u {
      CheckBounds(limit, After(limit, reqs), u, r.now);
    }
  }

  lemma StepTracks(limit: nat, reqs: seq<Request>, r: Request, u: string)
    requires Tracks(limit, reqs, u, r.now)
    ensures Tracks(limit, reqs + [r], u, r.now)
  {
    StepBounds(limit, reqs, r, u);
    forall start | IsWindowStart(start) && start >= WindowStart(r.now) ensures Agrees(limit, reqs + [r], u, start) {
      StepAgrees(limit, reqs, r, u, start);
    }
  }

  lemma {:induction false} RunTracks(limit: nat, reqs: seq<Request>, u: string, now: Instant)
    requires Ordered(reqs) && forall i | 0 <= i < |reqs| :: reqs[i].now <= now
    ensures Tracks(limit, reqs, u, now)
  {
    if reqs != [] {
      var earlier, r := reqs[..|reqs|-1], reqs[|reqs|-1];
      assert earlier + [r] == reqs;
      OrderedPrefix(earlier, r);
      RunTracks(limit, earlier, u, r.now);
      StepTracks(limit, earlier, r, u);
      WindowStartMonotone(r.now, now);
    }
  }

  // --- Main results -----------------------------------------------------------

  // A request is allowed exactly when fewer than the limit of that user's requests were allowed in its clock minute.
  lemma RefinesHistoryCount(limit: nat, reqs: seq<Request>, r: Request)
    requires Ordered(reqs + [r])
    ensures Decide(limit, reqs, r).allowed <==> CountInMinute(Log(limit, reqs), r.user, WindowStart(r.now)) < limit
  {
    OrderedPrefix(reqs, r);
    RunTracks(limit, reqs, r.user, r.now);
    Window(r.now);
    assert Agrees(limit, reqs, r.user, WindowStart(r.now));
  }

  // No user is ever stored more than the limit, nor allowed more than the limit in a clock minute.
  lemma {:induction false} AtMostLimitPerMinute(limit: nat, reqs: seq<Request>, u: string, start: Instant)
    requires Ordered(reqs) && IsWindowStart(start)
    ensures CountInMinute(Log(limit, reqs), u, start) <= limit
    ensures |Stored(After(limit, reqs), u)| <= limit
  {
    if reqs != [] {
      var earlier, r := reqs[..|reqs|-1], reqs[|reqs|-1];
      assert reqs == earlier + [r];
      OrderedPrefix(earlier, r);
      AtMostLimitPerMinute(limit, earlier, u, start);
      RunTracks(limit, reqs, u, r.now);
      OneMoreIsWithin(limit, earlier, r, u, start);
    }
  }

  lemma OneMoreIsWithin(limit: nat, earlier: seq<Request>, r: Request, u: string, start: Instant)
    requires Ordered(earlier + [r]) && IsWindowStart(start)
    requires CountInMinute(Log(limit, earlier), u, start) <= limit
    ensures CountInMinute(Log(limit, earlier + [r]), u, start) <= limit
  {
    var log, more := Log(limit, earlier), Decide(limit, earlier, r).allowed;
    if start <= r.now < start + MINUTE {
      RefinesHistoryCount(limit, earlier, r);
      SameMinute(start, r.now);
    }
    MaybeWithin(log, r, more, u, start, limit);
    LogSnoc(limit, earlier, r);
  }

  lemma MaybeWithin(log: seq<Request>, r: Request, more: bool, u: string, start: Instant, limit: nat)
    requires CountInMinute(log, u, start) <= limit
    requires more && r.user == u && start <= r.now < start + MINUTE ==> CountInMinute(log, u, start) < limit
    ensures CountInMinute(log + (if more then [r] else []), u, start) <= limit
  {
    CountMaybe(log, r, more, u, start, start + MINUTE);
  }

  lemma {:induction false} CountSplits(log: seq<Request>, u: string, from: Instant, to: Instant, start: Instant)
    requires start <= from <= to <= start + 2 * MINUTE
    ensures CountIn(log, u, from, to) <= CountInMinute(log, u, start) + CountInMinute(log, u, start + MINUTE)
  {
    if log != [] { CountSplits(log[..|log|-1], u, from, to, start); }
  }

  // Any interval of sixty seconds, closed at the start and open at the end, holds at most twice the limit.
  lemma AtMostTwiceInSixtySeconds(limit: nat, reqs: seq<Request>, u: string, from: Instant)
    requires Ordered(reqs)
    ensures CountIn(Log(limit, reqs), u, from, from + MINUTE) <= 2 * limit
  {
    var start := WindowStart(from);
    Window(from);
    CountSplits(Log(limit, reqs), u, from, from + MINUTE, start);
    AtMostLimitPerMinute(limit, reqs, u, start);
    AtMostLimitPerMinute(limit, reqs, u, start + MINUTE);
  }

  // --- Positions of one run ---------------------------------------------------

  // The decision on the i-th request of a run.
  function DecisionAt(limit: nat, reqs: seq<Request>, i: nat): Decision
    requires i < |reqs|
  {
    Decide(limit, reqs[..i], reqs[i])
  }

  lemma OrderedTake(reqs: seq<Request>, i: nat)
    requires Ordered(reqs) && i < |reqs|
    ensures reqs[..i+1] == reqs[..i] + [reqs[i]]
    ensures Ordered(reqs[..i+1])
  {
  }

  lemma DecisionAtCounts(limit: nat, reqs: seq<Request>, i: nat)
    requires Ordered(reqs) && i < |reqs|
    ensures DecisionAt(limit, reqs, i).allowed <==>
            CountInMinute(Log(limit, reqs[..i]), reqs[i].user, WindowStart(reqs[i].now)) < limit
  {
    OrderedTake(reqs, i);
    RefinesHistoryCount(limit, reqs[..i], reqs[i]);
  }

  lemma CountAt(limit: nat, reqs: seq<Request>, i: nat, u: string, from: Instant, to: Instant)
    requires i < |reqs|
    ensures CountIn(Log(limit, reqs[..i+1]), u, from, to) ==
            CountIn(Log(limit, reqs[..i]), u, from, to) +
            (if DecisionAt(limit, reqs, i).allowed && reqs[i].user == u && from <= reqs[i].now < to then 1 else 0)
  {
    assert reqs[..i+1] == reqs[..i] + [reqs[i]];
    LogCount(limit, reqs[..i], reqs[i], u, from, to);
  }

  // --- Twice the limit is reached ---------------------------------------------

  // The requests of a run up to i that were allowed to u in the minute starting at `start`.
  function Used(limit: nat, reqs: seq<Request>, i: nat, u: string, start: Instant): nat
    requires i <= |reqs|
  {
    CountInMinute(Log(limit, reqs[..i]), u, start)
  }

  lemma CopyAllowed(limit: nat, earlier: seq<Request>, r: Request, from: Instant)
    requires Decide(limit, earlier, r).allowed && from <= r.now < from + MINUTE
    ensures CountInMinute(Log(limit, earlier + [r]), r.user, from) ==
            CountInMinute(Log(limit, earlier), r.user, from) + 1
  {
    LogCount(limit, earlier, r, r.user, from, from + MINUTE);
  }

  lemma NextIsAllowed(limit: nat, reqs: seq<Request>, i: nat, from: Instant)
    requires Ordered(reqs) && i < |reqs| && from <= reqs[i].now < from + MINUTE
    requires Used(limit, reqs, i, reqs[i].user, WindowStart(reqs[i].now)) < limit
    ensures Used(limit, reqs, i + 1, reqs[i].user, from) == Used(limit, reqs, i, reqs[i].user, from) + 1
  {
    OrderedTake(reqs, i);
    DecisionAtCounts(limit, reqs, i);
    CopyAllowed(limit, reqs[..i], reqs[i], from);
  }

  // Requests i to j of a run are copies of one; up to the limit of them are allowed in a minute with nothing else.
  lemma {:induction false} CopiesAllowed(limit: nat, reqs: seq<Request>, i: nat, j: nat, r: Request, from: Instant)
    requires Ordered(reqs) && i <= j <= |reqs| && j - i <= limit
    requires forall k | i <= k < j :: reqs[k] == r
    requires Used(limit, reqs, i, r.user, WindowStart(r.now)) == 0
    requires from <= r.now < from + MINUTE
    ensures Used(limit, reqs, j, r.user, from) == Used(limit, reqs, i, r.user, from) + (j - i)
  {
    if i < j {
      Window(r.now);
      CopiesAllowed(limit, reqs, i, j - 1, r, from);
      CopiesAllowed(limit, reqs, i, j - 1, r, WindowStart(r.now));
      NextIsAllowed(limit, reqs, j - 1, from);
    }
  }

  function Burst(limit: nat, u: string): (reqs: seq<Request>)
    ensures |reqs| == 2 * limit
    ensures forall k | 0 <= k < 2 * limit :: reqs[k] == Request(u, if k < limit then MINUTE - 1 else MINUTE)
    ensures Ordered(reqs)
  {
    seq(2 * limit, k => Request(u, if k < limit then MINUTE - 1 else MINUTE))
  }

  // The bound is tight: the limit at the last microsecond of one minute and again at the first of the next.
  lemma TwiceIsReached(limit: nat, u: string)
    requires limit > 0
    ensures CountIn(Log(limit, Burst(limit, u)), u, MINUTE - 1, MINUTE - 1 + MINUTE) == 2 * limit
  {
    var reqs, from := Burst(limit, u), MINUTE - 1;
    assert reqs[..0] == [] && reqs[..2*limit] == reqs;
    assert Log(limit, []) == [];
    CopiesAllowed(limit, reqs, 0, limit, reqs[0], from);
    NothingAhead(limit, reqs[..limit], u, MINUTE, MINUTE + MINUTE);
    CopiesAllowed(limit, reqs, limit, 2 * limit, reqs[limit], from);
  }

  // --- Retry-After ------------------------------------------------------------

  // The number of seconds is between one and sixty: the whole seconds to the end of the window, or one.
  lemma RetryBounds(now: Instant)
    ensures 1 <= RetryAfter(now) <= 60
    ensures var left := WindowStart(now) + MINUTE - now;
      if left < 1_000_000 then RetryAfter(now) == 1
      else RetryAfter(now) * 1_000_000 <= left < (RetryAfter(now) + 1) * 1_000_000
    ensures WindowStart(now) + MINUTE - now < (RetryAfter(now) + 1) * SECOND
    ensures now + RetryAfter(now) * SECOND >= WindowStart(now) + MINUTE <==>
            (WindowStart(now) + MINUTE - now) % SECOND == 0 || WindowStart(now) + MINUTE - now < SECOND
  {
    Window(now);
    var left := WindowStart(now) + MINUTE - now;
    assert left == (left / SECOND) * SECOND + left % SECOND;
  }

  lemma {:induction false} SilentRun(limit: nat, reqs: seq<Request>, i: nat, j: nat, u: string, from: Instant,
                                     to: Instant)
    requires i <= j <= |reqs| && forall k | i <= k < j :: reqs[k].user != u
    ensures CountIn(Log(limit, reqs[..j]), u, from, to) == CountIn(Log(limit, reqs[..i]), u, from, to)
  {
    if i < j {
      SilentRun(limit, reqs, i, j - 1, u, from, to);
      CountAt(limit, reqs, j - 1, u, from, to);
    }
  }

  lemma {:induction false} NothingAhead(limit: nat, reqs: seq<Request>, u: string, from: Instant, to: Instant)
    requires forall i | 0 <= i < |reqs| :: reqs[i].now < from
    ensures CountIn(Log(limit, reqs), u, from, to) == 0
  {
    if reqs != [] {
      var earlier, r := reqs[..|reqs|-1], reqs[|reqs|-1];
      NothingAhead(limit, earlier, u, from, to);
      assert earlier + [r] == reqs;
      LogCount(limit, earlier, r, u, from, to);
    }
  }

  // Request j is the same user's next one after request i.
  predicate IsNext(reqs: seq<Request>, i: nat, j: nat) {
    && i < j < |reqs|
    && reqs[j].user == reqs[i].user
    && forall k | i < k < j :: reqs[k].user != reqs[i].user
  }

  lemma UsedAcross(limit: nat, reqs: seq<Request>, i: nat, j: nat, start: Instant)
    requires IsNext(reqs, i, j) && !DecisionAt(limit, reqs, i).allowed
    ensures Used(limit, reqs, j, reqs[i].user, start) == Used(limit, reqs, i, reqs[i].user, start)
  {
    CountAt(limit, reqs, i, reqs[i].user, start, start + MINUTE);
    SilentRun(limit, reqs, i + 1, j, reqs[i].user, start, start + MINUTE);
  }

  lemma UsedNothing(limit: nat, reqs: seq<Request>, i: nat, u: string, start: Instant)
    requires Ordered(reqs) && i < |reqs| && reqs[i].now < start
    ensures Used(limit, reqs, i, u, start) == 0
  {
    NothingAhead(limit, reqs[..i], u, start, start + MINUTE);
  }

  // After a denial the user's next request is allowed exactly from the end of the clock minute on.
  lemma NextAfterDenial(limit: nat, reqs: seq<Request>, i: nat, j: nat)
    requires limit > 0 && Ordered(reqs) && IsNext(reqs, i, j) && !DecisionAt(limit, reqs, i).allowed
    ensures DecisionAt(limit, reqs, j).allowed <==> reqs[j].now >= WindowStart(reqs[i].now) + MINUTE
  {
    var u, start := reqs[i].user, WindowStart(reqs[j].now);
    DecisionAtCounts(limit, reqs, i);
    DecisionAtCounts(limit, reqs, j);
    UsedAcross(limit, reqs, i, j, start);
    Window(reqs[i].now);
    if reqs[j].now >= WindowStart(reqs[i].now) + MINUTE {
      SameMinute(WindowStart(reqs[i].now) + MINUTE, WindowStart(reqs[i].now) + MINUTE);
      WindowStartMonotone(WindowStart(reqs[i].now) + MINUTE, reqs[j].now);
      UsedNothing(limit, reqs, i, u, start);
    } else {
      SameMinute(WindowStart(reqs[i].now), reqs[j].now);
    }
  }

  // Waiting a second more than told is always enough; waiting just as told is enough exactly when the rest of the
  // minute was a whole number of seconds, or under one.
  lemma RetryAfterPlusOneSuffices(limit: nat, reqs: seq<Request>, i: nat, j: nat)
    requires limit > 0 && Ordered(reqs) && IsNext(reqs, i, j) && !DecisionAt(limit, reqs, i).allowed
    ensures DecisionAt(limit, reqs, i).retryAfter.Some?
    ensures var told, now := DecisionAt(limit, reqs, i).retryAfter.value, reqs[i].now;
      && 1 <= told <= 60
      && (reqs[j].now >= now + (told + 1) * SECOND ==> DecisionAt(limit, reqs, j).allowed)
      && (reqs[j].now == now + told * SECOND ==>
            (DecisionAt(limit, reqs, j).allowed <==>
             (WindowStart(now) + MINUTE - now) % SECOND == 0 || WindowStart(now) + MINUTE - now < SECOND))
  {
    RetryBounds(reqs[i].now);
    NextAfterDenial(limit, reqs, i, j);
  }
}
