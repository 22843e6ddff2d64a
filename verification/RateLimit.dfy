/** Sliding-window rate limiting: the Go middleware's limiter, the one of core/runtime/auth.py and the
    one of core/runtime/security_middleware.py. Time is an integer passed to every call. */
module RateLimit {
  import opened Common

  type Requests = map<string, seq<int>>

  /** The times after `start`, in order: what every limiter's purge keeps. */
  function Recent(times: seq<int>, start: int): seq<int> {
    if times == [] then []
    else
      var n := |times| - 1;
      Recent(times[..n], start) + (if times[n] > start then [times[n]] else [])
  }

  function Of(requests: Requests, key: string): seq<int> {
    if key in requests then requests[key] else []
  }

  /** Whether a request at `now` is let through, and the requests remembered afterwards. */
  predicate Admits(requests: Requests, key: string, limit: int, window: int, now: int) {
    |Recent(Of(requests, key), now - window)| < limit
  }

  function Checked(requests: Requests, key: string, limit: int, window: int, now: int): Requests {
    var kept := Recent(Of(requests, key), now - window);
    requests[key := if Admits(requests, key, limit, window, now) then kept + [now] else kept]
  }

  function Left(requests: Requests, key: string, limit: int, window: int, now: int): int {
    Max(0, limit - |Recent(Of(requests, key), now - window)|)
  }

  /** The requests a limiter looks at, one by one: those of the key later than now - window, in order. A request
      is let through exactly if they are fewer than the limit, and then it is remembered after them. */
  lemma CheckedMeans(requests: Requests, key: string, limit: int, window: int, now: int)
    ensures var times := if key in requests then requests[key] else [];
      && (Admits(requests, key, limit, window, now) <==> |Recent(times, now - window)| < limit)
      && (forall t :: t in Recent(times, now - window) <==> t in times && t > now - window)
      && Checked(requests, key, limit, window, now) ==
         requests[key := Recent(times, now - window) + (if |Recent(times, now - window)| < limit then [now] else [])]
      && Left(requests, key, limit, window, now) ==
         if |Recent(times, now - window)| < limit then limit - |Recent(times, now - window)| else 0
  {
    var times := if key in requests then requests[key] else [];
    forall t ensures t in Recent(times, now - window) <==> t in times && t > now - window {
      RecentKeeps(times, now - window, t);
    }
    assert Recent(times, now - window) + [] == Recent(times, now - window);
  }

  lemma {:induction false} RecentKeeps(times: seq<int>, start: int, t: int)
    ensures t in Recent(times, start) <==> t in times && t > start
  {
    if times != [] {
      RecentKeeps(times[..|times| - 1], start, t);
      assert times == times[..|times| - 1] + [times[|times| - 1]];
    }
  }

  lemma RecentAppend(times: seq<int>, t: int, start: int)
    ensures Recent(times + [t], start) == Recent(times, start) + (if t > start then [t] else [])
  {
    assert (times + [t])[..|times|] == times;
  }

  // ---- The three limiters ----

  /** `RateLimiter` of core/middleware/security.go. */
  class GoLimiter {
    const limit: int
    const window: int
    var clients: Requests

    constructor (limit: int, window: int)
      ensures this.limit == limit && this.window == window && clients == map[]
    {
      this.limit, this.window, clients := limit, window, map[];
    }

    /** The remaining count is what is left after this request. */
    method Check(key: string, now: int) returns (allowed: bool, remaining: int)
      modifies this
      ensures clients == Checked(old(clients), key, limit, window, now)
      ensures allowed <==> Admits(old(clients), key, limit, window, now)
      ensures remaining == if allowed then Left(old(clients), key, limit, window, now) - 1 else 0
    {
      if key in clients {
        var clean, requests := [], clients[key];
        for i := 0 to |requests|
          invariant clean == Recent(requests[..i], now - window) && clients == old(clients)
        {
          RecentAppend(requests[..i], requests[i], now - window);
          assert requests[..i + 1] == requests[..i] + [requests[i]];
          if requests[i] > now - window {
            clean := clean + [requests[i]];
          }
        }
        assert requests[..|requests|] == requests;
        clients := clients[key := clean];
      } else {
        clients := clients[key := []];
      }
      ghost var kept := Recent(Of(old(clients), key), now - window);
      assert clients == old(clients)[key := kept];
      var current := |clients[key]|;
      if current >= limit {
        return false, 0;
      }
      clients := clients[key := clients[key] + [now]];
      return true, limit - current - 1;
    }

    method Reset(key: string)
      modifies this
      ensures clients == old(clients) - {key}
    {
      clients := clients - {key};
    }
  }

  /** The Python comprehensions `[t for t in times if now - t < window]`. */
  function Younger(times: seq<int>, now: int, window: int): seq<int> {
    if times == [] then []
    else
      var n := |times| - 1;
      Younger(times[..n], now, window) + (if now - times[n] < window then [times[n]] else [])
  }

  /** The two ways the purge is written select the same requests. */
  lemma {:induction false} YoungerIsRecent(times: seq<int>, now: int, window: int)
    ensures Younger(times, now, window) == Recent(times, now - window)
  {
    if times != [] { YoungerIsRecent(times[..|times| - 1], now, window); }
  }

  /** `RateLimiter` of core/runtime/auth.py. */
  class AuthLimiter {
    const maxRequests: int
    const windowSeconds: int
    var requests: Requests

    constructor (maxRequests: int, windowSeconds: int)
      ensures this.maxRequests == maxRequests && this.windowSeconds == windowSeconds && requests == map[]
    {
      this.maxRequests, this.windowSeconds, requests := maxRequests, windowSeconds, map[];
    }

    method IsAllowed(key: string, now: int) returns (allowed: bool)
      modifies this
      ensures requests == Checked(old(requests), key, maxRequests, windowSeconds, now)
      ensures allowed <==> Admits(old(requests), key, maxRequests, windowSeconds, now)
    {
      if key !in requests {
        requests := requests[key := []];
      }
      YoungerIsRecent(requests[key], now, windowSeconds);
      requests := requests[key := Younger(requests[key], now, windowSeconds)];
      if |requests[key]| >= maxRequests {
        return false;
      }
      requests := requests[key := requests[key] + [now]];
      return true;
    }

    /** For a key it has never seen it answers `max_requests` itself, negative or not. */
    method GetRemaining(key: string, now: int) returns (remaining: int)
      ensures remaining == if key in requests then Left(requests, key, maxRequests, windowSeconds, now) else maxRequests
    {
      if key !in requests {
        return maxRequests;
      }
      YoungerIsRecent(requests[key], now, windowSeconds);
      var count := |Younger(requests[key], now, windowSeconds)|;
      return Max(0, maxRequests - count);
    }
  }

  const WINDOW := 60

  function LimitOf(limitType: string): int {
    if limitType == "login" then 5 else if limitType == "upload" then 10 else 100
  }

  /** `RateLimiter` of core/runtime/security_middleware.py: one table for all limit types. */
  class MiddlewareLimiter {
    var rateLimits: Requests

    constructor ()
      ensures rateLimits == map[]
    {
      rateLimits := map[];
    }

    /** The remaining count is what was left before this request. */
    method Check(key: string, limitType: string, now: int) returns (allowed: bool, remaining: int)
      modifies this
      ensures var limit := if limitType == "login" then 5 else if limitType == "upload" then 10 else 100;
        && rateLimits == Checked(old(rateLimits), key, limit, 60, now)
        && (allowed <==> Admits(old(rateLimits), key, limit, 60, now))
        && remaining == Left(old(rateLimits), key, limit, 60, now)
    {
      var maxRequests := LimitOf(limitType);
      if key !in rateLimits {
        rateLimits := rateLimits[key := []];
      }
      rateLimits := rateLimits[key := Recent(rateLimits[key], now - WINDOW)];
      var current := |rateLimits[key]|;
      if current >= maxRequests {
        return false, 0;
      }
      rateLimits := rateLimits[key := rateLimits[key] + [now]];
      return true, Max(0, maxRequests - current);
    }

    method Reset(key: string)
      modifies this
      ensures rateLimits == old(rateLimits) - {key}
    {
      rateLimits := rateLimits - {key};
    }
  }

  /** On any sequence of requests the three limiters take the same decisions. */
  method ThreeAgree(limitType: string, requests: seq<(string, int)>) returns (a: seq<bool>, b: seq<bool>, c: seq<bool>)
    ensures |a| == |requests| && a == b == c
  {
    var go := new GoLimiter(LimitOf(limitType), WINDOW);
    var auth := new AuthLimiter(LimitOf(limitType), WINDOW);
    var middleware := new MiddlewareLimiter();
    a, b, c := [], [], [];
    for i := 0 to |requests|
      invariant fresh(go) && fresh(auth) && fresh(middleware)
      invariant go.clients == auth.requests == middleware.rateLimits
      invariant |a| == i && a == b == c
    {
      var (key, now) := requests[i];
      var x, _ := go.Check(key, now);
      var y := auth.IsAllowed(key, now);
      var z, _ := middleware.Check(key, limitType, now);
      a, b, c := a + [x], b + [y], c + [z];
    }
  }

  // ---- Runs: what is remembered against everything that was admitted ----

  datatype Op = Check(key: string, limit: int, now: int) | Reset(key: string)

  /** `kept` is what a limiter with the given window remembers; `admitted` is the whole history of the
      requests it let through since the key's last reset, never purged. */
  datatype Run = Run(kept: Requests, admitted: Requests)

  function Step(r: Run, op: Op, window: int): Run {
    match op
    case Check(key, limit, now) =>
      Run(Checked(r.kept, key, limit, window, now),
          if Admits(r.kept, key, limit, window, now) then r.admitted[key := Of(r.admitted, key) + [now]]
            else r.admitted)
    case Reset(key) => Run(r.kept - {key}, r.admitted - {key})
  }

  function After(ops: seq<Op>, window: int): Run {
    if ops == [] then Run(map[], map[]) else Step(After(ops[..|ops| - 1], window), ops[|ops| - 1], window)
  }

  ghost predicate Monotone(ops: seq<Op>) {
    forall i, j :: 0 <= i < j < |ops| && ops[i].Check? && ops[j].Check? ==> ops[i].now <= ops[j].now
  }

  ghost predicate NotAfter(ops: seq<Op>, now: int) {
    forall i :: 0 <= i < |ops| && ops[i].Check? ==> ops[i].now <= now
  }

  /** How many of the times lie in (lo, hi]. */
  function Count(times: seq<int>, lo: int, hi: int): nat {
    if times == [] then 0
    else
      var n := |times| - 1;
      Count(times[..n], lo, hi) + (if lo < times[n] <= hi then 1 else 0)
  }

  lemma CountAppend(times: seq<int>, t: int, lo: int, hi: int)
    ensures Count(times + [t], lo, hi) == Count(times, lo, hi) + if lo < t <= hi then 1 else 0
  {
    assert (times + [t])[..|times|] == times;
  }

  lemma {:induction false} RecentAgain(times: seq<int>, a: int, b: int)
    requires a <= b
    ensures Recent(Recent(times, a), b) == Recent(times, b)
  {
    if times != [] {
      var n := |times| - 1;
      var kept := Recent(times[..n], a);
      RecentAgain(times[..n], a, b);
      RecentAppend(kept, times[n], b);
      if times[n] <= a { assert kept + [] == kept; }
    }
  }

  lemma {:induction false} RecentCounts(times: seq<int>, lo: int, hi: int)
    requires AllUpTo(times, hi)
    ensures |Recent(times, lo)| == Count(times, lo, hi)
  {
    if times != [] { RecentCounts(times[..|times| - 1], lo, hi); }
  }

  /** Two lists that look the same to every window starting at `start` or later. */
  predicate SameFrom(kept: seq<int>, admitted: seq<int>, start: int) {
    Recent(kept, start) == Recent(admitted, start)
  }

  lemma KeepsSame(kept: seq<int>, admitted: seq<int>, now: int, window: int, start: int)
    requires SameFrom(kept, admitted, start) && start >= now - window
    ensures SameFrom(Recent(kept, now - window), admitted, start)
    ensures SameFrom(Recent(kept, now - window) + [now], admitted + [now], start)
  {
    RecentAgain(kept, now - window, start);
    RecentAppend(Recent(kept, now - window), now, start);
    RecentAppend(admitted, now, start);
  }

  lemma CheckKeepsSame(r: Run, key: string, limit: int, now: int, window: int, start: int)
    requires SameFrom(Of(r.kept, key), Of(r.admitted, key), start) && start >= now - window
    ensures var r' := Step(r, Check(key, limit, now), window);
      SameFrom(Of(r'.kept, key), Of(r'.admitted, key), start)
  {
    KeepsSame(Of(r.kept, key), Of(r.admitted, key), now, window, start);
  }

  /** Purging loses nothing that a window ending at `now` or later can still see. */
  lemma {:induction false} PurgeLosesNothing(ops: seq<Op>, window: int, key: string, now: int, start: int)
    requires Monotone(ops) && NotAfter(ops, now) && start >= now - window
    ensures SameFrom(Of(After(ops, window).kept, key), Of(After(ops, window).admitted, key), start)
  {
    if ops != [] {
      var before, op := ops[..|ops| - 1], ops[|ops| - 1];
      PurgeLosesNothing(before, window, key, now, start);
      if op.Check? && op.key == key {
        CheckKeepsSame(After(before, window), key, op.limit, op.now, window, start);
      }
    }
  }

  ghost predicate AllUpTo(times: seq<int>, now: int) {
    forall i :: 0 <= i < |times| ==> times[i] <= now
  }

  lemma {:induction false} AdmittedUpToNow(ops: seq<Op>, window: int, key: string, now: int)
    requires NotAfter(ops, now)
    ensures AllUpTo(Of(After(ops, window).admitted, key), now)
  {
    if ops != [] {
      AdmittedUpToNow(ops[..|ops| - 1], window, key, now);
    }
  }

  /** In every run with a non-decreasing clock, the next request is refused exactly when `limit`
      requests of its key were already admitted in the window that ends at it. */
  lemma RefusedIffWindowFull(ops: seq<Op>, window: int, key: string, limit: int, now: int)
    requires Monotone(ops) && NotAfter(ops, now)
    ensures Admits(After(ops, window).kept, key, limit, window, now)
       <==> Count(Of(After(ops, window).admitted, key), now - window, now) < limit
  {
    PurgeLosesNothing(ops, window, key, now, now - window);
    AdmittedUpToNow(ops, window, key, now);
    var r := After(ops, window);
    RecentCounts(Of(r.admitted, key), now - window, now);
    assert Recent(Of(r.kept, key), now - window) == Recent(Of(r.admitted, key), now - window);
  }

  lemma {:induction false} CountMonotone(times: seq<int>, lo: int, hi: int, lo': int, hi': int)
    requires lo' <= lo && hi <= hi'
    ensures Count(times, lo, hi) <= Count(times, lo', hi')
  {
    if times != [] { CountMonotone(times[..|times| - 1], lo, hi, lo', hi'); }
  }

  lemma {:induction false} NothingPositive(times: seq<int>, lo: int, hi: int)
    requires lo >= hi
    ensures Count(times, lo, hi) == 0
  {
    if times != [] { NothingPositive(times[..|times| - 1], lo, hi); }
  }

  /** Admitting a request when its window has room leaves room in every later window. */
  lemma AdmittingFits(admitted: seq<int>, now: int, window: int, limit: nat, end: int)
    requires AllUpTo(admitted, now) && Count(admitted, now - window, now) < limit
    requires end - window < now <= end
    ensures Count(admitted + [now], end - window, end) <= limit
  {
    CountAppend(admitted, now, end - window, end);
    UpTo(admitted, end - window, end, now);
    CountMonotone(admitted, end - window, now, now - window, now);
  }

  ghost predicate LimitsWithin(ops: seq<Op>, limit: nat) {
    forall i :: 0 <= i < |ops| && ops[i].Check? ==> ops[i].limit <= limit
  }

  /** In every run with a non-decreasing clock and limits of at most `limit`, every window
      (end - window, end], wherever it ends, contains at most `limit` admitted requests of a key. */
  lemma {:induction false} WindowBound(ops: seq<Op>, window: int, key: string, limit: nat, end: int)
    requires Monotone(ops) && LimitsWithin(ops, limit)
    ensures Count(Of(After(ops, window).admitted, key), end - window, end) <= limit
  {
    if ops != [] {
      var before, op := ops[..|ops| - 1], ops[|ops| - 1];
      WindowBound(before, window, key, limit, end);
      StepBound(before, op, window, key, limit, end);
    }
  }

  lemma StepBound(ops: seq<Op>, op: Op, window: int, key: string, limit: nat, end: int)
    requires Monotone(ops) && (op.Check? ==> op.limit <= limit && NotAfter(ops, op.now))
    requires Count(Of(After(ops, window).admitted, key), end - window, end) <= limit
    ensures Count(Of(Step(After(ops, window), op, window).admitted, key), end - window, end) <= limit
  {
    var r := After(ops, window);
    if op.Check? && op.key == key && Admits(r.kept, key, op.limit, window, op.now) {
      var admitted := Of(r.admitted, key);
      RefusedIffWindowFull(ops, window, key, op.limit, op.now);
      AdmittedUpToNow(ops, window, key, op.now);
      if end - window < op.now <= end {
        AdmittingFits(admitted, op.now, window, limit, end);
      } else {
        CountAppend(admitted, op.now, end - window, end);
      }
    }
  }

  lemma {:induction false} UpTo(times: seq<int>, lo: int, hi: int, last: int)
    requires last <= hi && AllUpTo(times, last)
    ensures Count(times, lo, hi) == Count(times, lo, last)
  {
    if times != [] { UpTo(times[..|times| - 1], lo, hi, last); }
  }

  // ---- get_remaining ----

  /** The state after k requests of one key at one instant. */
  function Burst(requests: Requests, key: string, limit: int, window: int, now: int, k: nat): Requests {
    if k == 0 then requests else Checked(Burst(requests, key, limit, window, now, k - 1), key, limit, window, now)
  }

  function InWindow(requests: Requests, key: string, window: int, now: int): nat {
    |Recent(Of(requests, key), now - window)|
  }

  lemma CheckFills(requests: Requests, key: string, limit: int, window: int, now: int)
    ensures var c := InWindow(requests, key, window, now);
      InWindow(Checked(requests, key, limit, window, now), key, window, now)
      == if c < limit && window > 0 then c + 1 else c
  {
    var start := now - window;
    var kept := Recent(Of(requests, key), start);
    RecentAgain(Of(requests, key), start, start);
    if |kept| < limit {
      RecentAppend(kept, now, start);
      if window <= 0 { assert kept + [] == kept; }
    }
  }

  /** How many requests a burst of k leaves in a window that held c. */
  function Filled(c: nat, limit: int, window: int, k: nat): int {
    if window <= 0 || c >= limit then c else if c + k <= limit then c + k else limit
  }

  lemma {:induction false} BurstFills(requests: Requests, key: string, limit: int, window: int, now: int, k: nat)
    ensures InWindow(Burst(requests, key, limit, window, now, k), key, window, now) ==
            Filled(InWindow(requests, key, window, now), limit, window, k)
  {
    if k > 0 {
      var before := Burst(requests, key, limit, window, now, k - 1);
      BurstFills(requests, key, limit, window, now, k - 1);
      CheckFills(before, key, limit, window, now);
    }
  }

  /** With a positive window, n requests are left exactly when the next n at this instant succeed and
      no further one does. */
  lemma RemainingIsExact(requests: Requests, key: string, limit: int, window: int, now: int, k: nat)
    requires window > 0
    ensures Admits(Burst(requests, key, limit, window, now, k), key, limit, window, now)
       <==> k < Left(requests, key, limit, window, now)
  {
    BurstFills(requests, key, limit, window, now, k);
  }

  /** The positive window is needed: the reported count is exact for a key with room exactly when the
      window is positive; otherwise every further request succeeds. */
  lemma RemainingExactIff(requests: Requests, key: string, limit: int, window: int, now: int)
    requires Left(requests, key, limit, window, now) > 0
    ensures (forall k: nat :: Admits(Burst(requests, key, limit, window, now, k), key, limit, window, now)
                         <==> k < Left(requests, key, limit, window, now)) <==> window > 0
  {
    if window > 0 {
      forall k: nat ensures Admits(Burst(requests, key, limit, window, now, k), key, limit, window, now)
                       <==> k < Left(requests, key, limit, window, now) {
        RemainingIsExact(requests, key, limit, window, now, k);
      }
    } else {
      var n := Left(requests, key, limit, window, now);
      BurstFills(requests, key, limit, window, now, n);
      assert Admits(Burst(requests, key, limit, window, now, n), key, limit, window, now);
    }
  }
}
