/**
 * `rateLimit(limit, windowMs)` of server/src/middleware/auth.middleware.ts: a fixed-window
 * counter per client address kept in a map. Each request first drops every counter whose reset
 * time lies more than one window in the past, then refuses with 429 when the caller's counter
 * has reached the limit, and otherwise counts the request. The clock is a parameter.
 */
module RateLimiter {
  import opened Wrappers
  import opened Text
  import opened ApiErrors

  /** `{ count, resetTime }`, times in milliseconds. */
  datatype Counter = Counter(count: int, resetTime: int)

  /** `req.ip || 'unknown'`. */
  function KeyOf(ip: Option<string>): string {
    if Truthy(ip) then ip.value else "unknown"
  }

  /** `Math.ceil(ms / 1000)`: milliseconds rounded up to whole seconds. */
  function CeilSeconds(ms: int): (s: int)
    ensures 1000 * (s - 1) < ms <= 1000 * s
  {
    -((-ms) / 1000)
  }

  /** The counters the cleanup loop keeps: those whose reset time is not before `windowStart`. */
  function Cleanup(m: map<string, Counter>, windowStart: int): map<string, Counter> {
    map k | k in m && m[k].resetTime >= windowStart :: m[k]
  }

  /** What the middleware answers: `next(ApiError 429)` with `Retry-After`, or `next()` with the three headers. */
  datatype Decision =
    | Limited(retryAfter: int, error: ApiError)
    | Admitted(limitHeader: int, remaining: int, reset: int)

  /** The refusal message, with the template literal's rendering of the number. */
  function TooManyMessage(retryAfter: int): string {
    "Too many requests, please try again in " + IntToString(retryAfter) + " seconds"
  }

  /** The counter the request is judged by, after cleanup: the stored one, or a fresh one. */
  function CounterFor(live: map<string, Counter>, key: string, windowMs: int, now: int): Counter {
    if key in live then live[key] else Counter(0, now + windowMs)
  }

  /** The decision for the address `key` against the counters left by cleanup, and the map afterwards. */
  function Judge(live: map<string, Counter>, limit: int, windowMs: int, key: string, now: int)
    : (Decision, map<string, Counter>)
  {
    var info := CounterFor(live, key, windowMs, now);
    if info.count >= limit then
      var retryAfter := CeilSeconds(info.resetTime - now);
      (Limited(retryAfter, NewApiError(429, TooManyMessage(retryAfter))), live)
    else
      var next := info.(count := info.count + 1);
      (Admitted(limit, limit - next.count, CeilSeconds(next.resetTime)), live[key := next])
  }

  /** One request at time `now`: the decision and the map afterwards. */
  function Decide(requests: map<string, Counter>, limit: int, windowMs: int, ip: Option<string>, now: int)
    : (Decision, map<string, Counter>)
  {
    Judge(Cleanup(requests, now - windowMs), limit, windowMs, KeyOf(ip), now)
  }

  /** Every stored counter has counted at least one request and at most `limit`. */
  predicate CountsWithin(m: map<string, Counter>, limit: int) {
    forall k :: k in m ==> 1 <= m[k].count <= limit
  }

  /**
   * What one request does: counters of other addresses survive exactly when their reset time is
   * within one window of `now`, and are not changed; a refused request is not counted; an
   * admitted one adds one to its address's counter (a fresh counter resets one window from
   * `now`) and reports the requests left.
   */
  lemma DecideSpec(requests: map<string, Counter>, limit: int, windowMs: int, ip: Option<string>, now: int)
    ensures var (d, m) := Decide(requests, limit, windowMs, ip, now);
            var key := KeyOf(ip);
            var live := key in requests && requests[key].resetTime >= now - windowMs;
            var resetTime := if live then requests[key].resetTime else now + windowMs;
            (forall k :: k != key ==> (k in m <==> k in requests && requests[k].resetTime >= now - windowMs))
            && (forall k :: k != key && k in m ==> m[k] == requests[k])
            && (d.Limited? <==> (if live then requests[key].count >= limit else limit <= 0))
            && (d.Limited? ==> (key in m <==> live) && (live ==> m[key] == requests[key])
                               && d.retryAfter == CeilSeconds(resetTime - now)
                               && d.error == NewApiError(429, TooManyMessage(d.retryAfter)))
            && (d.Admitted? ==> key in m
                                && m[key].count == (if live then requests[key].count else 0) + 1
                                && m[key].resetTime == resetTime
                                && d.remaining == limit - m[key].count
                                && d.limitHeader == limit
                                && d.reset == CeilSeconds(resetTime))
  {
  }

  /** Cleanup only drops counters, so the stored counts stay within bounds. */
  lemma CleanupKeepsCounts(m: map<string, Counter>, limit: int, windowStart: int)
    requires CountsWithin(m, limit)
    ensures CountsWithin(Cleanup(m, windowStart), limit)
  {
  }

  /**
   * Counting keeps the stored counts between 1 and the limit, so `X-RateLimit-Remaining` is
   * never negative.
   */
  lemma JudgeKeepsCounts(live: map<string, Counter>, limit: int, windowMs: int, key: string, now: int)
    requires CountsWithin(live, limit)
    ensures CountsWithin(Judge(live, limit, windowMs, key, now).1, limit)
    ensures Judge(live, limit, windowMs, key, now).0.Admitted? ==> Judge(live, limit, windowMs, key, now).0.remaining >= 0
  {
  }

  /** While its window is open, a refused caller is told to wait at least one second. */
  lemma RetryAfterWhileWindowOpen(requests: map<string, Counter>, limit: int, windowMs: int, ip: Option<string>, now: int)
    requires windowMs > 0
    requires var key := KeyOf(ip); key !in requests || requests[key].resetTime > now
    ensures Decide(requests, limit, windowMs, ip, now).0.Limited? ==> Decide(requests, limit, windowMs, ip, now).0.retryAfter >= 1
  {
  }

  /**
   * A counter is only dropped one whole window after its reset time, and it is never reset in
   * between: a caller that used up its requests stays refused after the reset time has passed,
   * and is told to retry in zero or fewer seconds.
   */
  lemma StaleCounterStillRefuses(limit: int, windowMs: int, ip: string, resetTime: int, now: int)
    requires ip != "" && limit >= 1 && resetTime <= now <= resetTime + windowMs
    ensures var (d, m) := Decide(map[ip := Counter(limit, resetTime)], limit, windowMs, Some(ip), now);
            d.Limited? && d.retryAfter <= 0 && m == map[ip := Counter(limit, resetTime)]
  {
  }

  /** The decisions for requests from one address at the given times, and the final map. */
  function Run(requests: map<string, Counter>, limit: int, windowMs: int, ip: Option<string>, times: seq<int>)
    : (seq<Decision>, map<string, Counter>)
    decreases |times|
  {
    if times == [] then ([], requests)
    else
      var (d, m) := Decide(requests, limit, windowMs, ip, times[0]);
      var (ds, m') := Run(m, limit, windowMs, ip, times[1..]);
      ([d] + ds, m')
  }

  function AdmittedCount(ds: seq<Decision>): nat {
    if ds == [] then 0 else (if ds[0].Admitted? then 1 else 0) + AdmittedCount(ds[1..])
  }

  /**
   * Within one counter's lifetime (no request later than one window after its reset time) the
   * address is admitted at most `limit - count` more times, and the counter ends up counting
   * exactly the admitted requests.
   */
  lemma {:induction false} AdmissionsBounded(requests: map<string, Counter>, limit: int, windowMs: int,
                                             ip: Option<string>, times: seq<int>)
    requires KeyOf(ip) in requests && requests[KeyOf(ip)].count <= limit
    requires forall i :: 0 <= i < |times| ==> times[i] - windowMs <= requests[KeyOf(ip)].resetTime
    ensures var (ds, m) := Run(requests, limit, windowMs, ip, times);
            KeyOf(ip) in m && m[KeyOf(ip)].resetTime == requests[KeyOf(ip)].resetTime
            && m[KeyOf(ip)].count == requests[KeyOf(ip)].count + AdmittedCount(ds)
            && AdmittedCount(ds) <= limit - requests[KeyOf(ip)].count
  {
    if times != [] {
      var key := KeyOf(ip);
      DecideSpec(requests, limit, windowMs, ip, times[0]);
      var (d, m) := Decide(requests, limit, windowMs, ip, times[0]);
      assert key in m && m[key].resetTime == requests[key].resetTime;
      AdmissionsBounded(m, limit, windowMs, ip, times[1..]);
      var (ds, m') := Run(m, limit, windowMs, ip, times[1..]);
      assert Run(requests, limit, windowMs, ip, times) == ([d] + ds, m');
      assert ([d] + ds)[1..] == ds;
    }
  }

  /** The middleware instance: its two settings and the map its closure owns. */
  class Limiter {
    const limit: int
    const windowMs: int
    var requests: map<string, Counter>

    ghost predicate Valid()
      reads this
    {
      CountsWithin(requests, limit)
    }

    constructor(limit: int, windowMs: int)
      ensures this.limit == limit && this.windowMs == windowMs && requests == map[]
      ensures Valid()
    {
      this.limit := limit;
      this.windowMs := windowMs;
      requests := map[];
    }

    /** The cleanup loop: delete every entry whose reset time is before `windowStart`. */
    method DropExpired(windowStart: int)
      requires Valid()
      modifies this
      ensures Valid()
      ensures requests == Cleanup(old(requests), windowStart)
    {
      ghost var before := requests;
      var pending := requests.Keys;
      while pending != {}
        invariant pending <= before.Keys
        invariant requests == map k | k in before && (k in pending || before[k].resetTime >= windowStart) :: before[k]
        decreases |pending|
      {
        var k :| k in pending;
        if requests[k].resetTime < windowStart {
          requests := requests - {k};
        }
        pending := pending - {k};
      }
      CleanupKeepsCounts(before, limit, windowStart);
    }

    /** One request from `ip` at time `now`. */
    method Handle(ip: Option<string>, now: int) returns (d: Decision)
      requires Valid()
      modifies this
      ensures Valid()
      ensures d == Decide(old(requests), limit, windowMs, ip, now).0
      ensures requests == Decide(old(requests), limit, windowMs, ip, now).1
    {
      ghost var before := requests;
      DropExpired(now - windowMs);
      d := Count(KeyOf(ip), now);
      assert (d, requests) == Decide(before, limit, windowMs, ip, now);
    }

    /** Get or create the counter of `key`, then refuse at the limit or count the request. */
    method Count(key: string, now: int) returns (d: Decision)
      requires Valid()
      modifies this
      ensures Valid()
      ensures (d, requests) == Judge(old(requests), limit, windowMs, key, now)
    {
      JudgeKeepsCounts(requests, limit, windowMs, key, now);
      var info := if key in requests then requests[key] else Counter(0, now + windowMs);
      if info.count >= limit {
        var retryAfter := CeilSeconds(info.resetTime - now);
        d := Limited(retryAfter, NewApiError(429, TooManyMessage(retryAfter)));
      } else {
        info := info.(count := info.count + 1);
        requests := requests[key := info];
        d := Admitted(limit, limit - info.count, CeilSeconds(info.resetTime));
      }
    }
  }
}
