/**
 * The in-memory fixed-window rate limiter: one counter per identifier, reset
 * when its window has passed, and the middleware that keys it on client
 * address and path and answers 429 when the limit is exceeded.
 *
 * The store is a map passed in and returned; the clock is a parameter. The
 * Redis-backed variant the middleware switches to when configured is not
 * part of this model.
 */
module RateLimiter {
  import opened Wrappers
  import opened JsText
  import LineCommon

  /** One identifier's window: requests counted so far and the instant the window ends. */
  datatype Entry = Entry(count: int, resetTime: int, firstRequest: int)

  type Store = map<string, Entry>

  /** `{ maxRequests, windowMs }`, either of which may be left out. */
  datatype Options = Options(maxRequests: Option<int>, windowMs: Option<int>)

  const DefaultMaxRequests: int := 5
  const DefaultWindowMs: int := 60 * 1000

  const StrictRateLimit := Options(Some(5), Some(15 * 60 * 1000))
  const NormalRateLimit := Options(Some(60), Some(60 * 1000))
  const RelaxedRateLimit := Options(Some(100), Some(60 * 1000))

  function MaxRequests(o: Options): int { o.maxRequests.GetOr(DefaultMaxRequests) }
  function WindowMs(o: Options): int { o.windowMs.GetOr(DefaultWindowMs) }

  /** The answer of `checkRateLimit`. */
  datatype Decision = Decision(allowed: bool, remaining: int, resetTime: int, retryAfter: int)

  /** `Math.ceil(d / 1000)` for a non-negative number of milliseconds. */
  function CeilSeconds(d: int): (r: int)
    requires d >= 0
    ensures r >= 0
    ensures (r - 1) * 1000 < d <= r * 1000
  {
    (d + 999) / 1000
  }

  /** The identifier has no live window at `now`: never seen, or its window has passed. */
  predicate Expired(store: Store, id: string, now: int) {
    id !in store || now > store[id].resetTime
  }

  /**
   * `checkRateLimit`: a missing or expired window restarts at count 1 and is
   * allowed; otherwise the count goes up by one and the call is allowed while
   * it stays within the limit. Only the identifier's own entry changes.
   */
  function CheckRateLimit(store: Store, id: string, opts: Options, now: int): (r: (Decision, Store))
    ensures r.1.Keys == store.Keys + {id}
    ensures forall k :: k in store && k != id ==> r.1[k] == store[k]
    ensures Expired(store, id, now) ==>
      && r.0 == Decision(true, MaxRequests(opts) - 1, now + WindowMs(opts), 0)
      && r.1[id] == Entry(1, now + WindowMs(opts), now)
    ensures !Expired(store, id, now) ==>
      && r.1[id] == store[id].(count := store[id].count + 1)
      && (r.0.allowed <==> store[id].count + 1 <= MaxRequests(opts))
      && r.0.remaining == (if MaxRequests(opts) - r.1[id].count > 0 then MaxRequests(opts) - r.1[id].count else 0)
      && r.0.resetTime == store[id].resetTime
      && r.0.retryAfter >= 0
      && (r.0.retryAfter - 1) * 1000 < store[id].resetTime - now <= r.0.retryAfter * 1000
  {
    var max := MaxRequests(opts);
    if Expired(store, id, now) then
      var e := Entry(1, now + WindowMs(opts), now);
      (Decision(true, max - 1, e.resetTime, 0), store[id := e])
    else
      var e := store[id].(count := store[id].count + 1);
      var remaining := if max - e.count > 0 then max - e.count else 0;
      (Decision(e.count <= max, remaining, e.resetTime, CeilSeconds(e.resetTime - now)), store[id := e])
  }

  /** `resetRateLimit`: forget the identifier and nothing else. */
  function ResetRateLimit(store: Store, id: string): (r: Store)
    ensures id !in r
    ensures forall k :: k != id ==> (k in r <==> k in store) && (k in r ==> r[k] == store[k])
  {
    map k | k in store && k != id :: store[k]
  }

  /** After a reset the identifier starts a fresh window. */
  lemma ResetStartsFresh(store: Store, id: string, opts: Options, now: int)
    ensures CheckRateLimit(ResetRateLimit(store, id), id, opts, now).0.allowed
    ensures CheckRateLimit(ResetRateLimit(store, id), id, opts, now).1[id].count == 1
  {
  }

  /** The periodic sweep: drop every entry whose window had passed at `t`. */
  function Cleanup(store: Store, t: int): (r: Store)
    ensures forall k :: k in r <==> k in store && !(t > store[k].resetTime)
    ensures forall k :: k in r ==> r[k] == store[k]
  {
    map k | k in store && !(t > store[k].resetTime) :: store[k]
  }

  /** A sweep that ran earlier never changes a later decision. */
  lemma CleanupInvisible(store: Store, t: int, id: string, opts: Options, now: int)
    requires t <= now
    ensures CheckRateLimit(Cleanup(store, t), id, opts, now).0 == CheckRateLimit(store, id, opts, now).0
    ensures CheckRateLimit(Cleanup(store, t), id, opts, now).1[id] == CheckRateLimit(store, id, opts, now).1[id]
  {
    assert Expired(Cleanup(store, t), id, now) == Expired(store, id, now);
  }

  /** The allowed flags of successive calls for one identifier at the given instants. */
  function Run(store: Store, id: string, opts: Options, times: seq<int>): (r: seq<bool>)
    ensures |r| == |times|
    decreases |times|
  {
    if times == [] then []
    else
      var step := CheckRateLimit(store, id, opts, times[0]);
      [step.0.allowed] + Run(step.1, id, opts, times[1..])
  }

  /**
   * Inside one window, calls are allowed exactly up to the limit: after a
   * window opened at `start` with `done` calls counted, the k-th further call
   * is allowed iff `done + k + 1 <= maxRequests`.
   */
  lemma {:induction false} RunWithinWindow(store: Store, id: string, opts: Options, times: seq<int>, start: int, done: int)
    requires id in store && store[id].resetTime == start + WindowMs(opts) && store[id].count == done
    requires forall k :: 0 <= k < |times| ==> times[k] <= start + WindowMs(opts)
    ensures forall k :: 0 <= k < |times| ==> (Run(store, id, opts, times)[k] <==> done + k + 1 <= MaxRequests(opts))
    decreases |times|
  {
    if times != [] {
      var step := CheckRateLimit(store, id, opts, times[0]);
      assert forall k :: 0 <= k < |times[1..]| ==> times[1..][k] == times[k + 1];
      RunWithinWindow(step.1, id, opts, times[1..], start, done + 1);
      var rest := Run(step.1, id, opts, times[1..]);
      assert Run(store, id, opts, times) == [step.0.allowed] + rest;
    }
  }

  /**
   * From a missing or expired window, with every later call before the new
   * window ends, exactly the first `maxRequests` calls are allowed (and the
   * first call always is).
   */
  lemma FirstCallsAllowed(store: Store, id: string, opts: Options, times: seq<int>)
    requires |times| >= 1 && Expired(store, id, times[0])
    requires forall k :: 0 <= k < |times| ==> times[k] <= times[0] + WindowMs(opts)
    ensures Run(store, id, opts, times)[0]
    ensures forall k :: 1 <= k < |times| ==> (Run(store, id, opts, times)[k] <==> k + 1 <= MaxRequests(opts))
  {
    var step := CheckRateLimit(store, id, opts, times[0]);
    assert forall k :: 0 <= k < |times[1..]| ==> times[1..][k] == times[k + 1];
    RunWithinWindow(step.1, id, opts, times[1..], times[0], 1);
  }

  // ---------------------------------------------------------------------------
  // The middleware
  // ---------------------------------------------------------------------------

  /**
   * `getClientIp`: the first trimmed entry of x-forwarded-for when it is
   * non-blank, else x-nf-client-connection-ip, else client-ip, else "unknown".
   */
  function ClientIp(headers: map<string, string>): (r: string)
    ensures r != ""
    ensures "x-forwarded-for" in headers && LineCommon.FirstEntry(headers["x-forwarded-for"]) != "" ==>
      r == LineCommon.FirstEntry(headers["x-forwarded-for"])
    ensures !("x-forwarded-for" in headers && LineCommon.FirstEntry(headers["x-forwarded-for"]) != "") ==>
      (if LineCommon.HeaderTruthy(headers, "x-nf-client-connection-ip") then r == headers["x-nf-client-connection-ip"]
       else if LineCommon.HeaderTruthy(headers, "client-ip") then r == headers["client-ip"]
       else r == "unknown")
  {
    var forwarded := match LineCommon.Header(headers, "x-forwarded-for")
      case Some(v) => Some(LineCommon.FirstEntry(v))
      case None => None;
    var v := OrElse(forwarded, OrElse(LineCommon.Header(headers, "x-nf-client-connection-ip"), LineCommon.Header(headers, "client-ip")));
    if Truthy(v) then v.value else "unknown"
  }

  /**
   * The limiter and the webhooks read the same address from a non-blank
   * x-forwarded-for, but only the limiter consults x-nf-client-connection-ip.
   */
  lemma ClientIpAgreesWithWebhooks(headers: map<string, string>)
    ensures "x-forwarded-for" in headers && LineCommon.FirstEntry(headers["x-forwarded-for"]) != "" ==>
      ClientIp(headers) == LineCommon.ClientIpFromHeaders(headers)
    ensures ClientIp(map["x-nf-client-connection-ip" := "203.0.113.7"]) == "203.0.113.7"
    ensures LineCommon.ClientIpFromHeaders(map["x-nf-client-connection-ip" := "203.0.113.7"]) == "unknown"
  {
    var v := "x-forwarded-for";
    if v in headers && LineCommon.FirstEntry(headers[v]) != "" {
      assert LineCommon.FirstTruthyAt(headers, LineCommon.IpHeaders, 0);
    }
    var h := map["x-nf-client-connection-ip" := "203.0.113.7"];
    assert forall k :: 0 <= k < |LineCommon.IpHeaders| ==> LineCommon.IpHeaders[k] !in h;
  }

  /** `createRateLimitResponse`: 429 with Retry-After, and the limit header fixed at "5" whatever the options. */
  datatype LimitResponse = LimitResponse(status: int, retryAfterHeader: string, limitHeader: string,
                                         remainingHeader: string, retryAfter: int)

  function CreateRateLimitResponse(retryAfter: int): (r: LimitResponse)
    ensures r.status == 429 && r.limitHeader == "5" && r.remainingHeader == "0"
    ensures r.retryAfter == retryAfter
    ensures r.retryAfterHeader == IntToString(retryAfter)
    ensures |r.retryAfterHeader| >= 1 && (retryAfter < 0 <==> r.retryAfterHeader[0] == '-')
  {
    LimitResponse(429, IntToString(retryAfter), "5", "0", retryAfter)
  }

  /** The Retry-After header reads back as the delay it was written from. */
  lemma RetryAfterReadBack(retryAfter: int)
    ensures var h := CreateRateLimitResponse(retryAfter).retryAfterHeader;
      && (retryAfter >= 0 ==> ParseDigits(h, 10) == retryAfter)
      && (retryAfter < 0 ==> h[0] == '-' && ParseDigits(h[1..], 10) == -retryAfter)
  {
  }

  /** The memory branch's counter key: `${ip}:${path || 'unknown'}`. */
  function LimitKey(headers: map<string, string>, path: Option<string>): string {
    var endpoint := if Truthy(path) then path.value else "unknown";
    ClientIp(headers) + ":" + endpoint
  }

  /**
   * `applyRateLimit` (memory branch): no response while allowed, otherwise
   * the 429; the store is updated either way.
   */
  function ApplyRateLimit(store: Store, headers: map<string, string>, path: Option<string>,
                          opts: Options, now: int): (r: (Option<LimitResponse>, Store))
    ensures var key := LimitKey(headers, path);
      var d := CheckRateLimit(store, key, opts, now);
      && r.1 == d.1
      && (r.0.None? <==> d.0.allowed)
      && (r.0.Some? ==> r.0.value.status == 429 && r.0.value.retryAfter == d.0.retryAfter)
  {
    var d := CheckRateLimit(store, LimitKey(headers, path), opts, now);
    if d.0.allowed then (None, d.1) else (Some(CreateRateLimitResponse(d.0.retryAfter)), d.1)
  }

  /**
   * Requests to one path never spend another path's allowance: the other
   * key's entry is untouched.
   */
  lemma PathsCountedSeparately(store: Store, headers: map<string, string>, p: string, q: string,
                               opts: Options, now: int)
    requires p != "" && q != "" && p != q
    requires LimitKey(headers, Some(q)) in store
    ensures var after := ApplyRateLimit(store, headers, Some(p), opts, now).1;
      after[LimitKey(headers, Some(q))] == store[LimitKey(headers, Some(q))]
  {
    var ip := ClientIp(headers);
    assert LimitKey(headers, Some(p)) == ip + ":" + p;
    assert LimitKey(headers, Some(q)) == ip + ":" + q;
    assert (ip + ":" + p)[|ip| + 1..] == p;
    assert (ip + ":" + q)[|ip| + 1..] == q;
  }
}
