/**
 * The per-endpoint, per-client rate limiter of the HTTP service.
 *
 * The limiter keeps a two-level table, endpoint key -> client address ->
 * {token bucket, last access}. An entry is created on first use with the
 * policy resolved for its endpoint, its last access is stamped on every
 * admission check, and a periodic sweep evicts entries idle for longer than
 * their endpoint's TTL. The clock is an explicit parameter `now`, counted in
 * seconds.
 */
module Middleware {
  import opened Wrappers
  import opened TokenBucket

  // ---------------------------------------------------------------------
  // Configuration and policy resolution
  // ---------------------------------------------------------------------

  /** One endpoint's policy, as configured. */
  datatype EndpointRateLimit = EndpointRateLimit(requestsPerMinute: int, burstSize: int, ttlMinutes: int)

  /** The resolved configuration: a default policy and per-endpoint overrides. */
  datatype RateLimitConfig = RateLimitConfig(defaultLimit: EndpointRateLimit, endpoints: map<string, EndpointRateLimit>)

  function RequestsPerMinute(cfg: RateLimitConfig, endpoint: string): int
  {
    if endpoint in cfg.endpoints then cfg.endpoints[endpoint].requestsPerMinute
    else cfg.defaultLimit.requestsPerMinute
  }

  function BurstSize(cfg: RateLimitConfig, endpoint: string): int
  {
    if endpoint in cfg.endpoints then cfg.endpoints[endpoint].burstSize
    else cfg.defaultLimit.burstSize
  }

  function TTL(cfg: RateLimitConfig, endpoint: string): int
  {
    if endpoint in cfg.endpoints then cfg.endpoints[endpoint].ttlMinutes
    else cfg.defaultLimit.ttlMinutes
  }

  /**
   * The three lookups agree: all of them read the same policy, the
   * endpoint's own when one is configured and the default otherwise.
   */
  lemma PolicyResolution(cfg: RateLimitConfig, endpoint: string)
    ensures var p := if endpoint in cfg.endpoints then cfg.endpoints[endpoint] else cfg.defaultLimit;
      && RequestsPerMinute(cfg, endpoint) == p.requestsPerMinute
      && BurstSize(cfg, endpoint) == p.burstSize
      && TTL(cfg, endpoint) == p.ttlMinutes
  {
  }

  /**
   * Override precedence: configuring a policy for one endpoint makes all
   * three lookups for that endpoint return it, whatever the default is, and
   * changes nothing for any other endpoint.
   */
  lemma OverrideWins(cfg: RateLimitConfig, endpoint: string, limit: EndpointRateLimit, other: string)
    ensures var cfg' := cfg.(endpoints := cfg.endpoints[endpoint := limit]);
      && RequestsPerMinute(cfg', endpoint) == limit.requestsPerMinute
      && BurstSize(cfg', endpoint) == limit.burstSize
      && TTL(cfg', endpoint) == limit.ttlMinutes
      && (other != endpoint ==>
            && RequestsPerMinute(cfg', other) == RequestsPerMinute(cfg, other)
            && BurstSize(cfg', other) == BurstSize(cfg, other)
            && TTL(cfg', other) == TTL(cfg, other))
  {
  }

  // ---------------------------------------------------------------------
  // The limiter table
  // ---------------------------------------------------------------------

  const SecondsPerMinute: int := 60

  /** The HTTP status of a rejection (Too Many Requests). */
  const TooManyRequests: int := 429

  /** One (endpoint, client) entry: its bucket and when it was last checked. */
  datatype LimiterInfo = LimiterInfo(limiter: Bucket, lastAccess: int)

  /** Endpoint key -> client address -> entry. */
  type Table = map<string, map<string, LimiterInfo>>

  /** The entry for (endpoint, ip), if any. A map holds at most one. */
  function Lookup(t: Table, endpoint: string, ip: string): Option<LimiterInfo>
  {
    if endpoint in t && ip in t[endpoint] then Some(t[endpoint][ip]) else None
  }

  /** No endpoint group is kept once it holds no client. */
  ghost predicate NoEmptyGroups(t: Table)
  {
    forall endpoint :: endpoint in t ==> t[endpoint] != map[]
  }

  /** The bucket a first request on `endpoint` gets: full, with the endpoint's policy. */
  function FreshLimiter(cfg: RateLimitConfig, endpoint: string, now: int): Bucket
  {
    NewBucket(RequestsPerMinute(cfg, endpoint), BurstSize(cfg, endpoint), now)
  }

  /** The bucket an admission check on (endpoint, ip) at `now` consults. */
  function CurrentLimiter(cfg: RateLimitConfig, t: Table, endpoint: string, ip: string, now: int): Bucket
  {
    match Lookup(t, endpoint, ip)
    case Some(info) => info.limiter
    case None => FreshLimiter(cfg, endpoint, now)
  }

  /**
   * The table after getLimiter(endpoint, ip) at `now`: the entry exists and
   * was accessed at `now`; an existing entry keeps its bucket, a new one
   * gets a fresh bucket with the endpoint's policy; every other entry is as
   * it was; endpoint groups only grow.
   */
  function Touched(cfg: RateLimitConfig, t: Table, endpoint: string, ip: string, now: int): (r: Table)
    ensures Lookup(r, endpoint, ip) == Some(LimiterInfo(CurrentLimiter(cfg, t, endpoint, ip, now), now))
    ensures Lookup(t, endpoint, ip).Some? ==>
              Lookup(r, endpoint, ip).value.limiter == Lookup(t, endpoint, ip).value.limiter
    ensures Lookup(t, endpoint, ip).None? ==>
              Lookup(r, endpoint, ip).value.limiter.units == Capacity(Lookup(r, endpoint, ip).value.limiter)
    ensures forall e, i :: e != endpoint || i != ip ==> Lookup(r, e, i) == Lookup(t, e, i)
    ensures r.Keys == t.Keys + {endpoint}
    ensures NoEmptyGroups(t) ==> NoEmptyGroups(r)
  {
    var group := if endpoint in t then t[endpoint] else map[];
    var info := if ip in group then group[ip].(lastAccess := now)
                else LimiterInfo(FreshLimiter(cfg, endpoint, now), now);
    t[endpoint := group[ip := info]]
  }

  /** Whether an entry of `endpoint` last accessed as `info` says is past its TTL at `now`. */
  predicate Expired(cfg: RateLimitConfig, endpoint: string, info: LimiterInfo, now: int)
  {
    now - info.lastAccess > TTL(cfg, endpoint) * SecondsPerMinute
  }

  function SweptGroup(cfg: RateLimitConfig, endpoint: string, group: map<string, LimiterInfo>, now: int)
    : map<string, LimiterInfo>
  {
    map ip | ip in group && !Expired(cfg, endpoint, group[ip], now) :: group[ip]
  }

  /**
   * The table after one sweep at `now`: exactly the entries that are not
   * past their endpoint's TTL remain, untouched, and no endpoint group is
   * left empty.
   */
  function Swept(cfg: RateLimitConfig, t: Table, now: int): (r: Table)
    ensures forall e, i :: Lookup(r, e, i) ==
              if Lookup(t, e, i).Some? && !Expired(cfg, e, Lookup(t, e, i).value, now)
              then Lookup(t, e, i) else None
    ensures NoEmptyGroups(r)
    ensures r.Keys <= t.Keys
  {
    var r := map e | e in t && SweptGroup(cfg, e, t[e], now) != map[] :: SweptGroup(cfg, e, t[e], now);
    assert forall e, i | e in t && i in t[e] && !Expired(cfg, e, t[e][i], now) :: e in r && i in r[e] by {
      forall e, i | e in t && i in t[e] && !Expired(cfg, e, t[e][i], now)
        ensures e in r && i in r[e]
      {
        assert i in SweptGroup(cfg, e, t[e], now);
      }
    }
    r
  }

  // ---------------------------------------------------------------------
  // Admission
  // ---------------------------------------------------------------------

  /** The endpoint key: the request method, a colon, and the literal URL path. */
  function EndpointKey(httpMethod: string, path: string): string
  {
    httpMethod + ":" + path
  }

  /** The body of a 429 response, as the middleware writes it. */
  datatype RateLimitResponse = RateLimitResponse(
    status: int, error: string, success: bool, endpoint: string, limit: int, burst: int)

  /** Either the chain continues to the handler, or it is aborted with a response. */
  datatype Decision = Next | Abort(response: RateLimitResponse)

  datatype Admission = Admission(table: Table, decision: Decision)

  /** The rejection for `endpoint`: the configured limit and burst, not the bucket's state. */
  function Rejection(cfg: RateLimitConfig, endpoint: string): RateLimitResponse
  {
    RateLimitResponse(TooManyRequests, "Rate limit exceeded", false, endpoint,
                      RequestsPerMinute(cfg, endpoint), BurstSize(cfg, endpoint))
  }

  /**
   * One pass of the middleware for a request (httpMethod, path) from `ip` at
   * `now`: the request goes on exactly when the entry's bucket (the existing
   * one, or a fresh full one) has a token; otherwise it is aborted with the
   * 429 body naming the endpoint and its configured limit and burst. Only
   * the (endpoint, ip) entry changes.
   */
  function Admit(cfg: RateLimitConfig, t: Table, httpMethod: string, path: string, ip: string, now: int)
    : (r: Admission)
    ensures var endpoint := EndpointKey(httpMethod, path);
      var bucket := CurrentLimiter(cfg, t, endpoint, ip, now);
      && (r.decision == Next <==> Available(bucket, now) >= Scale)
      && (r.decision.Abort? ==>
            && r.decision.response.status == 429
            && r.decision.response.error == "Rate limit exceeded"
            && !r.decision.response.success
            && r.decision.response.endpoint == endpoint
            && r.decision.response.limit == RequestsPerMinute(cfg, endpoint)
            && r.decision.response.burst == BurstSize(cfg, endpoint))
      && Lookup(r.table, endpoint, ip) == Some(LimiterInfo(Allow(bucket, now).bucket, now))
      && (forall e, i :: e != endpoint || i != ip ==> Lookup(r.table, e, i) == Lookup(t, e, i))
      && r.table.Keys == t.Keys + {endpoint}
    ensures NoEmptyGroups(t) ==> NoEmptyGroups(r.table)
  {
    var endpoint := EndpointKey(httpMethod, path);
    var t1 := Touched(cfg, t, endpoint, ip, now);
    var info := t1[endpoint][ip];
    var step := Allow(info.limiter, now);
    Admission(t1[endpoint := t1[endpoint][ip := info.(limiter := step.bucket)]],
              if step.allowed then Next else Abort(Rejection(cfg, endpoint)))
  }

  // ---------------------------------------------------------------------
  // Properties of the table
  // ---------------------------------------------------------------------

  /**
   * Buckets are independent: admitting one request on (endpoint1, ip1) does
   * not change the decision for any other (endpoint2, ip2) pair.
   */
  lemma Independence(cfg: RateLimitConfig, t: Table,
      method1: string, path1: string, ip1: string, now1: int,
      method2: string, path2: string, ip2: string, now2: int)
    requires EndpointKey(method1, path1) != EndpointKey(method2, path2) || ip1 != ip2
    ensures Admit(cfg, Admit(cfg, t, method1, path1, ip1, now1).table, method2, path2, ip2, now2).decision
         == Admit(cfg, t, method2, path2, ip2, now2).decision
  {
  }

  /**
   * A run of requests on (endpoint1, ip1) leaves every other entry as it
   * was, however many of them are admitted or rejected.
   */
  lemma {:induction false} AdmitRunFrame(cfg: RateLimitConfig, t: Table,
      httpMethod: string, path: string, ip: string, now: int, k: nat, endpoint: string, other: string)
    requires EndpointKey(httpMethod, path) != endpoint || ip != other
    ensures Lookup(AdmitRun(cfg, t, httpMethod, path, ip, now, k).table, endpoint, other)
         == Lookup(t, endpoint, other)
    decreases k
  {
    if k > 0 {
      var a := Admit(cfg, t, httpMethod, path, ip, now);
      AdmitRunFrame(cfg, a.table, httpMethod, path, ip, now, k - 1, endpoint, other);
    }
  }

  /**
   * Exhausting one client's quota leaves every other client's unaffected:
   * after any run of requests on (endpoint1, ip1), the decision for another
   * (endpoint2, ip2) pair is the one it would have had without the run.
   */
  lemma IndependenceRun(cfg: RateLimitConfig, t: Table,
      method1: string, path1: string, ip1: string, now1: int, k: nat,
      method2: string, path2: string, ip2: string, now2: int)
    requires EndpointKey(method1, path1) != EndpointKey(method2, path2) || ip1 != ip2
    ensures Admit(cfg, AdmitRun(cfg, t, method1, path1, ip1, now1, k).table, method2, path2, ip2, now2).decision
         == Admit(cfg, t, method2, path2, ip2, now2).decision
  {
    AdmitRunFrame(cfg, t, method1, path1, ip1, now1, k, EndpointKey(method2, path2), ip2);
  }

  /**
   * A sweep at `now` keeps an entry that was accessed no longer than its
   * TTL ago, with its bucket as it was.
   */
  lemma SweepKeepsLive(cfg: RateLimitConfig, t: Table, endpoint: string, ip: string, now: int)
    requires Lookup(t, endpoint, ip).Some?
    requires now - Lookup(t, endpoint, ip).value.lastAccess <= TTL(cfg, endpoint) * SecondsPerMinute
    ensures Lookup(Swept(cfg, t, now), endpoint, ip) == Lookup(t, endpoint, ip)
  {
  }

  /**
   * After an entry is evicted, the next request for the same key is
   * treated as a first-ever request: it gets a fresh, full bucket with the
   * endpoint's policy, so it is admitted whenever the burst is at least one.
   */
  lemma EvictionResetsQuota(cfg: RateLimitConfig, t: Table,
      httpMethod: string, path: string, ip: string, now: int, later: int)
    requires var endpoint := EndpointKey(httpMethod, path);
      Lookup(t, endpoint, ip).Some? && Expired(cfg, endpoint, Lookup(t, endpoint, ip).value, now)
    ensures var endpoint := EndpointKey(httpMethod, path);
      && Lookup(Swept(cfg, t, now), endpoint, ip) == None
      && CurrentLimiter(cfg, Swept(cfg, t, now), endpoint, ip, later) == FreshLimiter(cfg, endpoint, later)
      && ((Admit(cfg, Swept(cfg, t, now), httpMethod, path, ip, later).decision == Next)
            <==> BurstSize(cfg, endpoint) >= 1)
  {
  }

  /** The decisions and final table of `k` requests from `ip` on one endpoint, all at `now`. */
  datatype Run = Run(decisions: seq<Decision>, table: Table)

  function AdmitRun(cfg: RateLimitConfig, t: Table, httpMethod: string, path: string, ip: string,
                    now: int, k: nat): (r: Run)
    ensures |r.decisions| == k
    ensures k > 0 ==> (Lookup(r.table, EndpointKey(httpMethod, path), ip).Some?
                    && Lookup(r.table, EndpointKey(httpMethod, path), ip).value.lastAccess == now)
    decreases k
  {
    if k == 0 then Run([], t) else
      var a := Admit(cfg, t, httpMethod, path, ip, now);
      var rest := AdmitRun(cfg, a.table, httpMethod, path, ip, now, k - 1);
      Run([a.decision] + rest.decisions, rest.table)
  }

  /** `k` decisions of which the first `n` let the request through and the rest are `rejection`. */
  function Drained(n: nat, k: nat, rejection: Decision): (r: seq<Decision>)
    ensures |r| == k
  {
    if k == 0 then [] else [if n > 0 then Next else rejection] + Drained(if n > 0 then n - 1 else 0, k - 1, rejection)
  }

  lemma {:induction false} DrainedBurst(n: nat, rejection: Decision)
    ensures Drained(n, n + 1, rejection) == seq(n, i => Next) + [rejection]
  {
    if n == 0 {
      assert Drained(0, 1, rejection) == [rejection] + Drained(0, 0, rejection);
    } else {
      DrainedBurst(n - 1, rejection);
      assert seq(n, i => Next) == [Next] + seq(n - 1, i => Next);
    }
  }

  /**
   * Token conservation through the middleware: when the bucket the next
   * request would consult holds exactly `n` tokens and was last updated at
   * `now`, the first `n` of `k` immediate requests go through and every
   * later one is rejected with the endpoint's 429 body.
   */
  lemma {:induction false} AdmitRunDrains(cfg: RateLimitConfig, t: Table,
      httpMethod: string, path: string, ip: string, now: int, n: nat, k: nat)
    requires var b := CurrentLimiter(cfg, t, EndpointKey(httpMethod, path), ip, now);
      b.last == now && b.units == n * Scale && b.units <= Capacity(b)
    ensures AdmitRun(cfg, t, httpMethod, path, ip, now, k).decisions
         == Drained(n, k, Abort(Rejection(cfg, EndpointKey(httpMethod, path))))
    decreases k
  {
    var endpoint := EndpointKey(httpMethod, path);
    var rejection := Abort(Rejection(cfg, endpoint));
    if k > 0 {
      var b := CurrentLimiter(cfg, t, endpoint, ip, now);
      var a := Admit(cfg, t, httpMethod, path, ip, now);
      assert Available(b, now) == n * Scale;
      assert CurrentLimiter(cfg, a.table, endpoint, ip, now) == Allow(b, now).bucket;
      var m: nat := if n > 0 then n - 1 else 0;
      assert Allow(b, now).bucket.units == m * Scale;
      AdmitRunDrains(cfg, a.table, httpMethod, path, ip, now, m, k - 1);
      assert a.decision == if 0 < n then Next else rejection;
    }
  }

  /**
   * A client new to an endpoint with burst B >= 0 gets exactly B requests
   * through in one instant; request B + 1 is rejected.
   */
  lemma FreshClientGetsBurst(cfg: RateLimitConfig, t: Table,
      httpMethod: string, path: string, ip: string, now: int)
    requires Lookup(t, EndpointKey(httpMethod, path), ip).None?
    requires BurstSize(cfg, EndpointKey(httpMethod, path)) >= 0
    ensures var endpoint := EndpointKey(httpMethod, path);
      var burst := BurstSize(cfg, endpoint);
      AdmitRun(cfg, t, httpMethod, path, ip, now, burst + 1).decisions
        == seq(burst, i => Next) + [Abort(Rejection(cfg, endpoint))]
  {
    var endpoint := EndpointKey(httpMethod, path);
    var burst := BurstSize(cfg, endpoint);
    AdmitRunDrains(cfg, t, httpMethod, path, ip, now, burst, burst + 1);
    DrainedBurst(burst, Abort(Rejection(cfg, endpoint)));
  }

  /**
   * The list endpoint under its shipped policy (200 per minute, burst 100,
   * TTL 5 minutes): a new client gets 100 immediate requests through, the
   * 101st is rejected with limit 200 and burst 100, and once the TTL has
   * passed and a sweep has run, the next request goes through again.
   */
  lemma ListEndpointScenario(cfg: RateLimitConfig, t: Table, ip: string, now: int, later: int)
    requires cfg.endpoints["GET:/api/v1/packages" := EndpointRateLimit(200, 100, 5)] == cfg.endpoints
    requires Lookup(t, "GET:/api/v1/packages", ip).None?
    requires later > now + 5 * SecondsPerMinute
    ensures var run := AdmitRun(cfg, t, "GET", "/api/v1/packages", ip, now, 101);
      && run.decisions[..100] == seq(100, i => Next)
      && run.decisions[100] == Abort(RateLimitResponse(429, "Rate limit exceeded", false,
                                                       "GET:/api/v1/packages", 200, 100))
      && Admit(cfg, Swept(cfg, run.table, later), "GET", "/api/v1/packages", ip, later).decision == Next
  {
    var endpoint := EndpointKey("GET", "/api/v1/packages");
    assert endpoint == "GET:/api/v1/packages";
    assert endpoint in cfg.endpoints && cfg.endpoints[endpoint] == EndpointRateLimit(200, 100, 5);
    FreshClientGetsBurst(cfg, t, "GET", "/api/v1/packages", ip, now);
    var run := AdmitRun(cfg, t, "GET", "/api/v1/packages", ip, now, 101);
    assert run.decisions == seq(100, i => Next) + [Abort(Rejection(cfg, endpoint))];
    EvictionResetsQuota(cfg, run.table, "GET", "/api/v1/packages", ip, later, later);
  }

  /**
   * Two clients on an endpoint with burst 1: the first client's second
   * request is rejected, and the second client's first request still goes
   * through.
   */
  lemma TwoClientsScenario(cfg: RateLimitConfig, t: Table,
      httpMethod: string, path: string, ip1: string, ip2: string, now: int)
    requires ip1 != ip2
    requires BurstSize(cfg, EndpointKey(httpMethod, path)) == 1
    requires Lookup(t, EndpointKey(httpMethod, path), ip1).None?
    requires Lookup(t, EndpointKey(httpMethod, path), ip2).None?
    ensures var run := AdmitRun(cfg, t, httpMethod, path, ip1, now, 2);
      && run.decisions == [Next, Abort(Rejection(cfg, EndpointKey(httpMethod, path)))]
      && Admit(cfg, run.table, httpMethod, path, ip2, now).decision == Next
  {
  }

  // ---------------------------------------------------------------------
  // The endpoint key
  // ---------------------------------------------------------------------

  /** The position of the first ':' in `s`, or |s| if there is none. */
  function ColonIndex(s: string): (i: nat)
    ensures i <= |s|
    ensures i < |s| ==> s[i] == ':'
    ensures forall j :: 0 <= j < i ==> s[j] != ':'
  {
    if s == [] then 0
    else if s[0] == ':' then 0
    else 1 + ColonIndex(s[1..])
  }

  /** Split an endpoint key at its first ':' into method and path. */
  function SplitEndpointKey(key: string): Option<(string, string)>
  {
    var i := ColonIndex(key);
    if i < |key| then Some((key[..i], key[i + 1..])) else None
  }

  /**
   * The key determines the request: for a method with no ':' in it (every
   * HTTP method token), splitting the key gives back the method and the
   * path.
   */
  lemma EndpointKeyRoundTrip(httpMethod: string, path: string)
    requires forall j :: 0 <= j < |httpMethod| ==> httpMethod[j] != ':'
    ensures SplitEndpointKey(EndpointKey(httpMethod, path)) == Some((httpMethod, path))
  {
    var key := EndpointKey(httpMethod, path);
    assert key[|httpMethod|] == ':';
    assert ColonIndex(key) == |httpMethod|;
    assert key[..|httpMethod|] == httpMethod;
    assert key[|httpMethod| + 1..] == path;
  }

  /**
   * The key uses the literal path, not a route template: two different
   * paths under the same method (say two package IDs) get separate quotas.
   */
  lemma LiteralPathsAreDistinctKeys(httpMethod: string, path1: string, path2: string)
    requires path1 != path2
    ensures EndpointKey(httpMethod, path1) != EndpointKey(httpMethod, path2)
  {
    var n := |httpMethod| + 1;
    assert EndpointKey(httpMethod, path1)[n..] == path1;
    assert EndpointKey(httpMethod, path2)[n..] == path2;
  }

  // ---------------------------------------------------------------------
  // The limiter object
  // ---------------------------------------------------------------------

  class RateLimiter {
    const config: RateLimitConfig
    var limiters: Table

    /**
     * No endpoint group is empty: the sweep drops a group once its last
     * client is evicted, and this records that behaviour. No operation
     * needs it as a precondition.
     */
    ghost predicate Valid()
      reads this
    {
      NoEmptyGroups(limiters)
    }

    /** NewRateLimiter: an empty table over a fixed configuration. */
    constructor (cfg: RateLimitConfig)
      ensures Valid()
      ensures config == cfg && limiters == map[]
    {
      config := cfg;
      limiters := map[];
    }

    /**
     * getLimiter: resolve the entry for (endpoint, ip), creating it on first
     * use, and stamp its last access with `now`.
     */
    method GetLimiter(endpoint: string, ip: string, now: int) returns (info: LimiterInfo)
      requires Valid()
      modifies this
      ensures Valid()
      ensures limiters == Touched(config, old(limiters), endpoint, ip, now)
      ensures Lookup(limiters, endpoint, ip) == Some(info)
    {
      ghost var group := if endpoint in limiters then limiters[endpoint] else map[];
      if endpoint !in limiters {
        limiters := limiters[endpoint := map[]];
      }
      assert limiters == old(limiters)[endpoint := group];
      if ip !in limiters[endpoint] {
        info := LimiterInfo(FreshLimiter(config, endpoint, now), now);
        limiters := limiters[endpoint := limiters[endpoint][ip := info]];
      }
      var found := limiters[endpoint][ip];
      assert limiters[endpoint] == group[ip := found];
      assert limiters == old(limiters)[endpoint := group[ip := found]];
      info := found.(lastAccess := now);
      limiters := limiters[endpoint := limiters[endpoint][ip := info]];
      assert limiters[endpoint] == group[ip := info];
      assert info == if ip in group then group[ip].(lastAccess := now)
                     else LimiterInfo(FreshLimiter(config, endpoint, now), now);
      assert limiters == old(limiters)[endpoint := group[ip := info]];
    }

    /**
     * One tick of cleanupLoop: delete every entry idle for longer than its
     * endpoint's TTL, and every endpoint group left empty.
     */
    method Cleanup(now: int)
      requires Valid()
      modifies this
      ensures Valid()
      ensures limiters == Swept(config, old(limiters), now)
    {
      ghost var t0 := limiters;
      var pending := limiters.Keys;
      while pending != {}
        invariant pending <= t0.Keys
        invariant forall e :: e in limiters <==>
                    e in t0 && (e in pending || SweptGroup(config, e, t0[e], now) != map[])
        invariant forall e :: e in limiters ==>
                    limiters[e] == if e in pending then t0[e] else SweptGroup(config, e, t0[e], now)
        decreases pending
      {
        var endpoint :| endpoint in pending;
        var ipLimiters := limiters[endpoint];
        ghost var g0 := ipLimiters;
        var ips := ipLimiters.Keys;
        while ips != {}
          invariant ips <= g0.Keys
          invariant forall ip :: ip in ipLimiters <==>
                      ip in g0 && (ip in ips || !Expired(config, endpoint, g0[ip], now))
          invariant forall ip :: ip in ipLimiters ==> ipLimiters[ip] == g0[ip]
          decreases ips
        {
          var ip :| ip in ips;
          if now - ipLimiters[ip].lastAccess > TTL(config, endpoint) * SecondsPerMinute {
            ipLimiters := ipLimiters - {ip};
          }
          ips := ips - {ip};
        }
        assert ipLimiters == SweptGroup(config, endpoint, g0, now);
        if |ipLimiters| == 0 {
          limiters := limiters - {endpoint};
        } else {
          limiters := limiters[endpoint := ipLimiters];
        }
        pending := pending - {endpoint};
      }
      assert limiters.Keys == Swept(config, t0, now).Keys;
    }

    /**
     * The middleware for one request: derive the endpoint key, resolve the
     * entry, and either let the request through or abort it with a 429.
     */
    method RateLimit(httpMethod: string, path: string, clientIp: string, now: int) returns (decision: Decision)
      requires Valid()
      modifies this
      ensures Valid()
      ensures Admission(limiters, decision) == Admit(config, old(limiters), httpMethod, path, clientIp, now)
    {
      var endpoint := EndpointKey(httpMethod, path);
      var info := GetLimiter(endpoint, clientIp, now);
      var step := Allow(info.limiter, now);
      limiters := limiters[endpoint := limiters[endpoint][clientIp := info.(limiter := step.bucket)]];
      if !step.allowed {
        decision := Abort(Rejection(config, endpoint));
        return;
      }
      decision := Next;
    }
  }
}
