/**
 * The in-process, per-client request limiter: one token-bucket limiter per client
 * address, created on first sight with the configured rate and burst, and the whole
 * table dropped by the periodic cleanup once it holds more than 10000 clients.
 */
module RateLimit {
  import opened Settings
  import opened HttpContext

  const CleanupThreshold := 10000
  const StatusTooManyRequests := 429

  /** A token bucket. Its refill arithmetic belongs to the rate-limiting library;
      only its parameters are modelled, and each admission decision is an input. */
  class Limiter {
    /** Tokens added per second. */
    const limit: real
    /** Bucket capacity. */
    const burst: int

    constructor (limit: real, burst: int)
      ensures this.limit == limit && this.burst == burst
    {
      this.limit := limit;
      this.burst := burst;
    }
  }

  /** The table the periodic cleanup leaves behind: emptied once it exceeds the threshold. */
  function Cleaned(limiters: map<string, Limiter>): (r: map<string, Limiter>)
    ensures |r| <= CleanupThreshold
    ensures r == limiters || r == map[]
    ensures r == map[] <==> |limiters| > CleanupThreshold || limiters == map[]
  {
    if |limiters| > CleanupThreshold then map[] else limiters
  }

  class RateLimiter {
    var limiters: map<string, Limiter>
    const rate: real
    const burst: int

    /** Every stored limiter carries this limiter's rate and burst. */
    ghost predicate Valid()
      reads this, limiters.Values
    {
      forall k | k in limiters :: limiters[k].limit == rate && limiters[k].burst == burst
    }

    constructor (r: real, burst: int)
      ensures limiters == map[] && rate == r && this.burst == burst
      ensures Valid()
    {
      limiters := map[];
      rate := r;
      this.burst := burst;
    }

    /** The limiter for `key`: the stored one if there is one, otherwise a new one that is stored. */
    method GetLimiter(key: string) returns (l: Limiter)
      requires Valid()
      modifies this
      ensures Valid()
      ensures key in old(limiters) ==> l == old(limiters)[key] && limiters == old(limiters)
      ensures key !in old(limiters) ==> fresh(l) && limiters == old(limiters)[key := l]
      ensures l.limit == rate && l.burst == burst
    {
      if key in limiters {
        l := limiters[key];
      } else {
        l := new Limiter(rate, burst);
        limiters := limiters[key := l];
      }
    }

    method Cleanup()
      requires Valid()
      modifies this
      ensures Valid()
      ensures limiters == Cleaned(old(limiters))
    {
      if |limiters| > CleanupThreshold {
        limiters := map[];
      }
    }
  }

  /** The handler RateLimitMiddleware builds: a pass-through when rate limiting is off,
      otherwise one per-client limiter table. */
  datatype Middleware = PassThrough | Limiting(table: RateLimiter, config: RateLimitConfig)

  /** Requests per second allowed on average: the request budget spread over the window. */
  function RequestsPerSecond(config: RateLimitConfig): (r: real)
    requires config.window > 0
    ensures r * config.window as real == config.maxRequests as real
  {
    config.maxRequests as real / config.window as real
  }

  method RateLimitMiddleware(security: SecurityConfig, config: RateLimitConfig) returns (m: Middleware)
    requires security.enableRateLimit ==> config.window > 0
    ensures m.Limiting? <==> security.enableRateLimit
    ensures m.Limiting? ==>
      && fresh(m.table) && m.table.limiters == map[] && m.table.Valid() && m.config == config
      && m.table.rate == RequestsPerSecond(config) && m.table.burst == config.maxRequests
  {
    if !security.enableRateLimit {
      return PassThrough;
    }
    var table := new RateLimiter(RequestsPerSecond(config), config.maxRequests);
    m := Limiting(table, config);
  }

  /** The 429 body; `retryAfter` is the end of one full window from now. */
  function ExceededBody(config: RateLimitConfig, now: int): (b: Body)
    ensures b.RateLimitBody? && b.error == "rate_limit_exceeded"
    ensures b.retryAfter - now == config.window && b.limit == config.maxRequests
  {
    RateLimitBody("rate_limit_exceeded", "Too many requests", now + config.window, config.maxRequests, config.window)
  }

  /** One request through the handler. `admitted` is the client's limiter's decision for this request. */
  method Handle(m: Middleware, c: Context, now: int, admitted: bool)
    requires m.Limiting? ==> m.table.Valid()
    requires !c.aborted && !c.passed
    modifies c, if m.Limiting? then {m.table} else {}
    ensures c.header == old(c.header) && c.keys == old(c.keys)
    ensures m.PassThrough? ==> c.passed && !c.aborted && c.status == old(c.status) && c.body == old(c.body)
    ensures m.Limiting? ==>
      && m.table.Valid()
      && c.clientIP in m.table.limiters
      && (c.clientIP in old(m.table.limiters) ==> m.table.limiters == old(m.table.limiters))
      && (c.clientIP !in old(m.table.limiters) ==>
            && fresh(m.table.limiters[c.clientIP])
            && m.table.limiters == old(m.table.limiters)[c.clientIP := m.table.limiters[c.clientIP]])
      && (admitted ==> c.passed && !c.aborted && c.status == old(c.status) && c.body == old(c.body))
      && (!admitted ==> c.aborted && !c.passed && c.status == StatusTooManyRequests
                        && c.body == ExceededBody(m.config, now))
  {
    if m.PassThrough? {
      c.Next();
      return;
    }
    var key := c.clientIP;
    var limiter := m.table.GetLimiter(key);
    if !admitted {
      c.JSON(StatusTooManyRequests, ExceededBody(m.config, now));
      c.Abort();
      return;
    }
    c.Next();
  }

  /** Requests from one client share one limiter; two clients get two. */
  method LimitersPerClient(rate: real, burst: int, a: string, b: string)
    returns (repeatShares: bool, othersShare: bool, tracked: nat)
    requires a != b
    ensures repeatShares && !othersShare && tracked == 2
  {
    var table := new RateLimiter(rate, burst);
    var first := table.GetLimiter(a);
    var again := table.GetLimiter(a);
    var other := table.GetLimiter(b);
    repeatShares := first == again;
    othersShare := first == other;
    tracked := |table.limiters|;
  }

  /** Cleanup leaves a table within the threshold, and a second cleanup changes nothing. */
  lemma {:induction false} CleanupIdempotent(limiters: map<string, Limiter>)
    ensures Cleaned(Cleaned(limiters)) == Cleaned(limiters)
  {
    var once := Cleaned(limiters);
    assert |once| <= CleanupThreshold;
  }
}
