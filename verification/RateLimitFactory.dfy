/** Limiter construction from configuration (pkg/ratelimit/factory.go). */
module RateLimitFactory {
  import opened Common
  import opened TokenBuckets

  datatype LimiterConfig = LimiterConfig(backend: string, requestsPerMin: real, burst: real, windowSeconds: int)

  /** What the factory hands back: the in-memory bucket, or the Redis limiter with that bucket behind it. */
  datatype Built =
    | Memory(fallback: Params)
    | Redis(fallback: Params, windowMs: int, limit: int)

  datatype FactoryError = NoRequestRate | UnknownBackend(name: string)

  /** Conversion of a float to an integer: towards zero. */
  function Truncate(x: real): int {
    if x >= 0.0 then x.Floor else -((-x).Floor)
  }

  lemma TruncateBounds(x: real)
    ensures Truncate(x) <= 0 <==> x < 1.0
    ensures x >= 1.0 ==> Truncate(x) as real <= x < Truncate(x) as real + 1.0
  {
    if x < 0.0 {
      assert (-x).Floor >= 0;
    }
  }

  /** The window, with its default of a minute. */
  function WindowSeconds(cfg: LimiterConfig): (seconds: int)
    ensures 0 < seconds
  {
    if cfg.windowSeconds <= 0 then 60 else cfg.windowSeconds
  }

  /** Requests the sustained rate yields over the window. */
  function Quota(cfg: LimiterConfig): real {
    cfg.requestsPerMin / 60.0 * (WindowSeconds(cfg) as real)
  }

  function NewFromConfig(cfg: LimiterConfig): Result<Built, FactoryError> {
    var burst := if cfg.burst <= 0.0 then 10.0 else cfg.burst;
    var bucket := Params(cfg.requestsPerMin / 60.0, burst, EVICTION_TTL);
    if cfg.backend == "redis" then
      var limit := Truncate(Quota(cfg));
      if limit <= 0 then Err(NoRequestRate) else Ok(Redis(bucket, WindowSeconds(cfg) * 1000, limit))
    else if cfg.backend == "memory" || cfg.backend == "" then Ok(Memory(bucket))
    else Err(UnknownBackend(cfg.backend))
  }

  lemma QuotaNeedsRate(cfg: LimiterConfig)
    requires Quota(cfg) >= 1.0
    ensures cfg.requestsPerMin / 60.0 > 0.0
  {
    var rate, seconds := cfg.requestsPerMin / 60.0, WindowSeconds(cfg) as real;
    if rate <= 0.0 {
      Scale(rate, 0.0, seconds);
    }
  }

  /**
   A Redis limiter's limit never exceeds what the refill rate yields over its window, and falls short
   of it by less than one request; the backend is refused exactly when that yield is below one request.
   */
  lemma LimitMatchesRate(cfg: LimiterConfig)
    requires cfg.backend == "redis"
    ensures var built := NewFromConfig(cfg);
            && (built.Err? <==> Quota(cfg) < 1.0)
            && (built.Ok? ==>
                && built.value.Redis?
                && built.value.windowMs == WindowSeconds(cfg) * 1000
                && built.value.fallback.burst > 0.0 && built.value.fallback.rate > 0.0
                && 1 <= built.value.limit
                && built.value.limit as real <= Quota(cfg) < built.value.limit as real + 1.0)
  {
    TruncateBounds(Quota(cfg));
    if Quota(cfg) >= 1.0 {
      QuotaNeedsRate(cfg);
    }
  }

  /** Requests the configured rate yields over the window, in sixtieths. */
  function Yield(cfg: LimiterConfig): real {
    cfg.requestsPerMin * WindowSeconds(cfg) as real
  }

  lemma PerMinute(x: real, seconds: real)
    ensures (x / 60.0) * seconds * 60.0 == x * seconds
  {
    assert (x / 60.0) * seconds * 60.0 == (x / 60.0) * 60.0 * seconds;
  }

  lemma QuotaIsYield(cfg: LimiterConfig)
    ensures Quota(cfg) * 60.0 == Yield(cfg)
  {
    PerMinute(cfg.requestsPerMin, WindowSeconds(cfg) as real);
  }

  /**
   What the configuration asks for, whatever the backend: a minute's refill is the rate per minute, an
   absent burst is 10, and a window's limit is the whole requests the rate yields over it, at least one.
   */
  lemma FactoryHonoursConfig(cfg: LimiterConfig)
    ensures var built := NewFromConfig(cfg);
            && (cfg.backend !in {"redis", "memory", ""} <==> built == Err(UnknownBackend(cfg.backend)))
            && (cfg.backend in {"memory", ""} <==> built.Ok? && built.value.Memory?)
            && (built == Err(NoRequestRate) <==> cfg.backend == "redis" && Yield(cfg) < 60.0)
            && (built.Ok? ==>
                Refill(built.value.fallback, 60.0) == cfg.requestsPerMin && built.value.fallback.ttl == 600.0
                && built.value.fallback.burst == if cfg.burst > 0.0 then cfg.burst else 10.0)
            && (built.Ok? && built.value.Redis? ==>
                && built.value.windowMs == 1000 * (if cfg.windowSeconds > 0 then cfg.windowSeconds else 60)
                && built.value.limit as real * 60.0 <= Yield(cfg) < (built.value.limit + 1) as real * 60.0)
  {
    QuotaIsYield(cfg);
    TruncateBounds(Quota(cfg));
  }
}
