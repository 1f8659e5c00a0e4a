/**
 The fixed-window rate limiter of internal/gateway/middleware.go: one bucket per client key,
 and a sweep that deletes expired buckets.
 */
module RateLimits {
  import opened Common

  /** Neither number is checked by NewRateLimiter. */
  datatype Config = Config(limit: int, window: Time)

  datatype Bucket = Bucket(count: nat, resetAt: Time)

  /** The requests let through in one window: the request that opens a window always passes. */
  function Allowance(cfg: Config): pos {
    Max(1, cfg.limit)
  }

  predicate Expired(b: Bucket, now: Time) {
    b.resetAt < now
  }

  predicate Grants(cfg: Config, b: Option<Bucket>, now: Time) {
    b.None? || Expired(b.value, now) || b.value.count < cfg.limit
  }

  function AfterCall(cfg: Config, b: Option<Bucket>, now: Time): Bucket {
    if b.None? || Expired(b.value, now) then Bucket(1, now + cfg.window)
    else if b.value.count < cfg.limit then b.value.(count := b.value.count + 1)
    else b.value
  }

  function Swept(buckets: map<string, Bucket>, now: Time): map<string, Bucket> {
    map key | key in buckets && !Expired(buckets[key], now) :: buckets[key]
  }

  class RateLimiter {
    var buckets: map<string, Bucket>
    const limit: int
    const window: Time

    function Settings(): Config {
      Config(limit, window)
    }

    constructor (limit: int, windowSeconds: int)
      ensures buckets == map[]
      ensures Settings() == Config(limit, windowSeconds * 1_000_000_000)
    {
      this.limit, this.window := limit, windowSeconds * 1_000_000_000;
      buckets := map[];
    }

    method Allow(key: string, now: Time) returns (allowed: bool)
      modifies this
      ensures allowed == Grants(Settings(), Find(old(buckets), key), now)
      ensures buckets == old(buckets)[key := AfterCall(Settings(), Find(old(buckets), key), now)]
    {
      if key !in buckets || now > buckets[key].resetAt {
        buckets := buckets[key := Bucket(1, now + window)];
        return true;
      }
      var b := buckets[key];
      if b.count >= limit {
        assert buckets == buckets[key := b];
        return false;
      }
      buckets := buckets[key := b.(count := b.count + 1)];
      return true;
    }

    /** One tick of evictLoop: the map is ranged over in an arbitrary order. */
    method Sweep(now: Time)
      modifies this
      ensures buckets == Swept(old(buckets), now)
    {
      var rest := buckets.Keys;
      while rest != {}
        invariant rest <= old(buckets).Keys
        invariant buckets == map key | key in old(buckets) && (key in rest || !Expired(old(buckets)[key], now)) :: old(buckets)[key]
        decreases rest
      {
        var key :| key in rest;
        if now > buckets[key].resetAt {
          buckets := buckets - {key};
        }
        rest := rest - {key};
      }
    }
  }
}
