/**
 * The fixed-window `RedisRateLimitGuard`
 * (backend/src/common/guards/redis-rate-limit.guard.ts) and the counter it
 * drives, `RedisService.incrementRateLimit`
 * (backend/src/modules/redis/redis.service.ts). Redis is modelled as a map
 * from key to count, with the expiry each key was given.
 */
module RateLimit {
  import opened Wrappers
  import opened JsValue
  import opened Exceptions
  import HttpStatus

  const KEY_PREFIX := "rate_limit:"
  const DEFAULT_TTL := 60
  const EXCEEDED_MESSAGE := "Rate limit exceeded"

  /** The `rateLimit` metadata of a handler. */
  datatype RateLimitConfig = RateLimitConfig(limit: int, ttl: int)

  /** The `@RateLimit(limit, ttl = 60)` decorator's metadata. */
  function RateLimitMetadata(limit: int, ttl: Option<int>): (c: RateLimitConfig)
    ensures c.limit == limit
    ensures c.ttl == (if ttl.Some? then ttl.value else DEFAULT_TTL)
  {
    RateLimitConfig(limit, ttl.GetOr(DEFAULT_TTL))
  }

  /** The request fields the guard reads; `routePath` is `request.route?.path`. */
  datatype Request = Request(ip: string, routePath: Option<string>, url: string)

  /** The path the counter is kept for: the matched route pattern if any, else the URL. */
  function CounterPath(r: Request): string {
    OrElse(r.routePath, r.url)
  }

  /** `rate_limit:<ip>:<route path or url>`. */
  function Key(r: Request): (k: string)
    ensures k == KEY_PREFIX + r.ip + ":" + CounterPath(r)
    ensures |k| > |KEY_PREFIX| && k[..|KEY_PREFIX|] == KEY_PREFIX
  {
    KEY_PREFIX + r.ip + ":" + CounterPath(r)
  }

  /** No '/' occurs in `ip + ":"` when there is none in `ip`. */
  lemma NoSlashUpTo(ip: string, p: string, k: nat)
    requires '/' !in ip && k <= |ip|
    ensures (ip + ":" + p)[k] != '/'
  {
    if k < |ip| {
      assert (ip + ":" + p)[k] == ip[k];
    }
  }

  /** `ip + ":" + path` splits back into its parts when the ip has no '/' and the path starts with one. */
  lemma SplitAtPath(ip1: string, p1: string, ip2: string, p2: string)
    requires '/' !in ip1 && '/' !in ip2
    requires |p1| > 0 && p1[0] == '/' && |p2| > 0 && p2[0] == '/'
    requires ip1 + ":" + p1 == ip2 + ":" + p2
    ensures ip1 == ip2 && p1 == p2
  {
    var s := ip1 + ":" + p1;
    assert s[|ip1| + 1] == '/';
    assert s[|ip2| + 1] == '/';
    if |ip1| < |ip2| {
      NoSlashUpTo(ip2, p2, |ip1| + 1);
      assert false;
    }
    if |ip2| < |ip1| {
      NoSlashUpTo(ip1, p1, |ip2| + 1);
      assert false;
    }
    assert ip1 == s[..|ip1|] == ip2;
    assert p1 == s[|ip1| + 1..] == p2;
  }

  /**
   * Two clients, or two routes, never share a counter: for IP addresses
   * (which hold no '/') and paths (which start with '/'), equal keys mean
   * the same address and the same path.
   */
  lemma KeysSeparateClientsAndRoutes(a: Request, b: Request)
    requires '/' !in a.ip && '/' !in b.ip
    requires |CounterPath(a)| > 0 && CounterPath(a)[0] == '/'
    requires |CounterPath(b)| > 0 && CounterPath(b)[0] == '/'
    ensures Key(a) == Key(b) <==> a.ip == b.ip && CounterPath(a) == CounterPath(b)
  {
    if Key(a) == Key(b) {
      var sa := a.ip + ":" + CounterPath(a);
      var sb := b.ip + ":" + CounterPath(b);
      assert Key(a) == KEY_PREFIX + sa;
      assert Key(b) == KEY_PREFIX + sb;
      assert sa == Key(a)[|KEY_PREFIX|..] == Key(b)[|KEY_PREFIX|..] == sb;
      SplitAtPath(a.ip, CounterPath(a), b.ip, CounterPath(b));
    }
  }

  /** A call is let through when the count after its own increment is within the limit. */
  predicate Admits(count: int, limit: int) {
    count <= limit
  }

  /**
   * How many of `n` consecutive guarded calls on one key are let through,
   * starting from a counter at `start`, with no expiry in between.
   */
  function Admitted(start: nat, n: nat, limit: int): nat
    decreases n
  {
    if n == 0 then 0
    else (if Admits(start + 1, limit) then 1 else 0) + Admitted(start + 1, n - 1, limit)
  }

  /**
   * A window admits exactly `limit - start` more calls (none once the
   * limit is reached) however many arrive: from a fresh key, at most
   * `limit` calls per window.
   */
  lemma {:induction false} AdmittedCount(start: nat, n: nat, limit: int)
    ensures Admitted(start, n, limit) == if limit - start <= 0 then 0 else if n <= limit - start then n else limit - start
    decreases n
  {
    if n > 0 {
      AdmittedCount(start + 1, n - 1, limit);
    }
  }

  /** Redis's counters: `INCR` counts and the expiry each key was given by `EXPIRE`. */
  class Counters {
    var counts: map<string, nat>
    var ttls: map<string, int>

    constructor()
      ensures counts == map[] && ttls == map[]
    {
      counts := map[];
      ttls := map[];
    }

    /** The counter's value; an absent key counts 0. */
    function Count(key: string): nat
      reads this
    {
      if key in counts then counts[key] else 0
    }

    /** `incrementRateLimit(key, ttl)`: the first increment of a window also sets its expiry. */
    method IncrementRateLimit(key: string, ttl: int) returns (current: nat)
      modifies this
      ensures current == old(Count(key)) + 1
      ensures counts == old(counts)[key := current]
      ensures current == 1 ==> ttls == old(ttls)[key := ttl]
      ensures current != 1 ==> ttls == old(ttls)
    {
      current := Count(key) + 1;
      counts := counts[key := current];
      if current == 1 {
        ttls := ttls[key := ttl];
      }
    }

    /** The window's expiry elapses: Redis drops the key, and the next increment starts at 1. */
    method Expire(key: string)
      modifies this
      ensures counts == old(counts) - {key} && ttls == old(ttls) - {key}
      ensures Count(key) == 0
    {
      counts := counts - {key};
      ttls := ttls - {key};
    }
  }

  class RedisRateLimitGuard {
    const redis: Counters

    constructor(redis: Counters)
      ensures this.redis == redis
    {
      this.redis := redis;
    }

    /**
     * `canActivate` for a handler with the given metadata: without
     * metadata every call passes and no counter is touched; otherwise the
     * key's counter is incremented, rejected calls included, and the call
     * passes if and only if the new count is within the limit.
     */
    method CanActivate(config: Option<RateLimitConfig>, req: Request) returns (r: Result<bool, Exception>)
      modifies redis
      ensures r.Success? ==> r.value
      ensures r.Failure? ==> r.error == WithStatus(EXCEEDED_MESSAGE, HttpStatus.TOO_MANY_REQUESTS)
      ensures config.None? ==> r == Success(true) && redis.counts == old(redis.counts) && redis.ttls == old(redis.ttls)
      ensures config.Some? ==> redis.counts == old(redis.counts)[Key(req) := old(redis.Count(Key(req))) + 1]
      ensures config.Some? ==> (r.Success? <==> Admits(old(redis.Count(Key(req))) + 1, config.value.limit))
      ensures config.Some? && old(redis.Count(Key(req))) == 0 ==> redis.ttls == old(redis.ttls)[Key(req) := config.value.ttl]
      ensures config.Some? && old(redis.Count(Key(req))) != 0 ==> redis.ttls == old(redis.ttls)
    {
      if config.None? {
        return Success(true);
      }
      var key := Key(req);
      var current := redis.IncrementRateLimit(key, config.value.ttl);
      if current > config.value.limit {
        return Failure(WithStatus(EXCEEDED_MESSAGE, HttpStatus.TOO_MANY_REQUESTS));
      }
      r := Success(true);
    }
  }
}
