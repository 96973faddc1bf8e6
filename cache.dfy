/**
 * The response `CacheInterceptor`
 * (backend/src/common/interceptors/cache.interceptor.ts): GET responses are
 * cached per method, URL, user and query; the cache behind
 * `RedisService.get`/`set` is a map from key to value with the TTL each
 * entry was stored with.
 */
module CacheInterceptor {
  import opened Wrappers
  import opened JsValue

  const CACHE_TTL := 300
  const ANONYMOUS := "anonymous"

  /**
   * The request fields the interceptor reads. `queryJson` is
   * `JSON.stringify(request.query)`; `userId` is `request.user?.id`.
   */
  datatype Request = Request(httpMethod: string, url: string, queryJson: string, userId: Option<string>)

  /** `user?.id || 'anonymous'`. */
  function UserPart(r: Request): string {
    OrElse(r.userId, ANONYMOUS)
  }

  /** `generateCacheKey`: `cache:<method>:<url>:<user>:<query>`. */
  function CacheKey(r: Request): (k: string)
    ensures k == "cache:" + r.httpMethod + ":" + r.url + ":" + UserPart(r) + ":" + r.queryJson
  {
    "cache:" + r.httpMethod + ":" + r.url + ":" + UserPart(r) + ":" + r.queryJson
  }

  /** Equal strings around two middles force equal middles. */
  lemma MiddleCancels(pre: string, m1: string, m2: string, post: string)
    requires pre + m1 + post == pre + m2 + post
    ensures m1 == m2
  {
    var s := pre + m1 + post;
    assert m1 == s[|pre|..|pre| + |m1|];
    assert m2 == (pre + m2 + post)[|pre|..|pre| + |m2|];
  }

  /**
   * For the same method, URL and query, two requests share a cache entry
   * if and only if they resolve to the same user part; a request without a
   * user resolves to "anonymous".
   */
  lemma {:induction false} KeySeparatesUsers(a: Request, b: Request)
    requires a.httpMethod == b.httpMethod && a.url == b.url && a.queryJson == b.queryJson
    ensures CacheKey(a) == CacheKey(b) <==> UserPart(a) == UserPart(b)
  {
    var pre := "cache:" + a.httpMethod + ":" + a.url + ":";
    var post := ":" + a.queryJson;
    if CacheKey(a) == CacheKey(b) {
      assert CacheKey(a) == pre + UserPart(a) + post;
      assert CacheKey(b) == pre + UserPart(b) + post;
      MiddleCancels(pre, UserPart(a), UserPart(b), post);
    }
  }

  /** `redisService.get`: an absent key reads as `undefined`. */
  function Lookup(entries: map<string, Json>, key: string): Json {
    if key in entries then entries[key] else Undefined
  }

  /** The cached response served for `r`, if any: only GET requests with a truthy cached value are served. */
  function Served(entries: map<string, Json>, r: Request): (s: Option<Json>)
    ensures s.Some? <==> r.httpMethod == "GET" && Truthy(Lookup(entries, CacheKey(r)))
    ensures s.Some? ==> s.value == entries[CacheKey(r)] && Truthy(s.value)
  {
    if r.httpMethod == "GET" && Truthy(Lookup(entries, CacheKey(r))) then Some(Lookup(entries, CacheKey(r))) else None
  }

  /** After a miss stores a truthy result, the same request is served that result from the cache. */
  lemma StoredResultServedNext(entries: map<string, Json>, r: Request, result: Json)
    requires r.httpMethod == "GET" && Truthy(result)
    ensures Served(entries[CacheKey(r) := result], r) == Some(result)
  {
  }

  /** Storing an entry for one user changes nothing that another user's identical request is served. */
  lemma OtherUsersUnaffected(entries: map<string, Json>, a: Request, b: Request, result: Json)
    requires a.httpMethod == b.httpMethod && a.url == b.url && a.queryJson == b.queryJson
    requires UserPart(a) != UserPart(b)
    ensures Served(entries[CacheKey(a) := result], b) == Served(entries, b)
  {
    KeySeparatesUsers(a, b);
  }

  /** The cache behind `RedisService.get` and `RedisService.set`. */
  class CacheStore {
    var entries: map<string, Json>
    var ttls: map<string, int>

    constructor()
      ensures entries == map[] && ttls == map[]
    {
      entries := map[];
      ttls := map[];
    }

    method Get(key: string) returns (v: Json)
      ensures v == Lookup(entries, key)
    {
      v := if key in entries then entries[key] else Undefined;
    }

    method Set(key: string, value: Json, ttl: int)
      modifies this
      ensures entries == old(entries)[key := value]
      ensures ttls == old(ttls)[key := ttl]
    {
      entries := entries[key := value];
      ttls := ttls[key := ttl];
    }
  }

  class Interceptor {
    const redis: CacheStore

    constructor(redis: CacheStore)
      ensures this.redis == redis
    {
      this.redis := redis;
    }

    /**
     * `intercept`, where `handlerResult` is what the route handler would
     * produce. A cached response is returned without calling the handler;
     * otherwise the handler's result is returned unchanged and, for a GET,
     * stored for 300.
     */
    method Intercept(r: Request, handlerResult: Json) returns (response: Json, handlerCalled: bool)
      modifies redis
      ensures Served(old(redis.entries), r).Some? ==>
        response == Served(old(redis.entries), r).value && !handlerCalled
      ensures Served(old(redis.entries), r).None? ==> response == handlerResult && handlerCalled
      ensures r.httpMethod != "GET" || Served(old(redis.entries), r).Some? ==>
        redis.entries == old(redis.entries) && redis.ttls == old(redis.ttls)
      ensures r.httpMethod == "GET" && Served(old(redis.entries), r).None? ==>
        redis.entries == old(redis.entries)[CacheKey(r) := handlerResult] &&
        redis.ttls == old(redis.ttls)[CacheKey(r) := CACHE_TTL]
    {
      var key := CacheKey(r);
      if r.httpMethod != "GET" {
        return handlerResult, true;
      }
      var cached := redis.Get(key);
      if Truthy(cached) {
        return cached, false;
      }
      redis.Set(key, handlerResult, CACHE_TTL);
      response, handlerCalled := handlerResult, true;
    }
  }
}
