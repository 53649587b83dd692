/**
 * The fail-open TTL cache wrapper around the process-wide node-cache store,
 * and the GET-only response-caching middleware built on it.
 *
 * The store is a map from key to (value, expiry instant); an entry is visible
 * strictly before its expiry instant. Time is a parameter `now` in seconds.
 * A backing-store fault on a call is the parameter `fault`: the wrapper
 * catches it, so a faulting `get` misses and a faulting `set`, `del`,
 * `delMultiple` or `flush` reports `false` and changes nothing.
 */
module Cache {
  import opened Wrappers
  import opened JsValue

  /** node-cache's `stdTTL`, the lifetime of an entry stored without a TTL. */
  const StdTtl := 600

  /** `cacheMiddleware`'s default `duration`. */
  const DefaultDuration := 600

  datatype Entry = Entry(value: Value, expiresAt: int)

  predicate Live(e: Entry, now: int) {
    now < e.expiresAt
  }

  /** The lifetime `set(key, value, ttl)` stores with: a truthy `ttl` is
      passed on, a missing (`null`) or zero `ttl` falls back to `stdTTL`. */
  function EffectiveTtl(ttl: Option<int>): (t: int)
    ensures ttl.Some? && ttl.value != 0 ==> t == ttl.value
    ensures ttl == None || ttl == Some(0) ==> t == StdTtl
  {
    match ttl
    case Some(n) => if n != 0 then n else StdTtl
    case None => StdTtl
  }

  /** What `get` answers on a store `m` at time `now`. */
  function Lookup(m: map<string, Entry>, key: string, now: int): (r: Value)
    ensures r == Null || Truthy(r)
    ensures Truthy(r) <==> key in m && Live(m[key], now) && Truthy(m[key].value)
    ensures Truthy(r) ==> r == m[key].value
  {
    if key in m && Live(m[key], now) && Truthy(m[key].value) then m[key].value else Null
  }

  /** The store after a read: an expired entry for `key` is deleted on access. */
  function Evict(m: map<string, Entry>, key: string, now: int): map<string, Entry> {
    if key in m && !Live(m[key], now) then m - {key} else m
  }

  /** The store after `set(key, value, ttl)` at time `now`. */
  function Stored(m: map<string, Entry>, key: string, value: Value, ttl: Option<int>, now: int)
    : map<string, Entry>
  {
    m[key := Entry(value, now + EffectiveTtl(ttl))]
  }

  class TtlCache {
    var entries: map<string, Entry>

    constructor ()
      ensures entries == map[]
    {
      entries := map[];
    }

    /** `get(key)`: the stored value when it is present, unexpired and truthy,
        otherwise `null`; a fault also answers `null`. */
    method Get(key: string, now: int, fault: bool) returns (r: Value)
      modifies this
      ensures r == if fault then Null else Lookup(old(entries), key, now)
      ensures entries == if fault then old(entries) else Evict(old(entries), key, now)
    {
      if fault {
        return Null;
      }
      if key in entries && !Live(entries[key], now) {
        entries := entries - {key};
      }
      if key in entries && Truthy(entries[key].value) {
        r := entries[key].value;
      } else {
        r := Null;
      }
    }

    /** `set(key, value, ttl)`. */
    method Set(key: string, value: Value, ttl: Option<int>, now: int, fault: bool) returns (ok: bool)
      modifies this
      ensures ok == !fault
      ensures entries == if fault then old(entries) else Stored(old(entries), key, value, ttl, now)
    {
      if fault {
        return false;
      }
      entries := entries[key := Entry(value, now + EffectiveTtl(ttl))];
      ok := true;
    }

    /** `del(key)`: deleting an absent key is not an error. */
    method Del(key: string, fault: bool) returns (ok: bool)
      modifies this
      ensures ok == !fault
      ensures entries == if fault then old(entries) else old(entries) - {key}
    {
      if fault {
        return false;
      }
      entries := entries - {key};
      ok := true;
    }

    /** `delMultiple(keys)`. */
    method DelMultiple(keys: seq<string>, fault: bool) returns (ok: bool)
      modifies this
      ensures ok == !fault
      ensures entries == if fault then old(entries) else old(entries) - set k | k in keys
    {
      if fault {
        return false;
      }
      entries := entries - set k | k in keys;
      ok := true;
    }

    /** `flush()`. */
    method Flush(fault: bool) returns (ok: bool)
      modifies this
      ensures ok == !fault
      ensures entries == if fault then old(entries) else map[]
    {
      if fault {
        return false;
      }
      entries := map[];
      ok := true;
    }
  }

  /** A value stored at `now` is visible until (not at) `now + ttl` when it is
      truthy, and a falsy value is never visible. */
  lemma SetThenGet(m: map<string, Entry>, key: string, value: Value, ttl: Option<int>,
                   now: int, later: int)
    ensures Lookup(Stored(m, key, value, ttl, now), key, later) ==
            if later < now + EffectiveTtl(ttl) && Truthy(value) then value else Null
  {
  }

  /** Storing one key leaves what every other key reads unchanged. */
  lemma SetLeavesOtherKeys(m: map<string, Entry>, key: string, value: Value, ttl: Option<int>,
                           now: int, other: string, later: int)
    requires other != key
    ensures Lookup(Stored(m, key, value, ttl, now), other, later) == Lookup(m, other, later)
  {
  }

  /** Deleting an expired entry on read is invisible to every later read. */
  lemma EvictUnobservable(m: map<string, Entry>, key: string, now: int, k: string, later: int)
    requires now <= later
    ensures Lookup(Evict(m, key, now), k, later) == Lookup(m, k, later)
  {
  }

  /** `delMultiple` deletes exactly the listed keys. */
  lemma DelMultipleEffect(m: map<string, Entry>, keys: seq<string>, k: string, now: int)
    ensures Lookup(m - (set x | x in keys), k, now) == if k in keys then Null else Lookup(m, k, now)
  {
  }

  /** After `flush` every read misses. */
  lemma FlushEffect(k: string, now: int)
    ensures Lookup(map[], k, now) == Null
  {
  }

  // ---------------- cacheMiddleware ----------------

  datatype Request = Request(verb: string, originalUrl: string, url: string)

  /** `"__express__" + (req.originalUrl || req.url)`. */
  function MiddlewareKey(req: Request): (k: string)
    ensures req.originalUrl != "" ==> k == "__express__" + req.originalUrl
    ensures req.originalUrl == "" ==> k == "__express__" + req.url
  {
    "__express__" + (if req.originalUrl != "" then req.originalUrl else req.url)
  }

  /** What the client receives (`None` when the downstream handler never calls
      `res.json`) and whether the request reached the downstream handler. */
  datatype Outcome = Outcome(response: Option<Value>, nextCalled: bool)

  /**
   * One request through `cacheMiddleware(duration)`. `handlerResponse` is the
   * body the downstream handler passes to `res.json`, if it does; `now` is the
   * time of the lookup and `respondedAt` the time of that `res.json` call.
   */
  method Middleware(c: TtlCache, duration: int, req: Request, handlerResponse: Option<Value>,
                    now: int, respondedAt: int, getFault: bool, setFault: bool)
    returns (out: Outcome)
    modifies c
    ensures req.verb != "GET" ==>
              out == Outcome(handlerResponse, true) && c.entries == old(c.entries)
    ensures req.verb == "GET" ==>
              var key := MiddlewareKey(req);
              var hit := if getFault then Null else Lookup(old(c.entries), key, now);
              var afterGet := if getFault then old(c.entries) else Evict(old(c.entries), key, now);
              if Truthy(hit) then
                out == Outcome(Some(hit), false) && c.entries == afterGet
              else
                out == Outcome(handlerResponse, true) &&
                c.entries == if handlerResponse.Some? && !setFault
                             then Stored(afterGet, key, handlerResponse.value, Some(duration), respondedAt)
                             else afterGet
  {
    if req.verb != "GET" {
      return Outcome(handlerResponse, true);
    }
    var key := MiddlewareKey(req);
    var cached := c.Get(key, now, getFault);
    if Truthy(cached) {
      return Outcome(Some(cached), false);
    }
    if handlerResponse.Some? {
      var _ := c.Set(key, handlerResponse.value, Some(duration), respondedAt, setFault);
    }
    out := Outcome(handlerResponse, true);
  }
}
