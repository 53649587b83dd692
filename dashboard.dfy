/**
 * The dashboard resource client: `fetch` reads through the TTL cache under a
 * key built from the resource and its parameters, asks the upstream data API
 * on a miss and stores what it answers; the accessors fix each resource's
 * cache lifetime; `getUserById`, `getUserStats` and `getLeaderboard` join
 * what the accessors return.
 *
 * The upstream is a function from the request's query parameters to a reply
 * (a payload or a client error). Everything one call of an operation depends
 * on besides the cache is an `Env`: whether caching is switched on, the time
 * of the cache lookup and of the store, and whether the backing store faults.
 * Fetches that the source runs together with `Promise.all` run one after the
 * other with the same `Env`.
 */
module Dashboard {
  import opened Wrappers
  import opened JsValue
  import opened Seqs
  import opened Records
  import opened Cache
  import Aggregation

  // ------------------------------------------------ errors

  /** What the HTTP client rejects with: a response with a status, a request
      that got no response, or an error with only a message. */
  datatype ClientError =
    | ResponseError(status: int, data: Value)
    | RequestError
    | PlainError(message: string)

  const AuthFailed := "Authentication failed. Invalid API key."
  const RateLimited := "Rate limit exceeded. Please try again later."
  const BadRequest := "Bad request"
  const ServerError := "Dashboard API server error"
  const RequestFailed := "API request failed"
  const Unreachable := "No response from Dashboard API. Please check your connection."
  const UserNotFound := "User not found"

  /** `new Error(data.message || fallback)`. */
  function MessageOr(data: Value, fallback: string): string {
    var m := Get(data, "message");
    if Truthy(m) then ToJsString(m) else fallback
  }

  /** `handleError`: the error `fetch` rethrows for a failed upstream call. */
  function HandleError(e: ClientError): (r: ClientError)
    ensures r.PlainError?
    ensures e.PlainError? ==> r == e
    ensures e.RequestError? ==> r.message == Unreachable
  {
    match e
    case ResponseError(status, data) =>
      PlainError(
        if status == 401 then AuthFailed
        else if status == 429 then RateLimited
        else if status == 400 then MessageOr(data, BadRequest)
        else if status == 500 then ServerError
        else MessageOr(data, RequestFailed))
    case RequestError => PlainError(Unreachable)
    case PlainError(_) => e
  }

  /** A response error's message is one of the fixed messages or the
      upstream's own `message`; the fixed message of 401, 429 and 500 does
      not depend on the body. */
  lemma ResponseErrorMessages(status: int, data: Value)
    ensures var m := HandleError(ResponseError(status, data)).message;
      m in {AuthFailed, RateLimited, BadRequest, ServerError, RequestFailed}
      || m == ToJsString(Get(data, "message"))
    ensures status == 401 ==> HandleError(ResponseError(status, data)).message == AuthFailed
    ensures status == 429 ==> HandleError(ResponseError(status, data)).message == RateLimited
    ensures status == 500 ==> HandleError(ResponseError(status, data)).message == ServerError
  {
  }

  /** Only status 500 is reported as a server error: for a body without a
      message, the server-error message appears exactly for 500, and any other
      status but 400, 401 and 429 (502 or 503 among them) reads
      "API request failed". */
  lemma OnlyStatus500IsServerError(status: int, data: Value)
    requires !Truthy(Get(data, "message"))
    ensures HandleError(ResponseError(status, data)).message == ServerError <==> status == 500
    ensures status !in {400, 401, 429, 500} ==>
              HandleError(ResponseError(status, data)).message == RequestFailed
    ensures status == 400 ==> HandleError(ResponseError(status, data)).message == BadRequest
  {
  }

  /** Handling an already handled error changes nothing. */
  lemma HandleErrorIdempotent(e: ClientError)
    ensures HandleError(HandleError(e)) == HandleError(e)
  {
  }

  // ------------------------------------------------ cache key and request

  const KeyPrefix := "dashboard:"

  /** `dashboard:${resource}:${JSON.stringify(params)}`. */
  function CacheKey(resource: string, params: seq<Prop>): string {
    KeyPrefix + resource + ":" + Json(Obj(params))
  }

  /** Where the separator after the resource sits in a key. */
  lemma {:induction false} KeyColon(resource: string, json: string, m: nat)
    requires ':' !in resource && m <= |resource|
    ensures var k := KeyPrefix + resource + ":" + json;
      |k| == 11 + |resource| + |json| &&
      (k[10 + m] == ':' <==> m == |resource|) &&
      k[10..10 + |resource|] == resource && k[11 + |resource|..] == json
  {
    var k := KeyPrefix + resource + ":" + json;
    if m < |resource| {
      assert k[10 + m] == resource[m];
    }
  }

  /** Keys are unambiguous for resource names without a colon: equal keys
      mean the same resource and the same serialised parameters. */
  lemma {:induction false} CacheKeyInjective(r1: string, p1: seq<Prop>, r2: string, p2: seq<Prop>)
    requires ':' !in r1 && ':' !in r2
    requires CacheKey(r1, p1) == CacheKey(r2, p2)
    ensures r1 == r2 && Json(Obj(p1)) == Json(Obj(p2))
  {
    var m := if |r1| <= |r2| then |r1| else |r2|;
    KeyColon(r1, Json(Obj(p1)), m);
    KeyColon(r2, Json(Obj(p2)), m);
  }

  /** The key follows the order in which the caller inserted the
      parameters: the same parameters in another order miss the entry. */
  lemma CacheKeyDependsOnParamOrder()
    ensures CacheKey("tasks", [Prop("a", Num(1)), Prop("b", Num(2))])
         != CacheKey("tasks", [Prop("b", Num(2)), Prop("a", Num(1))])
  {
    JsonDependsOnKeyOrder();
    var j1 := Json(Obj([Prop("a", Num(1)), Prop("b", Num(2))]));
    var j2 := Json(Obj([Prop("b", Num(2)), Prop("a", Num(1))]));
    KeyColon("tasks", j1, 5);
    KeyColon("tasks", j2, 5);
  }

  /** `{ resource, ...params }`, the query the upstream receives. */
  function RequestParams(resource: string, params: seq<Prop>): seq<Prop> {
    Spread([Prop("resource", Str(resource))], params)
  }

  /** The query names the resource unless the caller's parameters carry a
      `resource` of their own, which then wins; every other parameter is
      passed on as given. */
  lemma RequestParamsGet(resource: string, params: seq<Prop>, key: string)
    requires DistinctKeys(params)
    ensures GetProp(RequestParams(resource, params), key) ==
            if HasKey(params, key) then GetProp(params, key)
            else if key == "resource" then Str(resource)
            else Undefined
  {
    SpreadGet([Prop("resource", Str(resource))], params, key);
  }

  // ------------------------------------------------ fetch

  datatype Env = Env(cacheEnabled: bool, now: int, storedAt: int, getFault: bool, setFault: bool)

  /** What the upstream answers to a query. */
  type Upstream = seq<Prop> -> Result<Value, ClientError>

  /** The outcome of one `fetch`: what it resolves or rejects with, whether
      the upstream was asked, and the cache afterwards. */
  datatype FetchStep = FetchStep(result: Result<Value, ClientError>, called: bool,
                                 entries: map<string, Entry>)

  /** The cache after the lookup, which drops an expired entry for the key. */
  function AfterLookup(m: map<string, Entry>, env: Env, key: string): map<string, Entry> {
    if env.cacheEnabled && !env.getFault then Evict(m, key, env.now) else m
  }

  /** `fetch(resource, params, cacheTTL)` on the cache `m`. */
  function FetchSpec(m: map<string, Entry>, env: Env, upstream: Upstream,
                     resource: string, params: seq<Prop>, ttl: int): FetchStep
  {
    var key := CacheKey(resource, params);
    var hit := if env.cacheEnabled && !env.getFault then Lookup(m, key, env.now) else Null;
    var after := AfterLookup(m, env, key);
    if Truthy(hit) then FetchStep(Success(hit), false, after)
    else
      match upstream(RequestParams(resource, params))
      case Failure(e) => FetchStep(Failure(HandleError(e)), true, after)
      case Success(data) =>
        FetchStep(Success(data), true,
                  if env.cacheEnabled && ttl > 0 && !env.setFault
                  then Stored(after, key, data, Some(ttl), env.storedAt)
                  else after)
  }

  method Fetch(c: TtlCache, env: Env, upstream: Upstream, resource: string, params: seq<Prop>,
               ttl: int)
    returns (r: Result<Value, ClientError>, called: bool)
    modifies c
    ensures FetchStep(r, called, c.entries) == FetchSpec(old(c.entries), env, upstream, resource, params, ttl)
  {
    var key := CacheKey(resource, params);
    if env.cacheEnabled {
      var cached := c.Get(key, env.now, env.getFault);
      if Truthy(cached) {
        return Success(cached), false;
      }
    }
    var reply := upstream(RequestParams(resource, params));
    called := true;
    if reply.Failure? {
      return Failure(HandleError(reply.error)), true;
    }
    var data := reply.value;
    if env.cacheEnabled && ttl > 0 {
      var _ := c.Set(key, data, Some(ttl), env.storedAt, env.setFault);
    }
    r := Success(data);
  }

  /** The upstream is asked exactly when caching is off, the lookup faults,
      or the key holds no live truthy value; a hit answers the cached value
      and leaves the cache as it was. */
  lemma FetchHitOrCall(m: map<string, Entry>, env: Env, upstream: Upstream,
                       resource: string, params: seq<Prop>, ttl: int)
    ensures var s := FetchSpec(m, env, upstream, resource, params, ttl);
      var key := CacheKey(resource, params);
      (!s.called <==> env.cacheEnabled && !env.getFault && Truthy(Lookup(m, key, env.now))) &&
      (!s.called ==> s.result == Success(m[key].value) && s.entries == m)
  {
  }

  /** After an upstream call the payload is returned as received, or the
      handled error is raised, and the cache holds the payload under the key
      exactly when caching is on, the TTL is positive and the store works. */
  lemma FetchMissEffect(m: map<string, Entry>, env: Env, upstream: Upstream,
                        resource: string, params: seq<Prop>, ttl: int)
    requires FetchSpec(m, env, upstream, resource, params, ttl).called
    ensures var s := FetchSpec(m, env, upstream, resource, params, ttl);
      var key := CacheKey(resource, params);
      var reply := upstream(RequestParams(resource, params));
      (reply.Failure? ==> s.result == Failure(HandleError(reply.error))
                          && s.entries == AfterLookup(m, env, key)) &&
      (reply.Success? ==>
         s.result == reply &&
         s.entries == if env.cacheEnabled && ttl > 0 && !env.setFault
                      then Stored(AfterLookup(m, env, key), key, reply.value, Some(ttl), env.storedAt)
                      else AfterLookup(m, env, key))
  {
  }

  /** With caching on and a working store, a truthy payload fetched from the
      upstream is readable under the key at the time of the store exactly when
      the TTL is positive. */
  lemma FetchStoresIffTtlPositive(m: map<string, Entry>, env: Env, upstream: Upstream,
                                  resource: string, params: seq<Prop>, ttl: int, data: Value)
    requires env.cacheEnabled && !env.getFault && !env.setFault && env.now <= env.storedAt
    requires upstream(RequestParams(resource, params)) == Success(data) && Truthy(data)
    requires FetchSpec(m, env, upstream, resource, params, ttl).called
    ensures var s := FetchSpec(m, env, upstream, resource, params, ttl);
      (Lookup(s.entries, CacheKey(resource, params), env.storedAt) == data) <==> ttl > 0
  {
    var key := CacheKey(resource, params);
    if ttl > 0 {
      SetThenGet(Evict(m, key, env.now), key, data, Some(ttl), env.storedAt, env.storedAt);
    }
  }

  /** With caching off the cache is never touched and the upstream is always asked. */
  lemma FetchDisabled(m: map<string, Entry>, env: Env, upstream: Upstream,
                      resource: string, params: seq<Prop>, ttl: int)
    requires !env.cacheEnabled
    ensures FetchSpec(m, env, upstream, resource, params, ttl).called
    ensures FetchSpec(m, env, upstream, resource, params, ttl).entries == m
  {
  }

  /** A faulting lookup fails open: the call goes to the upstream as if the
      key were absent. */
  lemma FetchFailsOpen(m: map<string, Entry>, env: Env, upstream: Upstream,
                       resource: string, params: seq<Prop>, ttl: int)
    requires env.cacheEnabled && env.getFault
    ensures var s := FetchSpec(m, env, upstream, resource, params, ttl);
      s.called && s.result == match upstream(RequestParams(resource, params))
                              case Success(d) => Success(d)
                              case Failure(e) => Failure(HandleError(e))
  {
  }

  /** A fetch changes only its own key: every other key reads the same
      afterwards, at the lookup time and later. */
  lemma FetchLeavesOtherKeys(m: map<string, Entry>, env: Env, upstream: Upstream,
                             resource: string, params: seq<Prop>, ttl: int, other: string, t: int)
    requires other != CacheKey(resource, params) && env.now <= t
    ensures Lookup(FetchSpec(m, env, upstream, resource, params, ttl).entries, other, t)
         == Lookup(m, other, t)
  {
    var key := CacheKey(resource, params);
    var after := AfterLookup(m, env, key);
    assert Lookup(after, other, t) == Lookup(m, other, t);
    var reply := upstream(RequestParams(resource, params));
    if reply.Success? && env.cacheEnabled && ttl > 0 && !env.setFault {
      SetLeavesOtherKeys(after, key, reply.value, Some(ttl), env.storedAt, other, t);
    }
  }

  /** Fetch, then fetch again: once a truthy payload has been stored, the
      same resource and parameters are answered from the cache, without an
      upstream call, until `ttl` seconds after the store, and go to the
      upstream again from then on. */
  lemma FetchTwice(m: map<string, Entry>, env1: Env, env2: Env, up1: Upstream, up2: Upstream,
                   resource: string, params: seq<Prop>, ttl: int)
    requires env1.cacheEnabled && !env1.setFault && ttl > 0
    requires FetchSpec(m, env1, up1, resource, params, ttl).called
    requires FetchSpec(m, env1, up1, resource, params, ttl).result.Success?
    requires Truthy(FetchSpec(m, env1, up1, resource, params, ttl).result.value)
    requires env2.cacheEnabled && !env2.getFault
    ensures var s1 := FetchSpec(m, env1, up1, resource, params, ttl);
      var s2 := FetchSpec(s1.entries, env2, up2, resource, params, ttl);
      (env2.now < env1.storedAt + ttl ==> s2.result == s1.result && !s2.called) &&
      (env2.now >= env1.storedAt + ttl ==> s2.called)
  {
    var s1 := FetchSpec(m, env1, up1, resource, params, ttl);
    var key := CacheKey(resource, params);
    SetThenGet(AfterLookup(m, env1, key), key, s1.result.value, Some(ttl), env1.storedAt, env2.now);
  }

  // ------------------------------------------------ the accessors

  datatype Accessor =
    | All | Users | Announcements | Attendance | Tasks | Events | Quizzes | ActiveQuizzes
    | Projects | ProjectReviews | Resources | SupportTickets

  function ResourceOf(a: Accessor): string {
    match a
    case All => "all"
    case Users => "users"
    case Announcements => "announcements"
    case Attendance => "attendance"
    case Tasks => "tasks"
    case Events => "events"
    case Quizzes => "quizzes"
    case ActiveQuizzes => "quizzes"
    case Projects => "projects"
    case ProjectReviews => "reviews"
    case Resources => "resources"
    case SupportTickets => "support"
  }

  /** The cache lifetime, in seconds, each accessor passes to `fetch`. */
  function TtlOf(a: Accessor): int {
    match a
    case All => 60
    case Users => 180
    case Announcements => 120
    case Attendance => 300
    case Tasks => 180
    case Events => 180
    case Quizzes => 120
    case ActiveQuizzes => 60
    case Projects => 300
    case ProjectReviews => 120
    case Resources => 600
    case SupportTickets => 60
  }

  /** The parameters each accessor passes on: `getAll` none, `getActiveQuizzes`
      `{ ...params, isActive: true }`, every other one the caller's. */
  function ParamsOf(a: Accessor, params: seq<Prop>): seq<Prop> {
    match a
    case All => []
    case ActiveQuizzes => SetProp(Spread([], params), "isActive", Bool(true))
    case _ => params
  }

  /** One accessor call, e.g. `getTasks(params)`. */
  function Via(m: map<string, Entry>, env: Env, upstream: Upstream, a: Accessor, params: seq<Prop>)
    : FetchStep
  {
    FetchSpec(m, env, upstream, ResourceOf(a), ParamsOf(a, params), TtlOf(a))
  }

  method Request(c: TtlCache, env: Env, upstream: Upstream, a: Accessor, params: seq<Prop>)
    returns (r: Result<Value, ClientError>, called: bool)
    modifies c
    ensures FetchStep(r, called, c.entries) == Via(old(c.entries), env, upstream, a, params)
  {
    r, called := Fetch(c, env, upstream, ResourceOf(a), ParamsOf(a, params), TtlOf(a));
  }

  /** Every accessor caches what it fetches (its TTL is positive), for the
      lifetime of its row in the table below; with caching on, a payload it
      stores is answered from the cache for exactly that long. */
  lemma AccessorCachedForItsTtl(m: map<string, Entry>, env1: Env, env2: Env, up1: Upstream,
                                up2: Upstream, a: Accessor, params: seq<Prop>)
    requires env1.cacheEnabled && !env1.setFault && env2.cacheEnabled && !env2.getFault
    requires Via(m, env1, up1, a, params).called
    requires Via(m, env1, up1, a, params).result.Success?
    requires Truthy(Via(m, env1, up1, a, params).result.value)
    ensures TtlOf(a) > 0
    ensures var s2 := Via(Via(m, env1, up1, a, params).entries, env2, up2, a, params);
      !s2.called <==> env2.now < env1.storedAt + TtlOf(a)
  {
    FetchTwice(m, env1, env2, up1, up2, ResourceOf(a), ParamsOf(a, params), TtlOf(a));
  }

  /** The lifetimes per accessor. */
  lemma AccessorTtls()
    ensures TtlOf(All) == 60 && TtlOf(Users) == 180 && TtlOf(Announcements) == 120
    ensures TtlOf(Attendance) == 300 && TtlOf(Tasks) == 180 && TtlOf(Events) == 180
    ensures TtlOf(Quizzes) == 120 && TtlOf(ActiveQuizzes) == 60 && TtlOf(Projects) == 300
    ensures TtlOf(ProjectReviews) == 120 && TtlOf(Resources) == 600 && TtlOf(SupportTickets) == 60
  {
  }

  /** `getActiveQuizzes` always asks for active quizzes, whatever `isActive`
      the caller passed, and passes the caller's other parameters on. */
  lemma ActiveQuizzesForceActive(params: seq<Prop>, key: string)
    ensures GetProp(RequestParams("quizzes", ParamsOf(ActiveQuizzes, params)), "isActive") == Bool(true)
    ensures key != "isActive" && key != "resource" ==>
      GetProp(RequestParams("quizzes", ParamsOf(ActiveQuizzes, params)), key) == GetProp(Spread([], params), key)
  {
    var q := ParamsOf(ActiveQuizzes, params);
    SpreadDistinct([], params);
    SetPropDistinct(Spread([], params), "isActive", Bool(true));
    RequestParamsGet("quizzes", q, "isActive");
    SetPropGet(Spread([], params), "isActive", Bool(true), "isActive");
    RequestParamsGet("quizzes", q, key);
    SetPropGet(Spread([], params), "isActive", Bool(true), key);
    SetPropKeys(Spread([], params), "isActive", Bool(true));
    if !HasKey(Spread([], params), key) {
      GetPropAbsent(Spread([], params), key);
    }
  }

  /** Accessors of different resources never share a cache entry. */
  lemma AccessorsKeysDisjoint(a: Accessor, b: Accessor, p: seq<Prop>, q: seq<Prop>)
    requires ResourceOf(a) != ResourceOf(b)
    ensures CacheKey(ResourceOf(a), ParamsOf(a, p)) != CacheKey(ResourceOf(b), ParamsOf(b, q))
  {
    if CacheKey(ResourceOf(a), ParamsOf(a, p)) == CacheKey(ResourceOf(b), ParamsOf(b, q)) {
      CacheKeyInjective(ResourceOf(a), ParamsOf(a, p), ResourceOf(b), ParamsOf(b, q));
    }
  }

  // ------------------------------------------------ the joined reads

  /** The outcome of an operation built on several fetches, and the cache afterwards. */
  datatype Run<T> = Run(result: Result<T, ClientError>, entries: map<string, Entry>)

  /** `payload.data`, read as an array. */
  function DataOf(payload: Value): seq<Value> {
    ListOr(Get(payload, "data"))
  }

  /** `{ ...params, limit: 1000 }`. */
  function WithLimit(params: seq<Prop>): seq<Prop> {
    SetProp(Spread([], params), "limit", Num(1000))
  }

  /** `getUserById(userId, params)`. */
  function UserByIdRun(m: map<string, Entry>, env: Env, upstream: Upstream, userId: Value,
                       params: seq<Prop>): Run<Value>
  {
    var s := Via(m, env, upstream, Users, WithLimit(params));
    if s.result.Failure? then Run(Failure(s.result.error), s.entries)
    else
      match FindBy(DataOf(s.result.value), "id", userId)
      case Some(u) => Run(Success(u), s.entries)
      case None => Run(Failure(PlainError(UserNotFound)), s.entries)
  }

  method GetUserById(c: TtlCache, env: Env, upstream: Upstream, userId: Value, params: seq<Prop>)
    returns (r: Result<Value, ClientError>)
    modifies c
    ensures Run(r, c.entries) == UserByIdRun(old(c.entries), env, upstream, userId, params)
  {
    var users, _ := Request(c, env, upstream, Users, WithLimit(params));
    if users.Failure? {
      return Failure(users.error);
    }
    var found := FindBy(DataOf(users.value), "id", userId);
    if found.None? {
      return Failure(PlainError(UserNotFound));
    }
    r := Success(found.value);
  }

  /** `getUserById` asks for the users with `limit: 1000` whatever limit
      the caller passed; it answers the first listed user with the id, and
      "User not found" when there is none. */
  lemma UserByIdOutcome(m: map<string, Entry>, env: Env, upstream: Upstream, userId: Value,
                        params: seq<Prop>)
    ensures GetProp(WithLimit(params), "limit") == Num(1000)
    ensures var s := Via(m, env, upstream, Users, WithLimit(params));
      var r := UserByIdRun(m, env, upstream, userId, params).result;
      (s.result.Failure? ==> r == Failure(s.result.error)) &&
      (s.result.Success? ==>
         var users := DataOf(s.result.value);
         (r.Failure? <==> forall i :: 0 <= i < |users| ==> Get(users[i], "id") != userId) &&
         (r.Failure? ==> r.error == PlainError(UserNotFound)) &&
         (r.Success? ==> exists i :: 0 <= i < |users| && users[i] == r.value
                            && Get(users[i], "id") == userId
                            && forall j :: 0 <= j < i ==> Get(users[j], "id") != userId))
  {
    SetPropGet(Spread([], params), "limit", Num(1000), "limit");
  }

  const WithRelations: seq<Prop> := [Prop("includeRelations", Bool(true))]

  /** The error `Promise.all` rejects with when its requests are taken in
      array order: that of the first one that failed, and none when all of
      them succeeded. */
  function FirstFailure<T>(rs: seq<Result<T, ClientError>>): (r: Option<ClientError>)
    ensures r.None? <==> forall i :: 0 <= i < |rs| ==> rs[i].Success?
    ensures r.Some? ==> exists i :: 0 <= i < |rs| && rs[i] == Failure(r.value)
                                    && forall j :: 0 <= j < i ==> rs[j].Success?
    decreases |rs|
  {
    if |rs| == 0 then None
    else if rs[0].Failure? then Some(rs[0].error)
    else
      var r := FirstFailure(rs[1..]);
      assert forall i :: 0 <= i < |rs| - 1 ==> rs[1..][i] == rs[i + 1];
      r
  }

  /** A failed accessor call rejects with a handled error. */
  lemma ViaFailureHandled(m: map<string, Entry>, env: Env, upstream: Upstream, a: Accessor,
                          params: seq<Prop>)
    ensures Via(m, env, upstream, a, params).result.Failure? ==>
            Via(m, env, upstream, a, params).result.error.PlainError?
  {
  }

  /** What `Promise.all` over three settled requests yields, on the cache
      they left: the first failure in array order, or `build` over the three
      payloads. */
  function Join3<A>(t: Result<Value, ClientError>, q: Result<Value, ClientError>,
                    e: Result<Value, ClientError>, build: (Value, Value, Value) -> A,
                    entries: map<string, Entry>)
    : (r: Run<A>)
    ensures r.entries == entries
  {
    match FirstFailure([t, q, e])
    case Some(err) => Run(Failure(err), entries)
    case None =>
      assert [t, q, e][0] == t && [t, q, e][1] == q && [t, q, e][2] == e;
      Run(Success(build(t.value, q.value, e.value)), entries)
  }

  /** The joined read fails exactly when one request failed, with the error
      of the first in array order, and otherwise answers `build` over the
      payloads. */
  lemma Join3Outcome<A>(t: Result<Value, ClientError>, q: Result<Value, ClientError>,
                        e: Result<Value, ClientError>, build: (Value, Value, Value) -> A,
                        entries: map<string, Entry>)
    ensures var r := Join3(t, q, e, build, entries);
      && (r.result.Failure? <==> t.Failure? || q.Failure? || e.Failure?)
      && (t.Failure? ==> r.result == Failure(t.error))
      && (t.Success? && q.Failure? ==> r.result == Failure(q.error))
      && (t.Success? && q.Success? && e.Failure? ==> r.result == Failure(e.error))
      && (r.result.Success? ==> r.result.value == build(t.value, q.value, e.value))
  {
    var rs := [t, q, e];
    assert rs[0] == t && rs[1] == q && rs[2] == e;
  }

  /** What `Promise.all` over four settled requests yields, on the cache
      they left. */
  function Join4<A>(t: Result<Value, ClientError>, q: Result<Value, ClientError>,
                    e: Result<Value, ClientError>, u: Result<Value, ClientError>,
                    build: (Value, Value, Value, Value) -> A, entries: map<string, Entry>)
    : (r: Run<A>)
    ensures r.entries == entries
  {
    match FirstFailure([t, q, e, u])
    case Some(err) => Run(Failure(err), entries)
    case None =>
      assert [t, q, e, u][0] == t && [t, q, e, u][1] == q && [t, q, e, u][2] == e && [t, q, e, u][3] == u;
      Run(Success(build(t.value, q.value, e.value, u.value)), entries)
  }

  /** Four joined requests fail exactly when one failed, with the error of
      the first in array order, and otherwise answer `build` over the payloads. */
  lemma Join4Outcome<A>(t: Result<Value, ClientError>, q: Result<Value, ClientError>,
                        e: Result<Value, ClientError>, u: Result<Value, ClientError>,
                        build: (Value, Value, Value, Value) -> A, entries: map<string, Entry>)
    ensures var r := Join4(t, q, e, u, build, entries);
      && (r.result.Failure? <==> t.Failure? || q.Failure? || e.Failure? || u.Failure?)
      && (t.Failure? ==> r.result == Failure(t.error))
      && (t.Success? && q.Failure? ==> r.result == Failure(q.error))
      && (t.Success? && q.Success? && e.Failure? ==> r.result == Failure(e.error))
      && (t.Success? && q.Success? && e.Success? && u.Failure? ==> r.result == Failure(u.error))
      && (r.result.Success? ==> r.result.value == build(t.value, q.value, e.value, u.value))
  {
    var rs := [t, q, e, u];
    assert rs[0] == t && rs[1] == q && rs[2] == e && rs[3] == u;
  }

  /** The statistics over the `data` arrays of the tasks, quizzes and events payloads. */
  function StatsOfPayloads(userId: Value): (Value, Value, Value) -> Aggregation.UserStats {
    (t: Value, q: Value, e: Value) => Aggregation.UserStatsOf(DataOf(t), DataOf(q), DataOf(e), userId)
  }

  /** `getUserStats(userId)`: the tasks, quizzes and events requests are all
      issued, each on the cache the previous one left, and the statistics
      over their `data` arrays are built once all three have succeeded. */
  function UserStatsRun(m: map<string, Entry>, env: Env, upstream: Upstream, userId: Value)
    : Run<Aggregation.UserStats>
  {
    var t := Via(m, env, upstream, Tasks, WithRelations);
    var q := Via(t.entries, env, upstream, Quizzes, WithRelations);
    var e := Via(q.entries, env, upstream, Events, WithRelations);
    Join3(t.result, q.result, e.result, StatsOfPayloads(userId), e.entries)
  }

  method GetUserStats(c: TtlCache, env: Env, upstream: Upstream, userId: Value)
    returns (r: Result<Aggregation.UserStats, ClientError>)
    modifies c
    ensures Run(r, c.entries) == UserStatsRun(old(c.entries), env, upstream, userId)
  {
    var tasks, _ := Request(c, env, upstream, Tasks, WithRelations);
    var quizzes, _ := Request(c, env, upstream, Quizzes, WithRelations);
    var events, _ := Request(c, env, upstream, Events, WithRelations);
    var failed := FirstFailure([tasks, quizzes, events]);
    if failed.Some? {
      return Failure(failed.value);
    }
    assert [tasks, quizzes, events][0] == tasks;
    assert [tasks, quizzes, events][1] == quizzes;
    assert [tasks, quizzes, events][2] == events;
    r := Success(Aggregation.UserStatsOf(DataOf(tasks.value), DataOf(quizzes.value), DataOf(events.value), userId));
  }

  /** `getUserStats` issues all three requests whatever their outcomes, so
      the cache ends as the three calls leave it; the read fails exactly
      when one of them fails, with the handled error of the first failed
      one, and otherwise answers the statistics of the three payloads. */
  lemma UserStatsRunOutcome(m: map<string, Entry>, env: Env, upstream: Upstream, userId: Value)
    ensures var t := Via(m, env, upstream, Tasks, WithRelations);
      var q := Via(t.entries, env, upstream, Quizzes, WithRelations);
      var e := Via(q.entries, env, upstream, Events, WithRelations);
      var r := UserStatsRun(m, env, upstream, userId);
      && r.entries == e.entries
      && (r.result.Failure? <==> t.result.Failure? || q.result.Failure? || e.result.Failure?)
      && (t.result.Failure? ==> r.result == Failure(t.result.error))
      && (t.result.Success? && q.result.Failure? ==> r.result == Failure(q.result.error))
      && (t.result.Success? && q.result.Success? && e.result.Failure? ==> r.result == Failure(e.result.error))
      && (r.result.Failure? ==> r.result.error.PlainError?)
      && (r.result.Success? ==>
            r.result.value == Aggregation.UserStatsOf(DataOf(t.result.value), DataOf(q.result.value),
                                                      DataOf(e.result.value), userId))
  {
    var t := Via(m, env, upstream, Tasks, WithRelations);
    var q := Via(t.entries, env, upstream, Quizzes, WithRelations);
    var e := Via(q.entries, env, upstream, Events, WithRelations);
    ViaFailureHandled(m, env, upstream, Tasks, WithRelations);
    ViaFailureHandled(t.entries, env, upstream, Quizzes, WithRelations);
    ViaFailureHandled(q.entries, env, upstream, Events, WithRelations);
    Join3Outcome(t.result, q.result, e.result, StatsOfPayloads(userId), e.entries);
  }

  const LeaderboardLimit := 50
  const WithRelationsAll: seq<Prop> := [Prop("includeRelations", Bool(true)), Prop("limit", Num(1000))]
  const CompleteProfiles: seq<Prop> := [Prop("limit", Num(1000)), Prop("profileComplete", Bool(true))]

  /** The board over the users, tasks, quizzes and events payloads' `data` arrays. */
  function BoardOfPayloads(limit: int): (Value, Value, Value, Value) -> seq<Aggregation.Entry> {
    (t: Value, q: Value, e: Value, u: Value) =>
      Aggregation.LeaderboardOf(DataOf(u), DataOf(t), DataOf(q), DataOf(e), limit)
  }

  /** `getLeaderboard(limit)`: the tasks, quizzes, events and users requests
      are all issued, each on the cache the previous one left, and the board
      is built once all four have succeeded. */
  function LeaderboardRun(m: map<string, Entry>, env: Env, upstream: Upstream, limit: int)
    : Run<seq<Aggregation.Entry>>
  {
    var t := Via(m, env, upstream, Tasks, WithRelationsAll);
    var q := Via(t.entries, env, upstream, Quizzes, WithRelationsAll);
    var e := Via(q.entries, env, upstream, Events, WithRelationsAll);
    var u := Via(e.entries, env, upstream, Users, CompleteProfiles);
    Join4(t.result, q.result, e.result, u.result, BoardOfPayloads(limit), u.entries)
  }

  method GetLeaderboard(c: TtlCache, env: Env, upstream: Upstream, limit: int)
    returns (r: Result<seq<Aggregation.Entry>, ClientError>)
    modifies c
    ensures Run(r, c.entries) == LeaderboardRun(old(c.entries), env, upstream, limit)
  {
    var tasks, _ := Request(c, env, upstream, Tasks, WithRelationsAll);
    var quizzes, _ := Request(c, env, upstream, Quizzes, WithRelationsAll);
    var events, _ := Request(c, env, upstream, Events, WithRelationsAll);
    var users, _ := Request(c, env, upstream, Users, CompleteProfiles);
    var failed := FirstFailure([tasks, quizzes, events, users]);
    if failed.Some? {
      return Failure(failed.value);
    }
    assert [tasks, quizzes, events, users][0] == tasks;
    assert [tasks, quizzes, events, users][1] == quizzes;
    assert [tasks, quizzes, events, users][2] == events;
    assert [tasks, quizzes, events, users][3] == users;
    var board := Aggregation.BuildLeaderboard(DataOf(users.value), DataOf(tasks.value), DataOf(quizzes.value),
                                  DataOf(events.value), limit);
    r := Success(board);
  }

  /** With caching off the leaderboard read leaves the cache as it was. */
  lemma LeaderboardRunKeepsCache(m: map<string, Entry>, env: Env, upstream: Upstream, limit: int)
    requires !env.cacheEnabled
    ensures LeaderboardRun(m, env, upstream, limit).entries == m
  {
    ViaDisabled(m, env, upstream, Tasks, WithRelationsAll);
    ViaDisabled(m, env, upstream, Quizzes, WithRelationsAll);
    ViaDisabled(m, env, upstream, Events, WithRelationsAll);
    ViaDisabled(m, env, upstream, Users, CompleteProfiles);
  }

  /** `getLeaderboard` issues all four requests whatever their outcomes, so
      the cache ends as the four calls leave it; the read fails exactly when
      one of them fails, with the handled error of the first failed one, and
      otherwise answers the board built from the four payloads. */
  lemma LeaderboardRunOutcome(m: map<string, Entry>, env: Env, upstream: Upstream, limit: int)
    ensures var t := Via(m, env, upstream, Tasks, WithRelationsAll);
      var q := Via(t.entries, env, upstream, Quizzes, WithRelationsAll);
      var e := Via(q.entries, env, upstream, Events, WithRelationsAll);
      var u := Via(e.entries, env, upstream, Users, CompleteProfiles);
      var r := LeaderboardRun(m, env, upstream, limit);
      && r.entries == u.entries
      && (r.result.Failure? <==>
            t.result.Failure? || q.result.Failure? || e.result.Failure? || u.result.Failure?)
      && (t.result.Failure? ==> r.result == Failure(t.result.error))
      && (t.result.Success? && q.result.Failure? ==> r.result == Failure(q.result.error))
      && (t.result.Success? && q.result.Success? && e.result.Failure? ==> r.result == Failure(e.result.error))
      && (t.result.Success? && q.result.Success? && e.result.Success? && u.result.Failure? ==>
            r.result == Failure(u.result.error))
      && (r.result.Failure? ==> r.result.error.PlainError?)
      && (r.result.Success? ==>
            r.result.value == Aggregation.LeaderboardOf(DataOf(u.result.value), DataOf(t.result.value),
                                                        DataOf(q.result.value), DataOf(e.result.value), limit))
  {
    var t := Via(m, env, upstream, Tasks, WithRelationsAll);
    var q := Via(t.entries, env, upstream, Quizzes, WithRelationsAll);
    var e := Via(q.entries, env, upstream, Events, WithRelationsAll);
    var u := Via(e.entries, env, upstream, Users, CompleteProfiles);
    ViaFailureHandled(m, env, upstream, Tasks, WithRelationsAll);
    ViaFailureHandled(t.entries, env, upstream, Quizzes, WithRelationsAll);
    ViaFailureHandled(q.entries, env, upstream, Events, WithRelationsAll);
    ViaFailureHandled(e.entries, env, upstream, Users, CompleteProfiles);
    Join4Outcome(t.result, q.result, e.result, u.result, BoardOfPayloads(limit), u.entries);
  }

  /** When caching is off and every fetch succeeds, the board is the one
      computed from the four payloads' `data` arrays. */
  lemma LeaderboardRunComputes(m: map<string, Entry>, env: Env, upstream: Upstream, limit: int)
    requires !env.cacheEnabled
    requires upstream(RequestParams("tasks", WithRelationsAll)).Success?
    requires upstream(RequestParams("quizzes", WithRelationsAll)).Success?
    requires upstream(RequestParams("events", WithRelationsAll)).Success?
    requires upstream(RequestParams("users", CompleteProfiles)).Success?
    ensures LeaderboardRun(m, env, upstream, limit).result ==
            Success(Aggregation.LeaderboardOf(
              DataOf(upstream(RequestParams("users", CompleteProfiles)).value),
              DataOf(upstream(RequestParams("tasks", WithRelationsAll)).value),
              DataOf(upstream(RequestParams("quizzes", WithRelationsAll)).value),
              DataOf(upstream(RequestParams("events", WithRelationsAll)).value), limit))
  {
    ViaDisabled(m, env, upstream, Tasks, WithRelationsAll);
    ViaDisabled(m, env, upstream, Quizzes, WithRelationsAll);
    ViaDisabled(m, env, upstream, Events, WithRelationsAll);
    ViaDisabled(m, env, upstream, Users, CompleteProfiles);
    var t := Via(m, env, upstream, Tasks, WithRelationsAll);
    var q := Via(m, env, upstream, Quizzes, WithRelationsAll);
    var e := Via(m, env, upstream, Events, WithRelationsAll);
    var u := Via(m, env, upstream, Users, CompleteProfiles);
    assert t.entries == m && q.entries == m && e.entries == m;
    assert t.result == Success(upstream(RequestParams("tasks", WithRelationsAll)).value);
    assert q.result == Success(upstream(RequestParams("quizzes", WithRelationsAll)).value);
    assert e.result == Success(upstream(RequestParams("events", WithRelationsAll)).value);
    assert u.result == Success(upstream(RequestParams("users", CompleteProfiles)).value);
    Join4Outcome(t.result, q.result, e.result, u.result, BoardOfPayloads(limit), u.entries);
  }

  /** With caching off an accessor that passes its parameters on asks the
      upstream and leaves the cache as it was. */
  lemma ViaDisabled(m: map<string, Entry>, env: Env, upstream: Upstream, a: Accessor, params: seq<Prop>)
    requires !env.cacheEnabled && a != All && a != ActiveQuizzes
    ensures Via(m, env, upstream, a, params) ==
      FetchStep(match upstream(RequestParams(ResourceOf(a), params))
                case Success(d) => Success(d)
                case Failure(e) => Failure(HandleError(e)), true, m)
  {
  }
}
