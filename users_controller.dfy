/**
 * The two handlers of the users controller that compute something of their
 * own: `searchUsers`, a case-insensitive substring search over the name,
 * e-mail and username of up to 1000 users of a branch, and `getUserActivity`,
 * a user's task submissions, quiz attempts and event participations merged
 * into one list, most recent first.
 */
module UsersController {
  import opened Wrappers
  import opened Text
  import opened JsValue
  import opened Seqs
  import opened Sorting
  import Cache
  import Dashboard
  import Aggregation
  import Controllers

  type Reply = Controllers.Reply
  type Fetched = Controllers.Fetched
  type DateOf = Controllers.DateOf

  // ------------------------------------------------ searchUsers

  const SearchWindow := 1000
  const SearchResults := 50

  /** The parameters of the `getUsers` call: `{ branch, limit: 1000 }`. */
  function SearchParams(branch: Value): (ps: seq<Prop>)
    ensures GetProp(ps, "limit") == Num(SearchWindow) && GetProp(ps, "branch") == branch
  {
    [Prop("branch", branch), Prop("limit", Num(SearchWindow))]
  }

  /** `haystack.toLowerCase().includes(q.toLowerCase())`. */
  predicate Mentions(haystack: string, q: string) {
    Contains(Lower(haystack), Lower(q))
  }

  /** The filter callback on one user: `Some(b)` when it returns `b`, `None`
      when it throws a TypeError. The name and the query are lowered first,
      so either not being a string throws; the e-mail is read only when the
      name does not match, and must then be a string; the username is read
      last and through `?.`, so a missing one reads as no match. */
  function Match(user: Value, q: Value): Option<bool> {
    var name := Get(user, "name");
    if !name.Str? || !q.Str? then None
    else if Mentions(name.s, q.s) then Some(true)
    else
      var email := Get(user, "email");
      if !email.Str? then None
      else if Mentions(email.s, q.s) then Some(true)
      else
        var username := Get(user, "username");
        if username.Undefined? || username.Null? then Some(false)
        else if !username.Str? then None
        else Some(Mentions(username.s, q.s))
  }

  function Matched(q: Value): Value -> bool {
    u => Match(u, q) == Some(true)
  }

  /** `users.filter(...)`: the matching users in order, or `None` when the
      callback throws for some user. */
  function SearchFilter(users: seq<Value>, q: Value): (r: Option<seq<Value>>)
    ensures r.None? <==> exists i :: 0 <= i < |users| && Match(users[i], q).None?
    ensures r.Some? ==> r.value == Filter(users, Matched(q))
    decreases |users|
  {
    if |users| == 0 then Some([])
    else
      var last := users[|users| - 1];
      match SearchFilter(users[..|users| - 1], q)
      case None => None
      case Some(kept) =>
        match Match(last, q)
        case None => None
        case Some(b) => Some(kept + if b then [last] else [])
  }

  /** `searchUsers`, over what the `getUsers` call returned. */
  function Search(fetched: Fetched, q: Value): Reply {
    match fetched
    case Failure(e) => Controllers.Next(e)
    case Success(payload) =>
      match SearchFilter(Dashboard.DataOf(payload), q)
      case None => Controllers.TypeError
      case Some(found) => Controllers.Ok(Arr(Slice(found, SearchResults)))
  }

  /** `searchUsers`: the `getUsers({ branch, limit: 1000 })` call on the
      shared cache, then the search over what it resolved or rejected with. */
  method SearchUsers(c: Cache.TtlCache, env: Dashboard.Env, upstream: Dashboard.Upstream, branch: Value, q: Value)
    returns (reply: Reply)
    modifies c
    ensures var step := Dashboard.Via(old(c.entries), env, upstream, Dashboard.Users, SearchParams(branch));
      reply == Search(step.result, q) && c.entries == step.entries
  {
    var fetched, _ := Dashboard.Request(c, env, upstream, Dashboard.Users, SearchParams(branch));
    reply := Search(fetched, q);
  }

  /** The query the upstream receives names the `users` resource and passes
      the branch and the 1000-user window on. */
  lemma SearchQuery(branch: Value)
    ensures var query := Dashboard.RequestParams(Dashboard.ResourceOf(Dashboard.Users),
                                                 Dashboard.ParamsOf(Dashboard.Users, SearchParams(branch)));
      GetProp(query, "resource") == Str("users") && GetProp(query, "branch") == branch &&
      GetProp(query, "limit") == Num(SearchWindow)
  {
    var ps := SearchParams(branch);
    assert Keys(ps) == ["branch", "limit"] by {
      assert ps[1..] == [Prop("limit", Num(SearchWindow))];
      assert ps[1..][1..] == [];
      assert Keys(ps[1..]) == ["limit"];
    }
    assert DistinctKeys(ps) by {
      assert ["branch", "limit"][0] != ["branch", "limit"][1];
    }
    assert !HasKey(ps, "resource");
    Dashboard.RequestParamsGet("users", ps, "resource");
    Dashboard.RequestParamsGet("users", ps, "branch");
    Dashboard.RequestParamsGet("users", ps, "limit");
  }

  /** `JSON.stringify` leaves out an undefined branch, so a search without a
      branch shares its cache entry with `getUsers({ limit: 1000 })`. */
  lemma SearchKeyWithoutBranch()
    ensures Dashboard.CacheKey("users", SearchParams(Undefined)) ==
            Dashboard.CacheKey("users", [Prop("limit", Num(SearchWindow))])
  {
    assert SearchParams(Undefined)[1..] == [Prop("limit", Num(SearchWindow))];
  }

  /** A user whose name and e-mail are strings and whose username is a string
      or absent: the records the upstream serves. */
  predicate WellFormedUser(user: Value) {
    Get(user, "name").Str? && Get(user, "email").Str? &&
    (Get(user, "username").Str? || Get(user, "username").Undefined? || Get(user, "username").Null?)
  }

  /** For a string query and a well-formed user the callback never throws,
      and it accepts exactly when one of the three fields mentions the query;
      a query that is not a string throws for every user. */
  lemma MatchMeaning(user: Value, q: Value)
    ensures !q.Str? ==> Match(user, q).None?
    ensures q.Str? && WellFormedUser(user) ==>
      Match(user, q) == Some(
        Mentions(Get(user, "name").s, q.s) || Mentions(Get(user, "email").s, q.s) ||
        (Get(user, "username").Str? && Mentions(Get(user, "username").s, q.s)))
  {
  }

  /** The search answers the first 50 matching users in the order the
      dashboard listed them, all of them when there are at most 50, and
      throws exactly when the callback throws for one of the users. */
  lemma {:induction false} SearchAnswers(fetched: Fetched, q: Value)
    requires fetched.Success?
    ensures var users := Dashboard.DataOf(fetched.value);
      var r := Search(fetched, q);
      (r == Controllers.TypeError <==> exists i :: 0 <= i < |users| && Match(users[i], q).None?) &&
      (r != Controllers.TypeError ==>
        r.Ok? && r.data.Arr? &&
        |r.data.items| <= SearchResults &&
        IsPrefix(r.data.items, Filter(users, Matched(q))) &&
        (|Filter(users, Matched(q))| <= SearchResults ==> r.data.items == Filter(users, Matched(q))) &&
        forall u :: u in r.data.items ==> u in users && Match(u, q) == Some(true))
  {
    var users := Dashboard.DataOf(fetched.value);
    var f := SearchFilter(users, q);
    if f.Some? {
      var found := Filter(users, Matched(q));
      forall u | u in Slice(found, SearchResults)
        ensures u in users && Match(u, q) == Some(true)
      {
        assert u in found;
        FilterMembership(users, Matched(q), u);
      }
    }
  }

  /** The search does not depend on the case of the query. */
  lemma SearchCaseInsensitive(fetched: Fetched, q: string)
    ensures Search(fetched, Str(q)) == Search(fetched, Str(Lower(q)))
  {
    LowerIdempotent(q);
    if fetched.Success? {
      var users := Dashboard.DataOf(fetched.value);
      MatchSameFor(users, q);
    }
  }

  lemma {:induction false} MatchSameFor(users: seq<Value>, q: string)
    requires Lower(Lower(q)) == Lower(q)
    ensures SearchFilter(users, Str(q)) == SearchFilter(users, Str(Lower(q)))
    decreases |users|
  {
    if |users| > 0 {
      MatchSameFor(users[..|users| - 1], q);
      MatchLowered(users[|users| - 1], q);
    }
  }

  lemma MatchLowered(user: Value, q: string)
    requires Lower(Lower(q)) == Lower(q)
    ensures Match(user, Str(q)) == Match(user, Str(Lower(q)))
  {
  }

  lemma LowerIdempotent(s: string)
    ensures Lower(Lower(s)) == Lower(s)
  {
  }

  /** With no users there is nothing to filter, so even a missing `q`
      answers an empty list; with one user a missing `q` throws. */
  lemma SearchWithoutQuery(payload: Value, user: Value)
    ensures Dashboard.DataOf(payload) == [] ==>
              Search(Success(payload), Undefined) == Controllers.Ok(Arr([]))
    ensures Dashboard.DataOf(payload) == [user] ==>
              Search(Success(payload), Undefined) == Controllers.TypeError
  {
  }

  // ------------------------------------------------ getUserActivity

  /** `{ type: kind, ...r, timestamp: ts }`. */
  function Tagged(kind: string, r: Value, ts: Value): Value {
    Obj(SetProp(Spread([Prop("type", Str(kind))], PropsOf(r)), "timestamp", ts))
  }

  function TaskEntry(t: Value): Value {
    Tagged("task", t, Get(t, "submittedAt"))
  }

  /** A quiz attempt is dated by `completedAt || startedAt`. */
  function QuizEntry(a: Value): Value {
    var completed := Get(a, "completedAt");
    Tagged("quiz", a, if Truthy(completed) then completed else Get(a, "startedAt"))
  }

  function EventEntry(e: Value): Value {
    Tagged("event", e, Get(e, "participatedAt"))
  }

  /** The unsorted list: tasks, then quizzes, then events. */
  function Entries(stats: Aggregation.UserStats): (r: seq<Value>)
    ensures |r| == |stats.taskSubmissions| + |stats.quizAttempts| + |stats.eventParticipations|
  {
    Map(stats.taskSubmissions, TaskEntry) + Map(stats.quizAttempts, QuizEntry)
      + Map(stats.eventParticipations, EventEntry)
  }

  /** The sort key `new Date(x.timestamp)`; an invalid date sorts as 0. */
  function TimeKey(date: DateOf): Value -> int {
    x => match date(Get(x, "timestamp")) case Some(t) => t case None => 0
  }

  /** The sorted activity list. */
  function Activity(stats: Aggregation.UserStats, date: DateOf): seq<Value> {
    SortDesc(Entries(stats), TimeKey(date))
  }

  /** `getUserActivity`, over what `getUserStats` resolved or rejected with. */
  function ActivityReply(stats: Result<Aggregation.UserStats, Dashboard.ClientError>, date: DateOf): Reply {
    match stats
    case Failure(e) => Controllers.Next(e)
    case Success(s) => Controllers.Ok(Arr(Activity(s, date)))
  }

  /** The activity list holds each submission, attempt and participation
      once, most recent first, and entries of the same time keep the order
      tasks, quizzes, events. */
  lemma ActivityFacts(stats: Aggregation.UserStats, date: DateOf, k: int)
    ensures |Activity(stats, date)| ==
            |stats.taskSubmissions| + |stats.quizAttempts| + |stats.eventParticipations|
    ensures multiset(Activity(stats, date)) == multiset(Entries(stats))
    ensures NonIncreasing(Activity(stats, date), TimeKey(date))
    ensures WithKey(Activity(stats, date), TimeKey(date), k) == WithKey(Entries(stats), TimeKey(date), k)
  {
    SortDescFacts(Entries(stats), TimeKey(date));
    SortDescStable(Entries(stats), TimeKey(date), k);
  }

  /** Every submission, attempt and participation appears in the activity. */
  lemma ActivityMembers(stats: Aggregation.UserStats, date: DateOf)
    ensures forall t :: t in stats.taskSubmissions ==> TaskEntry(t) in Activity(stats, date)
    ensures forall a :: a in stats.quizAttempts ==> QuizEntry(a) in Activity(stats, date)
    ensures forall e :: e in stats.eventParticipations ==> EventEntry(e) in Activity(stats, date)
  {
    var es := Entries(stats);
    forall x | x in es ensures x in Activity(stats, date) {
      SortDescMembers(es, TimeKey(date), x);
    }
    forall t | t in stats.taskSubmissions ensures TaskEntry(t) in es {
      var i :| 0 <= i < |stats.taskSubmissions| && stats.taskSubmissions[i] == t;
      assert es[i] == TaskEntry(t);
    }
    forall a | a in stats.quizAttempts ensures QuizEntry(a) in es {
      var i :| 0 <= i < |stats.quizAttempts| && stats.quizAttempts[i] == a;
      assert es[|stats.taskSubmissions| + i] == QuizEntry(a);
    }
    forall e | e in stats.eventParticipations ensures EventEntry(e) in es {
      var i :| 0 <= i < |stats.eventParticipations| && stats.eventParticipations[i] == e;
      assert es[|stats.taskSubmissions| + |stats.quizAttempts| + i] == EventEntry(e);
    }
  }

  /** An entry carries the record's own fields, the timestamp the rule for
      its kind picks, and the kind as its `type` unless the record has a
      `type` of its own. */
  lemma TaggedFields(kind: string, r: Value, ts: Value, key: string)
    requires DistinctKeys(PropsOf(r))
    ensures Get(Tagged(kind, r, ts), "timestamp") == ts
    ensures !HasKey(PropsOf(r), "type") ==> Get(Tagged(kind, r, ts), "type") == Str(kind)
    ensures key != "timestamp" && HasKey(PropsOf(r), key) ==>
              Get(Tagged(kind, r, ts), key) == GetProp(PropsOf(r), key)
  {
    var spread := Spread([Prop("type", Str(kind))], PropsOf(r));
    SetPropGet(spread, "timestamp", ts, "timestamp");
    SetPropGet(spread, "timestamp", ts, "type");
    SetPropGet(spread, "timestamp", ts, key);
    SpreadGet([Prop("type", Str(kind))], PropsOf(r), "type");
    SpreadGet([Prop("type", Str(kind))], PropsOf(r), key);
  }

  /** A quiz attempt that was not completed is dated by its start. */
  lemma QuizEntryDate(a: Value)
    ensures Truthy(Get(a, "completedAt")) ==> Get(QuizEntry(a), "timestamp") == Get(a, "completedAt")
    ensures !Truthy(Get(a, "completedAt")) ==> Get(QuizEntry(a), "timestamp") == Get(a, "startedAt")
  {
    var ts := if Truthy(Get(a, "completedAt")) then Get(a, "completedAt") else Get(a, "startedAt");
    SetPropGet(Spread([Prop("type", Str("quiz"))], PropsOf(a)), "timestamp", ts, "timestamp");
  }

  /** A record's own `type` field is spread over the tag. */
  lemma OwnTypeOverridesTag()
    ensures Get(TaskEntry(Obj([Prop("type", Str("bonus"))])), "type") == Str("bonus")
  {
  }
}
