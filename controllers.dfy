/**
 * The route handlers of the quizzes, tasks, events, announcements, projects
 * and support controllers: each reads its records from the dashboard and
 * answers with a find, filter, flatMap, sort or slice over them.
 *
 * A handler is modelled as a function from what its dashboard call returned
 * (a payload, or the error that call raised) and the route's parameters to
 * the reply. `new Date(x)` is a parameter: a function from a field's value
 * to its time in milliseconds, `None` for an invalid date.
 */
module Controllers {
  import opened Wrappers
  import opened Text
  import opened JsValue
  import opened Seqs
  import opened Records
  import opened Sorting
  import Helpers
  import Cache
  import Dashboard
  import Aggregation

  /** What a handler answers: `{ success: true, data }`, an error status with
      `{ success: false, message }`, the dashboard's error passed to `next`, or
      a TypeError the handler itself raised, which `next` receives as well. */
  datatype Reply =
    | Ok(data: Value)
    | Fail(status: int, message: string)
    | Next(error: Dashboard.ClientError)
    | TypeError

  type Fetched = Result<Value, Dashboard.ClientError>

  /** `new Date(x).getTime()`, `None` standing for an invalid date. */
  type DateOf = Value -> Option<int>

  // ------------------------------------------------ query defaults

  const DefaultLimit := 50

  /** `parseInt(req.query.limit) || 50`. */
  function QueryLimit(query: Value): (n: int)
    ensures n != 0
  {
    Helpers.IntOr(Get(query, "limit"), DefaultLimit)
  }

  /** `parseInt(req.query.offset) || 0`. */
  function QueryOffset(query: Value): int {
    Helpers.IntOr(Get(query, "offset"), 0)
  }

  /** A missing, zero or non-numeric limit is 50, any other the number read;
      a missing or non-numeric offset is 0. */
  lemma QueryDefaults(query: Value)
    ensures Get(query, "limit") == Undefined ==> QueryLimit(query) == DefaultLimit
    ensures Get(query, "offset") == Undefined ==> QueryOffset(query) == 0
    ensures Helpers.ParseQuery(Get(query, "limit")) == None ==> QueryLimit(query) == DefaultLimit
    ensures Helpers.ParseQuery(Get(query, "limit")) == Some(0) ==> QueryLimit(query) == DefaultLimit
    ensures Helpers.ParseQuery(Get(query, "offset")) == None ==> QueryOffset(query) == 0
    ensures Helpers.ParseQuery(Get(query, "limit")).Some? && Helpers.ParseQuery(Get(query, "limit")).value != 0 ==>
              QueryLimit(query) == Helpers.ParseQuery(Get(query, "limit")).value
  {
    ParseIntNonNumeric("undefined");
  }

  /** `?limit=20` reads as 20. */
  lemma QueryLimitReadsNumber(n: int)
    requires n != 0
    ensures QueryLimit(Obj([Prop("limit", Str(IntToString(n)))])) == n
  {
    ParseIntRoundTrip(n);
  }

  // ------------------------------------------------ find by id

  /** The six record kinds that have a `*ById` handler. */
  datatype Kind = Quiz | Task | Event | Announcement | Project | Ticket

  /** The accessor a `*ById` handler reads through, and its parameters. */
  function ByIdAccessor(k: Kind): Dashboard.Accessor {
    match k
    case Quiz => Dashboard.Quizzes
    case Task => Dashboard.Tasks
    case Event => Dashboard.Events
    case Announcement => Dashboard.Announcements
    case Project => Dashboard.Projects
    case Ticket => Dashboard.SupportTickets
  }

  const AnnouncementWindow: seq<Prop> := [Prop("limit", Num(1000))]

  function ByIdParams(k: Kind): seq<Prop> {
    if k == Announcement then AnnouncementWindow else Dashboard.WithRelations
  }

  function NotFoundMessage(k: Kind): string {
    match k
    case Quiz => "Quiz not found"
    case Task => "Task not found"
    case Event => "Event not found"
    case Announcement => "Announcement not found"
    case Project => "Project not found"
    case Ticket => "Ticket not found"
  }

  const NotFound := 404

  function DataOf(payload: Value): seq<Value> {
    Dashboard.DataOf(payload)
  }

  /** `response.data.find(r => r.id === req.params.id)`: the first record
      whose `id` is the route's, and 404 with the kind's message exactly when
      there is none; a failed dashboard call is passed on unchanged. */
  function ById(k: Kind, fetched: Fetched, id: Value): (r: Reply)
    ensures fetched.Failure? ==> r == Next(fetched.error)
    ensures fetched.Success? ==>
      var rs := DataOf(fetched.value);
      (r.Ok? || r.Fail?) &&
      (r.Fail? <==> forall i :: 0 <= i < |rs| ==> Get(rs[i], "id") != id) &&
      (r.Fail? ==> r.status == NotFound && r.message == NotFoundMessage(k)) &&
      (r.Ok? ==> exists i :: 0 <= i < |rs| && rs[i] == r.data && Get(rs[i], "id") == id &&
                   forall j :: 0 <= j < i ==> Get(rs[j], "id") != id)
  {
    match fetched
    case Failure(e) => Next(e)
    case Success(payload) =>
      match FindBy(DataOf(payload), "id", id)
      case Some(r) => Ok(r)
      case None => Fail(NotFound, NotFoundMessage(k))
  }

  /** A `*ById` handler: its dashboard call on the shared cache (the
      announcements with `{ limit: 1000 }`, every other kind with
      `{ includeRelations: true }`), then `ById` over what it resolved or
      rejected with. */
  method GetById(c: Cache.TtlCache, env: Dashboard.Env, upstream: Dashboard.Upstream, k: Kind, id: Value)
    returns (reply: Reply)
    modifies c
    ensures var step := Dashboard.Via(old(c.entries), env, upstream, ByIdAccessor(k), ByIdParams(k));
      reply == ById(k, step.result, id) && c.entries == step.entries
  {
    var fetched, _ := Dashboard.Request(c, env, upstream, ByIdAccessor(k), ByIdParams(k));
    reply := ById(k, fetched, id);
  }

  /** The six not-found messages are pairwise different, so the message names the kind. */
  lemma NotFoundMessagesDiffer(k1: Kind, k2: Kind)
    ensures NotFoundMessage(k1) == NotFoundMessage(k2) ==> k1 == k2
  {
    if k1 != k2 {
      assert NotFoundMessage(k1)[0] != NotFoundMessage(k2)[0] ||
             NotFoundMessage(k1)[1] != NotFoundMessage(k2)[1];
    }
  }

  // ------------------------------------------------ nested lists

  /** The handlers that answer with one field of a found record. */
  datatype Nested = QuizResults | TaskSubmissions | EventParticipants

  function NestedKind(n: Nested): Kind {
    match n
    case QuizResults => Quiz
    case TaskSubmissions => Task
    case EventParticipants => Event
  }

  function NestedFieldOf(n: Nested): string {
    match n
    case QuizResults => "attempts"
    case TaskSubmissions => "submissions"
    case EventParticipants => "participations"
  }

  /** `x || []`. */
  function OrEmpty(v: Value): Value {
    if Truthy(v) then v else Arr([])
  }

  /** `getQuizResults`, `getTaskSubmissions`, `getEventParticipants`: the
      found record's field when it is set, `[]` when it is missing or falsy,
      and the by-id answer when no record is found or the call failed. */
  function NestedList(n: Nested, fetched: Fetched, id: Value): (r: Reply)
    ensures var b := ById(NestedKind(n), fetched, id);
      (b.Ok? && Truthy(Get(b.data, NestedFieldOf(n))) ==> r == Ok(Get(b.data, NestedFieldOf(n)))) &&
      (b.Ok? && !Truthy(Get(b.data, NestedFieldOf(n))) ==> r == Ok(Arr([]))) &&
      (!b.Ok? ==> r == b)
  {
    match ById(NestedKind(n), fetched, id)
    case Ok(r) => Ok(OrEmpty(Get(r, NestedFieldOf(n))))
    case other => other
  }

  // ------------------------------------------------ quiz leaderboard

  const QuizLeaderboardSize := 50

  function Completed(a: Value): bool { Truthy(Get(a, "completedAt")) }

  /** `b.score - a.score` as a sort key. */
  function Score(a: Value): int { NumOr0(Get(a, "score")) }

  /** The leaderboard of one quiz's attempts. */
  function RankAttempts(attempts: seq<Value>): seq<Value> {
    Slice(SortDesc(Filter(attempts, Completed), Score), QuizLeaderboardSize)
  }

  /** `getQuizLeaderboard`: an unknown quiz, or one without attempts,
      answers with an empty list. */
  function QuizLeaderboard(fetched: Fetched, id: Value): Reply {
    match fetched
    case Failure(e) => Next(e)
    case Success(payload) =>
      match FindBy(DataOf(payload), "id", id)
      case None => Ok(Arr([]))
      case Some(quiz) =>
        if !Truthy(Get(quiz, "attempts")) then Ok(Arr([]))
        else Ok(Arr(RankAttempts(ListOr(Get(quiz, "attempts")))))
  }

  /** Only completed attempts of the quiz, best score first, at most 50; all
      of them when fewer than 50 are completed. */
  lemma {:induction false} RankAttemptsFacts(attempts: seq<Value>)
    ensures |RankAttempts(attempts)| <= QuizLeaderboardSize
    ensures NonIncreasing(RankAttempts(attempts), Score)
    ensures forall a :: a in RankAttempts(attempts) ==> a in attempts && Completed(a)
    ensures |Filter(attempts, Completed)| <= QuizLeaderboardSize ==>
              multiset(RankAttempts(attempts)) == multiset(Filter(attempts, Completed))
  {
    var f := Filter(attempts, Completed);
    var s := SortDesc(f, Score);
    SortDescFacts(f, Score);
    var r := RankAttempts(attempts);
    assert r == s[..|r|];
    forall i, j | 0 <= i < j < |r| ensures Score(r[i]) >= Score(r[j]) {
      assert r[i] == s[i] && r[j] == s[j];
    }
    forall a | a in r ensures a in attempts && Completed(a) {
      SortDescMembers(f, Score, a);
      FilterMembership(attempts, Completed, a);
    }
    if |f| <= QuizLeaderboardSize {
      assert r == s;
    }
  }

  /** The kept attempts are the best-scoring completed ones: each kept copy is
      a completed attempt, and a completed attempt that is dropped (one of its
      copies, or its only one) is dropped only from a full leaderboard of 50,
      every entry of which scores at least as much. */
  lemma {:induction false} RankAttemptsKeepsTop(attempts: seq<Value>, a: Value)
    ensures multiset(RankAttempts(attempts)) <= multiset(Filter(attempts, Completed))
    ensures multiset(RankAttempts(attempts))[a] < multiset(Filter(attempts, Completed))[a] ==>
              |RankAttempts(attempts)| == QuizLeaderboardSize &&
              forall b :: b in RankAttempts(attempts) ==> Score(b) >= Score(a)
    ensures a in attempts && Completed(a) && a !in RankAttempts(attempts) ==>
              |RankAttempts(attempts)| == QuizLeaderboardSize &&
              forall b :: b in RankAttempts(attempts) ==> Score(b) >= Score(a)
  {
    var f := Filter(attempts, Completed);
    var r := RankAttempts(attempts);
    var rest := RankedSplit(attempts);
    FilterMembership(attempts, Completed, a);
    if a in attempts && Completed(a) && a !in r {
      assert multiset(r)[a] == 0 && multiset(f)[a] > 0;
    }
    if multiset(r)[a] < multiset(f)[a] {
      assert a in rest;
      RankAttemptsDropped(attempts, a, rest);
    }
  }

  /** The completed attempts are those kept followed by the `rest` that the
      slice cuts off. */
  lemma RankedSplit(attempts: seq<Value>) returns (rest: seq<Value>)
    ensures SortDesc(Filter(attempts, Completed), Score) == RankAttempts(attempts) + rest
    ensures multiset(Filter(attempts, Completed)) == multiset(RankAttempts(attempts)) + multiset(rest)
  {
    var s := SortDesc(Filter(attempts, Completed), Score);
    SortDescFacts(Filter(attempts, Completed), Score);
    rest := s[|RankAttempts(attempts)|..];
    assert s == RankAttempts(attempts) + rest;
  }

  /** An attempt that the slice cuts off scores no more than any kept one, and
      the slice was full. */
  lemma RankAttemptsDropped(attempts: seq<Value>, a: Value, rest: seq<Value>)
    requires SortDesc(Filter(attempts, Completed), Score) == RankAttempts(attempts) + rest
    requires a in rest
    ensures |RankAttempts(attempts)| == QuizLeaderboardSize
    ensures forall b :: b in RankAttempts(attempts) ==> Score(b) >= Score(a)
  {
    var s := SortDesc(Filter(attempts, Completed), Score);
    SortDescFacts(Filter(attempts, Completed), Score);
    var r := RankAttempts(attempts);
    var k :| 0 <= k < |rest| && rest[k] == a;
    assert s[|r| + k] == a;
    forall b | b in r ensures Score(b) >= Score(a) {
      var i :| 0 <= i < |r| && r[i] == b;
      assert s[i] == b;
    }
  }

  /** Attempts that tie on score keep the order they were recorded in: the
      sort is stable. */
  lemma RankAttemptsStable(attempts: seq<Value>, k: int)
    ensures IsPrefix(WithKey(RankAttempts(attempts), Score, k),
                     WithKey(Filter(attempts, Completed), Score, k))
  {
    var s := SortDesc(Filter(attempts, Completed), Score);
    SortDescFacts(Filter(attempts, Completed), Score);
    SortDescStable(Filter(attempts, Completed), Score, k);
    WithKeyPrefix(s, |RankAttempts(attempts)|, Score, k);
  }

  /** The answer is always a list: empty for an unknown quiz or one without
      attempts, and otherwise at most 50 of the quiz's completed attempts,
      best score first. */
  lemma QuizLeaderboardAnswers(fetched: Fetched, id: Value)
    ensures fetched.Failure? ==> QuizLeaderboard(fetched, id) == Next(fetched.error)
    ensures fetched.Success? ==>
      var quiz := FindBy(DataOf(fetched.value), "id", id);
      var r := QuizLeaderboard(fetched, id);
      r.Ok? && r.data.Arr? &&
      (quiz.None? || !Truthy(Get(quiz.value, "attempts")) ==> r.data.items == []) &&
      |r.data.items| <= QuizLeaderboardSize &&
      NonIncreasing(r.data.items, Score) &&
      (quiz.Some? ==> forall a :: a in r.data.items ==>
                        a in ListOr(Get(quiz.value, "attempts")) && Completed(a))
  {
    if fetched.Success? {
      var quiz := FindBy(DataOf(fetched.value), "id", id);
      if quiz.Some? && Truthy(Get(quiz.value, "attempts")) {
        RankAttemptsFacts(ListOr(Get(quiz.value, "attempts")));
      }
    }
  }

  // ------------------------------------------------ per-user lists

  /** `records.flatMap(r => (r.<field> || []).filter(x => x.userId === userId))`. */
  function UserNested(records: seq<Value>, src: Aggregation.Source, userId: Value): seq<Value>
    decreases |records|
  {
    if |records| == 0 then []
    else
      var last := records[|records| - 1];
      UserNested(records[..|records| - 1], src, userId)
        + Filter(ListOr(Get(last, Aggregation.NestedField(src))), Aggregation.Owner(userId))
  }

  /** `getUserTaskSubmissions` and `getUserEventParticipations`. */
  function UserList(src: Aggregation.Source, fetched: Fetched, userId: Value): Reply {
    match fetched
    case Failure(e) => Next(e)
    case Success(payload) => Ok(Arr(UserNested(DataOf(payload), src, userId)))
  }

  /** The per-user list is, in order, exactly the nested records the
      leaderboard visits that belong to the user. */
  lemma {:induction false} UserNestedExactly(records: seq<Value>, src: Aggregation.Source, userId: Value)
    ensures UserNested(records, src, userId) ==
            Filter(Aggregation.Visited(records, src), Aggregation.Owner(userId))
    decreases |records|
  {
    if |records| > 0 {
      var t := records[..|records| - 1];
      var last := records[|records| - 1];
      var l := ListOr(Get(last, Aggregation.NestedField(src)));
      UserNestedExactly(t, src, userId);
      Aggregation.VisitedStep(records, |records| - 1, src);
      assert records[..|records|] == records;
      FilterAppend(Aggregation.Visited(t, src), l, Aggregation.Owner(userId));
    }
  }

  /** A record is listed exactly when it is nested in some fetched record
      and belongs to the user. */
  lemma UserListMembers(records: seq<Value>, src: Aggregation.Source, userId: Value, x: Value)
    ensures x in UserNested(records, src, userId) <==>
            x in Aggregation.Visited(records, src) && Get(x, "userId") == userId
  {
    UserNestedExactly(records, src, userId);
    FilterMembership(Aggregation.Visited(records, src), Aggregation.Owner(userId), x);
  }

  function PublishedBy(userId: Value): Value -> bool {
    p => Get(p, "publishedById") == userId
  }

  /** `getUserProjects`: the projects the user published. */
  function UserProjects(fetched: Fetched, userId: Value): Reply {
    match fetched
    case Failure(e) => Next(e)
    case Success(payload) => Ok(Arr(Filter(DataOf(payload), PublishedBy(userId))))
  }

  /** Each of the user's projects is listed as often as it was fetched, and
      no other project is listed. */
  lemma UserProjectsExactly(fetched: Fetched, userId: Value, p: Value)
    requires fetched.Success?
    ensures UserProjects(fetched, userId).Ok?
    ensures multiset(UserProjects(fetched, userId).data.items)[p] ==
            if Get(p, "publishedById") == userId then multiset(DataOf(fetched.value))[p] else 0
  {
    FilterMultiset(DataOf(fetched.value), PublishedBy(userId), p);
  }

  // ------------------------------------------------ time windows

  const WindowParams: seq<Prop> := [Prop("limit", Num(100))]

  function ActiveAt(date: DateOf, now: int): Value -> bool {
    t => (match date(Get(t, "startDate")) case Some(s) => s <= now case None => false)
      && (match date(Get(t, "dueDate")) case Some(d) => d >= now case None => false)
  }

  function UpcomingAt(date: DateOf, now: int): Value -> bool {
    e => match date(Get(e, "eventDate")) case Some(d) => d >= now case None => false
  }

  /** `getActiveTasks`, over the tasks a `{ limit: 100 }` request returned. */
  function ActiveTasks(fetched: Fetched, date: DateOf, now: int): Reply {
    match fetched
    case Failure(e) => Next(e)
    case Success(payload) => Ok(Arr(Filter(DataOf(payload), ActiveAt(date, now))))
  }

  /** `getUpcomingEvents`, over the events a `{ limit: 100 }` request returned. */
  function UpcomingEvents(fetched: Fetched, date: DateOf, now: int): Reply {
    match fetched
    case Failure(e) => Next(e)
    case Success(payload) => Ok(Arr(Filter(DataOf(payload), UpcomingAt(date, now))))
  }

  /** `getActiveTasks`: the `getTasks({ limit: 100 })` call on the shared
      cache, then the filter over what it resolved or rejected with. */
  method GetActiveTasks(c: Cache.TtlCache, env: Dashboard.Env, upstream: Dashboard.Upstream,
                        date: DateOf, now: int)
    returns (reply: Reply)
    modifies c
    ensures var step := Dashboard.Via(old(c.entries), env, upstream, Dashboard.Tasks, WindowParams);
      reply == ActiveTasks(step.result, date, now) && c.entries == step.entries
  {
    var fetched, _ := Dashboard.Request(c, env, upstream, Dashboard.Tasks, WindowParams);
    reply := ActiveTasks(fetched, date, now);
  }

  /** `getUpcomingEvents`: the `getEvents({ limit: 100 })` call on the shared
      cache, then the filter over what it resolved or rejected with. */
  method GetUpcomingEvents(c: Cache.TtlCache, env: Dashboard.Env, upstream: Dashboard.Upstream,
                           date: DateOf, now: int)
    returns (reply: Reply)
    modifies c
    ensures var step := Dashboard.Via(old(c.entries), env, upstream, Dashboard.Events, WindowParams);
      reply == UpcomingEvents(step.result, date, now) && c.entries == step.entries
  {
    var fetched, _ := Dashboard.Request(c, env, upstream, Dashboard.Events, WindowParams);
    reply := UpcomingEvents(fetched, date, now);
  }

  /** A fetched task is listed exactly when it has started and is not yet
      due; a task whose dates are invalid is never listed. */
  lemma ActiveTasksExactly(fetched: Fetched, date: DateOf, now: int, t: Value)
    requires fetched.Success?
    ensures ActiveTasks(fetched, date, now).Ok?
    ensures t in ActiveTasks(fetched, date, now).data.items <==>
            t in DataOf(fetched.value) &&
            date(Get(t, "startDate")).Some? && date(Get(t, "dueDate")).Some? &&
            date(Get(t, "startDate")).value <= now <= date(Get(t, "dueDate")).value
  {
    FilterMembership(DataOf(fetched.value), ActiveAt(date, now), t);
  }

  /** A fetched event is listed exactly when it takes place now or later. */
  lemma UpcomingEventsExactly(fetched: Fetched, date: DateOf, now: int, e: Value)
    requires fetched.Success?
    ensures UpcomingEvents(fetched, date, now).Ok?
    ensures e in UpcomingEvents(fetched, date, now).data.items <==>
            e in DataOf(fetched.value) &&
            date(Get(e, "eventDate")).Some? && date(Get(e, "eventDate")).value >= now
  {
    FilterMembership(DataOf(fetched.value), UpcomingAt(date, now), e);
  }

  /** As time passes, the upcoming events only shrink. */
  lemma UpcomingShrinks(fetched: Fetched, date: DateOf, now: int, later: int, e: Value)
    requires fetched.Success? && now <= later
    requires e in UpcomingEvents(fetched, date, later).data.items
    ensures e in UpcomingEvents(fetched, date, now).data.items
  {
    UpcomingEventsExactly(fetched, date, later, e);
    UpcomingEventsExactly(fetched, date, now, e);
  }

  // ------------------------------------------------ create ticket

  const NotImplemented := 501
  const TicketCreationMessage := "Ticket creation will be available in next version"

  /** `createTicket`: whatever the request, 501 and nothing is created. */
  function CreateTicket(body: Value): (r: Reply)
    ensures r.Fail? && r.status == NotImplemented
  {
    Fail(NotImplemented, TicketCreationMessage)
  }
}
