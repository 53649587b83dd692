/**
 * The two read models the dashboard client derives from the upstream
 * collections: per-user statistics and the global points leaderboard.
 * Inputs are the `data` arrays of the tasks, quizzes, events and users
 * payloads; each task, quiz and event carries its nested submissions,
 * attempts or participations.
 */
module Aggregation {
  import opened Wrappers
  import opened JsValue
  import opened Seqs
  import opened Sorting
  import opened Records

  /** The three kinds of nested activity record. */
  datatype Source = TaskSubmissions | QuizAttempts | EventParticipations

  /** The field of a task, quiz or event that holds its nested records. */
  function NestedField(src: Source): string {
    match src
    case TaskSubmissions => "submissions"
    case QuizAttempts => "attempts"
    case EventParticipations => "participations"
  }

  /** The field of a nested record that holds its points. */
  function PointsField(src: Source): string {
    match src
    case TaskSubmissions => "pointsAwarded"
    case QuizAttempts => "pointsEarned"
    case EventParticipations => "pointsAwarded"
  }

  /** `record.pointsAwarded || 0` (or `pointsEarned` for an attempt). */
  function Points(src: Source, r: Value): int {
    NumOr0(Get(r, PointsField(src)))
  }

  function PointsOf(src: Source): Value -> int {
    r => Points(src, r)
  }

  /** Whether a nested record earns leaderboard points: an approved
      submission, an attempt with a truthy `completedAt`, a participation
      with status `participated`. */
  predicate Scores(src: Source, r: Value) {
    match src
    case TaskSubmissions => Get(r, "status") == Str("approved")
    case QuizAttempts => Truthy(Get(r, "completedAt"))
    case EventParticipations => Get(r, "status") == Str("participated")
  }

  /** `r.userId === userId`. */
  predicate OwnedBy(userId: Value, r: Value) {
    Get(r, "userId") == userId
  }

  function Owner(userId: Value): Value -> bool {
    r => OwnedBy(userId, r)
  }

  /** `r.status === status`. */
  predicate StatusIs(status: string, r: Value) {
    Get(r, "status") == Str(status)
  }

  function HasStatus(status: string): Value -> bool {
    r => StatusIs(status, r)
  }

  // ---------------------------------------------------------------- user stats

  /** `collection.flatMap(c => c.<nested> || [])`. */
  function Nested(collection: seq<Value>, src: Source): seq<Value> {
    Flatten(seq(|collection|, i requires 0 <= i < |collection| =>
      FlatItems(Get(collection[i], NestedField(src)))))
  }

  /** `Nested(...).filter(r => r.userId === userId)`. */
  function UserRecords(collection: seq<Value>, src: Source, userId: Value): seq<Value> {
    Filter(Nested(collection, src), Owner(userId))
  }

  datatype UserStats = UserStats(
    totalPoints: int,
    tasksCompleted: nat,
    quizzesAttempted: nat,
    eventsAttended: nat,
    taskSubmissions: seq<Value>,
    quizAttempts: seq<Value>,
    eventParticipations: seq<Value>)

  /** The statistics object built from the user's three lists. */
  function StatsFrom(subs: seq<Value>, attempts: seq<Value>, parts: seq<Value>): (r: UserStats)
    ensures r.tasksCompleted <= |subs| && r.eventsAttended <= |parts|
    ensures r.quizzesAttempted == |attempts|
  {
    UserStats(
      Sum(subs, PointsOf(TaskSubmissions)) + Sum(attempts, PointsOf(QuizAttempts))
        + Sum(parts, PointsOf(EventParticipations)),
      |Filter(subs, HasStatus("approved"))|,
      |attempts|,
      |Filter(parts, HasStatus("participated"))|,
      subs, attempts, parts)
  }

  /** The statistics of a user without any activity. */
  const NoStats := UserStats(0, 0, 0, 0, [], [], [])

  /** The statistics `getUserStats(userId)` computes from the three collections. */
  function UserStatsOf(tasks: seq<Value>, quizzes: seq<Value>, events: seq<Value>, userId: Value)
    : UserStats
  {
    StatsFrom(UserRecords(tasks, TaskSubmissions, userId),
              UserRecords(quizzes, QuizAttempts, userId),
              UserRecords(events, EventParticipations, userId))
  }

  /** The lists hold exactly the user's nested records, each as often as it
      occurs among all nested records. */
  lemma {:induction false} UserRecordsExact(collection: seq<Value>, src: Source, userId: Value, r: Value)
    ensures r in UserRecords(collection, src, userId) <==>
            r in Nested(collection, src) && Get(r, "userId") == userId
    ensures multiset(UserRecords(collection, src, userId))[r] ==
            if Get(r, "userId") == userId then multiset(Nested(collection, src))[r] else 0
  {
    FilterMembership(Nested(collection, src), Owner(userId), r);
    FilterMultiset(Nested(collection, src), Owner(userId), r);
  }

  /** A record's points when the user owns it, and nothing otherwise. */
  function OwnedPoints(src: Source, userId: Value): Value -> int {
    Masked(Owner(userId), PointsOf(src))
  }

  /** Whether the user owns a record that has the given status. */
  function OwnedWithStatus(userId: Value, status: string): Value -> bool {
    Both(Owner(userId), HasStatus(status))
  }

  /** The statistics of the user's share of three record lists, in terms of
      the whole lists. */
  lemma StatsOfOwned(subs: seq<Value>, attempts: seq<Value>, parts: seq<Value>, userId: Value)
    ensures var st := StatsFrom(Filter(subs, Owner(userId)), Filter(attempts, Owner(userId)),
                                Filter(parts, Owner(userId)));
      && st.totalPoints == Sum(subs, OwnedPoints(TaskSubmissions, userId))
                           + Sum(attempts, OwnedPoints(QuizAttempts, userId))
                           + Sum(parts, OwnedPoints(EventParticipations, userId))
      && st.tasksCompleted == |Filter(subs, OwnedWithStatus(userId, "approved"))|
      && st.eventsAttended == |Filter(parts, OwnedWithStatus(userId, "participated"))|
  {
    SumFilter(subs, Owner(userId), PointsOf(TaskSubmissions));
    SumFilter(attempts, Owner(userId), PointsOf(QuizAttempts));
    SumFilter(parts, Owner(userId), PointsOf(EventParticipations));
    FilterFilter(subs, Owner(userId), HasStatus("approved"));
    FilterFilter(parts, Owner(userId), HasStatus("participated"));
  }

  /** `getUserStats` in terms of all nested records: `totalPoints` adds the
      points of every record the user owns whatever its status or
      completion, `tasksCompleted` and `eventsAttended` count the user's
      approved submissions and attended participations, `quizzesAttempted`
      counts all of the user's attempts, and the lists are the user's
      records. */
  lemma UserStatsExactly(tasks: seq<Value>, quizzes: seq<Value>, events: seq<Value>, userId: Value)
    ensures var st := UserStatsOf(tasks, quizzes, events, userId);
      && st.totalPoints == Sum(Nested(tasks, TaskSubmissions), OwnedPoints(TaskSubmissions, userId))
                           + Sum(Nested(quizzes, QuizAttempts), OwnedPoints(QuizAttempts, userId))
                           + Sum(Nested(events, EventParticipations), OwnedPoints(EventParticipations, userId))
      && st.tasksCompleted == |Filter(Nested(tasks, TaskSubmissions), OwnedWithStatus(userId, "approved"))|
      && st.quizzesAttempted == |UserRecords(quizzes, QuizAttempts, userId)|
      && st.eventsAttended ==
           |Filter(Nested(events, EventParticipations), OwnedWithStatus(userId, "participated"))|
      && st.taskSubmissions == UserRecords(tasks, TaskSubmissions, userId)
      && st.quizAttempts == UserRecords(quizzes, QuizAttempts, userId)
      && st.eventParticipations == UserRecords(events, EventParticipations, userId)
  {
    StatsOfOwned(Nested(tasks, TaskSubmissions), Nested(quizzes, QuizAttempts),
                 Nested(events, EventParticipations), userId);
  }

  /** One more submission adds its points to `totalPoints` whatever its
      status, and one to `tasksCompleted` exactly when it is approved. */
  lemma AddSubmission(subs: seq<Value>, attempts: seq<Value>, parts: seq<Value>, x: Value)
    ensures var st := StatsFrom(subs, attempts, parts);
      StatsFrom(subs + [x], attempts, parts) ==
        st.(totalPoints := st.totalPoints + Points(TaskSubmissions, x),
            tasksCompleted := st.tasksCompleted + (if Get(x, "status") == Str("approved") then 1 else 0),
            taskSubmissions := subs + [x])
  {
    SumSnoc(subs, x, PointsOf(TaskSubmissions));
    FilterSnoc(subs, x, HasStatus("approved"));
  }

  /** One more attempt adds its points and one to `quizzesAttempted`,
      completed or not. */
  lemma AddAttempt(subs: seq<Value>, attempts: seq<Value>, parts: seq<Value>, x: Value)
    ensures var st := StatsFrom(subs, attempts, parts);
      StatsFrom(subs, attempts + [x], parts) ==
        st.(totalPoints := st.totalPoints + Points(QuizAttempts, x),
            quizzesAttempted := st.quizzesAttempted + 1,
            quizAttempts := attempts + [x])
  {
    SumSnoc(attempts, x, PointsOf(QuizAttempts));
  }

  /** One more participation adds its points whatever its status, and one to
      `eventsAttended` exactly when its status is `participated`. */
  lemma AddParticipation(subs: seq<Value>, attempts: seq<Value>, parts: seq<Value>, x: Value)
    ensures var st := StatsFrom(subs, attempts, parts);
      StatsFrom(subs, attempts, parts + [x]) ==
        st.(totalPoints := st.totalPoints + Points(EventParticipations, x),
            eventsAttended := st.eventsAttended + (if Get(x, "status") == Str("participated") then 1 else 0),
            eventParticipations := parts + [x])
  {
    SumSnoc(parts, x, PointsOf(EventParticipations));
    FilterSnoc(parts, x, HasStatus("participated"));
  }

  /** A pending submission worth 7 points: the 7 points count towards
      `totalPoints`, yet no task counts as completed. */
  lemma PendingSubmissionExample()
    ensures StatsFrom([PendingSubmission], [], []).totalPoints == 7
    ensures StatsFrom([PendingSubmission], [], []).tasksCompleted == 0
  {
    AddSubmission([], [], [], PendingSubmission);
    EmptyStats();
    assert [] + [PendingSubmission] == [PendingSubmission];
  }

  const PendingSubmission: Value :=
    Obj([Prop("userId", Str("u1")), Prop("status", Str("pending")), Prop("pointsAwarded", Num(7))])

  /** The user is the owner of none of a collection's nested records. */
  predicate NoRecordsOf(collection: seq<Value>, src: Source, userId: Value) {
    forall r :: r in Nested(collection, src) ==> Get(r, "userId") != userId
  }

  /** A user with no nested record anywhere gets zero counters and empty lists. */
  lemma {:induction false} NoActivityGivesZeros(tasks: seq<Value>, quizzes: seq<Value>, events: seq<Value>,
                                                userId: Value)
    requires NoRecordsOf(tasks, TaskSubmissions, userId)
    requires NoRecordsOf(quizzes, QuizAttempts, userId)
    requires NoRecordsOf(events, EventParticipations, userId)
    ensures UserStatsOf(tasks, quizzes, events, userId) == NoStats
  {
    NoOwnRecords(tasks, TaskSubmissions, userId);
    NoOwnRecords(quizzes, QuizAttempts, userId);
    NoOwnRecords(events, EventParticipations, userId);
    StatsOfNoRecords(tasks, quizzes, events, userId);
  }

  lemma {:induction false} NoOwnRecords(collection: seq<Value>, src: Source, userId: Value)
    requires NoRecordsOf(collection, src, userId)
    ensures UserRecords(collection, src, userId) == []
  {
    FilterNone(Nested(collection, src), Owner(userId));
  }

  lemma {:induction false} StatsOfNoRecords(tasks: seq<Value>, quizzes: seq<Value>, events: seq<Value>,
                                            userId: Value)
    requires UserRecords(tasks, TaskSubmissions, userId) == []
    requires UserRecords(quizzes, QuizAttempts, userId) == []
    requires UserRecords(events, EventParticipations, userId) == []
    ensures UserStatsOf(tasks, quizzes, events, userId) == NoStats
  {
    EmptyStats();
  }

  lemma EmptyStats()
    ensures StatsFrom([], [], []) == NoStats
  {
  }

  // ---------------------------------------------------------------- leaderboard

  /** A user's running total, with the display fields copied from the roster. */
  datatype Acc = Acc(userId: Value, name: Value, email: Value, branch: Value,
                     admissionYear: Value, totalPoints: int)

  /** `{ rank, ...user }`. */
  datatype Entry = Entry(rank: nat, acc: Acc)

  function Ids(users: seq<Value>): (ids: seq<Value>)
    ensures |ids| == |users|
    ensures forall i :: 0 <= i < |users| ==> ids[i] == Get(users[i], "id")
  {
    seq(|users|, i requires 0 <= i < |users| => Get(users[i], "id"))
  }

  /** The keys of the `userPoints` Map after seeding: one per distinct id,
      in the order the ids first occur in the roster. */
  function Roster(users: seq<Value>): seq<Value> {
    Distinct(Ids(users))
  }

  /** The roster user whose seed the Map holds for `id`: the last one with
      that id, since a later `set` replaces an earlier one. */
  function LastWithId(users: seq<Value>, id: Value): (u: Value)
    requires id in Ids(users)
    ensures Get(u, "id") == id
    decreases |users|
  {
    var n := |users|;
    if Get(users[n - 1], "id") == id then users[n - 1]
    else
      assert Ids(users[..n - 1]) == Ids(users)[..n - 1];
      LastWithId(users[..n - 1], id)
  }

  function Seed(u: Value): Acc {
    Acc(Get(u, "id"), Get(u, "name"), Get(u, "email"), Get(u, "branch"), Get(u, "admissionYear"), 0)
  }

  /** `collection.forEach(c => c.<nested>?.forEach(...))` visits these records. */
  function Visited(collection: seq<Value>, src: Source): seq<Value> {
    Flatten(seq(|collection|, i requires 0 <= i < |collection| =>
      ListOr(Get(collection[i], NestedField(src)))))
  }

  /** The points the scoring records of `rs` give to `id`. */
  function PointsFor(rs: seq<Value>, src: Source, id: Value): int
    decreases |rs|
  {
    if |rs| == 0 then 0
    else
      var r := rs[|rs| - 1];
      PointsFor(rs[..|rs| - 1], src, id)
        + (if Scores(src, r) && Get(r, "userId") == id then Points(src, r) else 0)
  }

  function TotalFor(tasks: seq<Value>, quizzes: seq<Value>, events: seq<Value>, id: Value): int {
    PointsFor(Visited(tasks, TaskSubmissions), TaskSubmissions, id)
      + PointsFor(Visited(quizzes, QuizAttempts), QuizAttempts, id)
      + PointsFor(Visited(events, EventParticipations), EventParticipations, id)
  }

  function AccFor(users: seq<Value>, tasks: seq<Value>, quizzes: seq<Value>, events: seq<Value>,
                  id: Value): Acc
    requires id in Ids(users)
  {
    Seed(LastWithId(users, id)).(totalPoints := TotalFor(tasks, quizzes, events, id))
  }

  /** `Array.from(userPoints.values())` after all points are folded in. */
  function Accumulators(users: seq<Value>, tasks: seq<Value>, quizzes: seq<Value>, events: seq<Value>)
    : (accs: seq<Acc>)
    ensures |accs| == |Roster(users)|
  {
    var roster := Roster(users);
    seq(|roster|, j requires 0 <= j < |roster| => AccAt(users, tasks, quizzes, events, j))
  }

  function AccAt(users: seq<Value>, tasks: seq<Value>, quizzes: seq<Value>, events: seq<Value>, j: nat): Acc
    requires j < |Roster(users)|
  {
    DistinctMembership(Ids(users), Roster(users)[j]);
    AccFor(users, tasks, quizzes, events, Roster(users)[j])
  }

  function TotalKey(a: Acc): int { a.totalPoints }

  predicate Positive(a: Acc) { a.totalPoints > 0 }

  /** `.map((user, index) => ({ rank: index + 1, ...user }))`. */
  function Ranked(accs: seq<Acc>): (r: seq<Entry>)
    ensures |r| == |accs|
    ensures forall i :: 0 <= i < |r| ==> r[i] == Entry(i + 1, accs[i])
  {
    seq(|accs|, i requires 0 <= i < |accs| => Entry(i + 1, accs[i]))
  }

  /** The accumulators the leaderboard ranks, before ranking. */
  function Board(users: seq<Value>, tasks: seq<Value>, quizzes: seq<Value>, events: seq<Value>,
                 limit: int): seq<Acc>
  {
    Slice(SortDesc(Filter(Accumulators(users, tasks, quizzes, events), Positive), TotalKey), limit)
  }

  /** What `getLeaderboard(limit)` returns for the four collections. */
  function LeaderboardOf(users: seq<Value>, tasks: seq<Value>, quizzes: seq<Value>, events: seq<Value>,
                         limit: int): seq<Entry>
  {
    Ranked(Board(users, tasks, quizzes, events, limit))
  }

  // ------------------------------------------------ leaderboard properties

  /** `a` is the accumulator the Map ends up holding for a roster id. */
  predicate Tallied(users: seq<Value>, tasks: seq<Value>, quizzes: seq<Value>, events: seq<Value>, a: Acc) {
    a.userId in Ids(users) && a == AccFor(users, tasks, quizzes, events, a.userId)
  }

  lemma {:induction false} AccumulatorsFacts(users: seq<Value>, tasks: seq<Value>, quizzes: seq<Value>,
                                             events: seq<Value>)
    ensures forall j :: 0 <= j < |Roster(users)| ==>
      Accumulators(users, tasks, quizzes, events)[j].userId == Roster(users)[j]
    ensures forall a :: a in Accumulators(users, tasks, quizzes, events) ==> Tallied(users, tasks, quizzes, events, a)
    ensures NoDuplicates(Accumulators(users, tasks, quizzes, events))
  {
    var accs := Accumulators(users, tasks, quizzes, events);
    var roster := Roster(users);
    DistinctNoDuplicates(Ids(users));
    forall j | 0 <= j < |accs|
      ensures accs[j].userId == roster[j] && Tallied(users, tasks, quizzes, events, accs[j])
    {
      DistinctMembership(Ids(users), roster[j]);
    }
  }

  /** What every board, before ranking, is made of. */
  lemma {:induction false} BoardFacts(users: seq<Value>, tasks: seq<Value>, quizzes: seq<Value>,
                                      events: seq<Value>, limit: int)
    ensures forall a :: a in Board(users, tasks, quizzes, events, limit) ==>
      a in Accumulators(users, tasks, quizzes, events) && Positive(a)
    ensures forall a :: a in Board(users, tasks, quizzes, events, limit) ==> Tallied(users, tasks, quizzes, events, a)
    ensures NonIncreasing(Board(users, tasks, quizzes, events, limit), TotalKey)
    ensures NoDuplicates(Board(users, tasks, quizzes, events, limit))
    ensures |Board(users, tasks, quizzes, events, limit)| <= |Roster(users)|
  {
    var accs := Accumulators(users, tasks, quizzes, events);
    var scored := Filter(accs, Positive);
    var sorted := SortDesc(scored, TotalKey);
    var board := Board(users, tasks, quizzes, events, limit);
    AccumulatorsFacts(users, tasks, quizzes, events);
    SortDescFacts(scored, TotalKey);
    assert board == sorted[..|board|];
    forall a | a in board ensures a in accs && Positive(a) {
      SortDescMembers(scored, TotalKey, a);
      FilterMembership(accs, Positive, a);
    }
    forall x ensures multiset(sorted)[x] <= 1 {
      FilterMultiset(accs, Positive, x);
      NoDuplicatesCount(accs, x);
    }
    CountNoDuplicates(sorted);
  }

  /** Ranks are 1..n; every listed total is positive; totals never increase
      down the board; the board is no longer than `limit` (when `limit` is
      not negative) nor than the roster. */
  lemma {:induction false} LeaderboardShape(users: seq<Value>, tasks: seq<Value>, quizzes: seq<Value>,
                                            events: seq<Value>, limit: int)
    ensures var board := LeaderboardOf(users, tasks, quizzes, events, limit);
      && (forall i :: 0 <= i < |board| ==> board[i].rank == i + 1 && board[i].acc.totalPoints > 0)
      && (forall i, j :: 0 <= i < j < |board| ==> board[i].acc.totalPoints >= board[j].acc.totalPoints)
      && (limit >= 0 ==> |board| <= limit)
      && |board| <= |Roster(users)|
  {
    var b := Board(users, tasks, quizzes, events, limit);
    BoardFacts(users, tasks, quizzes, events, limit);
    forall i | 0 <= i < |b| ensures b[i].totalPoints > 0 {
      assert b[i] in b;
    }
  }

  /** Every entry is a roster user, with the display fields of the last
      roster user of that id and the total of that id's scoring records;
      no id appears twice. */
  lemma {:induction false} LeaderboardEntries(users: seq<Value>, tasks: seq<Value>, quizzes: seq<Value>,
                                              events: seq<Value>, limit: int)
    ensures var board := LeaderboardOf(users, tasks, quizzes, events, limit);
      && (forall i :: 0 <= i < |board| ==>
            board[i].acc.userId in Ids(users)
            && board[i].acc == AccFor(users, tasks, quizzes, events, board[i].acc.userId))
      && (forall i, j :: 0 <= i < j < |board| ==> board[i].acc.userId != board[j].acc.userId)
  {
    var b := Board(users, tasks, quizzes, events, limit);
    BoardFacts(users, tasks, quizzes, events, limit);
    forall i | 0 <= i < |b| ensures Tallied(users, tasks, quizzes, events, b[i]) {
      assert b[i] in b;
    }
  }

  /** A roster user with a positive total is either on the board or scores no
      more than anyone listed; with `limit` at least the roster size, every
      such user is listed. */
  lemma {:induction false} LeaderboardKeepsTop(users: seq<Value>, tasks: seq<Value>, quizzes: seq<Value>,
                                               events: seq<Value>, limit: int, id: Value)
    requires id in Ids(users) && TotalFor(tasks, quizzes, events, id) > 0
    ensures var board := LeaderboardOf(users, tasks, quizzes, events, limit);
      && ((exists i :: 0 <= i < |board| && board[i].acc.userId == id)
          || (forall i :: 0 <= i < |board| ==> board[i].acc.totalPoints >= TotalFor(tasks, quizzes, events, id)))
      && (limit >= |Roster(users)| ==> exists i :: 0 <= i < |board| && board[i].acc.userId == id)
  {
    var sorted := SortDesc(Filter(Accumulators(users, tasks, quizzes, events), Positive), TotalKey);
    var b := Board(users, tasks, quizzes, events, limit);
    var board := LeaderboardOf(users, tasks, quizzes, events, limit);
    var m := PlaceInSorted(users, tasks, quizzes, events, id);
    assert b == sorted[..|b|];
    if m < |b| {
      assert board[m].acc.userId == id;
    } else {
      assert forall i :: 0 <= i < |b| ==> b[i] == sorted[i];
    }
    if limit >= |Roster(users)| {
      assert |b| == |sorted|;
      assert board[m].acc.userId == id;
    }
  }

  /** Where a positive roster total sits in the sorted accumulators. */
  lemma {:induction false} PlaceInSorted(users: seq<Value>, tasks: seq<Value>, quizzes: seq<Value>,
                                         events: seq<Value>, id: Value) returns (m: nat)
    requires id in Ids(users) && TotalFor(tasks, quizzes, events, id) > 0
    ensures var sorted := SortDesc(Filter(Accumulators(users, tasks, quizzes, events), Positive), TotalKey);
      && m < |sorted| && sorted[m].userId == id && sorted[m].totalPoints == TotalFor(tasks, quizzes, events, id)
      && NonIncreasing(sorted, TotalKey) && |sorted| <= |Roster(users)|
  {
    var accs := Accumulators(users, tasks, quizzes, events);
    var scored := Filter(accs, Positive);
    var sorted := SortDesc(scored, TotalKey);
    DistinctMembership(Ids(users), id);
    var j := IndexOf(Roster(users), id);
    var a := accs[j];
    assert a == AccFor(users, tasks, quizzes, events, id);
    FilterMembership(accs, Positive, a);
    SortDescMembers(scored, TotalKey, a);
    SortDescFacts(scored, TotalKey);
    m :| 0 <= m < |sorted| && sorted[m] == a;
  }

  /** Equal totals keep roster order: for every total `k`, the listed users
      with total `k` are a prefix of the roster users with total `k`, in
      roster order. */
  lemma {:induction false} LeaderboardTiesInRosterOrder(users: seq<Value>, tasks: seq<Value>,
                                                        quizzes: seq<Value>, events: seq<Value>,
                                                        limit: int, k: int)
    ensures IsPrefix(WithKey(Board(users, tasks, quizzes, events, limit), TotalKey, k),
                     WithKey(Accumulators(users, tasks, quizzes, events), TotalKey, k))
  {
    var accs := Accumulators(users, tasks, quizzes, events);
    var scored := Filter(accs, Positive);
    var sorted := SortDesc(scored, TotalKey);
    var b := Board(users, tasks, quizzes, events, limit);
    if k > 0 {
      assert b == sorted[..|b|];
      WithKeyPrefix(sorted, |b|, TotalKey, k);
      SortDescStable(scored, TotalKey, k);
      forall x | KeyIs(TotalKey, k)(x) ensures Positive(x) { }
      FilterFilterImplied(accs, Positive, KeyIs(TotalKey, k));
    } else {
      BoardFacts(users, tasks, quizzes, events, limit);
      FilterNone(b, KeyIs(TotalKey, k));
    }
  }

  // ------------------------------------------------ points outside the roster

  lemma {:induction false} VisitedAppend(a: seq<Value>, b: seq<Value>, src: Source)
    ensures Visited(a + b, src) == Visited(a, src) + Visited(b, src)
  {
    var la := seq(|a|, i requires 0 <= i < |a| => ListOr(Get(a[i], NestedField(src))));
    var lb := seq(|b|, i requires 0 <= i < |b| => ListOr(Get(b[i], NestedField(src))));
    var lab := seq(|a + b|, i requires 0 <= i < |a + b| => ListOr(Get((a + b)[i], NestedField(src))));
    assert lab == la + lb;
    FlattenAppend(la, lb);
  }

  lemma {:induction false} PointsForAppend(x: seq<Value>, y: seq<Value>, src: Source, id: Value)
    ensures PointsFor(x + y, src, id) == PointsFor(x, src, id) + PointsFor(y, src, id)
    decreases |y|
  {
    if |y| == 0 {
      assert x + y == x;
    } else {
      var y' := y[..|y| - 1];
      assert (x + y)[..|x + y| - 1] == x + y';
      PointsForAppend(x, y', src, id);
    }
  }

  lemma {:induction false} PointsForOthers(rs: seq<Value>, src: Source, id: Value)
    requires forall r :: r in rs ==> Get(r, "userId") != id
    ensures PointsFor(rs, src, id) == 0
    decreases |rs|
  {
    if |rs| > 0 {
      assert forall r :: r in rs[..|rs| - 1] ==> r in rs;
      PointsForOthers(rs[..|rs| - 1], src, id);
    }
  }

  /** No one outside the roster. */
  predicate OutsideRoster(users: seq<Value>, collection: seq<Value>, src: Source) {
    forall r :: r in Visited(collection, src) ==> Get(r, "userId") !in Ids(users)
  }

  lemma {:induction false} ExtraPointsIgnored(users: seq<Value>, collection: seq<Value>, more: seq<Value>,
                                              src: Source, id: Value)
    requires OutsideRoster(users, more, src) && id in Ids(users)
    ensures PointsFor(Visited(collection + more, src), src, id) == PointsFor(Visited(collection, src), src, id)
  {
    VisitedAppend(collection, more, src);
    PointsForAppend(Visited(collection, src), Visited(more, src), src, id);
    PointsForOthers(Visited(more, src), src, id);
  }

  /** Records of users outside the roster change nothing: appending tasks,
      quizzes and events whose nested records all belong to non-roster users
      leaves the leaderboard as it was. */
  lemma {:induction false} NonRosterPointsIgnored(users: seq<Value>, tasks: seq<Value>, quizzes: seq<Value>,
                                                  events: seq<Value>, moreTasks: seq<Value>,
                                                  moreQuizzes: seq<Value>, moreEvents: seq<Value>, limit: int)
    requires OutsideRoster(users, moreTasks, TaskSubmissions)
    requires OutsideRoster(users, moreQuizzes, QuizAttempts)
    requires OutsideRoster(users, moreEvents, EventParticipations)
    ensures LeaderboardOf(users, tasks + moreTasks, quizzes + moreQuizzes, events + moreEvents, limit)
         == LeaderboardOf(users, tasks, quizzes, events, limit)
  {
    var before := Accumulators(users, tasks, quizzes, events);
    var after := Accumulators(users, tasks + moreTasks, quizzes + moreQuizzes, events + moreEvents);
    forall j | 0 <= j < |before| ensures after[j] == before[j] {
      var id := Roster(users)[j];
      DistinctMembership(Ids(users), id);
      ExtraPointsIgnored(users, tasks, moreTasks, TaskSubmissions, id);
      ExtraPointsIgnored(users, quizzes, moreQuizzes, QuizAttempts, id);
      ExtraPointsIgnored(users, events, moreEvents, EventParticipations, id);
    }
    assert after == before;
  }

  // ------------------------------------------------ leaderboard against statistics

  /** Every nested field is an array or falsy, so `?.forEach` and `|| []`
      visit the same records. */
  predicate ArrayShaped(collection: seq<Value>, src: Source) {
    forall i :: 0 <= i < |collection| ==>
      Get(collection[i], NestedField(src)).Arr? || !Truthy(Get(collection[i], NestedField(src)))
  }

  predicate NonNegativePoints(rs: seq<Value>, src: Source) {
    forall i :: 0 <= i < |rs| ==> Points(src, rs[i]) >= 0
  }

  lemma {:induction false} VisitedIsNested(collection: seq<Value>, src: Source)
    requires ArrayShaped(collection, src)
    ensures Visited(collection, src) == Nested(collection, src)
  {
    var a := seq(|collection|, i requires 0 <= i < |collection| => ListOr(Get(collection[i], NestedField(src))));
    var b := seq(|collection|, i requires 0 <= i < |collection| => FlatItems(Get(collection[i], NestedField(src))));
    assert a == b;
  }

  /** The leaderboard counts a subset of the records the statistics sum. */
  lemma {:induction false} PointsForAtMostSum(rs: seq<Value>, src: Source, id: Value)
    requires NonNegativePoints(rs, src)
    ensures PointsFor(rs, src, id) <= Sum(Filter(rs, Owner(id)), PointsOf(src))
    decreases |rs|
  {
    if |rs| > 0 {
      var t := rs[..|rs| - 1];
      var r := rs[|rs| - 1];
      assert t + [r] == rs;
      assert NonNegativePoints(t, src);
      PointsForAtMostSum(t, src, id);
      PointsForAtMostSumStep(t, r, src, id);
    }
  }

  lemma {:induction false} PointsForAtMostSumStep(t: seq<Value>, r: Value, src: Source, id: Value)
    requires PointsFor(t, src, id) <= Sum(Filter(t, Owner(id)), PointsOf(src))
    requires Points(src, r) >= 0
    ensures PointsFor(t + [r], src, id) <= Sum(Filter(t + [r], Owner(id)), PointsOf(src))
  {
    PointsForSnoc(t, r, src, id);
    FilterSnoc(t, r, Owner(id));
    var kept := Filter(t, Owner(id));
    if Get(r, "userId") == id {
      SumSnoc(kept, r, PointsOf(src));
    } else {
      assert kept + [] == kept;
    }
  }

  lemma PointsForSnoc(t: seq<Value>, r: Value, src: Source, id: Value)
    ensures PointsFor(t + [r], src, id)
         == PointsFor(t, src, id) + (if Scores(src, r) && Get(r, "userId") == id then Points(src, r) else 0)
  {
    assert (t + [r])[..|t|] == t;
  }

  /** A roster user's leaderboard total never exceeds the `totalPoints` of
      that user's statistics, when points are not negative and nested fields
      are arrays: the board counts only scoring records, the statistics
      count all of the user's records. */
  lemma {:induction false} LeaderboardWithinStats(tasks: seq<Value>, quizzes: seq<Value>, events: seq<Value>,
                                                  id: Value)
    requires ArrayShaped(tasks, TaskSubmissions) && ArrayShaped(quizzes, QuizAttempts)
    requires ArrayShaped(events, EventParticipations)
    requires NonNegativePoints(Nested(tasks, TaskSubmissions), TaskSubmissions)
    requires NonNegativePoints(Nested(quizzes, QuizAttempts), QuizAttempts)
    requires NonNegativePoints(Nested(events, EventParticipations), EventParticipations)
    ensures TotalFor(tasks, quizzes, events, id) <= UserStatsOf(tasks, quizzes, events, id).totalPoints
  {
    VisitedIsNested(tasks, TaskSubmissions);
    VisitedIsNested(quizzes, QuizAttempts);
    VisitedIsNested(events, EventParticipations);
    PointsForAtMostSum(Nested(tasks, TaskSubmissions), TaskSubmissions, id);
    PointsForAtMostSum(Nested(quizzes, QuizAttempts), QuizAttempts, id);
    PointsForAtMostSum(Nested(events, EventParticipations), EventParticipations, id);
  }

  // ------------------------------------------------ a worked example

  const ExampleUsers: seq<Value> :=
    [Obj([Prop("id", Str("u1"))]), Obj([Prop("id", Str("u2"))]), Obj([Prop("id", Str("u3"))])]
  const ExampleSubmission: Value :=
    Obj([Prop("userId", Str("u1")), Prop("status", Str("approved")), Prop("pointsAwarded", Num(10))])
  const ExampleCompleted: Value :=
    Obj([Prop("userId", Str("u2")), Prop("completedAt", Str("2024-01-01")), Prop("pointsEarned", Num(15))])
  const ExampleUnfinished: Value :=
    Obj([Prop("userId", Str("u3")), Prop("completedAt", Null), Prop("pointsEarned", Num(99))])
  const ExampleTasks: seq<Value> := [Obj([Prop("submissions", Arr([ExampleSubmission]))])]
  const ExampleQuizzes: seq<Value> := [Obj([Prop("attempts", Arr([ExampleCompleted, ExampleUnfinished]))])]

  function ExampleEntry(userId: string, total: int, rank: nat): Entry {
    Entry(rank, Acc(Str(userId), Undefined, Undefined, Undefined, Undefined, total))
  }

  lemma ExampleRecords()
    ensures Visited(ExampleTasks, TaskSubmissions) == [ExampleSubmission]
    ensures Visited(ExampleQuizzes, QuizAttempts) == [ExampleCompleted, ExampleUnfinished]
    ensures Nested(ExampleTasks, TaskSubmissions) == [ExampleSubmission]
    ensures Nested(ExampleQuizzes, QuizAttempts) == [ExampleCompleted, ExampleUnfinished]
  {
    assert Get(ExampleTasks[0], "submissions") == Arr([ExampleSubmission]);
    assert Get(ExampleQuizzes[0], "attempts") == Arr([ExampleCompleted, ExampleUnfinished]);
    var lt := seq(1, i requires 0 <= i < 1 => ListOr(Get(ExampleTasks[i], "submissions")));
    assert lt == [[ExampleSubmission]];
    assert Flatten(lt) == Flatten(lt[..0]) + [ExampleSubmission];
    var lq := seq(1, i requires 0 <= i < 1 => ListOr(Get(ExampleQuizzes[i], "attempts")));
    assert lq == [[ExampleCompleted, ExampleUnfinished]];
    assert Flatten(lq) == Flatten(lq[..0]) + [ExampleCompleted, ExampleUnfinished];
    var ft := seq(1, i requires 0 <= i < 1 => FlatItems(Get(ExampleTasks[i], "submissions")));
    assert ft == lt;
    var fq := seq(1, i requires 0 <= i < 1 => FlatItems(Get(ExampleQuizzes[i], "attempts")));
    assert fq == lq;
  }

  lemma ExampleTotals()
    ensures TotalFor(ExampleTasks, ExampleQuizzes, [], Str("u1")) == 10
    ensures TotalFor(ExampleTasks, ExampleQuizzes, [], Str("u2")) == 15
    ensures TotalFor(ExampleTasks, ExampleQuizzes, [], Str("u3")) == 0
  {
    ExampleRecords();
    assert Visited([], EventParticipations) == [];
    assert Scores(TaskSubmissions, ExampleSubmission) && Points(TaskSubmissions, ExampleSubmission) == 10;
    assert Get(ExampleSubmission, "userId") == Str("u1");
    assert Scores(QuizAttempts, ExampleCompleted) && Points(QuizAttempts, ExampleCompleted) == 15;
    assert Get(ExampleCompleted, "userId") == Str("u2");
    assert !Scores(QuizAttempts, ExampleUnfinished);
    assert [] + [ExampleSubmission] == [ExampleSubmission];
    assert [] + [ExampleCompleted] == [ExampleCompleted];
    assert [ExampleCompleted] + [ExampleUnfinished] == [ExampleCompleted, ExampleUnfinished];
    forall id | id in {Str("u1"), Str("u2"), Str("u3")}
      ensures PointsFor([ExampleSubmission], TaskSubmissions, id)
           == if id == Str("u1") then 10 else 0
      ensures PointsFor([ExampleCompleted, ExampleUnfinished], QuizAttempts, id)
           == if id == Str("u2") then 15 else 0
    {
      PointsForSnoc([], ExampleSubmission, TaskSubmissions, id);
      PointsForSnoc([], ExampleCompleted, QuizAttempts, id);
      PointsForSnoc([ExampleCompleted], ExampleUnfinished, QuizAttempts, id);
    }
  }

  lemma ExampleRoster()
    ensures Roster(ExampleUsers) == [Str("u1"), Str("u2"), Str("u3")]
  {
    ExampleIds();
    var u1, u2, u3 := Str("u1"), Str("u2"), Str("u3");
    assert [u1, u2, u3] == [u1, u2] + [u3];
    assert [u1, u2] == [u1] + [u2];
    assert [u1] == [] + [u1];
    DistinctSnoc([], u1);
    DistinctSnoc([u1], u2);
    DistinctSnoc([u1, u2], u3);
  }

  lemma ExampleIds()
    ensures Ids(ExampleUsers) == [Str("u1"), Str("u2"), Str("u3")]
  {
  }

  lemma ExampleScored(a1: Acc, a2: Acc, a3: Acc)
    requires a1.totalPoints == 10 && a2.totalPoints == 15 && a3.totalPoints == 0
    ensures Filter([a1, a2, a3], Positive) == [a1, a2]
  {
    assert [a1, a2, a3] == [a1, a2] + [a3];
    assert [a1, a2] == [a1] + [a2];
    assert [a1] == [] + [a1];
    FilterSnoc([], a1, Positive);
    FilterSnoc([a1], a2, Positive);
    FilterSnoc([a1, a2], a3, Positive);
  }

  lemma ExampleSorted(a1: Acc, a2: Acc)
    requires a1.totalPoints == 10 && a2.totalPoints == 15
    ensures SortDesc([a1, a2], TotalKey) == [a2, a1]
  {
    assert [a1, a2][1..] == [a2] && [a2][1..] == [];
    assert SortDesc([a2], TotalKey) == [a2];
    assert Insert(a1, [a2], TotalKey) == [a2, a1];
  }

  /** The board for three users where u1 has an approved 10-point submission,
      u2 a completed 15-point attempt and u3 only an unfinished 99-point
      attempt: u2 first, u1 second, u3 absent. */
  lemma LeaderboardExample()
    ensures LeaderboardOf(ExampleUsers, ExampleTasks, ExampleQuizzes, [], 50)
         == [ExampleEntry("u2", 15, 1), ExampleEntry("u1", 10, 2)]
  {
    var a1 := ExampleEntry("u1", 10, 0).acc;
    var a2 := ExampleEntry("u2", 15, 0).acc;
    var a3 := ExampleEntry("u3", 0, 0).acc;
    ExampleAccumulators();
    ExampleScored(a1, a2, a3);
    ExampleSorted(a1, a2);
    assert Slice([a2, a1], 50) == [a2, a1];
    assert Board(ExampleUsers, ExampleTasks, ExampleQuizzes, [], 50) == [a2, a1];
  }

  lemma ExampleAccumulators()
    ensures Accumulators(ExampleUsers, ExampleTasks, ExampleQuizzes, [])
         == [ExampleEntry("u1", 10, 0).acc, ExampleEntry("u2", 15, 0).acc, ExampleEntry("u3", 0, 0).acc]
  {
    ExampleRoster();
    ExampleTotals();
    ExampleSeeds();
  }

  lemma ExampleSeeds()
    ensures Str("u1") in Ids(ExampleUsers) && Seed(LastWithId(ExampleUsers, Str("u1"))) == ExampleEntry("u1", 0, 0).acc
    ensures Str("u2") in Ids(ExampleUsers) && Seed(LastWithId(ExampleUsers, Str("u2"))) == ExampleEntry("u2", 0, 0).acc
    ensures Str("u3") in Ids(ExampleUsers) && Seed(LastWithId(ExampleUsers, Str("u3"))) == ExampleEntry("u3", 0, 0).acc
  {
    var users := ExampleUsers;
    ExampleIds();
    assert users[..2][..1] == [users[0]] && users[..2] == [users[0], users[1]];
    assert LastWithId(users, Str("u3")) == users[2];
    assert LastWithId(users, Str("u2")) == users[1];
    assert LastWithId(users[..2], Str("u1")) == users[0];
    assert LastWithId(users, Str("u1")) == users[0];
  }

  lemma ExampleOwnRecords()
    ensures UserRecords(ExampleTasks, TaskSubmissions, Str("u3")) == []
    ensures UserRecords(ExampleQuizzes, QuizAttempts, Str("u3")) == [ExampleUnfinished]
    ensures UserRecords([], EventParticipations, Str("u3")) == []
  {
    ExampleRecords();
    assert Get(ExampleSubmission, "userId") == Str("u1");
    assert Get(ExampleCompleted, "userId") == Str("u2");
    assert Get(ExampleUnfinished, "userId") == Str("u3");
    var owner := Owner(Str("u3"));
    assert [] + [ExampleSubmission] == [ExampleSubmission];
    assert [] + [ExampleCompleted] == [ExampleCompleted];
    assert [ExampleCompleted] + [ExampleUnfinished] == [ExampleCompleted, ExampleUnfinished];
    FilterSnoc([], ExampleSubmission, owner);
    FilterSnoc([], ExampleCompleted, owner);
    FilterSnoc([ExampleCompleted], ExampleUnfinished, owner);
  }

  /** For the same data, u3's statistics count the unfinished attempt and its
      99 points, which the leaderboard ignores. */
  lemma StatsExample()
    ensures UserStatsOf(ExampleTasks, ExampleQuizzes, [], Str("u3")).quizzesAttempted == 1
    ensures UserStatsOf(ExampleTasks, ExampleQuizzes, [], Str("u3")).totalPoints == 99
  {
    ExampleOwnRecords();
    SumSnoc([], ExampleUnfinished, PointsOf(QuizAttempts));
    assert [] + [ExampleUnfinished] == [ExampleUnfinished];
    assert Points(QuizAttempts, ExampleUnfinished) == 99;
  }

  // ------------------------------------------------ building the board in place

  /** The `userPoints` Map after seeding from `users`. */
  function Seeded(users: seq<Value>): map<Value, Acc>
    decreases |users|
  {
    if |users| == 0 then map[]
    else
      var u := users[|users| - 1];
      Seeded(users[..|users| - 1])[Get(u, "id") := Seed(u)]
  }

  /** The Map holds one seed per roster id: the last user with that id. */
  lemma {:induction false} SeededFacts(users: seq<Value>, id: Value)
    ensures id in Seeded(users) <==> id in Ids(users)
    ensures id in Seeded(users) ==> Seeded(users)[id] == Seed(LastWithId(users, id))
    decreases |users|
  {
    if |users| > 0 {
      var n := |users|;
      assert Ids(users) == Ids(users[..n - 1]) + [Get(users[n - 1], "id")];
      SeededFacts(users[..n - 1], id);
    }
  }

  /** What one nested record does to the Map: a scoring record whose owner
      is in the Map adds its points to that owner's total. */
  function Credit(m: map<Value, Acc>, r: Value, src: Source): map<Value, Acc> {
    var uid := Get(r, "userId");
    if Scores(src, r) && uid in m then
      m[uid := m[uid].(totalPoints := m[uid].totalPoints + Points(src, r))]
    else m
  }

  /** The Map after one scoring pass over the records `rs`. */
  function Folded(accs: map<Value, Acc>, rs: seq<Value>, src: Source): map<Value, Acc>
    decreases |rs|
  {
    if |rs| == 0 then accs
    else Credit(Folded(accs, rs[..|rs| - 1], src), rs[|rs| - 1], src)
  }

  /** A pass never adds or removes a user; each user's total grows by the
      points of exactly the scoring records that user owns. */
  lemma {:induction false} FoldedFacts(accs: map<Value, Acc>, rs: seq<Value>, src: Source, id: Value)
    ensures id in Folded(accs, rs, src) <==> id in accs
    ensures id in accs ==>
      Folded(accs, rs, src)[id] == accs[id].(totalPoints := accs[id].totalPoints + PointsFor(rs, src, id))
    decreases |rs|
  {
    if |rs| > 0 {
      FoldedFacts(accs, rs[..|rs| - 1], src, id);
    }
  }

  /** Seeding from one more user: the Map gains or replaces that user's
      entry, and the key order gains the id unless it was already there. */
  lemma {:induction false} SeedStep(users: seq<Value>, i: nat)
    requires i < |users|
    ensures var id := Get(users[i], "id");
      && Seeded(users[..i + 1]) == Seeded(users[..i])[id := Seed(users[i])]
      && (id in Seeded(users[..i]) <==> id in Roster(users[..i]))
      && Roster(users[..i + 1])
         == if id in Roster(users[..i]) then Roster(users[..i]) else Roster(users[..i]) + [id]
  {
    var id := Get(users[i], "id");
    assert users[..i + 1][..i] == users[..i];
    assert Ids(users[..i + 1]) == Ids(users[..i]) + [id];
    assert (Ids(users[..i]) + [id])[..i] == Ids(users[..i]);
    DistinctMembership(Ids(users[..i]), id);
    SeededFacts(users[..i], id);
  }

  /** `users.data.forEach(user => userPoints.set(user.id, {...}))`. */
  method SeedRoster(users: seq<Value>) returns (keys: seq<Value>, accs: map<Value, Acc>)
    ensures keys == Roster(users)
    ensures accs == Seeded(users)
  {
    keys := [];
    accs := map[];
    var i := 0;
    while i < |users|
      invariant 0 <= i <= |users|
      invariant keys == Roster(users[..i])
      invariant accs == Seeded(users[..i])
    {
      var u := users[i];
      var id := Get(u, "id");
      SeedStep(users, i);
      if id !in accs {
        keys := keys + [id];
      }
      accs := accs[id := Seed(u)];
      i := i + 1;
    }
    assert users[..|users|] == users;
  }

  /** Walking one more task, quiz or event visits its nested list. */
  lemma {:induction false} VisitedStep(collection: seq<Value>, i: nat, src: Source)
    requires i < |collection|
    ensures Visited(collection[..i + 1], src)
         == Visited(collection[..i], src) + ListOr(Get(collection[i], NestedField(src)))
  {
    var lists := seq(i + 1, k requires 0 <= k < i + 1 => ListOr(Get(collection[..i + 1][k], NestedField(src))));
    assert lists[..i] == seq(i, k requires 0 <= k < i => ListOr(Get(collection[..i][k], NestedField(src))));
  }

  /** Two passes in a row are one pass over both record lists. */
  lemma {:induction false} FoldedAppend(accs: map<Value, Acc>, a: seq<Value>, b: seq<Value>, src: Source)
    ensures Folded(accs, a + b, src) == Folded(Folded(accs, a, src), b, src)
    decreases |b|
  {
    if |b| == 0 {
      assert a + b == a;
    } else {
      var b' := b[..|b| - 1];
      assert (a + b)[..|a + b| - 1] == a + b';
      FoldedAppend(accs, a, b', src);
    }
  }

  /** `c.<nested>?.forEach(...)` for one task, quiz or event. */
  method AddRecords(m: map<Value, Acc>, items: seq<Value>, src: Source) returns (out: map<Value, Acc>)
    ensures out == Folded(m, items, src)
  {
    out := m;
    var j := 0;
    while j < |items|
      invariant 0 <= j <= |items|
      invariant out == Folded(m, items[..j], src)
    {
      assert items[..j + 1][..j] == items[..j];
      out := Credit(out, items[j], src);
      j := j + 1;
    }
    assert items[..|items|] == items;
  }

  /** One `collection.forEach(c => c.<nested>?.forEach(...))` pass: every
      scoring record whose owner is in the Map adds its points there. */
  method AddPoints(accs: map<Value, Acc>, collection: seq<Value>, src: Source) returns (out: map<Value, Acc>)
    ensures out == Folded(accs, Visited(collection, src), src)
  {
    out := accs;
    var i := 0;
    while i < |collection|
      invariant 0 <= i <= |collection|
      invariant out == Folded(accs, Visited(collection[..i], src), src)
    {
      var items := ListOr(Get(collection[i], NestedField(src)));
      VisitedStep(collection, i, src);
      FoldedAppend(accs, Visited(collection[..i], src), items, src);
      out := AddRecords(out, items, src);
      i := i + 1;
    }
    assert collection[..|collection|] == collection;
  }

  /** The Map once all three passes are done. */
  function FinalMap(users: seq<Value>, tasks: seq<Value>, quizzes: seq<Value>, events: seq<Value>)
    : map<Value, Acc>
  {
    var m1 := Folded(Seeded(users), Visited(tasks, TaskSubmissions), TaskSubmissions);
    var m2 := Folded(m1, Visited(quizzes, QuizAttempts), QuizAttempts);
    Folded(m2, Visited(events, EventParticipations), EventParticipations)
  }

  /** The Map's values in key order are the accumulators. */
  lemma {:induction false} FinalMapValues(users: seq<Value>, tasks: seq<Value>, quizzes: seq<Value>,
                                          events: seq<Value>, j: nat)
    requires j < |Roster(users)|
    ensures Roster(users)[j] in FinalMap(users, tasks, quizzes, events)
    ensures FinalMap(users, tasks, quizzes, events)[Roster(users)[j]]
         == Accumulators(users, tasks, quizzes, events)[j]
  {
    var id := Roster(users)[j];
    DistinctMembership(Ids(users), id);
    SeededFacts(users, id);
    var m0 := Seeded(users);
    var m1 := Folded(m0, Visited(tasks, TaskSubmissions), TaskSubmissions);
    var m2 := Folded(m1, Visited(quizzes, QuizAttempts), QuizAttempts);
    FoldedFacts(m0, Visited(tasks, TaskSubmissions), TaskSubmissions, id);
    FoldedFacts(m1, Visited(quizzes, QuizAttempts), QuizAttempts, id);
    FoldedFacts(m2, Visited(events, EventParticipations), EventParticipations, id);
  }

  /** `getLeaderboard` once the four collections are at hand: seed the Map
      from the roster, fold in the three kinds of points, then filter, sort,
      cut and rank. */
  method BuildLeaderboard(users: seq<Value>, tasks: seq<Value>, quizzes: seq<Value>, events: seq<Value>,
                          limit: int) returns (board: seq<Entry>)
    ensures board == LeaderboardOf(users, tasks, quizzes, events, limit)
  {
    var keys, accs := SeedRoster(users);
    accs := AddPoints(accs, tasks, TaskSubmissions);
    accs := AddPoints(accs, quizzes, QuizAttempts);
    accs := AddPoints(accs, events, EventParticipations);
    forall j | 0 <= j < |keys| ensures keys[j] in accs {
      FinalMapValues(users, tasks, quizzes, events, j);
    }
    var values := seq(|keys|, j requires 0 <= j < |keys| => accs[keys[j]]);
    forall j | 0 <= j < |keys| ensures values[j] == Accumulators(users, tasks, quizzes, events)[j] {
      FinalMapValues(users, tasks, quizzes, events, j);
    }
    assert values == Accumulators(users, tasks, quizzes, events);
    board := Ranked(Slice(SortDesc(Filter(values, Positive), TotalKey), limit));
  }
}
