# codebreakers-backend core, modelled in Dafny

This project models the server-side logic of the Codebreakers companion
backend. That logic is what the backend computes itself on top of the
Codebreaker Dashboard's external data API:

- **Dashboard client** (`Dashboard`, `Aggregation`).
  - A read-through cache in front of the upstream, keyed by resource and
    serialised parameters.
  - Per-resource cache lifetimes and the mapping of upstream failures to
    fixed error messages.
  - `getUserById`.
  - The two read models that join nested upstream collections: a user's
    statistics, and the points leaderboard.
- **TTL cache wrapper** (`Cache`). A fail-open `get`/`set`/`del`/
  `delMultiple`/`flush` over a key → (value, expiry) map, and the GET-only
  response-caching middleware.
- **Helpers** (`Helpers`): pagination parameters and metadata, `chunk`,
  `unique`, `groupBy`, `slugify`, `truncate`, `isEmpty`.
- **Controllers** (`Controllers`, `UsersController`): find-by-id handlers,
  nested-list handlers, per-user lists, time-window filters, the per-quiz
  leaderboard, query defaults, user search and the activity feed.
- **Document methods** (`AppUsers`, `Devices`, `Notifications`):
  - the bounded refresh-token list of an app user;
  - the duplicate-free topic list of a device;
  - a notification's read and delivery state, its expiry default, and the
    two collection queries over a user's notifications.

Support modules:

- `Wrappers`: `Option`, `Result`.
- `Text`: white space, ASCII case, `includes`, `trim`, `String(n)`,
  `parseInt`.
- `Seqs`: filter, map, sum, flatten, de-duplication, `slice`.
- `JsValue`: JavaScript values, with truthiness, property lookup,
  assignment, spread, `String(v)` and `JSON.stringify`.
- `Sorting`: a stable descending sort.
- `Records`: `find`, and the two ways nested lists are read.

How the model is built:

- Code that changes state is either a method with a loop (the leaderboard
  `Map` fold, `chunk`, `groupBy`) or a class with methods (the cache and the
  three document types). Each method is proved against a pure function of
  its inputs or of the old state, and the properties are proved about those
  functions.
- Pure pipelines are functions.
- The clock (`Date.now()`, `new Date()`) is a parameter `now`. `new Date(x)` on
  a record's field is a parameter `date: Value -> Option<int>`.
- The upstream HTTP API is a parameter `upstream` from query to payload or
  error.
- The environment flag `CACHE_ENABLED` and the cache store's faults are
  fields of a parameter `Env`, or per-call flags.

The model follows what the code does, including where it departs from what its names and comments suggest:

- `getUserStats` sums the points of all of a user's submissions, whatever
  their status.
- `handleError` treats only status 500 as a server error.
- The leaderboard keeps only positive totals.
- The cache key depends on the order in which parameters were inserted.

## Model

| member | source | states |
|---|---|---|
| Dashboard.HandleError | src/services/dashboardAPI.js:291-313 | the handled error is always a plain error; one without a response or request passes through unchanged; one with a request and no response gets the connection message |
| Dashboard.ResponseErrorMessages | src/services/dashboardAPI.js:296-307 | 401, 429 and 500 give their fixed messages whatever the body; any other status gives one of the fixed messages or the body's own `message` |
| Dashboard.OnlyStatus500IsServerError | src/services/dashboardAPI.js:303-306 | for a body without a message, the server-error message appears for status 500 and for no other; 502 and 503 read "API request failed" |
| Dashboard.HandleErrorIdempotent | src/services/dashboardAPI.js:291-313 | handling an already handled error changes nothing |
| Dashboard.CacheKeyInjective | src/services/dashboardAPI.js:57 | for resources without a colon, equal keys imply the same resource and the same serialised parameters |
| Dashboard.CacheKeyDependsOnParamOrder | src/services/dashboardAPI.js:57 | the same two parameters inserted in the other order give a different key |
| Dashboard.RequestParamsGet | src/services/dashboardAPI.js:69-71 | the upstream query carries every caller parameter as given, and names the resource unless the caller passed a `resource` of its own, which wins |
| Dashboard.Fetch | src/services/dashboardAPI.js:56-84 | the method's result, upstream-call flag and new cache are those of the function `FetchSpec` on the old cache |
| Dashboard.FetchHitOrCall | src/services/dashboardAPI.js:60-66 | the upstream is asked exactly when caching is off, the lookup faults, or the key holds no live truthy value; a hit answers the cached value and leaves the cache untouched |
| Dashboard.FetchMissEffect | src/services/dashboardAPI.js:68-83 | after an upstream call the payload is returned unchanged, or the handled error is raised; the payload is stored under the key exactly when caching is on, the TTL is positive and the store works |
| Dashboard.FetchStoresIffTtlPositive | src/services/dashboardAPI.js:76-78 | with caching on and a working store, a fetched truthy payload can be read back under its key exactly when the TTL is positive |
| Dashboard.FetchDisabled | src/services/dashboardAPI.js:60-78 | with caching off the upstream is always asked and the cache is never touched |
| Dashboard.FetchFailsOpen | src/services/dashboardAPI.js:60-71 | a faulting lookup behaves as a miss: the upstream is asked and its answer returned |
| Dashboard.FetchLeavesOtherKeys | src/services/dashboardAPI.js:56-84 | a fetch changes what no other key reads, at the lookup time or later |
| Dashboard.FetchTwice | src/services/dashboardAPI.js:56-84 | once a truthy payload is stored, the same request is answered from the cache without an upstream call until the TTL has passed, and goes upstream again afterwards |
| Dashboard.Request | src/services/dashboardAPI.js:89-180 | each accessor call is `fetch` with that accessor's resource, parameters and TTL |
| Dashboard.AccessorTtls | src/services/dashboardAPI.js:89-180 | the TTLs per accessor: all 60, users 180, announcements 120, attendance 300, tasks 180, events 180, quizzes 120, active quizzes 60, projects 300, reviews 120, resources 600, support 60 |
| Dashboard.AccessorCachedForItsTtl | src/services/dashboardAPI.js:89-180 | every accessor's TTL is positive, and what it stores stays readable for exactly that long |
| Dashboard.ActiveQuizzesForceActive | src/services/dashboardAPI.js:150-152 | `getActiveQuizzes` always sends `isActive: true`, overriding the caller's value, and passes every other parameter on |
| Dashboard.AccessorsKeysDisjoint | src/services/dashboardAPI.js:89-180 | accessors of different resources never share a cache entry |
| Dashboard.GetUserById | src/services/dashboardAPI.js:103-110 | the method's result and cache are those of the function `UserByIdRun` |
| Dashboard.UserByIdOutcome | src/services/dashboardAPI.js:103-110 | the users request carries `limit: 1000` whatever the caller passed; the answer is the first user with the id, or "User not found" |
| Dashboard.FirstFailure | src/services/dashboardAPI.js:186-190 | `Promise.all` over settled requests: no error exactly when every request succeeded, and otherwise the error of a failed request with only successes before it |
| Dashboard.ViaFailureHandled | src/services/dashboardAPI.js:81-83 | an accessor call that fails rejects with a handled (plain) error |
| Dashboard.Join3Outcome | src/services/dashboardAPI.js:186-190 | three joined requests fail exactly when one of them failed, with the error of the first failed one in array order, and otherwise answer the builder over the three payloads |
| Dashboard.Join4Outcome | src/services/dashboardAPI.js:224-229 | the same for four joined requests |
| Dashboard.GetUserStats | src/services/dashboardAPI.js:185-218 | the method's result and cache are those of the function `UserStatsRun` |
| Dashboard.UserStatsRunOutcome | src/services/dashboardAPI.js:185-190 | for any cache state all three requests are issued, each on the cache the previous one left; the read fails exactly when one of them fails, with the handled error of the first failed one (tasks, then quizzes, then events); otherwise it answers `UserStatsOf` over the three payloads' `data` |
| Dashboard.GetLeaderboard | src/services/dashboardAPI.js:223-286 | the method's result and cache are those of the function `LeaderboardRun` |
| Dashboard.LeaderboardRunKeepsCache | src/services/dashboardAPI.js:223-229 | with caching off the leaderboard read leaves the cache as it was |
| Dashboard.LeaderboardRunOutcome | src/services/dashboardAPI.js:223-229 | for any cache state all four requests are issued in turn; the read fails exactly when one of them fails, with the handled error of the first failed one (tasks, quizzes, events, users); otherwise it answers `LeaderboardOf` over the four payloads' `data` |
| Dashboard.LeaderboardRunComputes | src/services/dashboardAPI.js:223-286 | when every request succeeds (caching off), the board is `LeaderboardOf` applied to the four payloads' `data` |
| Aggregation.UserRecordsExact | src/services/dashboardAPI.js:192-202 | a record is in a user's list exactly when it is nested in the collection and its `userId` is the user's, and it occurs there as often as among all nested records |
| Aggregation.UserStatsExactly | src/services/dashboardAPI.js:192-217 | `totalPoints` is the sum of the points of every nested record the user owns, whatever its status or completion; `tasksCompleted` counts the user's approved submissions, `eventsAttended` the user's `participated` participations, `quizzesAttempted` all of the user's attempts; the three lists are the user's records |
| Aggregation.StatsOfOwned | src/services/dashboardAPI.js:204-214 | the statistics of the user's share of three record lists, stated over the whole lists: owned points summed, owned records with the status counted |
| Aggregation.AddSubmission | src/services/dashboardAPI.js:204-212 | one more submission adds its points to `totalPoints` whatever its status, and adds one to `tasksCompleted` exactly when it is approved |
| Aggregation.AddAttempt | src/services/dashboardAPI.js:204-213 | one more attempt adds its points and one to `quizzesAttempted`, completed or not |
| Aggregation.AddParticipation | src/services/dashboardAPI.js:204-214 | one more participation adds its points whatever its status, and adds one to `eventsAttended` exactly when its status is `participated` |
| Aggregation.PendingSubmissionExample | src/services/dashboardAPI.js:204-211 | a pending submission worth 7 points gives `totalPoints` 7 and `tasksCompleted` 0 |
| Aggregation.NoActivityGivesZeros | src/services/dashboardAPI.js:185-217 | a user with no nested record anywhere gets zero counters, zero points and empty lists |
| Aggregation.AccumulatorsFacts | src/services/dashboardAPI.js:231-276 | there is one accumulator per distinct roster id, in first-occurrence order, holding the last roster user's fields and the id's total over scoring records |
| Aggregation.BoardFacts | src/services/dashboardAPI.js:276-279 | the board is a duplicate-free, non-increasing sequence of positive-total roster accumulators, each tallied for its id, and no longer than the roster |
| Aggregation.LeaderboardShape | src/services/dashboardAPI.js:276-285 | ranks are 1..n in order; every total is positive; totals never increase; the length is at most `limit` and at most the roster size |
| Aggregation.LeaderboardEntries | src/services/dashboardAPI.js:234-273 | every entry is a roster user with the display fields of the last roster user with that id and that id's points from approved submissions, completed attempts and `participated` participations; no id appears twice |
| Aggregation.LeaderboardKeepsTop | src/services/dashboardAPI.js:276-279 | a roster user with a positive total is listed, or scores no more than anyone listed; with `limit` at least the roster size, every such user is listed |
| Aggregation.LeaderboardTiesInRosterOrder | src/services/dashboardAPI.js:231-278 | users with equal totals appear in roster order: for each total, the listed users with that total are a prefix of the roster users with it |
| Aggregation.NonRosterPointsIgnored | src/services/dashboardAPI.js:246-273 | appending collections whose nested records all belong to non-roster users leaves the leaderboard unchanged |
| Aggregation.LeaderboardWithinStats | src/services/dashboardAPI.js:185-273 | with non-negative points and array-shaped nested fields, a user's leaderboard total never exceeds the `totalPoints` of that user's statistics |
| Aggregation.LeaderboardExample | src/services/dashboardAPI.js:223-286 | for the three-user example, u2 (15 points) ranks first, u1 (10) second, and u3, who has only an unfinished attempt, is absent |
| Aggregation.StatsExample | src/services/dashboardAPI.js:196-212 | in the same example, u3's statistics count the unfinished attempt and its 99 points |
| Aggregation.SeededFacts | src/services/dashboardAPI.js:231-243 | the seeded Map has a key exactly for each roster id, holding the seed of the last user with that id |
| Aggregation.FoldedFacts | src/services/dashboardAPI.js:246-273 | a scoring pass leaves the Map's keys as they were, and adds to each key's total exactly that id's points from the scoring records visited |
| Aggregation.Ranked | src/services/dashboardAPI.js:280-283 | the entry at position i carries rank i + 1 and the i-th accumulator |
| Aggregation.AddRecords | src/services/dashboardAPI.js:247-252 | the inner `forEach` over one record's nested list yields the Map `Folded` over that list |
| Aggregation.SeedRoster | src/services/dashboardAPI.js:231-243 | the loop builds the Map `Seeded(users)` and its key order `Roster(users)` |
| Aggregation.AddPoints | src/services/dashboardAPI.js:246-273 | one outer `forEach` pass yields the Map `Folded` over every nested record the pass visits |
| Aggregation.BuildLeaderboard | src/services/dashboardAPI.js:231-285 | the imperative build returns `LeaderboardOf` |
| Cache.EffectiveTtl | src/services/cache.js:42-48 | a truthy TTL is used as given; a missing or zero TTL falls back to 600 |
| Cache.Lookup | src/services/cache.js:26-34 | `get` answers a value exactly when the key is present, unexpired and its value truthy, and `null` otherwise |
| Cache.TtlCache.Get | src/services/cache.js:26-39 | answers `Lookup` on the old store, or `null` on a fault; an expired entry for the key is evicted |
| Cache.TtlCache.Set | src/services/cache.js:42-54 | returns `false` exactly on a fault, leaving the store as it was; otherwise it stores the entry with the effective TTL |
| Cache.TtlCache.Del | src/services/cache.js:57-65 | removes the key, which may be absent, and returns `true`; a fault returns `false` and changes nothing |
| Cache.TtlCache.DelMultiple | src/services/cache.js:68-76 | removes exactly the listed keys; a fault returns `false` and changes nothing |
| Cache.TtlCache.Flush | src/services/cache.js:79-88 | empties the store; a fault returns `false` and changes nothing |
| Cache.SetThenGet | src/services/cache.js:26-54 | a value set at t is read back before t + ttl and not from then on, and only when it is truthy |
| Cache.SetLeavesOtherKeys | src/services/cache.js:42-48 | setting one key changes what no other key reads |
| Cache.EvictUnobservable | src/services/cache.js:26-34 | evicting an expired entry on a read is invisible to every later read |
| Cache.DelMultipleEffect | src/services/cache.js:68-76 | after `delMultiple` the listed keys miss and every other key reads as before |
| Cache.FlushEffect | src/services/cache.js:79-82 | after `flush` every read misses |
| Cache.MiddlewareKey | src/services/cache.js:102 | the key is `__express__` followed by `originalUrl`, or by `url` when `originalUrl` is empty |
| Cache.Middleware | src/services/cache.js:96-117 | a non-GET request goes to the handler and leaves the cache alone; a hit answers the cached body without calling the handler; a miss calls the handler and stores the body it sends, for `duration` |
| Helpers.IntOr | src/utils/helpers.js:58-59 | `parseInt(v) \|\| fallback`: the fallback when the text reads as NaN or as 0, otherwise the number read |
| Helpers.PaginationParams | src/utils/helpers.js:57-63 | the limit is never 0 and never above 100; the offset is never negative |
| Helpers.PaginationDefaults | src/utils/helpers.js:58-59 | a missing, zero or non-numeric limit gives 50 and any other the number read, capped at 100; the offset is the number read when positive, and 0 otherwise |
| Helpers.PageHoldsOffset | src/utils/helpers.js:60 | for a positive limit, the page is the one whose range of `limit` offsets holds the offset, and it is at least 1 |
| Helpers.PaginationNegativeLimit | src/utils/helpers.js:58-60 | `?limit=-5&offset=10` gives limit -5 and page -1 |
| Helpers.PaginationMetadataMeaning | src/utils/helpers.js:65-82 | for a positive limit: `totalPages` is the least page count covering `total`; `hasNext` holds iff a later page exists; `hasPrevious` holds iff the offset is past the first page; `nextOffset` and `previousOffset` are present exactly then |
| Helpers.Chunk | src/utils/helpers.js:117-123 | the loop returns `Chunks(items, size)` |
| Helpers.ChunksFacts | src/utils/helpers.js:117-123 | the chunks concatenate to the input, none is empty or longer than `size`, and all but the last have exactly `size` elements |
| Helpers.UniqueFacts | src/utils/helpers.js:125-127 | the result has no duplicates and holds exactly the input's elements |
| Helpers.UniqueOrderAt | src/utils/helpers.js:125-127 | elements come in the order of their first occurrence in the input |
| Helpers.UniqueIdempotent | src/utils/helpers.js:125-127 | `unique(unique(s)) == unique(s)` |
| Helpers.GroupBy | src/utils/helpers.js:129-138 | throws exactly when some item's key names an `Object.prototype` member, whose inherited value is truthy and has no `push`; otherwise it returns `GroupsOf(items, key)` |
| Helpers.GroupsOfNames | src/utils/helpers.js:129-138 | the groups are named by the distinct key strings in order of first occurrence |
| Helpers.GroupsOfItems | src/utils/helpers.js:129-138 | each group holds exactly the items whose key converts to its name, in input order |
| Helpers.GroupsNamesDistinct | src/utils/helpers.js:129-138 | no two groups have the same name |
| Helpers.GroupByThrowsExactly | src/utils/helpers.js:131-134 | the reduce throws exactly when some item's group name is an inherited `Object.prototype` member |
| Helpers.GroupSizesSum | src/utils/helpers.js:129-138 | the group sizes add up to the number of items |
| Helpers.SlugifyIsSlug | src/utils/helpers.js:141-147 | the result has only lowercase ASCII letters, digits and `-`, does not start or end with `-`, and never has two `-` in a row |
| Helpers.SlugifySlug | src/utils/helpers.js:141-147 | a string that is already a slug is left unchanged |
| Helpers.SlugifyIdempotent | src/utils/helpers.js:141-147 | slugifying twice is slugifying once |
| Helpers.Truncate | src/utils/helpers.js:149-152 | text no longer than `length` is returned as is; otherwise the result is the trimmed first `length` characters followed by the suffix, at most `length + \|suffix\|` long |
| Helpers.TruncateShortens | src/utils/helpers.js:149-152 | truncating a text longer than `length` by more than the suffix's length gives a shorter text |
| Helpers.IsEmptyExactly | src/utils/helpers.js:205-210 | empty exactly for `null`, `undefined`, `[]` and `{}`; `""`, `0` and `false` are not empty |
| Controllers.QueryLimit | src/controllers/index.js:12 | the query limit is never 0 |
| Controllers.QueryDefaults | src/controllers/index.js:12-14 | a missing, zero or non-numeric limit is 50, any other the number read; a missing or non-numeric offset is 0 (the same defaults recur in every list handler) |
| Controllers.QueryLimitReadsNumber | src/controllers/index.js:12 | a `limit` written as any non-zero integer is read back as that integer |
| Controllers.ById | src/controllers/index.js:33-42 | answers the first record whose `id` equals the route's, and 404 with the kind's message exactly when none does; a failed dashboard call goes to `next`; the task, event, announcement, project and ticket lookups are the same handler with another kind |
| Controllers.GetById | src/controllers/index.js:33-42 | the handler's reply is `ById` over its dashboard call on the cache (`{ limit: 1000 }` for announcements, `{ includeRelations: true }` for the other kinds), and the cache ends as that call leaves it |
| Controllers.NotFoundMessagesDiffer | src/controllers/index.js:38-303 | the six not-found messages are pairwise different |
| Controllers.NestedList | src/controllers/index.js:44-53 | answers the found record's attempts when set, `[]` when the field is missing or falsy, and the by-id answer otherwise; task submissions and event participants are the same handler over another field |
| Controllers.RankAttemptsFacts | src/controllers/index.js:60-64 | at most 50 attempts, scores non-increasing, each a completed attempt from the input, and all completed attempts when there are at most 50 |
| Controllers.RankAttemptsKeepsTop | src/controllers/index.js:60-64 | the kept attempts are a sub-multiset of the completed ones; a completed attempt (or a copy of one) is left out only when the list is full at 50 and every listed attempt scores at least as much |
| Controllers.RankAttemptsStable | src/controllers/index.js:63 | attempts with equal scores keep their input order |
| Controllers.QuizLeaderboardAnswers | src/controllers/index.js:55-70 | the answer is always a list: empty for an unknown quiz or one without attempts (no 404); otherwise at most 50 of the quiz's completed attempts, highest score first |
| Controllers.UserNestedExactly | src/controllers/index.js:122-132 | the per-user list is the user's records among the nested records, in input order; the per-user event participations are the same over events |
| Controllers.UserListMembers | src/controllers/index.js:122-132 | a record is listed exactly when it is nested in a fetched record and its `userId` is the user's |
| Controllers.UserProjectsExactly | src/controllers/index.js:273-281 | each project published by the user is listed as many times as it was fetched, and no other project is listed |
| Controllers.GetActiveTasks | src/controllers/index.js:87-98 | the handler's reply is `ActiveTasks` over the `getTasks({ limit: 100 })` call on the cache, and the cache ends as that call leaves it |
| Controllers.GetUpcomingEvents | src/controllers/index.js:149-158 | the handler's reply is `UpcomingEvents` over the `getEvents({ limit: 100 })` call on the cache, and the cache ends as that call leaves it |
| Controllers.ActiveTasksExactly | src/controllers/index.js:87-98 | a task is listed exactly when `startDate ≤ now ≤ dueDate`; a task with an invalid date is never listed |
| Controllers.UpcomingEventsExactly | src/controllers/index.js:149-158 | an event is listed exactly when `eventDate ≥ now` |
| Controllers.UpcomingShrinks | src/controllers/index.js:149-158 | an event upcoming at some time was upcoming at every earlier time |
| Controllers.CreateTicket | src/controllers/index.js:309-319 | every request answers 501 |
| UsersController.SearchUsers | src/controllers/usersController.js:32-50 | the handler's reply is `Search` over the `getUsers({ branch, limit: 1000 })` call on the cache, and the cache ends as that call leaves it |
| UsersController.SearchQuery | src/controllers/usersController.js:36-39 | the upstream query names the `users` resource and carries the branch and `limit: 1000` |
| UsersController.SearchKeyWithoutBranch | src/controllers/usersController.js:36-39 | without a branch, the search's cache key is that of `getUsers({ limit: 1000 })`, because `JSON.stringify` leaves out an undefined property |
| UsersController.SearchFilter | src/controllers/usersController.js:42-46 | the filter throws exactly when the callback throws for some user, and otherwise keeps the matching users in order |
| UsersController.MatchMeaning | src/controllers/usersController.js:42-46 | a query that is not a string throws; for a string query and a user with string name and e-mail, the user matches iff the name, the e-mail or a string username contains the query, ignoring ASCII case |
| UsersController.SearchAnswers | src/controllers/usersController.js:42-50 | answers the first 50 matching users in the dashboard's order, all of them when at most 50 match, each a fetched user that matches; throws exactly when the callback throws for some user |
| UsersController.SearchCaseInsensitive | src/controllers/usersController.js:43-45 | a string query answers the same as its lower-cased form |
| UsersController.SearchWithoutQuery | src/controllers/usersController.js:32-46 | with no users a missing `q` answers `[]`; with one user it throws |
| UsersController.Entries | src/controllers/usersController.js:95-110 | the unsorted activity list has one entry per submission, attempt and participation |
| UsersController.ActivityFacts | src/controllers/usersController.js:95-111 | the feed has one entry per submission, attempt and participation; it is a permutation of the tagged entries, newest first; entries with equal times keep the order tasks, quizzes, events |
| UsersController.ActivityMembers | src/controllers/usersController.js:95-110 | every submission, attempt and participation appears in the feed with its tag |
| UsersController.TaggedFields | src/controllers/usersController.js:96-110 | an entry's `timestamp` is the one its kind picks; its `type` is the kind unless the record has its own; every other field is the record's |
| UsersController.QuizEntryDate | src/controllers/usersController.js:104 | a quiz entry is dated by `completedAt` when it is truthy, and by `startedAt` otherwise |
| UsersController.OwnTypeOverridesTag | src/controllers/usersController.js:96-98 | a record with its own `type` keeps it: the spread overrides the tag |
| AppUsers.AppUser.constructor | src/models/AppUser.js:3-34 | a new app user has no refresh tokens, last logged in now, with a login count of 0 |
| AppUsers.Capped | src/models/AppUser.js:74-77 | at most 5 tokens, the newest ones, unchanged when there are at most 5 |
| AppUsers.NewToken | src/models/AppUser.js:70-72 | the new token carries its value and device, was created now, and expires `expiresIn` after now, 7 days by default |
| AppUsers.AppUser.AddRefreshToken | src/models/AppUser.js:70-78 | the list becomes the newest 5 of old list plus new token; the new token is last; no other field changes |
| AppUsers.AppUser.RemoveRefreshToken | src/models/AppUser.js:80-82 | the list becomes the old one without the tokens of that value; no other field changes |
| AppUsers.AppUser.RemoveAllRefreshTokens | src/models/AppUser.js:84-86 | the list becomes empty; no other field changes |
| AppUsers.AppUser.UpdateLastLogin | src/models/AppUser.js:88-91 | `lastLogin` becomes now and `loginCount` grows by exactly 1; the token list does not change |
| AppUsers.AppUser.PreSave | src/models/AppUser.js:60-67 | the list keeps exactly its tokens that expire after now, in order |
| AppUsers.CappedKeepsNewest | src/models/AppUser.js:72-77 | after adding, the new token is last and the others kept are the newest of the old ones, in order |
| AppUsers.AddToFullDropsOldest | src/models/AppUser.js:74-77 | adding to a full list of 5 drops exactly the oldest token |
| AppUsers.WithoutTokenExactly | src/models/AppUser.js:80-82 | a token is kept iff it has another value; none with the value remains; removing twice is removing once; removing an absent value changes nothing |
| AppUsers.UnexpiredExactly | src/models/AppUser.js:60-67 | a token survives a save iff it expires after now; a save followed by a later save keeps what the later save alone keeps |
| AppUsers.NewTokenSurvivesSave | src/models/AppUser.js:60-78 | a token just added with a positive lifetime survives a save at the same time |
| Devices.Device.constructor | src/models/Device.js:3-40 | a new device is active, last active now, and subscribed to no topic |
| Devices.Subscribed | src/models/Device.js:61-65 | subscribing adds the topic at the end when it is absent, and keeps the list as its prefix |
| Devices.Device.SubscribeToTopic | src/models/Device.js:61-65 | the list becomes `Subscribed` of the old list and stays duplicate-free; no other field changes |
| Devices.Device.UnsubscribeFromTopic | src/models/Device.js:68-70 | the list becomes the old one without the topic, and the topic is absent; no other field changes |
| Devices.Device.UpdateLastActive | src/models/Device.js:56-58 | `lastActiveAt` becomes now and nothing else changes |
| Devices.SubscribedKeepsDistinct | src/models/Device.js:61-65 | subscribing keeps a duplicate-free list duplicate-free, and subscribing twice is subscribing once |
| Devices.UnsubscribedExactly | src/models/Device.js:68-70 | a topic is kept iff it is another topic, in order; removing an absent topic changes nothing; removing twice is removing once |
| Devices.SubscribeThenUnsubscribe | src/models/Device.js:61-70 | subscribing to an absent topic and unsubscribing restores the list |
| Devices.UnsubscribedLength | src/models/Device.js:68-70 | unsubscribing a listed topic from a duplicate-free list shortens it by one |
| Notifications.StatusName | src/models/Notification.js:45-49 | every status is stored as one of `pending`, `sent`, `delivered`, `failed` |
| Notifications.StatusNamesDistinct | src/models/Notification.js:45-49 | different statuses are stored under different names |
| Notifications.Created | src/models/Notification.js:3-49 | a new notification is unread and unsent, with status `pending` and no read time, send time, message id, error or expiry |
| Notifications.MarkedRead | src/models/Notification.js:66-69 | `isRead` is set and `readAt` is now; nothing else changes |
| Notifications.MarkedSent | src/models/Notification.js:72-79 | `isSent`, `sentAt` and status `sent` are set; `fcmMessageId` is replaced only by a truthy message id; nothing else changes |
| Notifications.MarkedDelivered | src/models/Notification.js:82-84 | only the status changes, to `delivered` |
| Notifications.MarkedFailed | src/models/Notification.js:87-90 | the status becomes `failed` and `error` the given error; nothing else changes |
| Notifications.WithExpiry | src/models/Notification.js:106-111 | a notification without an expiry gets one 30 days after now; one that has an expiry is unchanged |
| Notifications.Notification.constructor | src/models/Notification.js:3-49 | the new document's state is `Created` |
| Notifications.Notification.MarkAsRead | src/models/Notification.js:66-69 | the new state is `MarkedRead` of the old one |
| Notifications.Notification.MarkAsSent | src/models/Notification.js:72-79 | the new state is `MarkedSent` of the old one |
| Notifications.Notification.MarkAsDelivered | src/models/Notification.js:82-84 | the new state is `MarkedDelivered` of the old one |
| Notifications.Notification.MarkAsFailed | src/models/Notification.js:87-90 | the new state is `MarkedFailed` of the old one |
| Notifications.Notification.PreSave | src/models/Notification.js:106-111 | the new state is `WithExpiry` of the old one |
| Notifications.UnreadCount | src/models/Notification.js:93-95 | the count is at most the number of notifications |
| Notifications.UnreadCountExactly | src/models/Notification.js:93-95 | the count ranges over exactly the user's unread notifications; one more notification adds 1 exactly when it is the user's and unread |
| Notifications.Collection.MarkAllAsRead | src/models/Notification.js:98-103 | every document becomes `ReadIfUnread` of itself, and the user's unread count becomes 0 |
| Notifications.MarkAllLeavesNoUnread | src/models/Notification.js:98-103 | after marking all as read, none of the user's notifications is unread |
| Notifications.MarkAllTouchesOnlyUnread | src/models/Notification.js:98-103 | other users' notifications and ones already read keep everything, `readAt` included; the user's unread ones change only in `isRead` and `readAt` |
| Notifications.MarkAllKeepsOthersCounts | src/models/Notification.js:98-103 | other users' unread counts do not change |
| Notifications.MarkOneRead | src/models/Notification.js:66-95 | reading one of the user's unread notifications lowers the count by exactly one |
| Notifications.SentAfterDelivered | src/models/Notification.js:72-84 | `markAsSent` after `markAsDelivered` moves the status back to `sent`: the transitions impose no order |
| Text.ParseIntRoundTrip | src/utils/helpers.js:58 | `parseInt(String(n))` reads back `n` |
| Text.ParseIntTrailingText | src/utils/helpers.js:58 | `parseInt("42px")` is 42: the parse stops at the first non-digit |
| Text.ParseIntNonNumeric | src/utils/helpers.js:58 | text starting with neither white space, a sign nor a digit reads as NaN |
| JsValue.SpreadGet | src/controllers/usersController.js:96-110 | after `{...target, ...source}`, a property of `source` has its value there, and every other property its value in `target` |
| JsValue.JsonDependsOnKeyOrder | src/services/dashboardAPI.js:57 | `JSON.stringify` of the same properties in two orders differs |
| Sorting.SortDescFacts | src/services/dashboardAPI.js:278 | the sort returns a permutation of its input with non-increasing keys |
| Sorting.SortDescStable | src/services/dashboardAPI.js:278 | elements with equal keys keep their input order |
| JsValue.SetPropGet | src/services/dashboardAPI.js:151 | after `o[key] = val` the key reads `val` and every other key reads as before |
| JsValue.SetPropKeys | src/controllers/usersController.js:96-110 | assignment keeps an existing property in its place and adds a new one last |
| Records.FlatItems | src/services/dashboardAPI.js:192-202 | `flatMap(r => r.field \|\| [])` spreads an array, keeps any other truthy value as one element, and drops a falsy one |
| Records.FindBy | src/services/dashboardAPI.js:105 | `find` answers the first record whose field equals the target, and nothing exactly when none does |

## Left out

- The axios client, its headers, timeout and interceptors. Logging.
  Express's `res`/`next` plumbing: a handler's reply is a value.
- `src/services/dashboardAPI.js:10` imports `getCache`/`setCache`, but the
  cache module exports `get`/`set`. The real `fetch` would therefore throw a
  TypeError whenever caching is enabled. `Fetch` is modelled against the
  cache's `get` and `set` instead; the TypeError is not modelled.
- `clearCache`, which only logs, and the cache's `getStats`.
- node-cache internals:
  - the background sweep, which is unobservable through `get` (see
    `Cache.EvictUnobservable`);
  - clones and events.
- Concurrency. `getUserStats` and `getLeaderboard` start every request of
  their `Promise.all` at once. The model issues them one after another, in
  array order (tasks, quizzes, events, then users), each on the cache the
  previous one left. `Promise.all` rejects with the first request to fail in
  time. The model has no time, so it rejects with the first failed request
  in array order (`Dashboard.FirstFailure`). Either way, every request is
  issued and stores what it fetched.
- Time. The clock is the parameter `now`, in milliseconds for documents and
  dates and in seconds for the cache. `new Date(x)` on a record's field is a
  parameter function that returns `None` for an invalid date.
- Numbers are integers:
  - no fractions, NaN, Infinity or -0;
  - no 53-bit precision limit;
  - `parseInt` of arbitrarily long digit strings;
  - `Math.floor`/`Math.ceil` of fractional quotients are exact integer
    floor and ceiling division.
- Strings:
  - case mapping covers ASCII letters only;
  - `\w` and `\s` are the non-Unicode regular-expression classes;
  - strings are sequences of Unicode code points (Dafny's `char`), while
    JavaScript strings are sequences of UTF-16 code units; there is no
    normalisation either way. The two agree on text within the Basic
    Multilingual Plane, and `includes` and `toLowerCase` on ASCII agree on any
    well-formed text.
- Helpers.Truncate: measures and cuts `text` in code points, whereas
  `text.length` and `substring` count UTF-16 code units (helpers.js:150-151).
  On text with characters outside the Basic Multilingual Plane the model keeps
  text that JavaScript would shorten (`truncate("😀😀", 2)` gives `"😀..."` in
  JavaScript, since the length is 4, and the text unchanged here). It also
  never cuts a surrogate pair in half, which `substring` can do.
- A missing `.data` array, or a nested list that is not an array
  (`x?.forEach`, `(x || []).filter`), is read as no records. A record that
  is not an object reads `undefined` for every field. The source would throw
  a TypeError on some of these shapes.
- Map keys and `===`. The leaderboard's `Map` and the `===` filters compare
  values structurally. JavaScript compares objects by identity and numbers by
  SameValueZero; the two agree on the strings and numbers that ids are.
- Points fields. A points field that holds a truthy non-number is read as 0.
  This applies to `pointsAwarded` and `pointsEarned` (`Aggregation.Points`)
  and to a quiz `score` (`Controllers.Score`). JavaScript's `x || 0` keeps
  such a value. The `+` that follows then concatenates a string (`"10"`
  gives `"010"`) or coerces `true` to 1.
- An error body without a message. For a response error with status 400 or
  another status that has no fixed message, `handleError` reads
  `data.message`. When the body is `null` or missing, that read throws a
  TypeError (`src/services/dashboardAPI.js:302`, `:306`).
  `Dashboard.MessageOr` reads such a body as having no message and falls
  back to the fixed text.
- Sort keys:
  - a quiz score that is not a number sorts as 0;
  - an activity timestamp that is not a valid date sorts as 0. JavaScript's
    comparator would give NaN, whose order is engine-defined.
- Helpers.GroupBy: JavaScript lists integer-like property names first, in
  ascending order. The model lists groups in first-occurrence order for
  every name.
- Helpers.Chunk requires `size > 0`: for `size <= 0` the source's loop never
  ends.
- Helpers.PaginationMetadata requires `limit != 0`: the source divides by
  it, and the result would contain Infinity or NaN.
- The list handlers of the controllers only forward the query defaults
  (`Controllers.QueryLimit`, `Controllers.QueryOffset`) and the upstream
  response. Only their defaults are modelled.
- getUserActivity: a record that is not an object is spread as `{}`.
  UsersController.TaggedFields states the `type` field only for records
  without a `type` of their own. The override is shown by
  `UsersController.OwnTypeOverridesTag`.
- Dates are integers. A Date object's own fields are not modelled, nor the
  mongoose schema's casting, validation, indexes, TTL indexes and
  `timestamps`, nor the database round trips (`save`, `countDocuments`,
  `updateMany` are values over a sequence of documents).
- AppUsers.AppUser.PreSave: a stored token always has a numeric expiry. The
  source compares `new Date(undefined)`, which is never in the future, so a
  token without an expiry is dropped.
