# Assignment API core: login guard, cache-aside routes, request gates

A Dafny model of the decision logic of a small Express assignment-management
API that keeps its state in a Redis key-value store and a Sequelize record
store. Three pieces are modelled, with the stores as in-memory maps and one
request handled at a time:

- **Login attempt guard and registration** (`routes/auth.js`). Module `Auth`
  defines what one request does to the state (store client usable or not,
  keyspace, User table): `RateLimitStep` is `rateLimitMiddleware`,
  `LoginHandler` is the `/login` handler, `LoginStep` composes them, and
  `RegisterStep` is `/register`. Class `Auth.AuthRouter` performs the same
  work one store call at a time (GET of the lockout key, GET of the counter,
  SET of the lockout key, INCR or DEL of the counter, the user insert), and
  each method is proved to agree with these functions. Module
  `AuthProperties` proves what the guard promises, both for one request and
  over any sequence of requests and key expiries.
- **Cache-aside assignment routes** (`routes/assignments.js`). Module
  `OrderClause` turns `sortBy` into the order clause and gives the clause's
  JSON text. Module `StoreKeys` derives the four key families of the shared
  keyspace and proves that none of them collide. Class
  `Assignments.AssignmentRouter` holds the cache (`map<string, Body>`) and the
  Assignment and Submission tables (`map<int, …>`). Its methods are the
  handlers, and its invariant says that a cached item entry is always the
  current row.
- **Request gates** (`middleware/authenticateToken.js`). Module `Gates` holds
  `requireRole`, the bearer-token extraction and `authenticateToken`. Token
  verification is a parameter.

Supporting modules: `Text` models JavaScript `split` with one separator, ASCII
`toUpperCase` and the decimal text of an integer. `Json` models the string
quoting of `JSON.stringify` and a reader for it. `Records` holds the table rows
of `models/database.js`.

Modelling choices:

- The auth routes only ever write integers to Redis: the counter, and the
  value passed in the value position when the lockout key is set. So their
  keyspace is a `map<string, int>`.
- JavaScript compares the counter text with `5` numerically. The model
  compares integers.
- `LockMarker` (300) is only there for its presence. Nothing reads the value
  back.
- The cache and the auth keys are kept in two maps. This loses nothing,
  because `StoreKeys.KeyFamiliesDisjoint` proves the families never share a
  key.
- Foreign code enters as parameters:
  - `bcrypt.compare` is a `PasswordCheck` function.
  - `bcrypt.hash` is the `digest` input, since its salt is random.
  - `jwt.verify` is a `Verifier` function.
  - `jwt.sign` is replaced by the outcome `TokenIssued(claims)`, which
    carries the payload that gets signed.
  - `Assignment.findAll({ order })` is the `findAll` constant of the router.
    It returns None when the query fails.
- A `sortBy` without `:` makes `order.toUpperCase()` throw outside the
  `try`. The route then sends no response, and the model answers `Uncaught`.
- Signing reads the secret `JWT_SECRET_KEY` (routes/auth.js:66). Verification
  reads `JWT_SECRET_PIN` (middleware/authenticateToken.js:22). Tokens verify
  only when both hold the same secret. The verifier parameter stands for
  whatever the configured secret gives.

## Model

| member | source | states |
|---|---|---|
| `Text.JoinSplit` | routes/assignments.js:54 | joining the pieces of `split(sep)` with `sep` gives the original text back |
| `Text.SplitCount` | routes/assignments.js:54-55 | `split` yields a second piece exactly when the separator occurs, so `order` is undefined exactly when `sortBy` has no `:` |
| `Text.SplitFields` | middleware/authenticateToken.js:22 | when the separator occurs, pieces 0 and 1 are the text before the first separator and the text between the first and second |
| `Text.SecondFieldUnique` | middleware/authenticateToken.js:22 | the first and second fields of a text are uniquely determined |
| `Text.UpperAscii` | routes/assignments.js:55 | `toUpperCase` on ASCII: length kept, `a`..`z` become `A`..`Z`, every other character unchanged, no lower-case letter left |
| `Text.DecimalRoundTrip` | routes/assignments.js:106 | the decimal text of an id interpolated into a key reads back as that id |
| `Json.QuoteRoundTrip` | routes/assignments.js:58 | `JSON.stringify` of a string reads back as the same string, whatever text follows it |
| `OrderClause.ParseSortBy` | routes/assignments.js:50-56 | absent or empty `sortBy` gives the empty clause; a non-empty `sortBy` throws exactly when it has no `:`; a clause has at most one pair |
| `OrderClause.ParseSortByFields` | routes/assignments.js:53-55 | with a `:`, the clause is the single pair (text before the first `:`, upper-cased text between the first and second `:`) |
| `OrderClause.ClauseRoundTrip` | routes/assignments.js:58 | the JSON text of an order clause reads back as the same clause |
| `StoreKeys.ListKeyInjective` | routes/assignments.js:58 | two different order clauses never share a list cache key |
| `StoreKeys.ItemKeyInjective` | routes/assignments.js:106 | two different ids never share an item cache key |
| `StoreKeys.AttemptsKeyInjective` | routes/auth.js:19 | two different usernames never share a counter key |
| `StoreKeys.LockoutKeyInjective` | routes/auth.js:20 | two different usernames never share a lockout key |
| `StoreKeys.KeyFamiliesDisjoint` | routes/auth.js:19-20 | counter, lockout, list (`assignments:all:`) and item (`assignment:`) keys never coincide, so a list key is never an item key |
| `Gates.RequireRole` | middleware/authenticateToken.js:4-10 | `next` is called if and only if the user's role equals the required role; otherwise 403 |
| `Gates.BearerToken` | middleware/authenticateToken.js:22 | a token exists exactly when the header has a space, and it is the second space-separated field |
| `Gates.AuthenticateToken` | middleware/authenticateToken.js:13-31 | a missing or empty header gives 403 for every verifier and only then; proceeding carries the payload the verifier returned for the second field of the header, which is never empty |
| `Gates.AuthenticateSecondField` | middleware/authenticateToken.js:22-29 | the verifier is applied to the second field; an empty field or a failed verification gives 401 with no user, success proceeds with the decoded payload as the user |
| `Gates.AuthenticateNoSpace` | middleware/authenticateToken.js:22-26 | a non-empty header without a space is 401 whatever the verifier |
| `Auth.FindUser` | routes/auth.js:48 | the lookup finds a user with that name exactly when one exists |
| `Auth.RegisterStep` | routes/auth.js:76-98 | an existing username gives 400 and leaves the table unchanged; otherwise exactly one user with the given name, digest and role is appended; usernames stay unique |
| `Auth.RateLimitStep` | routes/auth.js:9-42 | `next` is called exactly when the client is open, no lockout flag is set and the counter is below 5; a rejection is 500 or 429; the only write is the lockout flag, set exactly when the counter has reached 5 |
| `Auth.LoginHandler` | routes/auth.js:44-74 | 404 exactly when no user has the name; a token, for that username, exactly when the password checks, and then the counter is deleted; every failure adds 1 to the counter; the User table is untouched |
| `Auth.LoginStep` | routes/auth.js:9-74 | a token is issued exactly when the guard passes and the credentials are right; a blocked guard answers 500 or 429; the User table is untouched and a lockout flag is never removed |
| `Auth.GuardKeepsInvariant` | routes/auth.js:29-34 | the guard writes no counter, so usernames stay unique and every counter stays between 1 and 5 |
| `Auth.IntendedRateLimitStep` | routes/auth.js:29-34 | the corrected guard decides exactly as the guard does, and when it locks it also deletes the counter |
| `Auth.IntendedLoginStep` | routes/auth.js:9-74 | with the corrected guard a login has the same outcome as before, and the same effect except when the guard locks |
| `Auth.AttemptKeepsInvariant` | routes/auth.js:29-62 | a login attempt keeps usernames unique and every counter between 1 and 5 |
| `Auth.AuthRouter.RateLimit` | routes/auth.js:9-42 | the store calls of the middleware have exactly the effect and decision of `RateLimitStep`, and keep the invariant |
| `Auth.AuthRouter.Login` | routes/auth.js:44-74 | the middleware plus handler have exactly the effect and outcome of `LoginStep`, and keep the invariant |
| `Auth.AuthRouter.Register` | routes/auth.js:76-98 | the lookup and insert have exactly the effect and outcome of `RegisterStep`, and keep the invariant |
| `Auth.AuthRouter.Expire` | routes/auth.js:32 | the store's expiry of a key removes that key alone and keeps the invariant |
| `AuthProperties.UnavailableTouchesNothing` | routes/auth.js:13-15 | an absent or closed client gives 500 and the state is unchanged |
| `AuthProperties.LockedRejectsBeforeLookup` | routes/auth.js:23-27 | a present lockout flag gives 429 for every password and checker, with no change |
| `AuthProperties.ThresholdSetsLockout` | routes/auth.js:29-34 | a counter at 5 or more sets the lockout flag and gives 429; the counter is not incremented and credentials are not consulted |
| `AuthProperties.UnknownUserCounts` | routes/auth.js:48-52 | an unknown username adds 1 to its counter (absent counts as 0) and gives 404, not 401 |
| `AuthProperties.WrongPasswordCounts` | routes/auth.js:55-59 | a wrong password adds 1 to the counter and gives 401 |
| `AuthProperties.SuccessClearsCounter` | routes/auth.js:62-70 | the right password deletes the counter and issues a token over the user's id, name and role |
| `AuthProperties.AttemptFrame` | routes/auth.js:19-20 | an attempt changes only its own user's counter and lockout keys, never the User table, and never removes a lockout flag |
| `AuthProperties.FailuresAccumulate` | routes/auth.js:51-58 | from a clear state, consecutive failures take the counter through 1..5, each answered 404 or 401, with no lockout flag set |
| `AuthProperties.SixthAttemptRejected` | routes/auth.js:31-33 | after five consecutive failures the sixth attempt gives 429, even with the right password |
| `AuthProperties.SuccessResetsCount` | routes/auth.js:62 | after a successful login the next failure leaves the counter at 1 |
| `AuthProperties.LockoutOutlivesFlag` | routes/auth.js:31-32 | the counter stays at 5 under a lockout, so once the flag expires the next attempt is locked out again, whatever its credentials |
| `AuthProperties.IntendedLockoutEnds` | routes/auth.js:29-34 | with the corrected guard, once the lockout flag expires the next attempt gets a token exactly when its credentials are right, and a failure leaves the counter at 1 |
| `AuthProperties.IntendedAttemptKeepsInvariant` | routes/auth.js:29-62 | with the corrected guard a login attempt still keeps usernames unique and every counter between 1 and 5 |
| `AuthProperties.RunKeepsInvariant` | routes/auth.js:9-98 | any sequence of logins, registrations and key expiries keeps the invariant |
| `AuthProperties.CountersNeverExceedThreshold` | routes/auth.js:31-58 | from the empty state, every counter stays between 1 and 5 and usernames stay unique |
| `Assignments.Revise` | routes/assignments.js:145-147 | each of title, description and dueDate takes the given value when it is truthy and keeps the old one otherwise; id and teacherId are unchanged |
| `Assignments.ReviseIdempotent` | routes/assignments.js:145-147 | applying the same update twice gives the same row as applying it once |
| `Assignments.AssignmentRouter.ListAll` | routes/assignments.js:49-78 | a `sortBy` without `:` escapes the handler with no change. A hit returns the cached list with the cache unchanged, for every store answer. A miss returns the store's `findAll` in that order and caches it under the clause's key, or gives 500 with no change when the query fails |
| `Assignments.AssignmentRouter.GetOne` | routes/assignments.js:104-125 | for an id in its canonical decimal spelling, the answer is always the current row or 404. A hit returns the cached entry with no change. A miss caches the row under `assignment:<id>`, and caches nothing for a missing row |
| `Assignments.AssignmentRouter.Update` | routes/assignments.js:129-156 | a missing id gives 404 and another teacher's row gives 403, both with no change. Otherwise the revised row is saved and returned, only `assignment:<id>` leaves the cache, and list entries are untouched |
| `Assignments.AssignmentRouter.Delete` | routes/assignments.js:158-181 | a missing id gives 404 and another teacher's row gives 403, both with no change. Otherwise the row and `assignment:<id>` are removed and nothing else |
| `Assignments.AssignmentRouter.Create` | routes/assignments.js:82-99 | a non-teacher gets 403. A teacher gets one new row under a fresh id, owned by the caller. The cache is untouched |
| `Assignments.AssignmentRouter.CreateAndNotify` | routes/assignments.js:235-247 | the row is created under a fresh id and the answer is 500. The cache is untouched |
| `Assignments.AssignmentRouter.Insert` | routes/assignments.js:88-93 | `Assignment.create` adds exactly one row, under a primary key not used before, and the next key moves past it |
| `Assignments.AssignmentRouter.Submit` | routes/assignments.js:183-201 | a non-student gets 403. A student gets one new ungraded submission under a fresh id. Cache and assignments are untouched |
| `Assignments.AssignmentRouter.Grade` | routes/assignments.js:203-221 | a missing id gives 404 with no change. Otherwise only the `grade` field of that submission changes. Cache and assignments are untouched |
| `Assignments.AssignmentRouter.Expire` | routes/assignments.js:71 | the store's expiry of a cache entry removes that key alone and keeps item coherence |

## Left out

- Time to live: whether the cache entries (routes/assignments.js:71, 119) and the lockout flag (routes/auth.js:32) expire at all depends on how the store client reads the arguments after the value. Under the node-redis v4 API that index.js uses, `'EX', 3600` and `'locked'` are not an options object, so no expiry is set. The model has no clock: expiry is the explicit `Expire` step, which may remove any key at any time, and so covers either reading.
- Concurrency: requests run one at a time, so races between requests, the atomicity of INCR, and the `del` calls that are not awaited (routes/assignments.js:150, 175) are not modelled.
- Store failures: a Redis or database error inside a `try` becomes 500 in the source. The only such failure modelled is a rejected `findAll` query; the other catch branches are not modelled, since in-memory maps do not fail.
- Client connection and start-up (index.js): the per-request `isOpen` gate and server start are out of scope. The guard's own check (routes/auth.js:13) is the `clientOpen` flag.
- bcrypt and JWT internals, the token expiry `24h`, and the two secrets are not modelled: they enter as parameters.
- JSON serialisation of cached values: entries hold the value they encode. A parsed Date comes back as text, and that is not modelled.
- `toUpperCase` outside ASCII is not modelled (for example `ß` becomes `SS`).
- Request fields that are absent (`undefined`): login and register fields are strings. A role outside the `student`/`teacher` ENUM at registration is not modelled. `sortBy` given twice, which makes it an array, is not modelled.
- Assignments.AssignmentRouter.GetOne: the promise that the answer is the current row holds only for the canonical spelling of the id. The route keys the cache by the raw path text, so `GET /one/05` caches row 5 under `assignment:05`. `PUT /5` then deletes only `assignment:5`, and the next `GET /one/05` serves the superseded row.
- Path ids are integers, and cache keys use their canonical decimal text. The route builds the key from the raw path text, and the store may resolve a spelling such as `05` to row 5. The model does not cover that aliasing.
- Date parsing of `dueDate` (`new Date(...)`) is not modelled. Dates are kept as the text sent, and the `submittedAt`/`createdAt` timestamps are not modelled.
- Mail: `sendNotificationEmail` (routes/assignments.js:10-43) is I/O. Only its effect on POST / is kept: it throws, so the answer is 500.
- GET `/reports/:assignmentId` and GET `/submissions` (routes/assignments.js:223-275) pass queries through with no logic of their own.
- Route wiring: the handlers receive the payload `authenticateToken` set. Only the role gates inside the routes are composed into the handlers.

## Findings

| source | as written | input that shows it | evidently intended | confidence | as-written member | corrected member |
|---|---|---|---|---|---|---|
| routes/auth.js:29-34 | when the counter has reached 5 the guard sets the lockout flag but leaves the counter at 5, and nothing on the locked path deletes it or gives it an expiry | five failed logins for `u`; the sixth attempt sets `lockout_u`; `lockout_u` expires; the next attempt for `u`, even with the right password, is answered 429 and sets the flag again, so the account never unlocks | the lockout lasts as long as its flag ("try again in 5 minutes"): when the flag goes, the attempt is judged on its credentials and counting starts again | high (not executed) | `AuthProperties.LockoutOutlivesFlag` | `AuthProperties.IntendedLockoutEnds` |

The router class keeps the guard as written. `Auth.IntendedRateLimitStep` and `Auth.IntendedLoginStep` are the corrected guard: locking also deletes the counter.
