# greenlight-movie-api: a Dafny model of the request-admission core

This project models the core of the greenlight movie API, a JSON web service
written in Go. The model covers:

- the middleware that admits or answers each request: the metrics response
  writer, panic recovery, per-client and global rate limiting with the
  idle-client sweep, CORS, authentication from a bearer token, and the
  authenticated → activated → permission chain;
- the query-string readers and the background-task accounting of the
  application helpers;
- the graceful-shutdown state of `serve` and the way it turns the listen
  error and the shutdown error into its result;
- the validator with its first-error-wins map, and the validation rules for
  users, tokens and list filters;
- token generation (unpadded base32 from section 6 of RFC 4648, with SHA-256
  as an abstract function) and the error mapping of the user and token stores;
- the `"<n> mins"` JSON codec of movie runtimes;
- pagination arithmetic, permission membership, the multi-row permission
  INSERT with its argument list, and the build-version string.

Modules follow the Go files:

| module | Go file |
|---|---|
| `Middleware` | cmd/api/middleware.go |
| `Helpers` | cmd/api/helpers.go |
| `Server` | cmd/api/server.go |
| `Validator` | internal/validator/validator.go |
| `Users` | internal/data/users.go |
| `Tokens` | internal/data/tokens.go |
| `Runtime` | internal/data/runtime.go |
| `Filters` | internal/data/filters.go |
| `Permissions` | internal/data/permissions.go |
| `Vcs` | internal/vcs/vcs.go |
| `Models` | the error values of internal/data/models.go and internal/data/users.go |

The standard-library behaviour the core relies on has small modules of its own:
- `GoStrings`: `strings.Split`, `strings.Join`, `strings.TrimSpace` and `strings.TrimSuffix`, and `fmt`'s `%+v` of a `[]string`;
- `StrConv`: `strconv.FormatInt`, `strconv.ParseInt` and `strconv.Atoi`;
- `Json`: `encoding/json` marshalling and unmarshalling of a string;
- `Base32`: unpadded standard base32;
- `Http`: `url.Values.Get` and the error responses of cmd/api/errors.go;
- `Wrappers`: `Option`, `Result` and `Completion` (a Go call that returns or panics).

Modelling conventions:
- Go strings are `seq<char>` with one element per byte, so `len` is `|s|`.
- Integers are unbounded. Where the source fixes a width (Runtime is `int32`;
  `ParseInt` takes a bit size), the range is checked explicitly.
- State that Go updates in place is a class with `modifies` clauses:
  `Validator.Validator`, `Middleware.MetricsResponseWriter`,
  `Middleware.RateLimiter`, `Helpers.App`, `Server.Shutdown`,
  `Runtime.RuntimeField` and `Users.User`.
- Each validation rule is a function on error maps (`EmailChecks`,
  `TokenChecks`, …) whose contract states the rule. The method that applies it
  to a `Validator` ensures `v.errors == Rule(old(v.errors), …)`.
- The world outside the core is passed in as values or functions:
  - limiter answers at the instant of a request (`allow`);
  - timestamps in nanoseconds;
  - database results (`scan`, `execErr`, `insertErr`, `getForToken`, `getAllForUser`);
  - the bytes from `crypto/rand` (`randomRead`) and SHA-256 (`sha256`);
  - the received signals;
  - the results of `ListenAndServe` and `Shutdown`.
- The `sync.Mutex` of the rate limiter is a `held` flag plus a trace of
  `Lock`/`Unlock` calls. Every exit path of a request ends unlocked, with the
  lock taken and released exactly once when the map is used.
- A positional parameter of a PostgreSQL statement is `$` followed by a run
  of decimal digits. `Permissions.Parameters` lists the parameters a
  statement names, in order, and the INSERT is checked against it.
- `AnonymousUser` is a `User` object passed as a parameter. `IsAnonymous` is
  reference equality with it, as in Go.

Where the code and its comments disagree, the model follows the code:
- The long comment at cmd/api/server.go:132-140 says that after a
  `ListenAndServe` error other than `ErrServerClosed`, `serve` blocks until a
  signal arrives. The code at cmd/api/server.go:76-79 returns that error at
  once. `Server.Serve` and `Server.FailureIgnoresShutdown` state the code's
  behaviour.
- The global limiter is built as `rate.NewLimiter(25, 100)`
  (cmd/api/middleware.go:124), whatever the configured global rate and burst.
  The `Middleware.RateLimiter` constructor states these constants.

## Model

| member | source | states |
|---|---|---|
| Middleware.RecordedIsFixed | cmd/api/middleware.go:49-65 | once any Write or WriteHeader has happened, later calls never change the recorded status |
| Middleware.MetricsResponseWriter.constructor | cmd/api/middleware.go:32-38 | a new writer records status 200 with the header not yet written |
| Middleware.MetricsResponseWriter.Write | cmd/api/middleware.go:49-52 | the body is forwarded, the header counts as written, and the recorded status stays the same (the implicit 200 when it is the first call) |
| Middleware.MetricsResponseWriter.WriteHeader | cmd/api/middleware.go:59-65 | the status is forwarded. It is recorded only when no header was written before; later calls leave the recorded status as it was |
| Middleware.RecoverPanic | cmd/api/middleware.go:79-104 | a normal return passes through. A panic becomes a 500 with "Connection: close", and its value is logged |
| Middleware.Swept | cmd/api/middleware.go:140-144 | after a sweep, exactly the entries not seen for more than three minutes are gone, and every other entry is unchanged |
| Middleware.RateLimiter.constructor | cmd/api/middleware.go:119-148 | the client map starts empty and unlocked. The global limiter is 25 per second with a burst of 100. The sweeper runs only when rate limiting is on |
| Middleware.RateLimiter.Serve | cmd/api/middleware.go:149-205 | with rate limiting off, every request goes on and the map is untouched. A global denial gives the global 429, with the map and the lock untouched. Otherwise: the ip entry exists with lastSeen = now; a new entry is created only when absent, with the configured rate and burst; an existing entry keeps its limiter; all other keys are unchanged; the lock is taken and released once; the decision is the per-client limiter's answer (per-client 429 or next) |
| Middleware.RateLimiter.Sweep | cmd/api/middleware.go:136-145 | under one Lock/Unlock pair, the map becomes `Swept(old map, now)` |
| Middleware.EnableCORS | cmd/api/middleware.go:385-413 | Vary is set to Origin and Access-Control-Request-Method. Allow-Origin is set, to the request's Origin, iff that Origin is trusted. The request is answered 200 with the allowed methods and headers iff it is an OPTIONS preflight with a non-empty Origin and request method; every other request goes on, with no other header |
| Middleware.AuthorizationHeader | cmd/api/middleware.go:221-253 | an empty header means anonymous. A lookup is asked for only with "Bearer " followed by a 26-byte token; everything else is rejected |
| Middleware.LookupIff | cmd/api/middleware.go:235-253 | a lookup happens iff the header is "Bearer " followed by a 26-byte token without spaces |
| Middleware.Authenticate | cmd/api/middleware.go:209-269 | an empty header gives the anonymous user. A malformed header or invalid token gives 401 before any lookup. A lookup that finds the user sets that user; a missing record gives 401; any other store error gives 500 |
| Middleware.RequireAuthenticatedUser | cmd/api/middleware.go:327-337 | the request goes on iff the user is not the anonymous sentinel; otherwise it gets 401 |
| Middleware.RequireActivatedUser | cmd/api/middleware.go:340-350 | anonymous gets 401 first. An authenticated user who is not activated gets 403. The request goes on iff the user is authenticated and activated |
| Middleware.RequirePermission | cmd/api/middleware.go:359-376 | the checks run in order (authenticated, activated, then the permission lookup). A store error gives 500, a missing permission 403. The request goes on iff all three pass |
| Helpers.ReadIDParam | cmd/api/helpers.go:45-63 | the result is (id, nil) iff the parameter parses as a base-10 int64 that is at least 1; otherwise it is (0, "invalid id parameter") |
| Helpers.ReadIDParamFormat | cmd/api/helpers.go:57-62 | the decimal form of every id in 1..MaxInt64 is read back as that id without error |
| Helpers.ReadString | cmd/api/helpers.go:168-180 | the default iff the key's first value is empty; otherwise that value |
| Helpers.ReadInt | cmd/api/helpers.go:182-207 | an empty value gives the default with the validator unchanged. A non-integer records "must be a number" under the key (first error wins) and gives the default. Otherwise the parsed integer, with the validator unchanged |
| Helpers.ReadIntNegative | cmd/api/helpers.go:190 | negative numbers are accepted and parsed back exactly |
| Helpers.CsvChecks | cmd/api/helpers.go:229-240 | an error under the key is present afterwards iff it was before, or some element is not allowed. An existing message is kept, a new one is the "must contain elements included in the array: [...]" message, and other keys are unchanged |
| Helpers.ReadCSV | cmd/api/helpers.go:215-243 | an empty value gives the default with the validator unchanged. Otherwise the comma split, whose join with "," is the input, whether or not validation fails. A non-nil validator ends as `CsvChecks` of its old errors |
| Helpers.App.Background | cmd/api/helpers.go:267-282 | the counter is raised before the task starts and lowered once after it ends, whether it returned or panicked. A panic is logged and never reaches the caller. The counter ends where it began |
| Helpers.CounterAppend | cmd/api/helpers.go:268-275 | the counter after two event runs is the second run applied to the counter after the first |
| Helpers.BackgroundBalanced | cmd/api/helpers.go:267-282 | one background run raises the counter by exactly one while the task runs and leaves it where it began, for both task outcomes |
| Server.Shutdown.constructor | cmd/api/server.go:29-37 | the goroutine starts Running with an empty quit buffer and no shutdown call |
| Server.Shutdown.Deliver | cmd/api/server.go:32-37 | only SIGINT and SIGTERM are relayed. A relayed signal is buffered only if the one-slot buffer is empty, and nothing else changes |
| Server.Shutdown.Receive | cmd/api/server.go:41-63 | the buffered signal is taken, Shutdown is called once with a 30-second deadline, exactly one value (its result) is sent on the error channel, and the state moves to Draining |
| Server.RunSignals | cmd/api/server.go:29-63 | over any sequence of signals: the state is Draining iff some SIGINT or SIGTERM arrived. Shutdown is then called exactly once and one value is sent; otherwise Shutdown is never called and nothing is sent |
| Server.AfterListenAndServe | cmd/api/server.go:70-84 | the result of the shutdown is awaited iff ListenAndServe returned ErrServerClosed; any other error is returned at once |
| Server.Serve | cmd/api/server.go:76-92 | the result is nil iff the listen error was ErrServerClosed and Shutdown returned nil. Another listen error is returned as is. After ErrServerClosed the result is the Shutdown result |
| Server.FailureIgnoresShutdown | cmd/api/server.go:76-79 | with a listen error other than ErrServerClosed, the result does not depend on the value on the shutdown channel |
| Validator.WithError | internal/validator/validator.go:44-48 | adding an error keeps an existing message under its key, adds the key otherwise, and never removes or changes another key |
| Validator.Checked | internal/validator/validator.go:54-58 | a passing check changes nothing; a failing one behaves as adding the error |
| Validator.Validator.New | internal/validator/validator.go:28-30 | a new validator has no errors |
| Validator.Validator.Valid | internal/validator/validator.go:35-37 | valid iff the error map is empty |
| Validator.Validator.AddError | internal/validator/validator.go:44-48 | the map becomes `WithError` of the old map |
| Validator.Validator.Check | internal/validator/validator.go:54-58 | the map becomes `Checked` of the old map |
| Validator.PermittedValue | internal/validator/validator.go:64-66 | true iff the value is an element of the permitted list |
| Validator.SortedNoAdjacentDistinct | internal/validator/validator.go:86-92 | a sorted sequence with no two equal neighbours has no two equal elements |
| Validator.DistinctIffSingletons | internal/validator/validator.go:80-93 | no two elements are equal iff every value occurs at most once |
| Validator.DistinctPermutation | internal/validator/validator.go:81 | sorting (any permutation) does not change whether the elements are distinct |
| Validator.Sort | internal/validator/validator.go:81 | the array ends sorted and a permutation of what it held |
| Validator.Unique | internal/validator/validator.go:80-93 | the result is true iff no two elements of the input are equal. The caller's array is left sorted and a permutation of the original |
| Users.User.Zero | internal/data/users.go:35 | the zero-valued user: no id, name, email or password, not activated |
| Users.User.FromRow | internal/data/users.go:237-245 | a user built from a row copies its fields and holds its hash, with no plaintext |
| Users.ZeroUserIsNotAnonymous | internal/data/users.go:35-42 | the sentinel is anonymous; any other user, a zero-valued one included, is not |
| Users.EmailChecks | internal/data/users.go:68-79 | "cannot be empty" for an empty address, "is invalid" for a non-empty one that fails EmailRX, and nothing otherwise; an earlier email error wins; other keys are unchanged |
| Users.ValidateEmail | internal/data/users.go:68-79 | the validator ends as `EmailChecks` of its old errors |
| Users.PasswordChecks | internal/data/users.go:85-103 | "cannot be empty" for "", "cannot be less than 8 bytes" for 1-7 bytes, "cannot be greater than 72 bytes" above 72, and nothing for 8-72; an earlier password error wins |
| Users.ValidatePlaintextPassword | internal/data/users.go:85-103 | the validator ends as `PasswordChecks` of its old errors |
| Users.NameChecks | internal/data/users.go:112-121 | a name error iff the name is empty or longer than 500 bytes, the empty message taking precedence |
| Users.ValidateName | internal/data/users.go:112-121 | the validator ends as `NameChecks` of its old errors |
| Users.UserChecksName | internal/data/users.go:109-121 | after ValidateUser's checks the "name" error is the one the name rules give |
| Users.UserChecksEmail | internal/data/users.go:123-124 | the "email" error is the one the email rules give; the name rules before them do not affect it |
| Users.UserChecksPassword | internal/data/users.go:126-132 | with a plaintext, the "password" error is the one `PasswordChecks` gives; without one, the "password" entry is as before |
| Users.UserChecksOtherKeys | internal/data/users.go:109-132 | no key other than "name", "email" and "password" changes |
| Users.ValidateUser | internal/data/users.go:109-143 | the validator ends as `UserChecks`, and the call panics with "missing password hash for user." iff the hash is missing (after the errors are recorded) |
| Models.LookupError | internal/data/users.go:250-257 | a missing row becomes ErrRecordNotFound; any other error passes through |
| Users.InsertError | internal/data/users.go:203-210 | the users_email_key violation becomes ErrDuplicateEmail; any other error passes through |
| Users.UpdateError | internal/data/users.go:342-351 | a missing row becomes ErrEditConflict, the users_email_key violation ErrDuplicateEmail, and any other error passes through |
| Users.GetUser | internal/data/users.go:220-300 | a found row gives a fresh user with the row's id, creation time, name, email, password hash, activation state and version. An error gives nil and the mapped lookup error |
| Users.UpdateUser | internal/data/users.go:309-354 | on success the version becomes the returned one; on error the mapped update error, with the version unchanged; the other fields never change |
| Tokens.TokenChecks | internal/data/tokens.go:77-90 | "must be provided" for an empty token; "must be exactly 26 bytes long" for a non-empty token of another length; no token error for length 26; other keys are unchanged |
| Tokens.ValidateToken | internal/data/tokens.go:77-90 | the validator ends as `TokenChecks` of its old errors |
| Tokens.GenerateToken | internal/data/tokens.go:33-73 | a failed random read is returned as the error. Otherwise: expiry = now + ttl; scope and user id are copied; the plaintext is the unpadded base32 of the 16 random bytes, 26 characters of A-Z2-7; the hash is SHA-256 of the plaintext |
| Tokens.GeneratedTokenIsValid | internal/data/tokens.go:44-89 | the plaintext of every generated token passes ValidateToken |
| Tokens.New | internal/data/tokens.go:119-132 | a failed generation or insertion gives (nil, err); otherwise the generated token |
| Tokens.GetToken | internal/data/tokens.go:153-183 | a missing row gives ErrRecordNotFound and other errors pass through. A found token carries the row's fields, with the argument as its plaintext |
| Base32.EncodeNoPadding | internal/data/tokens.go:63 | the encoding has ceil(8n/5) characters, each from A-Z2-7 |
| Runtime.MarshalJSON | internal/data/runtime.go:24-33 | the JSON string of the decimal form followed by " mins" |
| Runtime.ParseRuntime | internal/data/runtime.go:40-67 | no value when the input is not a JSON string, lacks the " mins" suffix, or is not a base-10 int32 once one suffix is removed; otherwise that int32 |
| Runtime.RoundTrip | internal/data/runtime.go:24-67 | unmarshalling the marshalled form of every int32 runtime succeeds and gives it back |
| Runtime.NullIsInvalid | internal/data/runtime.go:44-51 | JSON null unmarshals to an empty string, which lacks the suffix, so it is rejected |
| Runtime.NonAsciiIsInvalid | internal/data/runtime.go:49-63 | a decoded string holding any non-ASCII character is rejected |
| Runtime.RuntimeField.UnmarshalJSON | internal/data/runtime.go:40-67 | succeeds iff the input parses, and then stores the parsed value. Otherwise it returns ErrInvalidRuntimeFormat with the target unchanged |
| Json.UnmarshalMarshal | internal/data/runtime.go:32-44 | unmarshalling the JSON encoding of any string gives that string back |
| Json.DecodeEncodeBody | internal/data/runtime.go:32-44 | decoding the escaped body of any string gives it back |
| StrConv.ParseInt | internal/data/runtime.go:60 | a value iff the text is an optionally signed decimal whose value is in range of the bit size; that value is the decimal's |
| StrConv.ParseFormatInt | internal/data/runtime.go:27-60 | every integer in range parses back from its decimal form |
| GoStrings.JoinSplit | cmd/api/helpers.go:225 | joining the parts of a split with the separator gives the input back |
| GoStrings.SplitJoin | cmd/api/middleware.go:235-241 | splitting parts free of the separator after joining them gives the parts back |
| Filters.CeilDiv | internal/data/filters.go:33 | the integer ceiling: (r-1)·b < a ≤ r·b |
| Filters.CalculatePageMetadata | internal/data/filters.go:24-36 | zero records give the zero metadata. Otherwise first page 1, the other fields copied, and a last page that is the ceiling of records / page size (at least 1 for a positive count) |
| Filters.FiltersChecks | internal/data/filters.go:40-61 | a "page" error iff page is outside 1..10,000,000, a "page_size" error iff page size is outside 1..100, and a "sort" error iff sort is not in the safe list; existing messages are kept |
| Filters.ValidateFilters | internal/data/filters.go:40-61 | the validator ends as `FiltersChecks` of its old errors |
| Filters.ValidatedBounds | internal/data/filters.go:63-73 | for filters without page or page-size errors, 0 ≤ offset ≤ 9,999,999·100 and 1 ≤ limit ≤ 100 |
| Permissions.Include | internal/data/permissions.go:22-29 | true iff the code is one of the permissions |
| Permissions.QueryText | internal/data/permissions.go:76-96 | the query always ends with ";" |
| Permissions.TupleInQuery | internal/data/permissions.go:81-96 | for n permissions, the query holds the VALUES tuple of each placeholder $2..$(n+1) |
| Permissions.QueryParameters | internal/data/permissions.go:76-101 | reading the positional parameters of the query for n permissions gives $1, $2, $1, $3, ..., $1, $(n+1): one pair per tuple, and no parameter beyond the n+1 arguments |
| Permissions.ParametersMatchArgs | internal/data/permissions.go:76-106 | every parameter the query for n permissions names is one of the n+1 arguments, and every argument is named |
| Permissions.TupleOccurrence | internal/data/permissions.go:81-96 | a VALUES tuple found anywhere in the query for n permissions is that of a placeholder $2..$(n+1) |
| Permissions.TuplesInOrder | internal/data/permissions.go:81-96 | the tuple of $j occurs before that of $k whenever j < k |
| Permissions.BuildQuery | internal/data/permissions.go:76-96 | the builder loop and the trimming produce `QueryText(n)` |
| Permissions.BuildArgs | internal/data/permissions.go:97-101 | n+1 arguments: the user id, then the permissions in order |
| Permissions.AddForUser | internal/data/permissions.go:71-108 | zero permissions give "must supply at least one permission" and no statement. Otherwise the statement `QueryText(n)` is issued with those arguments, and the result is the store's error |
| Vcs.Version | internal/vcs/vcs.go:10-30 | "" without build information. Otherwise the last vcs.revision value, with "-dirty" appended iff some vcs.modified setting is exactly "true" |
| Vcs.LastRevisionIsLast | internal/vcs/vcs.go:15-18 | the revision is the value of the last vcs.revision setting |
| Vcs.NoRevision | internal/vcs/vcs.go:11-18 | without any vcs.revision setting the revision is "" |

## Left out

- Token-bucket internals of `golang.org/x/time/rate` (floating point, clock driven): each limiter's answer is an input to the step, and a limiter created for a new client is consulted through the same input.
- Concurrency: goroutines, the real `sync.Mutex`, `sync.WaitGroup`, channels and `signal.Notify` are modelled as sequential steps. One request step, one sweep pass, one background task and one signal goroutine are modelled; race-freedom is not.
- The sweeper's `time.Sleep(1 * time.Minute)` loop: each pass is `RateLimiter.Sweep` with an explicit instant.
- Middleware.RateLimiter.Serve: `realip.FromRequest` is not modelled; the client address is an input.
- Middleware.ClientInfo: the entry is a value in the map rather than a pointer; no other code holds a pointer to it, so this changes nothing.
- Middleware.Authenticate: the `Vary: Authorization` header it always adds, and the request context, are not modelled.
- The `metrics` middleware (cmd/api/middleware.go:420-457): its expvar counters and timings are not modelled; only the response writer it wraps is.
- Draining background tasks at shutdown: `serve` never waits on the WaitGroup, so there is nothing to model.
- Logging (`slog`, `fmt.Println` in `MarshalJSON`) is not modelled, except the error a recovered background panic logs.
- SQL queries, row scanning and `ExecContext`: results are inputs (`scan`, `execErr`, `insertErr`). `PermissionModel.GetAllForUser` and `UserModel.GetForToken` are inputs to the middleware.
- bcrypt (`password.Set`, `password.Matches`) is not modelled; a password is its optional plaintext and optional hash.
- `crypto/rand` and SHA-256 are inputs to token generation.
- `data.ScopeAuthentication` is referenced by the middleware but is not defined in internal/data/tokens.go, so the scope passed to `GetForToken` is not modelled.
- The SQL of `UpdateUserForToken`, `DeleteToken`, `TokenModel.DeleteAllForUser` and `InsertUser` is not modelled. `UpdateUserForToken`'s result mapping is `Users.GetUser`'s and `InsertUser`'s error mapping is `Users.InsertError`.
- Json.Escape follows encoding/json up to Go 1.21, which writes backspace and form feed as `\u0008` and `\u000c`; the repository does not fix a Go version here, and Go 1.22 and later write `\b` and `\f`.
- Middleware.RecoverPanic: the panic value is taken as its text. The handler formats it with `%s` where the background helper uses `%v`, and `%s` of a value that is neither a string nor an error is not modelled.
- `PseudoreadCSV` (cmd/api/helpers.go:245-261) is an unused variant of `readCSV` and is not modelled.
- `readJSON`, `writeJSON` and the JSON error responses of cmd/api/errors.go are not modelled; a `Response` is a status and a message.
- Runtime.ParseRuntime: JSON unmarshalling is modelled for strings only. In `\u` escapes, surrogate pairs are not combined into one character; any non-ASCII character makes the runtime invalid either way.
- GoStrings.TrimSpace trims ASCII white space only; the query text it trims is ASCII.
- Validator.Matches / EmailRX: the regular expression is a hand-written recognizer over ASCII of the same grammar (local part, "@", labels of up to 63 characters).
- Validator.Unique is modelled over `int` arrays, standing for the generic `cmp.Ordered` slice; `slices.Sort` is an insertion sort with the same postcondition.
- Filters.CalculatePageMetadata: `math.Ceil` of a float64 division is integer ceiling division; float rounding for totals beyond 2^53 is not modelled, and `pageSize == 0` with records present (a float division by zero) is excluded by the precondition.
- Integer widths: `int`/`int64` arithmetic (page offsets, expiry) is unbounded; `ParseInt`/`Atoi` check the int64 and int32 ranges the source asks for.
- Handlers, routes, the request context, the mailer and main.go configuration are outside the core.
