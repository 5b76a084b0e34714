# Hello-world location and weather backend — a Dafny model

This project models the core of the `hello_backend` Express service: the three API handlers
(`/api/hello`, `/api/location`, `/api/temperature`), the mock IP-to-location lookup, the mock
temperature, the SQLite path selection, and the request-log store with its single-flight
initialisation, preferred-then-fallback database open, schema migration and best-effort insert.

Modules: two support modules, then one per source file.

- `Wrappers` — `Option` and `Outcome` (pass/fail).
- `JsText` — JavaScript strings as sequences of UTF-16 code units, and `String.prototype.trim`
  over the ECMAScript white-space and line-terminator set.
- `LocationService` — `getLocationByIp`: normalisation, the local/private test, and the
  last-character bucket.
- `TemperatureService` — `getTemperature`: 22 plus `(city length mod 7) - 3` degrees Celsius.
- `Sqlite` — absolute paths as segment sequences, `path.resolve`/`path.join`, and
  `getSqliteDbPath`.
- `RequestLog` — log entries and rows, the DDL script as a sequence of statements run against a
  table state, and the `RequestLogService` class. The class's fields are `_db`, `_initialized` and
  `_initializing`, plus ghost histories of the paths opened and the entries submitted.
- `Api` — the `ApiController` handlers as methods over a `RequestLogService`.

The environment is passed in as parameters:

- `openable: map<Path, Database>`: opening a path succeeds exactly when it is a key. The value is
  the database found there.
- `ok: Stmt -> bool`: whether each schema statement succeeds.
- `insertSucceeds: bool`: whether the insert succeeds.
- `Request.now`: the value of `Date.now()`.
- `servicesDir` and `dbModuleDir`: the `__dirname` of the two modules.

`_initializing` (a promise or null) becomes an `Attempt`: `Idle` (null), `InFlight` (pending),
`Ready` (resolved) or `Failed(e)` (rejected). `init` is split in two:

- `Enter` is lines 69-72 of requestLog.js: it returns, joins the existing attempt, or starts one.
- `RunAttempt` is the body of the attempt, lines 73-89: the opens, the pragmas and the schema.

In the source the async body runs synchronously up to its first suspension, the `await` on
line 76. So the call that starts the attempt has already computed the preferred path and issued
its open before line 72 stores the promise. In the model the attempt's opens happen when it is
first awaited, in `Init`; see "## Left out".

Where the comments and the code disagree, the model follows the code. The comment above the
insert in `logRequest` (requestLog.js:122) calls logging best-effort and says the caller's request
should not fail because logging failed. In the code, only insert failures are swallowed, by the
`catch` on requestLog.js:132-136. The `await this.init()` on requestLog.js:110 is outside that
`try`, and the handlers in api.js await `logRequest` without a `try` of their own. So when both
database paths fail to open, or a schema or pragma statement fails, `logRequest` rejects and the
handler never responds. Because `_initializing` keeps the rejected promise, every later request
rejects with the same error and changes no database. `RequestLog.RequestLogService.LogRequest`
states this, and so do the three handlers through `Api.Handled`.

## Model

| member | source | states |
|---|---|---|
| JsText.TrimStart | hello_backend/src/services/location.js:16 | the result is no longer than the input and does not start with white space; it is empty only when the input is all white space |
| JsText.TrimEnd | hello_backend/src/services/location.js:16 | the result does not end with white space, keeps the first character, and is empty exactly when the input is all white space |
| JsText.Trim | hello_backend/src/services/location.js:16 | neither end of the result is white space |
| JsText.TrimStartIsSuffix | hello_backend/src/services/location.js:16 | the result of trimming the start is a suffix of the input, and everything removed is white space |
| JsText.TrimEndIsPrefix | hello_backend/src/services/location.js:16 | the result of trimming the end is a prefix of the input, and everything removed is white space |
| JsText.TrimEmptyIff | hello_backend/src/services/location.js:16 | trimming gives the empty string exactly when the input is all white space |
| JsText.TrimIgnoresPadding | hello_backend/src/services/location.js:16 | white space added on either side does not change the trimmed string |
| JsText.TrimIdempotent | hello_backend/src/services/location.js:16 | trimming twice is the same as trimming once |
| LocationService.Normalize | hello_backend/src/services/location.js:16 | a missing address normalises to the empty string; otherwise the result is empty or starts and ends with a character that is not white space |
| LocationService.IsLocal | hello_backend/src/services/location.js:18-29 | only a non-empty normalised address can match a loopback or a private prefix |
| LocationService.GetLocationByIp | hello_backend/src/services/location.js:14-51 | the result is always one of the four fixed records (Localhost, New York, London, Tokyo) |
| LocationService.Classify | hello_backend/src/services/location.js:18-50 | a normalised address always maps to one of the four fixed records |
| LocationService.BlankIsLocal | hello_backend/src/services/location.js:16-37 | a missing, empty or all-white-space address gives the Localhost record |
| LocationService.LoopbackIsLocal | hello_backend/src/services/location.js:18-37 | an address whose trimmed form is exactly `127.0.0.1` or `::1` gives the Localhost record |
| LocationService.PrivatePrefixIsLocal | hello_backend/src/services/location.js:18-37 | an address whose trimmed form starts with any of the nine listed prefixes gives the Localhost record |
| LocationService.LocalIff | hello_backend/src/services/location.js:18-37 | the result is Localhost exactly when the trimmed address is empty, a loopback, or has a listed prefix |
| LocationService.LastChar | hello_backend/src/services/location.js:41 | the last code unit is present exactly when the address is non-empty, and is its final code unit |
| LocationService.BucketRecord | hello_backend/src/services/location.js:44-50 | bucket 0 gives New York, bucket 1 London and every other bucket Tokyo; never the Localhost record |
| LocationService.NonLocalBucket | hello_backend/src/services/location.js:41-50 | a non-local address gives New York, London or Tokyo by its last code unit modulo 3 |
| LocationService.OtherCitiesAreNotLocal | hello_backend/src/services/location.js:45-50 | the three bucket records differ from each other and from Localhost |
| LocationService.SameLastCharSameLocation | hello_backend/src/services/location.js:41-42 | two non-local addresses with the same last code unit get the same record |
| LocationService.WhitespaceIrrelevant | hello_backend/src/services/location.js:16 | padding an address with white space does not change its location |
| LocationService.TrimmedInputSameLocation | hello_backend/src/services/location.js:16 | an address and its trimmed form get the same location |
| LocationService.WidePrefixExamples | hello_backend/src/services/location.js:28-29 | the wide `172.2` and `172.3` prefixes make `172.200.0.1` and `172.3.4.5` local, and a padded loopback is local too |
| LocationService.TokyoExample | hello_backend/src/services/location.js:41-50 | `8.8.8.8` maps to Tokyo |
| LocationService.LondonExample | hello_backend/src/services/location.js:41-50 | `1.1.1.1` maps to London |
| LocationService.NewYorkExample | hello_backend/src/services/location.js:18-50 | `172.15.0.3` matches no private prefix and maps to New York |
| TemperatureService.CityOf | hello_backend/src/services/temperature.js:15 | the city is empty exactly when there is no location, no city or an empty city, and otherwise is the location's city |
| TemperatureService.GetTemperature | hello_backend/src/services/temperature.js:12-20 | units are always "C" and the temperature is between 19 and 25 |
| TemperatureService.NoCityIsBase | hello_backend/src/services/temperature.js:14-17 | with no location, no city or an empty city the temperature is the base 22 |
| TemperatureService.CityShift | hello_backend/src/services/temperature.js:15-17 | with a non-empty city the temperature is 22 + (length mod 7) - 3 |
| TemperatureService.EqualLengthsEqualReadings | hello_backend/src/services/temperature.js:15-19 | cities of equal length give equal readings |
| TemperatureService.FixedCityReadings | hello_backend/src/services/temperature.js:12-20 | Tokyo gives 24, London 25, New York 20 and Localhost 21 |
| Sqlite.Parent | hello_backend/src/db/sqlite.js:22 | the parent drops exactly the last segment, and the root is its own parent |
| Sqlite.Ancestor | hello_backend/src/db/sqlite.js:22 | the n-th ancestor is a prefix of the path, n segments shorter (or the root) |
| Sqlite.Step | hello_backend/src/db/sqlite.js:22-32 | a plain segment is appended; `..`, `.` and the empty segment never descend and go up at most one level |
| Sqlite.Resolve | hello_backend/src/db/sqlite.js:22-32 | `path.resolve`/`path.join` over single-segment arguments, applied one `Step` at a time; it has no contract of its own, and `Sqlite.ResolvePlain` and `Sqlite.ResolveUps` give its meaning |
| Sqlite.ResolvePlain | hello_backend/src/db/sqlite.js:24-29 | joining plain names appends them as segments |
| Sqlite.AncestorOfExtension | hello_backend/src/db/sqlite.js:22 | going up once per appended segment gives back the starting directory |
| Sqlite.ResolveUps | hello_backend/src/db/sqlite.js:22-32 | resolving k `..` segments and then the rest is resolving the rest from the k-th ancestor |
| Sqlite.LocalBackendDb | hello_backend/src/db/sqlite.js:32 | the local copy is `myapp.db` two levels above the module directory |
| Sqlite.GetSqliteDbPath | hello_backend/src/db/sqlite.js:14-36 | the preferred path is four levels above the module directory, then the sibling workspace, `hello_database`, `myapp.db` |
| Sqlite.PreferredPathShape | hello_backend/src/db/sqlite.js:22-35 | the preferred path always ends in the sibling workspace, `hello_database`, `myapp.db` |
| Sqlite.ShallowModuleDir | hello_backend/src/db/sqlite.js:22 | a module directory at most four levels deep puts the workspace at the root |
| Sqlite.RepositoryLayout | hello_backend/src/db/sqlite.js:15-32 | for the documented layout the preferred path is the sibling workspace's `hello_database/myapp.db` under the repository root, and the local copy is `myapp.db` inside `hello_backend` |
| RequestLog.OrNull | hello_backend/src/services/requestLog.js:117-119 | an absent or null field binds to null, a given value to itself |
| RequestLog.RowOf | hello_backend/src/services/requestLog.js:112-130 | reading the row back gives the entry exactly when none of its optional fields was omitted |
| RequestLog.RowBindsEntry | hello_backend/src/services/requestLog.js:112-130 | route, timestamp, IP and user agent are stored as given; each optional field is stored exactly when it is given, with its value, and is null when left out or null |
| RequestLog.RowRoundTrip | hello_backend/src/services/requestLog.js:112-130 | every row is the row of some entry, and reading it back gives the same row |
| RequestLog.RunScript | hello_backend/src/services/requestLog.js:84-87 | awaiting the statements in turn never runs more statements than the script holds |
| RequestLog.RunSeq | hello_backend/src/services/requestLog.js:84-87 | awaiting a script that ends by awaiting another (`init` awaiting `_ensureSchema`) is running the two back to back: the second runs on the tables the first left, and only if the first did not fail |
| RequestLog.RunPrefix | hello_backend/src/services/requestLog.js:84-87 | the statements run form a prefix of the script, and all of it when none fails |
| RequestLog.RunFailureLast | hello_backend/src/services/requestLog.js:84-87 | a reported failure is the last statement run, and one that did not succeed |
| RequestLog.RunEarlierOk | hello_backend/src/services/requestLog.js:84-87 | every statement run before the end or the failure succeeded |
| RequestLog.ScriptSucceedsIff | hello_backend/src/services/requestLog.js:84-87 | a script completes exactly when every statement in it succeeds |
| RequestLog.DdlKeepsRows | hello_backend/src/services/requestLog.js:84-87 | pragmas and `CREATE ... IF NOT EXISTS` statements never change the logged rows |
| RequestLog.SchemaEstablished | hello_backend/src/services/requestLog.js:46-66 | a completed `_ensureSchema` leaves the table and both indexes in place and the rows untouched |
| RequestLog.SchemaIdempotent | hello_backend/src/services/requestLog.js:46-66 | on a database that already has the schema, `_ensureSchema` changes nothing |
| RequestLog.SchemaTwice | hello_backend/src/services/requestLog.js:46-66 | running `_ensureSchema` a second time after it succeeded changes nothing |
| RequestLog.InitScriptUnfold | hello_backend/src/services/requestLog.js:84-87 | the init script is the two pragmas followed by `_ensureSchema` |
| RequestLog.InitScriptEstablishesSchema | hello_backend/src/services/requestLog.js:84-87 | a completed init script leaves the schema in place and the rows unchanged |
| RequestLog.FallbackDbPath | hello_backend/src/services/requestLog.js:17-20 | the fallback is `myapp.db` two levels above the services directory |
| RequestLog.FallbackIsLocalBackendDb | hello_backend/src/services/requestLog.js:17-20 | the fallback is the same file as the path helper's local copy exactly when the two module directories have the same second ancestor |
| RequestLog.PlanOpen | hello_backend/src/services/requestLog.js:75-81 | the preferred path is tried first; the fallback is tried exactly when the preferred one cannot be opened; the database used is the last path tried if it opened, and there is none exactly when neither path opens |
| RequestLog.Database.Run | hello_backend/src/services/requestLog.js:34-44 | a statement is recorded as executed; it takes effect on the tables only when it succeeds, and the result says whether it did |
| RequestLog.RequestLogService.constructor | hello_backend/src/services/requestLog.js:11-15 | a new store has no database, is not initialised and has no attempt |
| RequestLog.RequestLogService.Enter | hello_backend/src/services/requestLog.js:69-72 | an initialised store returns at once; a pending or settled attempt is joined; otherwise exactly one attempt starts |
| RequestLog.RequestLogService.OpenDb | hello_backend/src/services/requestLog.js:22-32 | the path is recorded as opened, and the result is the database there, if the path can be opened |
| RequestLog.RequestLogService.EnsureSchema | hello_backend/src/services/requestLog.js:46-66 | the handle's tables become the result of running the schema script, and the failing statement, if any, is returned |
| RequestLog.RequestLogService.OpenWithFallback | hello_backend/src/services/requestLog.js:75-81 | the paths opened and the handle follow the preferred-then-fallback plan |
| RequestLog.RequestLogService.ConfigureAndMigrate | hello_backend/src/services/requestLog.js:84-87 | the connection's tables become the result of the pragmas then the schema script |
| RequestLog.RequestLogService.Migrate | hello_backend/src/services/requestLog.js:76-89 | the opened connection becomes the store's database and its tables are the result of the init script; the store is ready exactly when no statement failed, and otherwise holds the failing statement |
| RequestLog.RequestLogService.RunAttempt | hello_backend/src/services/requestLog.js:73-89 | the paths opened follow the open plan; the attempt settles as ready (schema in place, rows kept) or failed with the unopenable fallback path or the failing statement; no database other than the chosen one changes |
| RequestLog.RequestLogService.Init | hello_backend/src/services/requestLog.js:68-93 | at most one attempt ever starts; an initialised or failed store changes nothing; otherwise the paths opened and the chosen database's tables follow the open plan and the init script; afterwards the store is initialised or holds the failure, the result reports which, and no other database changes |
| RequestLog.RequestLogService.WriteRow | hello_backend/src/services/requestLog.js:123-136 | the insert is executed; the row is appended if it succeeds, otherwise only reported, and nothing else changes |
| RequestLog.RequestLogService.LogRequest | hello_backend/src/services/requestLog.js:109-137 | once initialised, exactly the entry's row is appended (or, if the insert fails, only reported) and the store keeps its database; a failed store returns the same stored error and changes nothing; on the first call the paths opened follow the open plan and the chosen database ends as the init script leaves it, plus the row if init passed; no other database changes |
| Api.TruthyOrNull | hello_backend/src/controllers/api.js:13-14 | a missing or empty string becomes null, any other string is kept |
| Api.ParseMemberOf | hello_backend/src/controllers/api.js:28 | one serialised `"key":"value"` member reads back as its value and the text after it |
| Api.LocationJson | hello_backend/src/controllers/api.js:28 | the JSON text logged for a location reads back as that location |
| Api.LocationJsonInjective | hello_backend/src/controllers/api.js:28 | different locations are logged as different JSON text |
| Api.FixedRecordsVerbatim | hello_backend/src/controllers/api.js:28 | the fixed location strings need no JSON escaping |
| Api.LocationOf | hello_backend/src/controllers/api.js:21 | the handlers' location is one of the four fixed records and serialises without escaping |
| Api.TemperatureOf | hello_backend/src/controllers/api.js:36-37 | the reading for the request's location is in "C" and is 22 + (length of that location's city mod 7) - 3 |
| Api.HelloEntry | hello_backend/src/controllers/api.js:10-15 | the hello row has its route, `Date.now()`, `req.ip \|\| null`, `user-agent \|\| null`, and null location, temperature and units |
| Api.LocationEntry | hello_backend/src/controllers/api.js:23-29 | the location row has its route, `Date.now()` and the client fields, its `location` reads back as exactly the record sent as the body, and temperature and units are null |
| Api.TemperatureEntry | hello_backend/src/controllers/api.js:39-47 | the temperature row has its route, `Date.now()` and the client fields, the body's temperature and units, and the location the reading came from |
| Api.FixedRecordReading | hello_backend/src/services/temperature.js:12-20 | each of the four fixed records reads 20, 21, 24 or 25 degrees C |
| Api.TemperatureValues | hello_backend/src/controllers/api.js:36-37 | the temperature endpoint only ever answers 20, 21, 24 or 25 degrees C |
| Api.Hello | hello_backend/src/controllers/api.js:7-18 | the hello entry is logged before responding; the response is 200 with "Hello World" exactly when the store ends initialised, otherwise the init error; an initialised store gets one row appended (or reported), a failed one rejects with its stored error and changes nothing, and a first call follows the open plan and the init script; no other database changes |
| Api.LocationHandler | hello_backend/src/controllers/api.js:20-32 | the same store post-state for the location entry; the response is 200 with the location exactly when the store ends initialised, otherwise the init error |
| Api.TemperatureHandler | hello_backend/src/controllers/api.js:34-50 | the same store post-state for the temperature entry; the response is 200 with the reading exactly when the store ends initialised, otherwise the init error |

## Left out

- `routes/index.js`, `swagger.js`, the health controller and the Express app are not part of this model. They only wire the handlers to URLs.
- Real concurrency is not modelled. Interleaved requests appear only through the states `Enter` distinguishes, so a second caller can join a pending (`InFlight`) attempt.
- The timing of the first open is not modelled. In the source the call that starts the attempt issues the preferred open before it suspends (requestLog.js:76). In the model an `InFlight` attempt has opened nothing yet, and its opens happen when it is first awaited, so a caller that joins an `InFlight` attempt drives its opens. Only the count of open sequences matches the source: one per store.
- The SQL text, SQLite itself and pragma semantics are left out. Each statement is a `Stmt` whose effect on a `Tables` state is stated directly. The WAL and foreign-key pragmas change nothing there.
- The content of the `console.error` message is left out; the model records only which rows were reported.
- The Express `req`/`res` objects are reduced to the IP, the user-agent header and the status and body.
- `Date.now()` is an input, `Request.now`.
- `Api.LocationJson`: covers only strings that `JSON.stringify` copies verbatim, because JSON escaping is not modelled. Every string the handlers actually serialise is such a string (`Api.FixedRecordsVerbatim`).
- `TemperatureService.GetTemperature`: takes the city as an optional string. `String(city)` of a non-string truthy value is not modelled, and the temperature is an integer rather than a JavaScript number (stored as `REAL`).
- `Sqlite.Resolve`: takes every argument as a single path segment (no `/` inside), which holds for every argument in the source. Paths are absolute segment sequences with no platform separator.
