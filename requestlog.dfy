/**
 * The request-log store (`RequestLogService`): lazy single-flight
 * initialisation of one database connection (preferred path, then fallback
 * path, then two pragmas and the idempotent schema), and the best-effort
 * insert of one row per request.
 *
 * The database driver is abstract. Opening a path succeeds exactly when the
 * path is a key of the `openable` map, and yields the database stored there.
 * Each statement run during initialisation succeeds exactly when the oracle
 * `ok` says so. An insert succeeds exactly when `insertSucceeds` holds.
 */
module RequestLog {
  import opened Wrappers
  import opened JsText
  import opened Sqlite

  /** An optional field of a log entry: left out (`undefined`), `null`, or given. */
  datatype Field<T> = Omitted | Null | Given(value: T)

  /** A destructuring default `= null`: a field left out reads as null. */
  function OrNull<T>(f: Field<T>): (r: Option<T>)
    ensures r.Some? <==> f.Given?
    ensures f.Given? ==> r.value == f.value
  {
    match f
    case Given(v) => Some(v)
    case _ => None
  }

  /** The argument of `logRequest`. */
  datatype Entry = Entry(
    route: JsString, timestamp: int, ip: Option<JsString>, userAgent: Option<JsString>,
    location: Field<JsString>, temperature: Field<int>, units: Field<JsString>)

  /** One row of `request_logs`, as bound to the insert's seven parameters. */
  datatype Row = Row(
    route: JsString, timestamp: int, ip: Option<JsString>, userAgent: Option<JsString>,
    location: Option<JsString>, temperature: Option<int>, units: Option<JsString>)

  /**
   * The parameters `logRequest` binds for an entry. What is given is stored as given and what
   * is left out is stored as null, so the entry comes back from its row exactly when it leaves
   * nothing out.
   */
  function RowOf(e: Entry): (r: Row)
    ensures EntryOf(r) == e <==> (!e.location.Omitted? && !e.temperature.Omitted? && !e.units.Omitted?)
  {
    Row(e.route, e.timestamp, e.ip, e.userAgent, OrNull(e.location), OrNull(e.temperature), OrNull(e.units))
  }

  /**
   * The binding field by field: the four named fields are stored as given, and each optional
   * field is stored exactly when it is given, with its value; left out or null, it is null.
   */
  lemma RowBindsEntry(e: Entry)
    ensures var r := RowOf(e);
      r.route == e.route && r.timestamp == e.timestamp && r.ip == e.ip && r.userAgent == e.userAgent
    ensures var r := RowOf(e);
      (r.location.Some? <==> e.location.Given?) && (e.location.Given? ==> r.location.value == e.location.value)
    ensures var r := RowOf(e);
      (r.temperature.Some? <==> e.temperature.Given?) && (e.temperature.Given? ==> r.temperature.value == e.temperature.value)
    ensures var r := RowOf(e);
      (r.units.Some? <==> e.units.Given?) && (e.units.Given? ==> r.units.value == e.units.value)
  {
  }

  /** The entry that passes a row's nulls explicitly. */
  function EntryOf(row: Row): Entry {
    Entry(row.route, row.timestamp, row.ip, row.userAgent,
          ToField(row.location), ToField(row.temperature), ToField(row.units))
  }

  function ToField<T>(o: Option<T>): Field<T> {
    if o.Some? then Given(o.value) else Null
  }

  /** Every row is stored from some entry, unaltered. */
  lemma RowRoundTrip(row: Row)
    ensures RowOf(EntryOf(row)) == row
  {
  }

  /** The statements the store sends to the database. */
  datatype Stmt =
    | JournalModeWal          // PRAGMA journal_mode = WAL
    | ForeignKeysOn           // PRAGMA foreign_keys = ON
    | CreateTable             // CREATE TABLE IF NOT EXISTS request_logs (...)
    | CreateTimestampIndex    // CREATE INDEX IF NOT EXISTS idx_request_logs_timestamp
    | CreateRouteIndex        // CREATE INDEX IF NOT EXISTS idx_request_logs_route
    | InsertRow(row: Row)     // INSERT INTO request_logs (...) VALUES (?, ?, ?, ?, ?, ?, ?)

  /** The part of a database file the store touches: the table, its two indexes, its rows. */
  datatype Tables = Tables(requestLogs: bool, timestampIndex: bool, routeIndex: bool, rows: seq<Row>)

  predicate HasSchema(t: Tables) {
    t.requestLogs && t.timestampIndex && t.routeIndex
  }

  /** What a statement that succeeds does. The pragmas change connection settings, which are not modelled. */
  function Effect(s: Stmt, t: Tables): Tables {
    match s
    case JournalModeWal => t
    case ForeignKeysOn => t
    case CreateTable => t.(requestLogs := true)
    case CreateTimestampIndex => t.(timestampIndex := true)
    case CreateRouteIndex => t.(routeIndex := true)
    case InsertRow(row) => t.(rows := t.rows + [row])
  }

  /** `_ensureSchema`: the table, then the timestamp index, then the route index. */
  const SchemaScript: seq<Stmt> := [CreateTable, CreateTimestampIndex, CreateRouteIndex]

  /** What `init` runs on a freshly opened connection: both pragmas, then the schema. */
  const InitScript: seq<Stmt> := [JournalModeWal, ForeignKeysOn, CreateTable, CreateTimestampIndex, CreateRouteIndex]

  predicate IsDdl(s: Stmt) {
    !s.InsertRow?
  }

  datatype ScriptRun = ScriptRun(ran: seq<Stmt>, failed: Option<Stmt>, tables: Tables)

  /**
   * Awaiting each statement in turn: the first one that fails rejects and the rest never run.
   * Never more statements run than the script holds; the exact shape of a run is stated by
   * the lemmas below.
   */
  function RunScript(script: seq<Stmt>, t: Tables, ok: Stmt -> bool): (r: ScriptRun)
    ensures |r.ran| <= |script|
    decreases |script|
  {
    if script == [] then ScriptRun([], None, t)
    else if !ok(script[0]) then ScriptRun([script[0]], Some(script[0]), t)
    else
      var rest := RunScript(script[1..], Effect(script[0], t), ok);
      ScriptRun([script[0]] + rest.ran, rest.failed, rest.tables)
  }

  /** The statements run form a prefix of the script, and all of it when nothing fails. */
  lemma {:induction false} RunPrefix(script: seq<Stmt>, t: Tables, ok: Stmt -> bool)
    ensures RunScript(script, t, ok).ran <= script
    ensures RunScript(script, t, ok).failed == None ==> RunScript(script, t, ok).ran == script
    decreases |script|
  {
    if script != [] && ok(script[0]) {
      var rest := RunScript(script[1..], Effect(script[0], t), ok);
      RunPrefix(script[1..], Effect(script[0], t), ok);
      assert script == [script[0]] + script[1..];
      assert RunScript(script, t, ok).ran == [script[0]] + rest.ran;
    }
  }

  /** A failure is the last statement run, and one that did not succeed. */
  lemma {:induction false} RunFailureLast(script: seq<Stmt>, t: Tables, ok: Stmt -> bool)
    ensures var r := RunScript(script, t, ok);
      r.failed.Some? ==> r.ran != [] && r.failed.value == r.ran[|r.ran| - 1] && !ok(r.failed.value)
    decreases |script|
  {
    if script != [] && ok(script[0]) {
      var rest := RunScript(script[1..], Effect(script[0], t), ok);
      RunFailureLast(script[1..], Effect(script[0], t), ok);
      var r := RunScript(script, t, ok);
      assert r.ran == [script[0]] + rest.ran;
      if rest.failed.Some? {
        assert r.ran[|r.ran| - 1] == rest.ran[|rest.ran| - 1];
      }
    }
  }

  /** Every statement run before the end, or before the failure, succeeded. */
  predicate EarlierOk(r: ScriptRun, ok: Stmt -> bool) {
    forall i | 0 <= i < |r.ran| && (r.failed == None || i < |r.ran| - 1) :: ok(r.ran[i])
  }

  lemma {:induction false} RunEarlierOk(script: seq<Stmt>, t: Tables, ok: Stmt -> bool)
    ensures EarlierOk(RunScript(script, t, ok), ok)
    decreases |script|
  {
    if script != [] && ok(script[0]) {
      var rest := RunScript(script[1..], Effect(script[0], t), ok);
      RunEarlierOk(script[1..], Effect(script[0], t), ok);
      var r := RunScript(script, t, ok);
      assert r.ran == [script[0]] + rest.ran;
      forall i | 0 <= i < |r.ran| && (r.failed == None || i < |r.ran| - 1)
        ensures ok(r.ran[i])
      {
        if i > 0 {
          assert r.ran[i] == rest.ran[i - 1];
          assert 0 <= i - 1 < |rest.ran| && (rest.failed == None || i - 1 < |rest.ran| - 1);
        } else {
          assert r.ran[0] == script[0];
        }
      }
    }
  }

  /** A script runs to the end exactly when every one of its statements succeeds. */
  lemma {:induction false} ScriptSucceedsIff(script: seq<Stmt>, t: Tables, ok: Stmt -> bool)
    ensures RunScript(script, t, ok).failed == None <==> forall i | 0 <= i < |script| :: ok(script[i])
    decreases |script|
  {
    if script != [] && ok(script[0]) {
      ScriptSucceedsIff(script[1..], Effect(script[0], t), ok);
      assert forall i | 1 <= i < |script| :: script[i] == script[1..][i - 1];
    }
  }

  /** Schema and pragma statements never touch the rows, and never drop the table or an index. */
  lemma {:induction false} DdlKeepsRows(script: seq<Stmt>, t: Tables, ok: Stmt -> bool)
    requires forall i | 0 <= i < |script| :: IsDdl(script[i])
    ensures var u := RunScript(script, t, ok).tables;
      u.rows == t.rows &&
      (t.requestLogs ==> u.requestLogs) && (t.timestampIndex ==> u.timestampIndex) && (t.routeIndex ==> u.routeIndex)
    decreases |script|
  {
    if script != [] && ok(script[0]) {
      assert IsDdl(script[0]);
      assert forall i | 0 <= i < |script| - 1 :: script[1..][i] == script[i + 1];
      DdlKeepsRows(script[1..], Effect(script[0], t), ok);
    }
  }

  /** After a schema run that succeeds, the table and both indexes exist and the rows are as before. */
  lemma SchemaEstablished(t: Tables, ok: Stmt -> bool)
    requires RunScript(SchemaScript, t, ok).failed == None
    ensures HasSchema(RunScript(SchemaScript, t, ok).tables)
    ensures RunScript(SchemaScript, t, ok).tables.rows == t.rows
  {
    var r1 := RunScript(SchemaScript[1..], Effect(CreateTable, t), ok);
    var r2 := RunScript(SchemaScript[2..], Effect(CreateTimestampIndex, Effect(CreateTable, t)), ok);
    assert SchemaScript[1..][1..] == SchemaScript[2..];
    assert SchemaScript[2..][1..] == [];
  }

  /**
   * `CREATE ... IF NOT EXISTS` is idempotent: on a database that has the schema, the schema
   * script changes nothing, whichever of its statements fail.
   */
  lemma SchemaIdempotent(t: Tables, ok: Stmt -> bool)
    requires HasSchema(t)
    ensures RunScript(SchemaScript, t, ok).tables == t
  {
    assert Effect(CreateTable, t) == t;
    assert Effect(CreateTimestampIndex, t) == t;
    assert Effect(CreateRouteIndex, t) == t;
    assert SchemaScript[1..][1..] == SchemaScript[2..];
    assert SchemaScript[2..][1..] == [];
  }

  /** Running the schema a second time, at the next process start, leaves the database as the first run did. */
  lemma SchemaTwice(t: Tables, ok1: Stmt -> bool, ok2: Stmt -> bool)
    requires RunScript(SchemaScript, t, ok1).failed == None
    ensures var u := RunScript(SchemaScript, t, ok1).tables; RunScript(SchemaScript, u, ok2).tables == u
  {
    SchemaEstablished(t, ok1);
    SchemaIdempotent(RunScript(SchemaScript, t, ok1).tables, ok2);
  }

  /**
   * Awaiting a script that itself awaits a second script, as `init` awaits `_ensureSchema`,
   * is running the two back to back: the second runs on what the first left, unless the
   * first already failed.
   */
  lemma {:induction false} RunSeq(a: seq<Stmt>, b: seq<Stmt>, t: Tables, ok: Stmt -> bool)
    ensures RunScript(a + b, t, ok) ==
      var ra := RunScript(a, t, ok);
      if ra.failed.Some? then ra
      else var rb := RunScript(b, ra.tables, ok); ScriptRun(ra.ran + rb.ran, rb.failed, rb.tables)
    decreases |a|
  {
    if a == [] {
      assert a + b == b;
    } else {
      assert (a + b)[0] == a[0] && (a + b)[1..] == a[1..] + b;
      if ok(a[0]) {
        var u := Effect(a[0], t);
        RunSeq(a[1..], b, u, ok);
        var ra' := RunScript(a[1..], u, ok);
        if ra'.failed == None {
          var rb := RunScript(b, ra'.tables, ok);
          assert ([a[0]] + ra'.ran) + rb.ran == [a[0]] + (ra'.ran + rb.ran);
        }
      }
    }
  }

  /** The init script is the two pragmas followed by the schema script. */
  lemma InitScriptUnfold(t: Tables, ok: Stmt -> bool)
    ensures var r := RunScript(InitScript, t, ok); var s := RunScript(SchemaScript, t, ok);
      r == if !ok(JournalModeWal) then ScriptRun([JournalModeWal], Some(JournalModeWal), t)
           else if !ok(ForeignKeysOn) then ScriptRun([JournalModeWal, ForeignKeysOn], Some(ForeignKeysOn), t)
           else ScriptRun([JournalModeWal, ForeignKeysOn] + s.ran, s.failed, s.tables)
  {
    assert InitScript == [JournalModeWal, ForeignKeysOn] + SchemaScript;
    RunSeq([JournalModeWal, ForeignKeysOn], SchemaScript, t, ok);
    assert [JournalModeWal, ForeignKeysOn][1..] == [ForeignKeysOn];
    assert [ForeignKeysOn][1..] == [];
  }

  /** When every init statement succeeds, all five ran, in order, the schema exists and the rows are as before. */
  lemma InitScriptEstablishesSchema(t: Tables, ok: Stmt -> bool)
    ensures RunScript(InitScript, t, ok).failed == None ==>
      RunScript(InitScript, t, ok).ran == InitScript && HasSchema(RunScript(InitScript, t, ok).tables) &&
      RunScript(InitScript, t, ok).tables.rows == t.rows
  {
    InitScriptUnfold(t, ok);
    DdlKeepsRows(InitScript, t, ok);
    if RunScript(InitScript, t, ok).failed == None {
      SchemaEstablished(t, ok);
    }
  }

  /** `_getFallbackDbPath`: `myapp.db` two levels above the service's own directory. */
  function FallbackDbPath(servicesDir: Path): (r: Path)
    ensures r == Ancestor(servicesDir, 2) + [DatabaseFile]
  {
    assert ["..", "..", DatabaseFile] == Ups(2) + [DatabaseFile];
    ResolveUps(servicesDir, 2, [DatabaseFile]);
    ResolvePlain(Ancestor(servicesDir, 2), [DatabaseFile]);
    Resolve(servicesDir, ["..", "..", DatabaseFile])
  }

  /**
   * The path helper's unused `localBackendDb` and the store's fallback are the same file
   * exactly when the two modules share a grandparent directory, as `src/db` and `src/services` do.
   */
  lemma FallbackIsLocalBackendDb(servicesDir: Path, dbModuleDir: Path)
    ensures FallbackDbPath(servicesDir) == LocalBackendDb(dbModuleDir) <==> Ancestor(servicesDir, 2) == Ancestor(dbModuleDir, 2)
  {
    var a := Ancestor(servicesDir, 2);
    var b := Ancestor(dbModuleDir, 2);
    if a + [DatabaseFile] == b + [DatabaseFile] {
      assert a == (a + [DatabaseFile])[..|a|];
      assert b == (b + [DatabaseFile])[..|b|];
    }
  }

  datatype OpenPlan = OpenPlan(tried: seq<Path>, chosen: Option<Path>)

  /**
   * The `try`/`catch` around the two opens: the paths tried, and the one whose database is used.
   * The preferred path is always tried first; the fallback is tried exactly when the preferred
   * open fails; no database is obtained exactly when both fail; a database that is obtained
   * comes from the last path tried.
   */
  function PlanOpen(preferred: Path, fallback: Path, openable: set<Path>): (plan: OpenPlan)
    ensures 1 <= |plan.tried| <= 2 && plan.tried[0] == preferred
    ensures |plan.tried| == 2 <==> preferred !in openable
    ensures |plan.tried| == 2 ==> plan.tried[1] == fallback
    ensures plan.chosen == None <==> preferred !in openable && fallback !in openable
    ensures plan.chosen.Some? ==> plan.chosen.value in openable && plan.chosen.value == plan.tried[|plan.tried| - 1]
  {
    if preferred in openable then OpenPlan([preferred], Some(preferred))
    else if fallback in openable then OpenPlan([preferred, fallback], Some(fallback))
    else OpenPlan([preferred, fallback], None)
  }

  /**
   * What a first `logRequest` leaves in the chosen database, which held `before`: when a pragma or
   * schema statement fails, that failure is returned and only the statements before it took
   * effect; otherwise the schema is run, then `row` is appended if the insert succeeds and is
   * reported to the error log if it does not.
   */
  predicate FirstCallOutcome(r: Outcome<InitError>, before: Tables, after: Tables, ok: Stmt -> bool,
                             row: Row, insertSucceeds: bool, reported0: seq<Row>, reported1: seq<Row>)
  {
    var run := RunScript(InitScript, before, ok);
    match run.failed
    case Some(stmt) => r == Fail(StatementFailed(stmt)) && after == run.tables && reported1 == reported0
    case None =>
      r == Pass &&
      after == run.tables.(rows := before.rows + if insertSucceeds then [row] else []) &&
      reported1 == reported0 + if insertSucceeds then [] else [row]
  }

  /** Every database in `dbs` other than `kept` has its tables and its statement history unchanged. */
  twostate predicate OthersUnchanged(dbs: set<Database>, kept: Database?)
    reads dbs
  {
    forall d | d in dbs && d != kept :: d.tables == old(d.tables) && d.executed == old(d.executed)
  }

  /** A database connection: the file's tables, and every statement sent to it. */
  class Database {
    var tables: Tables
    ghost var executed: seq<Stmt>

    constructor (t: Tables)
      ensures tables == t && executed == []
    {
      tables := t;
      executed := [];
    }

    /** `_run`: one statement; it succeeds as the driver reports, and only then takes effect. */
    method Run(stmt: Stmt, succeeds: bool) returns (ok: bool)
      modifies this
      ensures ok == succeeds
      ensures tables == if succeeds then Effect(stmt, old(tables)) else old(tables)
      ensures executed == old(executed) + [stmt]
    {
      executed := executed + [stmt];
      if succeeds {
        tables := Effect(stmt, tables);
      }
      ok := succeeds;
    }
  }

  datatype InitError = CannotOpen(path: Path) | StatementFailed(stmt: Stmt)

  /** The status of the shared promise in `_initializing`: none yet, pending, resolved, rejected. */
  datatype Attempt = Idle | InFlight | Ready | Failed(error: InitError)

  /** What the synchronous start of `init` did: returned at once, returned the existing attempt, or started it. */
  datatype InitCall = AlreadyInitialized | Joined(attempt: Attempt) | Started

  class RequestLogService {
    /** The directory of the store's own module, and that of the path helper. */
    const servicesDir: Path
    const dbModuleDir: Path
    /** `getSqliteDbPath()` and `_getFallbackDbPath()`: pure, so the same on every call. */
    const preferred: Path
    const fallback: Path

    var db: Database?
    var initialized: bool
    var initializing: Attempt

    /** Every path passed to `_openDb`, in order. */
    ghost var openedPaths: seq<Path>
    /** Open-and-migrate sequences started. */
    ghost var attemptsStarted: nat
    /** Every entry passed to `logRequest`. */
    ghost var submitted: seq<Entry>
    /** Rows whose insert failed and was reported to the error log. */
    ghost var reported: seq<Row>

    ghost predicate Valid()
      reads this, db
    {
      (initialized <==> initializing == Ready) &&
      attemptsStarted == (if initializing == Idle then 0 else 1) &&
      ((initializing == Idle || initializing == InFlight) ==> openedPaths == [] && db == null) &&
      (initializing == Ready ==> db != null && HasSchema(db.tables) && openedPaths != []) &&
      (initializing.Failed? && initializing.error.CannotOpen? ==>
         db == null && openedPaths == [preferred, fallback] && initializing.error.path == fallback) &&
      (initializing.Failed? && initializing.error.StatementFailed? ==> db != null && openedPaths != []) &&
      (openedPaths == [] || openedPaths == [preferred] || openedPaths == [preferred, fallback])
    }

    constructor (servicesDir: Path, dbModuleDir: Path)
      ensures Valid()
      ensures this.servicesDir == servicesDir && this.dbModuleDir == dbModuleDir
      ensures preferred == GetSqliteDbPath(dbModuleDir) && fallback == FallbackDbPath(servicesDir)
      ensures db == null && !initialized && initializing == Idle
      ensures openedPaths == [] && attemptsStarted == 0 && submitted == [] && reported == []
    {
      this.servicesDir := servicesDir;
      this.dbModuleDir := dbModuleDir;
      preferred := GetSqliteDbPath(dbModuleDir);
      fallback := FallbackDbPath(servicesDir);
      db := null;
      initialized := false;
      initializing := Idle;
      openedPaths := [];
      attemptsStarted := 0;
      submitted := [];
      reported := [];
    }

    /**
     * The synchronous start of `init`: return at once when initialised, return the existing
     * attempt when there is one, and otherwise start the one and only attempt.
     */
    method Enter() returns (call: InitCall)
      requires Valid()
      modifies this
      ensures Valid()
      ensures old(initialized) ==> call == AlreadyInitialized && unchanged(this)
      ensures !old(initialized) && old(initializing) != Idle ==> call == Joined(old(initializing)) && unchanged(this)
      ensures !old(initialized) && old(initializing) == Idle ==>
        call == Started && initializing == InFlight && attemptsStarted == 1 &&
        !initialized && db == old(db) && openedPaths == old(openedPaths) && submitted == old(submitted) && reported == old(reported)
    {
      if initialized {
        return AlreadyInitialized;
      }
      if initializing != Idle {
        return Joined(initializing);
      }
      initializing := InFlight;
      attemptsStarted := attemptsStarted + 1;
      call := Started;
    }

    /** `_openDb`: opening succeeds exactly for the paths in `openable`. */
    method OpenDb(path: Path, openable: map<Path, Database>) returns (handle: Option<Database>)
      modifies this`openedPaths
      ensures openedPaths == old(openedPaths) + [path]
      ensures handle == if path in openable then Some(openable[path]) else None
    {
      openedPaths := openedPaths + [path];
      handle := if path in openable then Some(openable[path]) else None;
    }

    /** `_ensureSchema`: the schema script, run one awaited statement at a time. */
    method EnsureSchema(handle: Database, ok: Stmt -> bool) returns (failed: Option<Stmt>)
      modifies handle
      ensures var run := RunScript(SchemaScript, old(handle.tables), ok);
        failed == run.failed && handle.tables == run.tables && handle.executed == old(handle.executed) + run.ran
    {
      ghost var t0 := handle.tables;
      ghost var e0 := handle.executed;
      assert SchemaScript[1..] == [CreateTimestampIndex, CreateRouteIndex];
      assert SchemaScript[1..][1..] == [CreateRouteIndex];
      assert SchemaScript[1..][1..][1..] == [];
      var step := handle.Run(CreateTable, ok(CreateTable));
      if !step {
        return Some(CreateTable);
      }
      step := handle.Run(CreateTimestampIndex, ok(CreateTimestampIndex));
      if !step {
        return Some(CreateTimestampIndex);
      }
      step := handle.Run(CreateRouteIndex, ok(CreateRouteIndex));
      if !step {
        return Some(CreateRouteIndex);
      }
      failed := None;
    }

    /** The `try`/`catch` of `init`: open the preferred path, and only if that fails, the fallback path. */
    method OpenWithFallback(openable: map<Path, Database>) returns (handle: Option<Database>)
      modifies this`openedPaths
      ensures var plan := PlanOpen(preferred, fallback, openable.Keys);
        openedPaths == old(openedPaths) + plan.tried &&
        handle == if plan.chosen.Some? then Some(openable[plan.chosen.value]) else None
    {
      handle := OpenDb(preferred, openable);
      if handle == None {
        // `catch`: retry with the fallback inside the backend's own directory
        handle := OpenDb(fallback, openable);
      }
    }

    /** `init`'s two pragmas and its `_ensureSchema` on the opened connection. */
    method ConfigureAndMigrate(conn: Database, ok: Stmt -> bool) returns (failed: Option<Stmt>)
      modifies conn
      ensures var run := RunScript(InitScript, old(conn.tables), ok);
        failed == run.failed && conn.tables == run.tables && conn.executed == old(conn.executed) + run.ran
    {
      ghost var t0 := conn.tables;
      InitScriptUnfold(t0, ok);
      var step := conn.Run(JournalModeWal, ok(JournalModeWal));
      if !step {
        return Some(JournalModeWal);
      }
      step := conn.Run(ForeignKeysOn, ok(ForeignKeysOn));
      if !step {
        return Some(ForeignKeysOn);
      }
      failed := EnsureSchema(conn, ok);
    }

    /**
     * The body of the attempt `init` starts: open the preferred path, or else the fallback;
     * then both pragmas and the schema. Only when all of them succeed is the store initialised.
     */
    method RunAttempt(openable: map<Path, Database>, ok: Stmt -> bool)
      requires Valid() && initializing == InFlight
      modifies this, openable.Values
      ensures Valid()
      ensures initializing == Ready || initializing.Failed?
      ensures attemptsStarted == old(attemptsStarted) && submitted == old(submitted) && reported == old(reported)
      ensures var plan := PlanOpen(preferred, fallback, openable.Keys);
        openedPaths == plan.tried &&
        (plan.chosen == None ==> initializing == Failed(CannotOpen(fallback)) && db == null) &&
        (plan.chosen.Some? ==>
          var run := RunScript(InitScript, old(openable[plan.chosen.value].tables), ok);
          db == openable[plan.chosen.value] &&
          db.tables == run.tables &&
          db.executed == old(openable[plan.chosen.value].executed) + run.ran &&
          initializing == (if run.failed == None then Ready else Failed(StatementFailed(run.failed.value))))
      ensures OthersUnchanged(openable.Values, db)
    {
      ghost var plan := PlanOpen(preferred, fallback, openable.Keys);
      var handle := OpenWithFallback(openable);
      assert openedPaths == plan.tried;
      if handle == None {
        initializing := Failed(CannotOpen(fallback));
        return;
      }
      ghost var chosen := openable[plan.chosen.value];
      assert handle.value == chosen;
      Migrate(handle.value, ok);
    }

    /** The rest of `init`'s attempt once a connection is open: keep it as `_db`, configure and migrate it, and settle the attempt. */
    method Migrate(conn: Database, ok: Stmt -> bool)
      requires !initialized && initializing == InFlight && attemptsStarted == 1
      requires openedPaths == [preferred] || openedPaths == [preferred, fallback]
      modifies this, conn
      ensures Valid()
      ensures attemptsStarted == old(attemptsStarted) && submitted == old(submitted) && reported == old(reported)
      ensures openedPaths == old(openedPaths) && db == conn
      ensures var run := RunScript(InitScript, old(conn.tables), ok);
        conn.tables == run.tables && conn.executed == old(conn.executed) + run.ran &&
        initializing == (if run.failed == None then Ready else Failed(StatementFailed(run.failed.value)))
    {
      db := conn;
      ghost var t0 := conn.tables;
      var failed := ConfigureAndMigrate(conn, ok);
      if failed.Some? {
        initializing := Failed(StatementFailed(failed.value));
        return;
      }
      InitScriptEstablishesSchema(t0, ok);
      initialized := true;
      initializing := Ready;
    }

    /**
     * `await this.init()` by one caller: no-op once initialised; the stored rejection once
     * failed; and otherwise the attempt, started now or earlier, is awaited to its end.
     */
    method Init(openable: map<Path, Database>, ok: Stmt -> bool) returns (r: Outcome<InitError>)
      requires Valid()
      modifies this, openable.Values
      ensures Valid()
      ensures initialized || initializing.Failed?
      ensures r == if initialized then Pass else Fail(initializing.error)
      ensures db == old(db) || db in openable.Values
      ensures attemptsStarted == 1 && submitted == old(submitted) && reported == old(reported)
      ensures old(initialized) || old(initializing).Failed? ==>
        unchanged(this) && forall d | d in openable.Values :: unchanged(d)
      ensures (old(initializing) == Idle || old(initializing) == InFlight) ==>
        var plan := PlanOpen(preferred, fallback, openable.Keys);
        openedPaths == plan.tried &&
        (plan.chosen == None ==> initializing == Failed(CannotOpen(fallback)) && db == null) &&
        (plan.chosen.Some? ==>
          var run := RunScript(InitScript, old(openable[plan.chosen.value].tables), ok);
          db == openable[plan.chosen.value] &&
          db.tables == run.tables &&
          db.executed == old(openable[plan.chosen.value].executed) + run.ran &&
          initializing == (if run.failed == None then Ready else Failed(StatementFailed(run.failed.value))))
      ensures OthersUnchanged(openable.Values, db)
    {
      var call := Enter();
      if call == AlreadyInitialized {
        return Pass;
      }
      if initializing.Failed? {
        return Fail(initializing.error);
      }
      RunAttempt(openable, ok);
      r := if initialized then Pass else Fail(initializing.error);
    }

    /** The `try`/`catch` around the insert: a failed insert is reported and swallowed. */
    method WriteRow(entry: Entry, insertSucceeds: bool)
      requires Valid() && initialized
      modifies db, this`reported
      ensures Valid()
      ensures db.tables == old(db.tables).(rows := old(db.tables.rows) + if insertSucceeds then [RowOf(entry)] else [])
      ensures db.executed == old(db.executed) + [InsertRow(RowOf(entry))]
      ensures reported == old(reported) + if insertSucceeds then [] else [RowOf(entry)]
    {
      var row := RowOf(entry);
      var ok := db.Run(InsertRow(row), insertSucceeds);
      if !ok {
        reported := reported + [row];
      }
    }

    /**
     * `logRequest`: initialise, then insert one row. An initialisation failure propagates to
     * the caller; an insert failure never does.
     */
    method LogRequest(entry: Entry, openable: map<Path, Database>, ok: Stmt -> bool, insertSucceeds: bool)
      returns (r: Outcome<InitError>)
      requires Valid()
      modifies this, db, openable.Values
      ensures Valid()
      ensures submitted == old(submitted) + [entry]
      ensures initialized || initializing.Failed?
      ensures r == if initialized then Pass else Fail(initializing.error)
      ensures old(initialized) ==>
        r == Pass && db == old(db) && openedPaths == old(openedPaths) && initializing == old(initializing) &&
        db.tables == old(db.tables).(rows := old(db.tables.rows) + if insertSucceeds then [RowOf(entry)] else []) &&
        reported == old(reported) + (if insertSucceeds then [] else [RowOf(entry)])
      ensures old(initializing).Failed? ==>
        r == Fail(old(initializing).error) && db == old(db) && openedPaths == old(openedPaths) && initializing == old(initializing) &&
        reported == old(reported) && (db != null ==> unchanged(db)) && forall d | d in openable.Values :: unchanged(d)
      ensures !old(initialized) && !old(initializing).Failed? ==>
        var plan := PlanOpen(preferred, fallback, openable.Keys);
        openedPaths == plan.tried &&
        (plan.chosen == None ==> r == Fail(CannotOpen(fallback)) && db == null && reported == old(reported)) &&
        (plan.chosen.Some? ==>
          db == openable[plan.chosen.value] &&
          FirstCallOutcome(r, old(openable[plan.chosen.value].tables), db.tables, ok, RowOf(entry), insertSucceeds, old(reported), reported))
      ensures OthersUnchanged(openable.Values, db)
    {
      submitted := submitted + [entry];
      ghost var plan := PlanOpen(preferred, fallback, openable.Keys);
      ghost var firstCall := !initialized && !initializing.Failed?;
      ghost var before := if plan.chosen.Some? then openable[plan.chosen.value].tables else Tables(false, false, false, []);
      ghost var reported0 := reported;
      r := Init(openable, ok);
      if r.Fail? {
        if firstCall && plan.chosen.Some? {
          assert FirstCallOutcome(r, before, db.tables, ok, RowOf(entry), insertSucceeds, reported0, reported);
        }
        return;
      }
      if firstCall {
        InitScriptEstablishesSchema(before, ok);
      }
      WriteRow(entry, insertSucceeds);
      if firstCall {
        assert FirstCallOutcome(r, before, db.tables, ok, RowOf(entry), insertSucceeds, reported0, reported);
      }
    }
  }
}
