/**
 * The request handlers (`ApiController`): each computes its domain result,
 * builds one log entry, awaits the store's `logRequest`, and only then
 * responds 200 with that result.
 */
module Api {
  import opened Wrappers
  import opened JsText
  import opened LocationService
  import opened TemperatureService
  import opened RequestLog
  import opened Sqlite

  /** What a handler reads from Express: `req.ip`, the `user-agent` header, and `Date.now()`. */
  datatype Request = Request(ip: Option<JsString>, userAgent: Option<JsString>, now: int)

  datatype Body = Greeting(message: JsString) | Place(location: Location) | Weather(reading: Reading)

  datatype Response = Response(status: int, body: Body)

  /** A handler either writes its response or its promise rejects, and nothing is written. */
  datatype HandlerResult = Responded(response: Response) | Rejected(error: InitError)

  /** The greeting service's constant payload. */
  const HelloMessage: JsString := [72, 101, 108, 108, 111, 32, 87, 111, 114, 108, 100]  // "Hello World"

  const HelloRoute: JsString := [47, 97, 112, 105, 47, 104, 101, 108, 108, 111]  // "/api/hello"
  const LocationRoute: JsString := [47, 97, 112, 105, 47, 108, 111, 99, 97, 116, 105, 111, 110]  // "/api/location"
  const TemperatureRoute: JsString :=
    [47, 97, 112, 105, 47, 116, 101, 109, 112, 101, 114, 97, 116, 117, 114, 101]  // "/api/temperature"

  /** `s || null` on a string: a missing or empty string becomes null, anything else stays. */
  function TruthyOrNull(s: Option<JsString>): (r: Option<JsString>)
    ensures r == None <==> (s == None || s == Some([]))
    ensures r.Some? ==> r == s
  {
    if s.Some? && s.value != [] then s else None
  }

  // ---- JSON.stringify of a location record ----

  const CityKey: JsString := [123, 34, 99, 105, 116, 121, 34, 58, 34]  // {"city":"
  const RegionKey: JsString := [44, 34, 114, 101, 103, 105, 111, 110, 34, 58, 34]  // ,"region":"
  const CountryKey: JsString := [44, 34, 99, 111, 117, 110, 116, 114, 121, 34, 58, 34]  // ,"country":"
  const Quote: CodeUnit := 34
  const CloseBrace: CodeUnit := 125

  /** A string `JSON.stringify` copies verbatim: no quote, backslash, control character or surrogate. */
  predicate JsonVerbatim(s: JsString) {
    forall i | 0 <= i < |s| :: s[i] != Quote && s[i] != 92 && s[i] >= 0x20 && !(0xD800 <= s[i] <= 0xDFFF)
  }

  predicate JsonVerbatimRecord(l: Location) {
    JsonVerbatim(l.city) && JsonVerbatim(l.region) && JsonVerbatim(l.country)
  }

  /** One `"key":"value"` member with its leading punctuation, followed by `rest`. */
  function Member(key: JsString, value: JsString, rest: JsString): JsString {
    key + value + [Quote] + rest
  }

  /**
   * `JSON.stringify(location)` for a record whose strings need no escaping; keys in insertion
   * order. The text reads back as the record itself.
   */
  function LocationJson(l: Location): (r: JsString)
    requires JsonVerbatimRecord(l)
    ensures ParseLocationJson(r) == Some(l)
  {
    var tail2 := Member(CountryKey, l.country, [CloseBrace]);
    var tail1 := Member(RegionKey, l.region, tail2);
    ParseMemberOf(CityKey, l.city, tail1);
    ParseMemberOf(RegionKey, l.region, tail2);
    ParseMemberOf(CountryKey, l.country, [CloseBrace]);
    Member(CityKey, l.city, tail1)
  }

  /** The string contents up to the first quote, and what follows that quote. */
  function TakeString(s: JsString): Option<(JsString, JsString)>
    decreases |s|
  {
    if s == [] then None
    else if s[0] == Quote then Some(([], s[1..]))
    else match TakeString(s[1..])
      case None => None
      case Some((a, b)) => Some(([s[0]] + a, b))
  }

  /** Reads one member: the expected key, then the string up to its closing quote. */
  function ParseMember(key: JsString, s: JsString): Option<(JsString, JsString)> {
    if key <= s then TakeString(s[|key|..]) else None
  }

  /** Reads back a serialised location record; used only to state what the log holds. */
  function ParseLocationJson(s: JsString): Option<Location> {
    match ParseMember(CityKey, s)
    case None => None
    case Some((city, s1)) =>
      match ParseMember(RegionKey, s1)
      case None => None
      case Some((region, s2)) =>
        match ParseMember(CountryKey, s2)
        case None => None
        case Some((country, s3)) =>
          if s3 == [CloseBrace] then Some(Location(city, region, country)) else None
  }

  lemma {:induction false} TakeStringOf(a: JsString, b: JsString)
    requires forall i | 0 <= i < |a| :: a[i] != Quote
    ensures TakeString(a + [Quote] + b) == Some((a, b))
    decreases |a|
  {
    var s := a + [Quote] + b;
    if a == [] {
      assert s[1..] == b;
    } else {
      assert s[0] == a[0];
      assert s[1..] == a[1..] + [Quote] + b;
      TakeStringOf(a[1..], b);
      assert [a[0]] + a[1..] == a;
    }
  }

  /** A member written by `Member` is read back by `ParseMember`. */
  lemma ParseMemberOf(key: JsString, value: JsString, rest: JsString)
    requires JsonVerbatim(value)
    ensures ParseMember(key, Member(key, value, rest)) == Some((value, rest))
  {
    assert Member(key, value, rest)[|key|..] == value + [Quote] + rest;
    TakeStringOf(value, rest);
  }

  /** Different records are logged as different strings. */
  lemma LocationJsonInjective(a: Location, b: Location)
    requires JsonVerbatimRecord(a) && JsonVerbatimRecord(b)
    requires LocationJson(a) == LocationJson(b)
    ensures a == b
  {
  }

  /** None of the classifier's fixed strings needs escaping. */
  lemma FixedRecordsVerbatim(l: Location)
    requires IsFixedRecord(l)
    ensures JsonVerbatimRecord(l)
  {
  }

  /** The location argument the temperature handler passes: every field present. */
  function AsInfo(l: Location): LocationInfo {
    LocationInfo(Some(l.city), Some(l.region), Some(l.country))
  }

  // ---- Domain results and log entries, per handler ----

  /** `getLocationByIp(req.ip)`, the record both the location and temperature handlers use. */
  function LocationOf(req: Request): (l: Location)
    ensures IsFixedRecord(l) && JsonVerbatimRecord(l)
  {
    var l := GetLocationByIp(req.ip);
    FixedRecordsVerbatim(l);
    l
  }

  /** `getTemperature(location)` for that record. */
  function TemperatureOf(req: Request): (r: Reading)
    ensures r.units == Celsius
    ensures r.temperature == Base + (|LocationOf(req).city| % 7) - 3
  {
    GetTemperature(Some(AsInfo(LocationOf(req))))
  }

  /**
   * The greeting's entry. Its row holds the route, the request's time, `req.ip || null`,
   * `user-agent || null`, and null location, temperature and units.
   */
  function HelloEntry(req: Request): (e: Entry)
    ensures var row := RowOf(e);
      row.route == HelloRoute && row.timestamp == req.now &&
      row.ip == TruthyOrNull(req.ip) && row.userAgent == TruthyOrNull(req.userAgent) &&
      row.location == None && row.temperature == None && row.units == None
  {
    Entry(HelloRoute, req.now, TruthyOrNull(req.ip), TruthyOrNull(req.userAgent), Omitted, Omitted, Omitted)
  }

  /**
   * The location entry. Its row's `location` reads back as exactly the record sent as the
   * body; temperature and units are null.
   */
  function LocationEntry(req: Request): (e: Entry)
    ensures var row := RowOf(e);
      row.route == LocationRoute && row.timestamp == req.now &&
      row.ip == TruthyOrNull(req.ip) && row.userAgent == TruthyOrNull(req.userAgent) &&
      row.location.Some? && ParseLocationJson(row.location.value) == Some(GetLocationByIp(req.ip)) &&
      row.temperature == None && row.units == None
  {
    Entry(LocationRoute, req.now, TruthyOrNull(req.ip), TruthyOrNull(req.userAgent),
          Given(LocationJson(LocationOf(req))), Omitted, Omitted)
  }

  /**
   * The temperature entry. Its row carries the body's temperature and units, and its
   * `location` reads back as the record the reading was computed from.
   */
  function TemperatureEntry(req: Request): (e: Entry)
    ensures var row := RowOf(e);
      row.route == TemperatureRoute && row.timestamp == req.now &&
      row.ip == TruthyOrNull(req.ip) && row.userAgent == TruthyOrNull(req.userAgent) &&
      row.location.Some? && ParseLocationJson(row.location.value) == Some(GetLocationByIp(req.ip)) &&
      row.temperature == Some(TemperatureOf(req).temperature) && row.units == Some(TemperatureOf(req).units)
  {
    var result := TemperatureOf(req);
    Entry(TemperatureRoute, req.now, TruthyOrNull(req.ip), TruthyOrNull(req.userAgent),
          Given(LocationJson(LocationOf(req))), Given(result.temperature), Given(result.units))
  }

  /** The reading for each of the four fixed records. */
  lemma FixedRecordReading(l: Location)
    requires IsFixedRecord(l)
    ensures GetTemperature(Some(AsInfo(l))).units == Celsius
    ensures GetTemperature(Some(AsInfo(l))).temperature in {20, 21, 24, 25}
  {
    if l == LocalRecord {
      assert |l.city| == 9;
    } else if l == NewYork {
      assert |l.city| == 8;
    } else if l == London {
      assert |l.city| == 6;
    } else {
      assert |l.city| == 5;
    }
  }

  /** The temperature body is always 20, 21, 24 or 25 degrees Celsius. */
  lemma TemperatureValues(req: Request)
    ensures TemperatureOf(req).units == Celsius
    ensures TemperatureOf(req).temperature in {20, 21, 24, 25}
  {
    FixedRecordReading(LocationOf(req));
  }

  // ---- The handlers ----

  /** The `logRequest` outcome as a handler sees it. */
  function Logged(out: HandlerResult): Outcome<InitError> {
    if out.Responded? then Pass else Fail(out.error)
  }

  /**
   * What one handler call does, given the entry it logs and the body it answers with:
   * `logRequest` is awaited first, and the response is 200 with the body exactly when the store
   * ends up initialised.
   * - On an initialised store exactly one row is appended (unless the insert fails, when it is
   *   reported instead), and the store keeps its database and the paths it opened.
   * - A store whose attempt failed rejects again with the same error and changes nothing.
   * - On the first call the open plan is followed and the chosen database ends as
   *   `FirstCallOutcome` says.
   * - No other database is touched.
   */
  twostate predicate Handled(store: RequestLogService, openable: map<Path, Database>, ok: Stmt -> bool,
                             entry: Entry, insertSucceeds: bool, body: Body, out: HandlerResult)
    reads store, store.db, openable.Values
  {
    var appended := if insertSucceeds then [RowOf(entry)] else [];
    var failedRows := if insertSucceeds then [] else [RowOf(entry)];
    var plan := PlanOpen(store.preferred, store.fallback, openable.Keys);
    store.submitted == old(store.submitted) + [entry] &&
    (store.initialized || store.initializing.Failed?) &&
    out == (if store.initialized then Responded(Response(200, body)) else Rejected(store.initializing.error)) &&
    (old(store.initialized) ==>
      old(store.db) != null && store.initialized && store.db == old(store.db) && store.db != null &&
      store.openedPaths == old(store.openedPaths) &&
      store.db.tables == old(store.db.tables).(rows := old(store.db.tables.rows) + appended) &&
      store.reported == old(store.reported) + failedRows) &&
    (old(store.initializing).Failed? ==>
      out == Rejected(old(store.initializing).error) && store.initializing == old(store.initializing) &&
      store.db == old(store.db) && store.openedPaths == old(store.openedPaths) && store.reported == old(store.reported) &&
      (store.db != null ==> unchanged(store.db)) && forall d | d in openable.Values :: unchanged(d)) &&
    (!old(store.initialized) && !old(store.initializing).Failed? ==>
      store.openedPaths == plan.tried &&
      (plan.chosen == None ==> out == Rejected(CannotOpen(store.fallback)) && store.db == null && store.reported == old(store.reported)) &&
      (plan.chosen.Some? ==>
        store.db == openable[plan.chosen.value] &&
        FirstCallOutcome(Logged(out), old(openable[plan.chosen.value].tables), openable[plan.chosen.value].tables, ok,
                         RowOf(entry), insertSucceeds, old(store.reported), store.reported))) &&
    OthersUnchanged(openable.Values, store.db)
  }

  /** `hello`: log, then respond with the greeting. */
  method Hello(req: Request, store: RequestLogService, openable: map<Path, Database>, ok: Stmt -> bool, insertSucceeds: bool)
    returns (out: HandlerResult)
    requires store.Valid()
    modifies store, store.db, openable.Values
    ensures store.Valid()
    ensures Handled(store, openable, ok, HelloEntry(req), insertSucceeds, Greeting(HelloMessage), out)
  {
    var payload := Greeting(HelloMessage);
    var logged := store.LogRequest(HelloEntry(req), openable, ok, insertSucceeds);
    if logged.Fail? {
      return Rejected(logged.error);
    }
    out := Responded(Response(200, payload));
  }

  /** `location`: classify the address, log it, then respond with the record. */
  method LocationHandler(req: Request, store: RequestLogService, openable: map<Path, Database>, ok: Stmt -> bool, insertSucceeds: bool)
    returns (out: HandlerResult)
    requires store.Valid()
    modifies store, store.db, openable.Values
    ensures store.Valid()
    ensures Handled(store, openable, ok, LocationEntry(req), insertSucceeds, Place(GetLocationByIp(req.ip)), out)
  {
    var location := LocationOf(req);
    var logged := store.LogRequest(LocationEntry(req), openable, ok, insertSucceeds);
    if logged.Fail? {
      return Rejected(logged.error);
    }
    out := Responded(Response(200, Place(location)));
  }

  /** `temperature`: classify, compute the reading, log both, then respond with the reading. */
  method TemperatureHandler(req: Request, store: RequestLogService, openable: map<Path, Database>, ok: Stmt -> bool, insertSucceeds: bool)
    returns (out: HandlerResult)
    requires store.Valid()
    modifies store, store.db, openable.Values
    ensures store.Valid()
    ensures Handled(store, openable, ok, TemperatureEntry(req), insertSucceeds, Weather(TemperatureOf(req)), out)
  {
    var location := LocationOf(req);
    var result := GetTemperature(Some(AsInfo(location)));
    var logged := store.LogRequest(TemperatureEntry(req), openable, ok, insertSucceeds);
    if logged.Fail? {
      return Rejected(logged.error);
    }
    out := Responded(Response(200, Weather(result)));
  }
}
