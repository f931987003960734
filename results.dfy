/**
 * The cursor's logic that does not depend on its mutable state
 * (src/firebolt/async_db/cursor.py): classifying a response status,
 * decoding a response body into a row set, the closed / not-executed
 * guards, the fetch window, row conversion, and the request sequence an
 * execution sends.
 */
module Results {
  import opened Errors
  import opened Values
  import opened Text
  import opened Types
  import opened Statements

  /** `CursorState`: NONE, ERROR, DONE and CLOSED in the source. */
  datatype CursorState = NotRun | Failed | Done | Closed

  /** A `Column` description: the name as the server sent it, and the parsed type. */
  datatype Column = Column(name: Json, typeCode: ColumnType)

  /** One statement's result: row count, column descriptions, raw rows. */
  datatype RowSet = RowSet(rowcount: int, descriptions: Option<seq<Column>>, rows: Option<seq<Json>>)

  /** The row set of a response without a body (an INSERT, say). */
  const EmptyRowSet: RowSet := RowSet(-1, None, None)

  /** Descriptions and rows are present together. */
  predicate WellFormed(s: RowSet)
  {
    s.descriptions.Some? <==> s.rows.Some?
  }

  // ---------------------------------------------------------------------
  // Responses

  /**
   * An HTTP response: its status, its `content-length` header if any, its
   * body text, and the body decoded as JSON (None when it is not JSON).
   */
  datatype Response = Response(status: int, contentLength: Option<string>, body: string, json: Option<Json>)

  const InternalServerError: int := 500
  const Forbidden: int := 403
  const NotFound: int := 404
  const ServiceUnavailable: int := 503

  /**
   * `_raise_if_error`: the error a response status raises. The two probes
   * (does the database exist, is the engine running) are consulted only
   * for the statuses that call them, and may themselves fail.
   */
  function CheckResponse(status: int, body: string, database: string, engineUrl: string,
                         dbAvailable: Result<bool>, engineRunning: Result<bool>): (o: Outcome)
    ensures o.Pass? <==> 200 <= status <= 299
    ensures status == InternalServerError ==> o == Fail(OperationalError(body))
    ensures status == Forbidden ==>
      && (dbAvailable.Err? ==> o == Fail(dbAvailable.error))
      && (dbAvailable == Ok(false) ==> o == Fail(FireboltDatabaseError(database)))
      && (dbAvailable == Ok(true) ==> o == Fail(ProgrammingError(body)))
    ensures status == ServiceUnavailable || status == NotFound ==>
      && (engineRunning.Err? ==> o == Fail(engineRunning.error))
      && (engineRunning == Ok(false) ==> o == Fail(EngineNotRunningError(engineUrl)))
      && (engineRunning == Ok(true) ==> o == Fail(HttpStatusError(status)))
    ensures status !in {InternalServerError, Forbidden, ServiceUnavailable, NotFound} ==>
      o.Pass? || o == Fail(HttpStatusError(status))
  {
    if status == InternalServerError then Fail(OperationalError(body))
    else if status == Forbidden then
      match dbAvailable
      case Err(e) => Fail(e)
      case Ok(available) =>
        if !available then Fail(FireboltDatabaseError(database)) else Fail(ProgrammingError(body))
    else if (status == ServiceUnavailable || status == NotFound) && engineRunning.Err? then
      Fail(engineRunning.error)
    else if (status == ServiceUnavailable || status == NotFound) && engineRunning == Ok(false) then
      Fail(EngineNotRunningError(engineUrl))
    else if 200 <= status <= 299 then Pass
    else Fail(HttpStatusError(status))
  }

  /** Errors the decoding `try` block turns into DataError: KeyError and ValueError. */
  const BadFormat: Error := DataError(InvalidQueryDataFormat)

  /** `int(query_data["rows"])`: a ValueError becomes DataError, a TypeError passes through. */
  function DecodeRowCount(lib: Builtins, v: Json): Result<int>
  {
    match lib.toInt(v)
    case Ok(n) => Ok(n)
    case Err(e) => if e == PyValueError then Err(BadFormat) else Err(e)
  }

  /** `Column(d["name"], parse_type(d["type"]), ...)` for one element of `meta`. */
  function DecodeColumn(d: Json): (r: Result<Column>)
    ensures r.Ok? <==> d.JObject? && "name" in d.fields && "type" in d.fields
                       && ParseType(d.fields["type"]).Ok?
    ensures r.Ok? ==> r.value == Column(d.fields["name"], ParseType(d.fields["type"]).value)
    ensures !d.JObject? ==> r == Err(PyTypeError)
    ensures d.JObject? && !("name" in d.fields && "type" in d.fields) ==> r == Err(BadFormat)
  {
    match d
    case JObject(m) =>
      if "name" !in m || "type" !in m then Err(BadFormat)
      else
        var t :- ParseType(m["type"]);
        Ok(Column(m["name"], t))
    case _ => Err(PyTypeError)
  }

  /** `[Column(...) for d in meta]` over a list: the first entry that fails raises. */
  function DecodeColumnList(items: seq<Json>): (r: Result<seq<Column>>)
    ensures r.Ok? <==> forall i | 0 <= i < |items| :: DecodeColumn(items[i]).Ok?
    ensures r.Ok? ==> (|r.value| == |items| &&
      forall i | 0 <= i < |items| :: DecodeColumn(items[i]) == Ok(r.value[i]))
    ensures r.Err? ==> exists i | 0 <= i < |items| ::
      DecodeColumn(items[i]) == Err(r.error) && forall j | 0 <= j < i :: DecodeColumn(items[j]).Ok?
  {
    if items == [] then Ok([])
    else match DecodeColumn(items[0])
      case Err(e) => Err(e)
      case Ok(c) =>
        match DecodeColumnList(items[1..])
        case Err(e) =>
          ghost var i :| 0 <= i < |items[1..]| && DecodeColumn(items[1..][i]) == Err(e) &&
            forall j | 0 <= j < i :: DecodeColumn(items[1..][j]).Ok?;
          assert DecodeColumn(items[i + 1]) == Err(e);
          Err(e)
        case Ok(cs) =>
          assert forall i | 1 <= i < |items| :: items[i] == items[1..][i - 1];
          Ok([c] + cs)
  }

  /**
   * The description list built by iterating `query_data["meta"]`: a list
   * gives its elements; iterating an object or a string gives strings, so
   * only an empty one yields no error; anything else is not iterable.
   */
  function DecodeColumns(meta: Json): (r: Result<seq<Column>>)
    ensures meta.JArray? ==> r == DecodeColumnList(meta.items)
    ensures !meta.JArray? ==> (r.Ok? <==> meta == JObject(map[]) || meta == JStr(""))
    ensures r.Ok? && !meta.JArray? ==> r.value == []
    ensures r.Err? && !meta.JArray? ==> r.error == PyTypeError
  {
    match meta
    case JArray(items) => DecodeColumnList(items)
    case JObject(m) => if m == map[] then Ok([]) else Err(PyTypeError)
    case JStr(s) => if s == "" then Ok([]) else Err(PyTypeError)
    case _ => Err(PyTypeError)
  }

  /**
   * `_append_query_data`'s decoding: a `content-length` of "0" is an empty
   * row set; otherwise the body must be a JSON object with `rows`, `meta`
   * and `data`, looked up in that order.
   */
  function DecodeRowSet(lib: Builtins, resp: Response): (r: Result<RowSet>)
    ensures resp.contentLength == Some("0") ==> r == Ok(EmptyRowSet)
    ensures resp.contentLength != Some("0") && resp.json.None? ==> r == Err(BadFormat)
    ensures resp.contentLength != Some("0") && resp.json.Some? && !resp.json.value.JObject? ==>
      r == Err(PyTypeError)
    ensures r.Ok? && resp.contentLength != Some("0") ==>
      var f := resp.json.value.fields;
      && resp.json.value.JObject? && "rows" in f && "meta" in f && "data" in f && f["data"].JArray?
      && lib.toInt(f["rows"]).Ok? && DecodeColumns(f["meta"]).Ok?
      && r.value == RowSet(lib.toInt(f["rows"]).value, Some(DecodeColumns(f["meta"]).value), Some(f["data"].items))
    ensures r.Ok? ==> WellFormed(r.value)
  {
    if resp.contentLength == Some("0") then Ok(EmptyRowSet)
    else match resp.json
      case None => Err(BadFormat)
      case Some(JObject(f)) =>
        if "rows" !in f then Err(BadFormat)
        else
          var count :- DecodeRowCount(lib, f["rows"]);
          if "meta" !in f then Err(BadFormat)
          else
            var descriptions :- DecodeColumns(f["meta"]);
            if "data" !in f || !f["data"].JArray? then Err(BadFormat)
            else Ok(RowSet(count, Some(descriptions), Some(f["data"].items)))
      case Some(_) => Err(PyTypeError)
  }

  /**
   * The body's keys are read in the order `rows`, `meta`, `data`: the
   * first missing one raises DataError, as does a row count `int()`
   * rejects with ValueError, and a failing description raises its own
   * error before `data` is looked at.
   */
  lemma DecodeRowSetLookupOrder(lib: Builtins, resp: Response)
    requires resp.contentLength != Some("0") && resp.json.Some? && resp.json.value.JObject?
    ensures var r, f := DecodeRowSet(lib, resp), resp.json.value.fields;
      && ("rows" !in f ==> r == Err(BadFormat))
      && ("rows" in f && lib.toInt(f["rows"]).Err? ==>
            r == Err(if lib.toInt(f["rows"]).error == PyValueError then BadFormat else lib.toInt(f["rows"]).error))
      && ("rows" in f && lib.toInt(f["rows"]).Ok? ==>
            && ("meta" !in f ==> r == Err(BadFormat))
            && ("meta" in f && DecodeColumns(f["meta"]).Err? ==> r == Err(DecodeColumns(f["meta"]).error))
            && ("meta" in f && DecodeColumns(f["meta"]).Ok? && ("data" !in f || !f["data"].JArray?) ==>
                  r == Err(BadFormat)))
  {
  }

  // ---------------------------------------------------------------------
  // Guards

  /**
   * `check_not_closed`, and when `requireExecuted` also
   * `check_query_executed` inside it: a closed cursor reports closed first.
   */
  function Guard(state: CursorState, requireExecuted: bool): (o: Outcome)
    ensures o.Pass? <==> state != Closed && !(requireExecuted && state == NotRun)
    ensures state == Closed ==> o == Fail(CursorClosedError)
    ensures o.Fail? && state != Closed ==> o == Fail(QueryNotRunError)
  {
    if state == Closed then Fail(CursorClosedError)
    else if requireExecuted && state == NotRun then Fail(QueryNotRunError)
    else Pass
  }

  // ---------------------------------------------------------------------
  // The fetch window

  /** Python's `min`. */
  function Min(a: int, b: int): int { if a <= b then a else b }

  /** A slice bound as Python normalises it: negative counts from the end, then clamped. */
  function PyBound(i: int, n: nat): (b: nat)
    ensures b <= n
    ensures 0 <= i <= n ==> b == i
  {
    if i < 0 then (if i + n < 0 then 0 else i + n) else if i > n then n else i
  }

  /** Python's `s[lo:hi]`. */
  function PySlice<T>(s: seq<T>, lo: int, hi: int): seq<T>
  {
    var a, b := PyBound(lo, |s|), PyBound(hi, |s|);
    if a < b then s[a..b] else []
  }

  /** `_get_next_range` as written: the window `[idx, min(idx + size, n))`, whose end becomes `idx`. */
  function NextRangeAsWritten(idx: int, size: int, n: nat): (r: (int, int))
    ensures r.0 == idx && r.1 <= n
    ensures size < 0 ==> r.1 < r.0
    ensures 0 <= idx <= n && size >= 0 ==> r == NextRange(idx, size, n)
  {
    (idx, Min(idx + size, n))
  }

  /**
   * With a negative size the window ends before it starts: the slice
   * `rows[0:-1]` returns all rows but the last for `fetchmany(-1)`, and
   * the position becomes -1, so the next `fetchone` returns the last row
   * and moves the position back to 0, where the first row, already
   * returned, is fetched again.
   */
  lemma NegativeSizeRewinds()
    ensures var rows := [JInt(1), JInt(2)];
      var (left, right) := NextRangeAsWritten(0, -1, |rows|);
      && PySlice(rows, left, right) == [JInt(1)]
      && right == -1
      && var (left2, right2) := NextRangeAsWritten(right, 1, |rows|);
         && left2 != right2 && PyBound(left2, |rows|) == 1
         && right2 == 0 && NextRangeAsWritten(right2, 1, |rows|) == (0, 1)
  {
    var rows := [JInt(1), JInt(2)];
    assert PySlice(rows, 0, -1) == rows[0..1];
  }

  /**
   * The fetch window with the size clamped at zero: it starts at the
   * current position, holds `size` rows or as many as remain, and never
   * moves backwards.
   */
  function NextRange(idx: nat, size: int, n: nat): (r: (nat, nat))
    requires idx <= n
    ensures r.0 == idx && idx <= r.1 <= n
    ensures size >= 0 ==> r.1 - r.0 == Min(size, n - idx)
    ensures size <= 0 ==> r.1 == idx
  {
    (idx, Min(idx + (if size < 0 then 0 else size), n))
  }

  /** Where the window is in range, Python's slice is the plain subsequence. */
  lemma SliceOfRange<T>(rows: seq<T>, idx: nat, size: int)
    requires idx <= |rows|
    ensures var (l, r) := NextRange(idx, size, |rows|); PySlice(rows, l, r) == rows[l..r]
  {
  }

  /** The rows a fetch of `size` at `idx` returns, unparsed. */
  function Window<T>(rows: seq<T>, idx: nat, size: int): seq<T>
    requires idx <= |rows|
  {
    var (l, r) := NextRange(idx, size, |rows|);
    rows[l..r]
  }

  /** Fetching `a` rows then `b` rows returns what fetching `a + b` rows at once returns. */
  lemma WindowsConcatenate<T>(rows: seq<T>, idx: nat, a: nat, b: nat)
    requires idx <= |rows|
    ensures var next := NextRange(idx, a, |rows|).1;
      Window(rows, idx, a) + Window(rows, next, b) == Window(rows, idx, a + b)
  {
    var next := NextRange(idx, a, |rows|).1;
    var last := NextRange(next, b, |rows|).1;
    assert last == NextRange(idx, a + b, |rows|).1;
    assert rows[idx..next] + rows[next..last] == rows[idx..last];
  }

  /** A fetch of at least the remaining count drains the row set. */
  lemma WindowDrains<T>(rows: seq<T>, idx: nat, size: int)
    requires idx <= |rows| && size >= |rows| - idx
    ensures Window(rows, idx, size) == rows[idx..]
    ensures NextRange(idx, size, |rows|).1 == |rows|
  {
  }

  // ---------------------------------------------------------------------
  // Rows

  /**
   * `_parse_row`: the row must have one value per column (an `assert` in
   * the source); each value is converted by its column's type.
   */
  function ParseRow(lib: Builtins, row: Json, descriptions: seq<Column>): (r: Result<seq<TypedValue>>)
    ensures r.Ok? <==> (row.JArray? && |row.items| == |descriptions| &&
      forall i | 0 <= i < |descriptions| :: ParseValue(lib, row.items[i], descriptions[i].typeCode).Ok?)
    ensures r.Ok? ==> |r.value| == |descriptions| && forall i | 0 <= i < |descriptions| ::
      ParseValue(lib, row.items[i], descriptions[i].typeCode) == Ok(r.value[i])
    ensures !row.JArray? ==> r == Err(PyTypeError)
    ensures row.JArray? && |row.items| != |descriptions| ==> r == Err(PyAssertionError)
  {
    match row
    case JArray(items) =>
      if |items| != |descriptions| then Err(PyAssertionError)
      else ParseColumns(lib, items, descriptions)
    case _ => Err(PyTypeError)
  }

  function ParseColumns(lib: Builtins, items: seq<Json>, descriptions: seq<Column>): (r: Result<seq<TypedValue>>)
    requires |items| == |descriptions|
    ensures r.Ok? <==> forall i | 0 <= i < |items| :: ParseValue(lib, items[i], descriptions[i].typeCode).Ok?
    ensures r.Ok? ==> |r.value| == |items| && forall i | 0 <= i < |items| ::
      ParseValue(lib, items[i], descriptions[i].typeCode) == Ok(r.value[i])
  {
    if items == [] then Ok([])
    else
      var v :- ParseValue(lib, items[0], descriptions[0].typeCode);
      var vs :- ParseColumns(lib, items[1..], descriptions[1..]);
      assert forall i | 1 <= i < |items| :: items[i] == items[1..][i - 1] && descriptions[i] == descriptions[1..][i - 1];
      Ok([v] + vs)
  }

  /** `[self._parse_row(row) for row in rows]`: the first failing row raises. */
  function ParseRows(lib: Builtins, rows: seq<Json>, descriptions: seq<Column>): (r: Result<seq<seq<TypedValue>>>)
    ensures r.Ok? <==> forall i | 0 <= i < |rows| :: ParseRow(lib, rows[i], descriptions).Ok?
    ensures r.Ok? ==> |r.value| == |rows| && forall i | 0 <= i < |rows| ::
      ParseRow(lib, rows[i], descriptions) == Ok(r.value[i])
    ensures r.Err? ==> exists i | 0 <= i < |rows| ::
      ParseRow(lib, rows[i], descriptions) == Err(r.error) &&
      forall j | 0 <= j < i :: ParseRow(lib, rows[j], descriptions).Ok?
  {
    if rows == [] then Ok([])
    else match ParseRow(lib, rows[0], descriptions)
      case Err(e) => Err(e)
      case Ok(x) =>
        match ParseRows(lib, rows[1..], descriptions)
        case Err(e) =>
          ghost var i :| 0 <= i < |rows[1..]| && ParseRow(lib, rows[1..][i], descriptions) == Err(e) &&
            forall j | 0 <= j < i :: ParseRow(lib, rows[1..][j], descriptions).Ok?;
          assert ParseRow(lib, rows[i + 1], descriptions) == Err(e);
          Err(e)
        case Ok(xs) =>
          assert forall i | 1 <= i < |rows| :: rows[i] == rows[1..][i - 1];
          Ok([x] + xs)
  }

  // ---------------------------------------------------------------------
  // Requests

  const JsonOutputFormat: string := "JSONCompact"

  /** The query parameters and body of one POST: caller's settings override the two defaults. */
  datatype Request = Request(params: map<string, string>, body: string)

  function MakeRequest(database: string, setParameters: map<string, string>, query: string): (r: Request)
    ensures r.body == query
    ensures r.params.Keys == setParameters.Keys + {"database", "output_format"}
    ensures forall k | k in setParameters :: r.params[k] == setParameters[k]
    ensures "database" !in setParameters ==> r.params["database"] == database
    ensures "output_format" !in setParameters ==> r.params["output_format"] == JsonOutputFormat
  {
    Request(map["database" := database, "output_format" := JsonOutputFormat] + setParameters, query)
  }

  /**
   * The server and the side channel, as seen by one execution: the
   * response to the k-th request (or the transport error), and the two
   * probes as they would answer after the k-th response.
   */
  datatype Server = Server(
    send: (nat, Request) -> Result<Response>,
    dbAvailable: nat -> Result<bool>,
    engineRunning: nat -> Result<bool>)

  /** Where a query is sent: the connection's database and engine. */
  datatype Target = Target(database: string, engineUrl: string, setParameters: map<string, string>)

  /** One iteration of the request loop: send, classify the status, decode. */
  function Exchange(lib: Builtins, server: Server, target: Target, k: nat, query: string): (r: Result<RowSet>)
    ensures r.Ok? ==> WellFormed(r.value)
  {
    var resp :- server.send(k, MakeRequest(target.database, target.setParameters, query));
    match CheckResponse(resp.status, resp.body, target.database, target.engineUrl,
                        server.dbAvailable(k), server.engineRunning(k))
    case Fail(e) => Err(e)
    case Pass => DecodeRowSet(lib, resp)
  }

  /** A statement yields a row set exactly when it is delivered, answered 2xx and decodable. */
  lemma ExchangeSucceeds(lib: Builtins, server: Server, target: Target, k: nat, query: string)
    ensures var resp := server.send(k, MakeRequest(target.database, target.setParameters, query));
      Exchange(lib, server, target, k, query).Ok? <==>
        resp.Ok? && 200 <= resp.value.status <= 299 && DecodeRowSet(lib, resp.value).Ok?
  {
  }

  /** The row sets an execution collected, and the error that stopped it, if any. */
  datatype Run = Run(sets: seq<RowSet>, error: Option<Error>)

  /** The request loop from the k-th query on: it stops at the first failure, keeping what it had. */
  function RunFrom(lib: Builtins, server: Server, target: Target, queries: seq<string>, k: nat): (run: Run)
    requires k <= |queries|
    ensures |run.sets| <= |queries| - k
    ensures run.error.None? <==> |run.sets| == |queries| - k
    decreases |queries| - k
  {
    if k == |queries| then Run([], None)
    else match Exchange(lib, server, target, k, queries[k])
      case Err(e) => Run([], Some(e))
      case Ok(s) =>
        var rest := RunFrom(lib, server, target, queries, k + 1);
        Run([s] + rest.sets, rest.error)
  }

  /**
   * The run's row sets are the answers to the queries from the k-th on,
   * in order, and its error is the answer to the first query that failed.
   */
  lemma {:induction false} RunFromExchanges(lib: Builtins, server: Server, target: Target, queries: seq<string>, k: nat)
    requires k <= |queries|
    ensures var run := RunFrom(lib, server, target, queries, k);
      && (forall i | 0 <= i < |run.sets| :: Exchange(lib, server, target, k + i, queries[k + i]) == Ok(run.sets[i]))
      && (run.error.Some? ==>
            Exchange(lib, server, target, k + |run.sets|, queries[k + |run.sets|]) == Err(run.error.value))
    decreases |queries| - k
  {
    if k < |queries| && Exchange(lib, server, target, k, queries[k]).Ok? {
      RunFromExchanges(lib, server, target, queries, k + 1);
      var rest := RunFrom(lib, server, target, queries, k + 1);
      var run := RunFrom(lib, server, target, queries, k);
      forall i | 1 <= i < |run.sets|
        ensures Exchange(lib, server, target, k + i, queries[k + i]) == Ok(run.sets[i])
      {
        var j := i - 1;
        assert run.sets[i] == rest.sets[j];
        assert Exchange(lib, server, target, (k + 1) + j, queries[(k + 1) + j]) == Ok(rest.sets[j]);
      }
    }
  }

  /** The run from the k-th query: that query's answer, then, if it succeeded, the run after it. */
  lemma RunFromUnfold(lib: Builtins, server: Server, target: Target, queries: seq<string>, k: nat)
    requires k < |queries|
    ensures var ex := Exchange(lib, server, target, k, queries[k]);
      var run := RunFrom(lib, server, target, queries, k);
      var rest := RunFrom(lib, server, target, queries, k + 1);
      && (ex.Err? ==> run == Run([], Some(ex.error)))
      && (ex.Ok? ==> run == Run([ex.value] + rest.sets, rest.error))
  {
  }

  /**
   * The loop's bookkeeping: a run that is `done` followed by the run from
   * the k-th query is, after the k-th query's answer, either `done` plus
   * that set followed by the run from the next query, or `done` stopped
   * by that error.
   */
  lemma RunFromAfter(lib: Builtins, server: Server, target: Target, queries: seq<string>, k: nat,
                     done: seq<RowSet>, run: Run)
    requires k < |queries|
    requires var from := RunFrom(lib, server, target, queries, k); run == Run(done + from.sets, from.error)
    ensures var ex := Exchange(lib, server, target, k, queries[k]);
      var rest := RunFrom(lib, server, target, queries, k + 1);
      && (ex.Ok? ==> run == Run((done + [ex.value]) + rest.sets, rest.error))
      && (ex.Err? ==> run == Run(done, Some(ex.error)))
  {
    RunFromUnfold(lib, server, target, queries, k);
    var ex := Exchange(lib, server, target, k, queries[k]);
    if ex.Ok? {
      var rest := RunFrom(lib, server, target, queries, k + 1);
      assert done + ([ex.value] + rest.sets) == (done + [ex.value]) + rest.sets;
    } else {
      assert done + [] == done;
    }
  }

  /** One step of the loop: a transport error, a failing status or an undecodable body stops it. */
  lemma RunFromStep(lib: Builtins, server: Server, target: Target, queries: seq<string>, k: nat)
    requires k < |queries|
    ensures var resp := server.send(k, MakeRequest(target.database, target.setParameters, queries[k]));
      var run := RunFrom(lib, server, target, queries, k);
      && (resp.Err? ==> run == Run([], Some(resp.error)))
      && (resp.Ok? ==>
            var check := CheckResponse(resp.value.status, resp.value.body, target.database, target.engineUrl,
                                       server.dbAvailable(k), server.engineRunning(k));
            && (check.Fail? ==> run == Run([], Some(check.error)))
            && (check.Pass? ==>
                  var decoded := DecodeRowSet(lib, resp.value);
                  && (decoded.Err? ==> run == Run([], Some(decoded.error)))
                  && (decoded.Ok? ==>
                        var rest := RunFrom(lib, server, target, queries, k + 1);
                        run == Run([decoded.value] + rest.sets, rest.error))))
  {
  }

  /**
   * `_do_execute_request`'s outcome: the split (whose failure sends
   * nothing), then the request loop.
   */
  function Execution(lib: Builtins, server: Server, target: Target, query: string,
                     statements: seq<Token>, paramSets: seq<seq<Param>>): (run: Run)
    ensures SplitFormatSql(query, statements, paramSets).Err? ==>
      run == Run([], Some(SplitFormatSql(query, statements, paramSets).error))
    ensures SplitFormatSql(query, statements, paramSets).Ok? ==>
      |run.sets| <= |SplitFormatSql(query, statements, paramSets).value|
  {
    match SplitFormatSql(query, statements, paramSets)
    case Err(e) => Run([], Some(e))
    case Ok(queries) => RunFrom(lib, server, target, queries, 0)
  }

  /** Every query of a successful execution got its own row set, in order. */
  lemma ExecutionCollectsAll(lib: Builtins, server: Server, target: Target, query: string,
                             statements: seq<Token>, paramSets: seq<seq<Param>>)
    ensures var run := Execution(lib, server, target, query, statements, paramSets);
      var queries := SplitFormatSql(query, statements, paramSets);
      run.error.None? ==>
        && queries.Ok? && |run.sets| == |queries.value| > 0
        && forall i | 0 <= i < |run.sets| :: Exchange(lib, server, target, i, queries.value[i]) == Ok(run.sets[i])
  {
    var queries := SplitFormatSql(query, statements, paramSets);
    if queries.Ok? {
      RunFromExchanges(lib, server, target, queries.value, 0);
    }
  }
}
