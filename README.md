# Firebolt asynchronous DB-API core, modelled in Dafny

This project models the query-execution core of the Firebolt Python SDK's
asynchronous DB-API driver (`src/firebolt/async_db`):

- **`_types.py`**
  - Column type names from query metadata become Python types (`parse_type`).
  - Raw JSON values are converted by their column type (`parse_value`).
  - Query parameters become SQL literals (`format_value`).
  - Placeholders in a parsed statement are substituted (`format_statement`).
  - A query is split into statements, formatted once per parameter set (`split_format_sql`).
- **`cursor.py`** (`BaseCursor`): the cursor state machine.
  - The closed / not-executed guards.
  - Buffering one row set per statement and activating them one by one (`_append_query_data`, `_pop_next_set`, `nextset`).
  - Classifying response statuses (`_raise_if_error`).
  - The request loop of `execute` / `executemany`.
  - The fetch window (`_get_next_range`) and the three fetches.
  - `close` and the `arraysize` setter.
- **`connection.py`** (`BaseConnection`): the connection's cursor registry.
  - `_cursor`, `_remove_cursor`, `_aclose`, `closed`, `commit` and `__aenter__`.
  - The argument checks of `connect`.

The files are:

- `errors.dfy`: the exception hierarchy, as an `Error` datatype with structured reasons instead of message text. It also defines `Result`/`Outcome`.
- `text.dfy`: decimal rendering, zero padding, `strip`/`rstrip`, `join`.
- `values.dfy`: the shapes of JSON values, parameters and converted values. It also defines `Builtins`, the Python library conversions the driver calls (`int()`, `float()`, `str()`, the ISO 8601 parser), passed in as a record of functions.
- `types.dfy`: `parse_type`, `parse_value`, `format_value`.
- `statements.dfy`: `format_statement` and `split_format_sql`.
  - sqlparse's output is an input: a tree of tokens whose leaves are placeholders or other text.
  - The substitution is proved equal to a flat reference definition: fill the statement's holes, in order, with the parameters' literals.
  - `format_value` is pure, so the substitution is given every parameter's `format_value` result up front. It still consults them one placeholder at a time, in order, so the text and the first error are the same.
- `results.dfy`: the cursor logic that does not touch its fields.
  - Status classification and response decoding.
  - The guards and the fetch window.
  - The request sequence of an execution, as a specification function `Execution`.
- `dbapi.dfy`: the classes `Cursor` and `Connection`, with their fields updated in place.
  - Each method is proved against the functions of `results.dfy` and `statements.dfy`.
  - The connection keeps a registry (`cursors`). Its invariant: its cursors are distinct and open, each belongs to it, and a closed connection has none.
- `connect.dfy`: the checks `connect` makes before opening a connection.

The HTTP client is a `Server` record. It holds the response (or transport error) to the k-th request, and the answers of the two probes `is_db_available` and `is_engine_running`.

`executemany`'s docstring says it returns the last query's row count. The code returns the row count of the active row set, and after an execution that is the first statement's. The model follows the code.

## Model

| member | source | states |
|---|---|---|
| Types.LookupInternal | src/firebolt/async_db/_types.py:99-130 | a name maps to the internal type whose value it is, and only a value of some internal type maps to one |
| Types.PythonType | src/firebolt/async_db/_types.py:132-152 | an internal type always maps to a scalar Python type, never an array; the groups are stated by Types.ParseInternalName |
| Types.ParseType | src/firebolt/async_db/_types.py:155-158 | a type that is not a string raises DataError; a string is parsed as a type name |
| Types.ParseTypeName | src/firebolt/async_db/_types.py:155-171 | only an `Array(...)` or `Nullable(...)` wrapper can yield an array type; a name without a wrapper is the Python type of its internal type, or `str` when it has none |
| Types.ParseArrayName | src/firebolt/async_db/_types.py:159-161 | `Array(t)` parses to ARRAY of the type of `t` |
| Types.ParseNullableName | src/firebolt/async_db/_types.py:162-164 | `Nullable(t)` parses to the type of `t` |
| Types.ParseInternalName | src/firebolt/async_db/_types.py:132-152 | each internal type name parses to its Python type; the integer, float, string, date and datetime groups are exactly as listed |
| Types.ParseUnknownName | src/firebolt/async_db/_types.py:166-171 | any other name is treated as `str` |
| Types.ParseMalformedArray | src/firebolt/async_db/_types.py:159-171 | a wrapper without its closing parenthesis is an unknown name, hence `str` |
| Types.ParseCanonicalName | src/firebolt/async_db/_types.py:155-171 | every column type, nested arrays included, has a wire name that parses back to it |
| Types.TypeStrNotReparsed | src/firebolt/async_db/_types.py:87-88 | `str()` of an ARRAY type is not a wire name: parsing it keeps the nesting but loses the scalar type |
| Types.ParseValue | src/firebolt/async_db/_types.py:174-196 | None stays None; date and datetime columns reject non-strings with DataError; an array column asserts a list and converts it element by element |
| Types.ParseItems | src/firebolt/async_db/_types.py:193-195 | the list comprehension: same length, each element converted by the subtype, and on failure some element failed |
| Types.ParseArrayElementwise | src/firebolt/async_db/_types.py:193-195 | an array value converts exactly when every element does, to the list of their conversions |
| Types.Escape | src/firebolt/async_db/_types.py:199-213 | each character is kept or replaced by a two-character escape, so the result is between one and two times as long; Types.EscapeRoundTrip states that it unescapes back |
| Types.EscapeRoundTrip | src/firebolt/async_db/_types.py:199-213 | unescaping the escaped string gives the original back |
| Types.EscapePlain | src/firebolt/async_db/_types.py:199-213 | a string without NUL, backslash or quote is unchanged |
| Types.EscapeHasNoBareQuote | src/firebolt/async_db/_types.py:199-213 | every quote in an escaped string is preceded by a backslash, so a literal cannot be closed early |
| Types.FormatValue | src/firebolt/async_db/_types.py:206-225 | booleans give 1/0; None gives NULL; a value of an unsupported type raises DataError, and only such values and sequences ever fail |
| Types.FormatInteger | src/firebolt/async_db/_types.py:210-211 | an integer's literal parses back to the integer |
| Types.FormatString | src/firebolt/async_db/_types.py:212-213 | a string's literal is quoted, unescapes to the string, and holds no bare quote that would end it early |
| Types.FormatSequence | src/firebolt/async_db/_types.py:222-223 | a sequence formats iff every element does, to the elements' own literals joined by ", " in brackets |
| Types.FormatItems | src/firebolt/async_db/_types.py:222-223 | each element's literal, in order, or the error of an element that fails |
| Text.RStripSemicolons | src/firebolt/async_db/_types.py:252 | `rstrip(";")`: a prefix, not ending in `;`, with only semicolons removed |
| Text.Strip | src/firebolt/async_db/_types.py:281 | `strip()`: the result is the part of the text left after a whitespace prefix and a whitespace suffix are cut off, and it neither starts nor ends with whitespace |
| Statements.ProcessToken | src/firebolt/async_db/_types.py:234-250 | the parameter counter never moves back, and past its start only up to the parameter count; a failure is "not enough parameters" or the formatting error of a parameter at or after the counter |
| Statements.ProcessTokens | src/firebolt/async_db/_types.py:246-249 | the same for the children of a token list, processed left to right |
| Statements.ProcessTokenMeetsFill | src/firebolt/async_db/_types.py:234-250 | `process_token` on one token: it succeeds iff enough parameters remain and all of them format; its text is the token's holes filled with their literals; too few parameters raise "not enough" |
| Statements.ProcessTokensMeetsFill | src/firebolt/async_db/_types.py:246-249 | the same for the children of a token list, left to right, sharing one counter |
| Statements.MeetsFillConcat | src/firebolt/async_db/_types.py:246-249 | running two pieces of a statement in sequence meets the reference for their concatenation when each part meets it for its own range of parameters |
| Statements.FormatStatement | src/firebolt/async_db/_types.py:228-260 | `format_statement` raises only DataError, and its text never ends in a semicolon |
| Statements.FormatStatementCounts | src/firebolt/async_db/_types.py:228-260 | `format_statement` succeeds iff the placeholder count equals the parameter count and every parameter formats; its result is the filled text without trailing semicolons; too few parameters raise "not enough", too many raise "too many" with both counts |
| Statements.FormatWithoutPlaceholders | src/firebolt/async_db/_types.py:228-260 | a statement without placeholders and no parameters is its own text with trailing semicolons removed |
| Statements.FormatEach | src/firebolt/async_db/_types.py:280 | one formatted statement per parameter set, in order; fails iff some set fails, with that set's error |
| Statements.StatementText | src/firebolt/async_db/_types.py:281 | a statement's stripped text, with only trailing semicolons removed |
| Statements.SplitFormatSql | src/firebolt/async_db/_types.py:263-281 | no statements gives the query itself; parameters with several statements raise NotSupportedError; one statement is formatted per set; without parameters each statement is stripped; a success is never empty |
| Results.CheckResponse | src/firebolt/async_db/cursor.py:229-250 | passes iff the status is 2xx; 500 is OperationalError with the body; 403 is FireboltDatabaseError when the database is missing, else ProgrammingError; 503/404 are EngineNotRunningError when the engine is down; the probes' own errors propagate |
| Results.DecodeColumn | src/firebolt/async_db/cursor.py:187-192 | a description needs `name` and `type` (else "invalid query data format"); the type is parsed |
| Results.DecodeColumnList | src/firebolt/async_db/cursor.py:187-192 | every `meta` entry decoded, in order, or the first failure |
| Results.DecodeColumns | src/firebolt/async_db/cursor.py:187-192 | iterating `meta`: a list is decoded entry by entry; an empty dict or string gives no columns; anything else raises TypeError |
| Results.DecodeRowSet | src/firebolt/async_db/cursor.py:175-199 | content-length 0 gives the empty set (-1, None, None); otherwise a decoded set carries the body's row count, descriptions and rows, with descriptions and rows present together; a body that is not a JSON object fails; the order in which keys are read and the errors of each lookup are stated by Results.DecodeRowSetLookupOrder |
| Results.DecodeRowSetLookupOrder | src/firebolt/async_db/cursor.py:184-198 | `rows`, `meta` and `data` are read in that order; the first missing key raises "invalid query data format", as does a row count `int()` rejects with ValueError (other `int()` errors pass through); a failing description raises its own error before `data` is looked at; a `data` that is missing or not a list raises "invalid query data format" |
| Results.Guard | src/firebolt/async_db/cursor.py:61-87 | a closed cursor raises CursorClosedError before anything else; a cursor that never ran raises QueryNotRunError when the method needs an executed query |
| Results.NextRangeAsWritten | src/firebolt/async_db/cursor.py:337-352 | the window exactly as written starts at the position and never ends past the row count; a negative size ends it before it starts; for sizes of zero or more it is the corrected window Results.NextRange |
| Results.NegativeSizeRewinds | src/firebolt/async_db/cursor.py:337-352 | with a negative size, the window as written ends before it starts, moves the position to -1, and then returns a row a second time |
| Results.NextRange | src/firebolt/async_db/cursor.py:337-352 | the window starts at the position and holds `size` rows, or as many as remain; it never moves the position backwards |
| Results.SliceOfRange | src/firebolt/async_db/cursor.py:373-375 | inside the range, Python's slice is the plain subsequence |
| Results.WindowsConcatenate | src/firebolt/async_db/cursor.py:365-376 | fetching a rows then b rows returns what fetching a + b rows at once returns |
| Results.WindowDrains | src/firebolt/async_db/cursor.py:378-385 | a fetch of at least the remaining count returns every remaining row and exhausts the set |
| Results.ParseRow | src/firebolt/async_db/cursor.py:330-335 | a row converts iff it has one value per column and each value converts by its column's type; a length mismatch is an AssertionError |
| Results.ParseColumns | src/firebolt/async_db/cursor.py:333-335 | each value converted by its own column's type, in order |
| Results.ParseRows | src/firebolt/async_db/cursor.py:376 | every row converted, in order, or the error of a row that fails |
| Results.MakeRequest | src/firebolt/async_db/cursor.py:282-291 | the body is the query; the parameters are `database` and `output_format` (JSONCompact), each overridden by a set parameter of the same name |
| Results.Exchange | src/firebolt/async_db/cursor.py:282-294 | a statement's row set, when it has one, has descriptions and rows together |
| Results.ExchangeSucceeds | src/firebolt/async_db/cursor.py:282-294 | a statement yields a row set iff it is delivered, answered 2xx and decodable |
| Results.RunFrom | src/firebolt/async_db/cursor.py:273-299 | the loop collects at most one set per query, and all of them exactly when no error stopped it |
| Results.RunFromExchanges | src/firebolt/async_db/cursor.py:273-299 | the collected sets are the answers to the queries, in order, and the error is the answer of the first query that failed |
| Results.RunFromUnfold | src/firebolt/async_db/cursor.py:273-294 | a failing query stops the loop with nothing more collected; a succeeding one is followed by the rest of the loop |
| Results.RunFromAfter | src/firebolt/async_db/cursor.py:273-299 | one more iteration of the loop: a successful query's set follows those already collected, then the rest of the loop; a failing one ends the run with what was collected |
| Results.RunFromStep | src/firebolt/async_db/cursor.py:282-294 | a transport error, a failing status or an undecodable body stops the loop at that query |
| Results.Execution | src/firebolt/async_db/cursor.py:268-304 | a split or format error sends nothing and is the error; otherwise at most one set per query |
| Results.ExecutionCollectsAll | src/firebolt/async_db/cursor.py:271-300 | a successful execution has one row set per query, each the answer to its query |
| Dbapi.RemoveFirst | src/firebolt/async_db/connection.py:243-248 | `list.remove`: an absent element leaves the list alone; otherwise the list loses the element at its first occurrence, and the elements before and after it keep their order |
| Dbapi.RemoveFirstMultiset | src/firebolt/async_db/connection.py:243-248 | removal takes away exactly one occurrence of the element and nothing else |
| Dbapi.RemoveFirstFromDistinct | src/firebolt/async_db/connection.py:243-248 | removing from a duplicate-free registry leaves no occurrence and keeps it duplicate-free |
| Dbapi.RemoveFirstIdempotent | src/firebolt/async_db/connection.py:243-248 | removing the same cursor twice is the same as removing it once |
| Dbapi.ParamSets | src/firebolt/async_db/cursor.py:315 | absent or empty parameters mean no parameter set; otherwise a single set |
| Dbapi.Cursor.constructor | src/firebolt/async_db/cursor.py:107-120 | arraysize 1, nothing run, nothing buffered |
| Dbapi.Cursor.Reset | src/firebolt/async_db/cursor.py:252-260 | state NONE, no sets, the empty active set, position 0; arraysize kept |
| Dbapi.Cursor.PopNextSet | src/firebolt/async_db/cursor.py:216-227 | activates the next buffered set iff one remains, at position 0; otherwise nothing changes |
| Dbapi.Cursor.AppendQueryData | src/firebolt/async_db/cursor.py:175-203 | fails iff the response does not decode, changing nothing; otherwise the set is appended, and it becomes active if it is the first |
| Dbapi.Cursor.NextSet | src/firebolt/async_db/cursor.py:205-214 | guarded; answers true iff a set remained, activating the next one at position 0; answers None (false) with none left and then changes nothing; the buffer, the state and the arraysize are kept |
| Dbapi.Cursor.DoExecuteRequest | src/firebolt/async_db/cursor.py:262-304 | the cursor ends holding the execution's sets, with the first one active and state DONE or ERROR as the execution failed or not; the execution's error is raised |
| Dbapi.Cursor.SendQueries | src/firebolt/async_db/cursor.py:273-299 | the loop buffers exactly the sets of the specification's run and stops with its error |
| Dbapi.Cursor.SendNext | src/firebolt/async_db/cursor.py:273-299 | one turn of the loop keeps the loop state `Sending`: the sets buffered so far, followed by what the rest of the loop collects, are the specification's run |
| Dbapi.Cursor.SendStatement | src/firebolt/async_db/cursor.py:282-294 | one iteration: fails with the exchange's error and changes nothing, or appends its set |
| Dbapi.Cursor.Execute | src/firebolt/async_db/cursor.py:306-317 | a closed cursor raises and is unchanged; otherwise it holds the execution's result and returns the active set's row count (-1 without sets) or raises the error |
| Dbapi.Cursor.ExecuteMany | src/firebolt/async_db/cursor.py:319-328 | as Execute, one formatted statement per parameter set and no set parameters |
| Dbapi.Cursor.GetNextRange | src/firebolt/async_db/cursor.py:337-352 | no rows raises DataError; otherwise the window from the position, whose end becomes the position |
| Dbapi.Cursor.FetchOne | src/firebolt/async_db/cursor.py:354-363 | guarded; None once the rows are exhausted; otherwise the row at the position, converted, and the position moves by one |
| Dbapi.Cursor.FetchWindow | src/firebolt/async_db/cursor.py:365-385 | guarded; the window at the position, converted row by row; the position moves to its end; only the position changes |
| Dbapi.Cursor.FetchMany | src/firebolt/async_db/cursor.py:365-376 | the window of `size` rows, or `arraysize` rows when no size is given |
| Dbapi.Cursor.FetchAll | src/firebolt/async_db/cursor.py:378-385 | the window of `rowcount` rows |
| Dbapi.Cursor.SetArraysize | src/firebolt/async_db/cursor.py:153-160 | accepts exactly ints (bools included) and stores them; anything else raises TypeError and keeps the old size; the buffer, the active set, the position and the state are unchanged |
| Dbapi.Cursor.Description | src/firebolt/async_db/cursor.py:125-140 | the active descriptions, unless the cursor is closed |
| Dbapi.Cursor.RowCount | src/firebolt/async_db/cursor.py:142-146 | the active row count, unless the cursor is closed |
| Dbapi.Cursor.Close | src/firebolt/async_db/cursor.py:168-173 | state CLOSED, the buffer kept, the cursor removed from its connection's registry, whose invariant holds again |
| Dbapi.Connection.constructor | src/firebolt/async_db/connection.py:187-208 | open, with no cursors |
| Dbapi.Connection.NewCursor | src/firebolt/async_db/connection.py:210-220 | a closed connection raises ConnectionClosedError; otherwise a fresh cursor, registered at the end, in the state `_reset` leaves: no buffered sets, the empty active set (rowcount -1) and position 0 |
| Dbapi.Connection.RemoveCursor | src/firebolt/async_db/connection.py:243-248 | the registry loses the cursor's first occurrence, or is unchanged |
| Dbapi.Connection.Close | src/firebolt/async_db/connection.py:222-236 | every registered cursor ends CLOSED, the registry is empty and the connection closed; each closed cursor keeps its arraysize, its buffered sets and its position; closing twice changes nothing |
| Dbapi.Connection.Commit | src/firebolt/async_db/connection.py:250-254 | raises ConnectionClosedError iff closed |
| Dbapi.Connection.Enter | src/firebolt/async_db/connection.py:287-290 | the connection itself, or ConnectionClosedError iff closed |
| Dbapi.CloseCascade | src/firebolt/async_db/connection.py:222-236 | after the connection closes, its cursor refuses to execute and the connection refuses new cursors |
| Connect.CheckConnectArgs | src/firebolt/async_db/connection.py:94-115 | passes iff exactly one of engine name and URL is given and database, username and password are all non-empty; both or neither engine arguments are reported first, then the first missing argument |
| Connect.ConnectTo | src/firebolt/async_db/connection.py:94-134 | a failed check or engine lookup is raised; otherwise a fresh open connection to the normalised engine URL, with no cursors |

## Left out

- Concurrency and `async`: the `_idx_lock` and closing locks, and the awaiting itself. Each operation is modelled as one atomic step.
- The `Cursor` subclass's async wrappers and the async iteration protocol (cursor.py:423-485). They only take the lock and delegate to the modelled methods.
- `setinputsizes`, `setoutputsize`, `__enter__`/`__exit__` of the cursor, `__aexit__`, and `__del__`. They do nothing beyond the closed guard and `close`, which are modelled.
- Logging and timing in `_do_execute_request`, including the credentials pattern that suppresses the log line. They have no effect on state.
- The HTTP client. The responses, transport errors and the two probes are the inputs of a `Server` record.
- `resp.raise_for_status`: every non-2xx status becomes HttpStatusError. The httpx response object is not modelled further.
- sqlparse: a query's statements are given as token trees. A statement's text is the concatenation of its leaves.
- `_resolve_engine_url` and `fix_url_schema`: parameters of `Connect.ConnectTo`. The connection's `api_endpoint` attribute, the account name and the credentials are left out of the model; outside the HTTP client nothing in the core reads them.
- `client.aclose()` in `_aclose`: it is I/O.
- Floating-point values: carried as their `str()` text and never computed with. `Decimal` parameters likewise.
- The five always-None fields of `Column`.
- `Types.FormatValue`: dates with negative fields are not Python dates; the model prints them as zero.
- `Results.DecodeRowSet`: a `data` field that is not a JSON array is rejected at decode with "invalid query data format". The source stores it unchecked; a later fetch may fail, or read it character by character (a string).
- `Results.ParseRow`: a row that is not a JSON array raises TypeError. The source would iterate a string or object's keys, then fail its length assertion or convert characters.
- `Results.Exchange`: the contract states only well-formedness. The exact outcome is stated by `Results.ExchangeSucceeds` and `Results.RunFromStep`.
- `Results.Execution` and `Results.RunFrom`: the contracts state sizes and the error case. The contents are stated by `Results.RunFromExchanges` and `Results.ExecutionCollectsAll`.
- `Dbapi.Cursor.GetNextRange`, `Dbapi.Cursor.FetchWindow`, `Dbapi.Cursor.FetchMany` and `Dbapi.Cursor.FetchAll` use the corrected window `Results.NextRange`. A negative size fetches nothing instead of moving the position backwards; see Findings.

## Findings

| source | as written | input that shows it | evidently intended | confidence | as-written member | corrected member |
|---|---|---|---|---|---|---|
| src/firebolt/async_db/cursor.py:337-352 | the window ends at the smaller of position + size and the row count for any size, and that end becomes the new position | two rows at position 0, `fetchmany(-1)`: returns the first row only, the position becomes -1; the next `fetchone` returns the second row and resets the position to 0, so the first row is returned again (also `fetchall` when the server reports a negative row count) | a negative size fetches nothing and the position never moves backwards | not executed; medium | Results.NegativeSizeRewinds | Results.NextRange |
