/**
 * The DB-API objects (src/firebolt/async_db/cursor.py `BaseCursor`,
 * src/firebolt/async_db/connection.py `BaseConnection`/`Connection`): a
 * cursor buffering the row sets of its last execution, and a connection
 * keeping a registry of its open cursors. They refer to each other, so
 * they share one module.
 */
module Dbapi {
  import opened Errors
  import opened Values
  import opened Types
  import opened Statements
  import opened Results

  // ---------------------------------------------------------------------
  // The registry list

  predicate Distinct<T(==)>(s: seq<T>)
  {
    forall i, j | 0 <= i < j < |s| :: s[i] != s[j]
  }

  /** `list.index(x)`: the position of the first occurrence. */
  function FirstIndex<T(==)>(s: seq<T>, x: T): (k: nat)
    requires x in s
    ensures k < |s| && s[k] == x && x !in s[..k]
  {
    if s[0] == x then 0
    else
      var k := FirstIndex(s[1..], x);
      assert s[..k + 1] == [s[0]] + s[1..][..k];
      k + 1
  }

  /**
   * `list.remove(x)` with the ValueError swallowed: drops the first
   * occurrence, if any, and keeps the rest in order.
   */
  function RemoveFirst<T(==)>(s: seq<T>, x: T): (r: seq<T>)
    ensures x !in s ==> r == s
    ensures x in s ==> var k := FirstIndex(s, x); r == s[..k] + s[k + 1..]
    ensures x in s ==> |r| == |s| - 1
  {
    if s == [] then []
    else if s[0] == x then
      assert s == [s[0]] + s[1..];
      s[1..]
    else
      assert s == [s[0]] + s[1..];
      var rest := RemoveFirst(s[1..], x);
      if x in s[1..] then
        var k := FirstIndex(s[1..], x);
        assert FirstIndex(s, x) == k + 1;
        assert s[..k + 1] == [s[0]] + s[1..][..k];
        assert s[k + 2..] == s[1..][k + 1..];
        [s[0]] + rest
      else
        [s[0]] + rest
  }

  /** Removal takes away exactly one occurrence of the element, and nothing else. */
  lemma {:induction false} RemoveFirstMultiset<T>(s: seq<T>, x: T)
    ensures multiset(RemoveFirst(s, x)) == multiset(s) - multiset{x}
  {
    if s != [] {
      assert s == [s[0]] + s[1..];
      if s[0] != x {
        RemoveFirstMultiset(s[1..], x);
        assert RemoveFirst(s, x) == [s[0]] + RemoveFirst(s[1..], x);
      }
    }
  }

  /** The element at the head is the one removed. */
  lemma RemoveFirstHead<T>(s: seq<T>)
    requires s != []
    ensures RemoveFirst(s, s[0]) == s[1..]
  {
  }

  lemma DistinctCons<T>(a: T, t: seq<T>)
    requires Distinct(t) && a !in t
    ensures Distinct([a] + t)
  {
    forall i, j | 0 <= i < j < |[a] + t| ensures ([a] + t)[i] != ([a] + t)[j] {
      assert ([a] + t)[j] == t[j - 1];
      if i > 0 {
        assert ([a] + t)[i] == t[i - 1];
      }
    }
  }

  /** From a list without repeats, removal takes the element out entirely. */
  lemma {:induction false} RemoveFirstFromDistinct<T>(s: seq<T>, x: T)
    requires Distinct(s)
    ensures var r := RemoveFirst(s, x);
      x !in r && Distinct(r) && (forall y | y in r :: y in s)
  {
    var r := RemoveFirst(s, x);
    forall y | y in r ensures y in s {
      if x in s {
        var k := FirstIndex(s, x);
        assert y in s[..k] || y in s[k + 1..];
      }
    }
    if s != [] {
      var tail := s[1..];
      assert Distinct(tail) by {
        forall i, j | 0 <= i < j < |tail| ensures tail[i] != tail[j] {
          assert tail[i] == s[i + 1] && tail[j] == s[j + 1];
        }
      }
      assert s[0] !in tail by {
        forall k | 0 <= k < |tail| ensures tail[k] != s[0] {
          assert tail[k] == s[k + 1];
        }
      }
      if s[0] != x {
        RemoveFirstFromDistinct(tail, x);
        var rest := RemoveFirst(tail, x);
        assert r == [s[0]] + rest;
        DistinctCons(s[0], rest);
      }
    }
  }

  /** Removing a cursor twice is removing it once. */
  lemma RemoveFirstIdempotent<T>(s: seq<T>, x: T)
    requires Distinct(s)
    ensures RemoveFirst(RemoveFirst(s, x), x) == RemoveFirst(s, x)
  {
    RemoveFirstFromDistinct(s, x);
  }

  /** `[parameters] if parameters else []`: no parameters and an empty sequence both mean no set. */
  function ParamSets(parameters: Option<seq<Param>>): (sets: seq<seq<Param>>)
    ensures sets == [] <==> parameters.None? || parameters.value == []
    ensures sets != [] ==> sets == [parameters.value]
  {
    if parameters.Some? && parameters.value != [] then [parameters.value] else []
  }

  // ---------------------------------------------------------------------
  // Cursor

  /** The cursor's buffer invariant, on the values of its fields. */
  ghost predicate Consistent(rowSets: seq<RowSet>, nextSetIdx: nat, active: RowSet, idx: nat)
  {
    && nextSetIdx <= |rowSets|
    && (forall k | 0 <= k < |rowSets| :: WellFormed(rowSets[k]))
    && (nextSetIdx == 0 ==> active == EmptyRowSet && rowSets == [])
    && (nextSetIdx > 0 ==> active == rowSets[nextSetIdx - 1])
    && (active.rows.Some? ==> idx <= |active.rows.value|)
    && (active.rows.None? ==> idx == 0)
  }

  class Cursor {
    const connection: Connection
    var arraysize: int
    var state: CursorState
    /** The active row set: `_rowcount`, `_descriptions`, `_rows`. */
    var rowcount: int
    var descriptions: Option<seq<Column>>
    var rows: Option<seq<Json>>
    /** The position of the next row to fetch in the active set. */
    var idx: nat
    /** Every row set of the last execution, and how many have been activated. */
    var rowSets: seq<RowSet>
    var nextSetIdx: nat

    function Active(): RowSet
      reads this
    {
      RowSet(rowcount, descriptions, rows)
    }

    /** How many buffered row sets `nextset` can still activate. */
    function RemainingSets(): int
      reads this
    {
      |rowSets| - nextSetIdx
    }

    /**
     * The buffer is consistent: the activated sets are a prefix of the
     * buffer, the active set is the last activated one (or the empty set
     * before any), and the position lies within its rows.
     */
    ghost predicate Valid()
      reads this
    {
      Consistent(rowSets, nextSetIdx, Active(), idx)
    }

    /** Everything a fetch leaves alone. */
    function Buffer(): (CursorState, int, seq<RowSet>, nat, RowSet)
      reads this
    {
      (state, arraysize, rowSets, nextSetIdx, Active())
    }

    /** Everything `close` leaves alone: the arraysize and the buffer. */
    function Kept(): (int, seq<RowSet>, nat, RowSet, nat)
      reads this
    {
      (arraysize, rowSets, nextSetIdx, Active(), idx)
    }

    /** A fresh cursor: `arraysize` 1 and the state `_reset` leaves. */
    constructor(connection: Connection)
      ensures this.connection == connection && Valid()
      ensures arraysize == 1 && state == NotRun && rowSets == [] && nextSetIdx == 0
      ensures Active() == EmptyRowSet && idx == 0
    {
      this.connection := connection;
      arraysize := 1;
      state := NotRun;
      rowcount, descriptions, rows := -1, None, None;
      idx := 0;
      rowSets := [];
      nextSetIdx := 0;
    }

    /** `_reset`: forget the previous query entirely. */
    method Reset()
      modifies this
      ensures Valid()
      ensures state == NotRun && rowSets == [] && nextSetIdx == 0
      ensures Active() == EmptyRowSet && idx == 0 && arraysize == old(arraysize)
    {
      state := NotRun;
      rows, descriptions, rowcount := None, None, -1;
      idx := 0;
      rowSets := [];
      nextSetIdx := 0;
    }

    /** `_pop_next_set`: activate the next buffered set, if there is one. */
    method PopNextSet() returns (popped: bool)
      requires Valid()
      modifies this
      ensures Valid()
      ensures popped <==> old(RemainingSets()) > 0
      ensures rowSets == old(rowSets) && state == old(state) && arraysize == old(arraysize)
      ensures !popped ==> Buffer() == old(Buffer()) && idx == old(idx)
      ensures popped ==> nextSetIdx == old(nextSetIdx) + 1 && Active() == rowSets[old(nextSetIdx)] && idx == 0
    {
      if nextSetIdx >= |rowSets| {
        return false;
      }
      var s := rowSets[nextSetIdx];
      rowcount, descriptions, rows := s.rowcount, s.descriptions, s.rows;
      idx := 0;
      nextSetIdx := nextSetIdx + 1;
      return true;
    }

    /**
     * `_append_query_data`: decode the response and buffer its row set;
     * the first set of an execution becomes active at once.
     */
    method AppendQueryData(lib: Builtins, resp: Response) returns (o: Outcome)
      requires Valid()
      modifies this
      ensures Valid()
      ensures o.Fail? <==> DecodeRowSet(lib, resp).Err?
      ensures o.Fail? ==> o.error == DecodeRowSet(lib, resp).error && Buffer() == old(Buffer()) && idx == old(idx)
      ensures o.Pass? ==>
        && rowSets == old(rowSets) + [DecodeRowSet(lib, resp).value]
        && state == old(state) && arraysize == old(arraysize)
        && (old(nextSetIdx) == 0 ==> nextSetIdx == 1 && Active() == DecodeRowSet(lib, resp).value && idx == 0)
        && (old(nextSetIdx) > 0 ==> nextSetIdx == old(nextSetIdx) && Active() == old(Active()) && idx == old(idx))
    {
      var decoded := DecodeRowSet(lib, resp);
      if decoded.Err? {
        return Fail(decoded.error);
      }
      rowSets := rowSets + [decoded.value];
      if nextSetIdx == 0 {
        // `_pop_next_set` on the set just buffered
        rowcount, descriptions, rows := decoded.value.rowcount, decoded.value.descriptions, decoded.value.rows;
        idx := 0;
        nextSetIdx := 1;
      }
      return Pass;
    }

    /**
     * `nextset`: activate the next row set. It answers true while sets
     * remain, each time using one up, and false (None) once none remain.
     */
    method NextSet() returns (r: Result<bool>)
      requires Valid()
      modifies this
      ensures Valid()
      ensures Guard(old(state), true).Fail? ==> r == Err(Guard(old(state), true).error) && unchanged(this)
      ensures Guard(old(state), true).Pass? ==>
        && r.Ok? && (r.value <==> old(RemainingSets()) > 0)
        && rowSets == old(rowSets) && state == old(state) && arraysize == old(arraysize)
        && RemainingSets() == (if r.value then old(RemainingSets()) - 1 else 0)
        && (r.value ==> nextSetIdx == old(nextSetIdx) + 1 && Active() == rowSets[nextSetIdx - 1] && idx == 0)
        && (!r.value ==> Buffer() == old(Buffer()) && idx == old(idx))
    {
      var g := Guard(state, true);
      if g.Fail? {
        return Err(g.error);
      }
      var popped := PopNextSet();
      return Ok(popped);
    }

    /** The cursor holds the result of `run`: its row sets buffered, the first one active. */
    ghost predicate Holds(run: Run)
      reads this
    {
      && rowSets == run.sets
      && state == (if run.error.None? then Done else Failed)
      && nextSetIdx == (if run.sets == [] then 0 else 1)
      && Active() == (if run.sets == [] then EmptyRowSet else run.sets[0])
      && idx == 0
    }

    /**
     * `_do_execute_request`: reset, split the query, then send each
     * statement in order, classifying and buffering each response. The
     * first failure sets ERROR and is raised, keeping the sets buffered so
     * far; otherwise the state becomes DONE.
     */
    method DoExecuteRequest(lib: Builtins, server: Server, query: string, statements: seq<Token>,
                            paramSets: seq<seq<Param>>, setParameters: map<string, string>)
      returns (o: Outcome)
      requires Valid()
      modifies this
      ensures Valid() && arraysize == old(arraysize)
      ensures var run := Execution(lib, server, Target(connection.database, connection.engineUrl, setParameters),
                                   query, statements, paramSets);
        && Holds(run)
        && o == (if run.error.None? then Pass else Fail(run.error.value))
    {
      Reset();
      var target := Target(connection.database, connection.engineUrl, setParameters);
      var split := SplitFormatSql(query, statements, paramSets);
      if split.Err? {
        state := Failed;
        return Fail(split.error);
      }
      var failure := SendQueries(lib, server, target, split.value);
      state := if failure.None? then Done else Failed;
      o := if failure.None? then Pass else Fail(failure.value);
    }

    /** The `for query in queries` loop of `_do_execute_request`, on a reset cursor. */
    method SendQueries(lib: Builtins, server: Server, target: Target, queries: seq<string>)
      returns (failure: Option<Error>)
      requires Valid() && state == NotRun && rowSets == [] && idx == 0
      requires target.database == connection.database && target.engineUrl == connection.engineUrl
      modifies this
      ensures Valid() && arraysize == old(arraysize) && state == NotRun && idx == 0
      ensures var run := RunFrom(lib, server, target, queries, 0);
        && rowSets == run.sets && failure == run.error
        && nextSetIdx == (if run.sets == [] then 0 else 1)
        && Active() == (if run.sets == [] then EmptyRowSet else run.sets[0])
    {
      ghost var run := RunFrom(lib, server, target, queries, 0);
      var k := 0;
      failure := None;
      while k < |queries| && failure.None?
        invariant k <= |queries| && Sending(lib, server, target, queries, run, k, failure, old(arraysize))
        decreases |queries| - k, if failure.None? then 1 else 0
      {
        failure := SendNext(lib, server, target, queries, run, k);
        if failure.None? {
          k := k + 1;
        }
      }
    }

    /**
     * The loop after `k` queries: the buffer holds the sets collected so
     * far, and `run` is those followed by what the rest of the loop
     * collects, or those and the error that stopped it.
     */
    ghost predicate Sending(lib: Builtins, server: Server, target: Target, queries: seq<string>,
                            run: Run, k: nat, failure: Option<Error>, size: int)
      reads this
    {
      && k <= |queries|
      && target.database == connection.database && target.engineUrl == connection.engineUrl
      && Valid() && arraysize == size && state == NotRun && idx == 0
      && |rowSets| == k && nextSetIdx == (if k == 0 then 0 else 1)
      && (failure.None? ==>
            run == Run(rowSets + RunFrom(lib, server, target, queries, k).sets,
                       RunFrom(lib, server, target, queries, k).error))
      && (failure.Some? ==> run == Run(rowSets, failure))
    }

    /** One turn of the loop in `SendQueries`: the k-th query is sent and the loop state kept. */
    method SendNext(lib: Builtins, server: Server, target: Target, queries: seq<string>,
                    ghost run: Run, k: nat) returns (failure: Option<Error>)
      requires k < |queries| && Sending(lib, server, target, queries, run, k, None, arraysize)
      modifies this
      ensures Sending(lib, server, target, queries, run, if failure.None? then k + 1 else k, failure, old(arraysize))
    {
      RunFromAfter(lib, server, target, queries, k, rowSets, run);
      failure := SendStatement(lib, server, target, queries[k], k);
    }

    /**
     * One iteration of `_do_execute_request`'s loop: send the k-th query,
     * raise for its status, buffer its row set.
     */
    method SendStatement(lib: Builtins, server: Server, target: Target, query: string, k: nat)
      returns (failure: Option<Error>)
      requires Valid() && target.database == connection.database && target.engineUrl == connection.engineUrl
      modifies this
      ensures Valid() && state == old(state) && arraysize == old(arraysize)
      ensures var ex := Exchange(lib, server, target, k, query);
        && (failure.Some? <==> ex.Err?)
        && (ex.Err? ==> failure.value == ex.error && rowSets == old(rowSets)
                        && nextSetIdx == old(nextSetIdx) && idx == old(idx))
        && (ex.Ok? ==>
              && rowSets == old(rowSets) + [ex.value]
              && nextSetIdx == (if old(nextSetIdx) == 0 then 1 else old(nextSetIdx))
              && idx == (if old(nextSetIdx) == 0 then 0 else old(idx)))
    {
      var resp := server.send(k, MakeRequest(connection.database, target.setParameters, query));
      if resp.Err? {
        return Some(resp.error);
      }
      var check := CheckResponse(resp.value.status, resp.value.body, connection.database,
                                 connection.engineUrl, server.dbAvailable(k), server.engineRunning(k));
      if check.Fail? {
        return Some(check.error);
      }
      var appended := AppendQueryData(lib, resp.value);
      if appended.Fail? {
        return Some(appended.error);
      }
      return None;
    }

    /**
     * `execute`: run `query` with at most one parameter set; answers the
     * row count of the active set, which is the first statement's.
     */
    method Execute(lib: Builtins, server: Server, query: string, statements: seq<Token>,
                   parameters: Option<seq<Param>>, setParameters: map<string, string>)
      returns (r: Result<int>)
      requires Valid()
      modifies this
      ensures Valid() && arraysize == old(arraysize)
      ensures old(state) == Closed ==> r == Err(CursorClosedError) && unchanged(this)
      ensures old(state) != Closed ==>
        var run := Execution(lib, server, Target(connection.database, connection.engineUrl, setParameters),
                             query, statements, ParamSets(parameters));
        && Holds(run)
        && r == (if run.error.Some? then Err(run.error.value)
                 else Ok(if run.sets == [] then -1 else run.sets[0].rowcount))
    {
      if state == Closed {
        return Err(CursorClosedError);
      }
      var o := DoExecuteRequest(lib, server, query, statements, ParamSets(parameters), setParameters);
      if o.Fail? {
        return Err(o.error);
      }
      return Ok(rowcount);
    }

    /** `executemany`: run `query` once per parameter set, without extra settings. */
    method ExecuteMany(lib: Builtins, server: Server, query: string, statements: seq<Token>,
                       paramSets: seq<seq<Param>>)
      returns (r: Result<int>)
      requires Valid()
      modifies this
      ensures Valid() && arraysize == old(arraysize)
      ensures old(state) == Closed ==> r == Err(CursorClosedError) && unchanged(this)
      ensures old(state) != Closed ==>
        var run := Execution(lib, server, Target(connection.database, connection.engineUrl, map[]),
                             query, statements, paramSets);
        && Holds(run)
        && r == (if run.error.Some? then Err(run.error.value)
                 else Ok(if run.sets == [] then -1 else run.sets[0].rowcount))
    {
      if state == Closed {
        return Err(CursorClosedError);
      }
      var o := DoExecuteRequest(lib, server, query, statements, paramSets, map[]);
      if o.Fail? {
        return Err(o.error);
      }
      return Ok(rowcount);
    }

    /**
     * `_get_next_range` with the size clamped at zero: raises DataError
     * when the active set has no rows, otherwise moves the position to the
     * end of the window it answers.
     */
    method GetNextRange(size: int) returns (r: Result<(nat, nat)>)
      requires Valid()
      modifies this
      ensures Valid() && Buffer() == old(Buffer())
      ensures rows.None? ==> r == Err(DataError(NoRowsToFetch)) && idx == old(idx)
      ensures rows.Some? ==> r == Ok(NextRange(old(idx), size, |rows.value|)) && idx == r.value.1
      ensures old(idx) <= idx
    {
      if rows.None? {
        return Err(DataError(NoRowsToFetch));
      }
      var range := NextRange(idx, size, |rows.value|);
      idx := range.1;
      return Ok(range);
    }

    /**
     * `fetchone`: the next row, converted, or None once the rows are
     * exhausted. The position moves before the row is converted.
     */
    method FetchOne(lib: Builtins) returns (r: Result<Option<seq<TypedValue>>>)
      requires Valid()
      modifies this
      ensures Valid() && Buffer() == old(Buffer())
      ensures Guard(old(state), true).Fail? ==> r == Err(Guard(old(state), true).error) && idx == old(idx)
      ensures Guard(old(state), true).Pass? && rows.None? ==> r == Err(DataError(NoRowsToFetch)) && idx == old(idx)
      ensures Guard(old(state), true).Pass? && rows.Some? ==>
        var n := |rows.value|;
        && (old(idx) == n ==> r == Ok(None) && idx == n)
        && (old(idx) < n ==>
              var parsed := ParseRow(lib, rows.value[old(idx)], descriptions.value);
              && idx == old(idx) + 1
              && (r.Ok? <==> parsed.Ok?)
              && (r.Ok? ==> r.value == Some(parsed.value))
              && (r.Err? ==> r.error == parsed.error))
    {
      var g := Guard(state, true);
      if g.Fail? {
        return Err(g.error);
      }
      var range :- GetNextRange(1);
      var (left, right) := range;
      if left == right {
        return Ok(None);
      }
      var row :- ParseRow(lib, rows.value[left], descriptions.value);
      return Ok(Some(row));
    }

    /** The rows `fetchmany` and `fetchall` return: the window at the old position, each converted. */
    ghost predicate FetchedWindow(lib: Builtins, oldIdx: nat, size: int, r: Result<seq<seq<TypedValue>>>)
      reads this
      requires rows.Some? && oldIdx <= |rows.value| && descriptions.Some?
    {
      var n := |rows.value|;
      && idx == NextRange(oldIdx, size, n).1
      && r == ParseRows(lib, Window(rows.value, oldIdx, size), descriptions.value)
      && (r.Ok? ==> |r.value| == (if size <= 0 then 0 else Min(size, n - oldIdx)))
    }

    /** Shared by `fetchmany` and `fetchall`, which differ only in the size. */
    method FetchWindow(lib: Builtins, size: int) returns (r: Result<seq<seq<TypedValue>>>)
      requires Valid()
      modifies this
      ensures Valid() && Buffer() == old(Buffer())
      ensures Guard(old(state), true).Fail? ==> r == Err(Guard(old(state), true).error) && idx == old(idx)
      ensures Guard(old(state), true).Pass? && rows.None? ==> r == Err(DataError(NoRowsToFetch)) && idx == old(idx)
      ensures Guard(old(state), true).Pass? && rows.Some? ==>
        descriptions.Some? && old(idx) <= |rows.value| && FetchedWindow(lib, old(idx), size, r)
    {
      var g := Guard(state, true);
      if g.Fail? {
        return Err(g.error);
      }
      var range :- GetNextRange(size);
      var (left, right) := range;
      r := ParseRows(lib, rows.value[left..right], descriptions.value);
    }

    /** `fetchmany`: `size` rows, or `arraysize` rows when no size is given. */
    method FetchMany(lib: Builtins, size: Option<int>) returns (r: Result<seq<seq<TypedValue>>>)
      requires Valid()
      modifies this
      ensures Valid() && Buffer() == old(Buffer())
      ensures Guard(old(state), true).Fail? ==> r == Err(Guard(old(state), true).error) && idx == old(idx)
      ensures Guard(old(state), true).Pass? && rows.None? ==> r == Err(DataError(NoRowsToFetch)) && idx == old(idx)
      ensures Guard(old(state), true).Pass? && rows.Some? ==>
        descriptions.Some? && old(idx) <= |rows.value| &&
        FetchedWindow(lib, old(idx), if size.Some? then size.value else arraysize, r)
    {
      r := FetchWindow(lib, if size.Some? then size.value else arraysize);
    }

    /** `fetchall`: the row count of the active set is the size. */
    method FetchAll(lib: Builtins) returns (r: Result<seq<seq<TypedValue>>>)
      requires Valid()
      modifies this
      ensures Valid() && Buffer() == old(Buffer())
      ensures Guard(old(state), true).Fail? ==> r == Err(Guard(old(state), true).error) && idx == old(idx)
      ensures Guard(old(state), true).Pass? && rows.None? ==> r == Err(DataError(NoRowsToFetch)) && idx == old(idx)
      ensures Guard(old(state), true).Pass? && rows.Some? ==>
        descriptions.Some? && old(idx) <= |rows.value| && FetchedWindow(lib, old(idx), rowcount, r)
    {
      r := FetchWindow(lib, rowcount);
    }

    /** The `arraysize` setter: any `int`, `bool` included, else TypeError. */
    method SetArraysize(value: Param) returns (o: Outcome)
      requires Valid()
      modifies this
      ensures Valid() && state == old(state) && rowSets == old(rowSets) && idx == old(idx)
      ensures nextSetIdx == old(nextSetIdx) && Active() == old(Active())
      ensures o.Pass? <==> value.PInt? || value.PBool?
      ensures value.PInt? ==> arraysize == value.i
      ensures value.PBool? ==> arraysize == (if value.b then 1 else 0)
      ensures o.Fail? ==> o.error == PyTypeError && arraysize == old(arraysize)
    {
      match value
      case PInt(i) => arraysize := i; return Pass;
      case PBool(b) => arraysize := if b then 1 else 0; return Pass;
      case _ => return Fail(PyTypeError);
    }

    /** The `description` property: closed cursors refuse it. */
    method Description() returns (r: Result<Option<seq<Column>>>)
      ensures r.Err? <==> state == Closed
      ensures r.Err? ==> r.error == CursorClosedError
      ensures r.Ok? ==> r.value == descriptions
    {
      if state == Closed {
        return Err(CursorClosedError);
      }
      return Ok(descriptions);
    }

    /** The `rowcount` property: closed cursors refuse it. */
    method RowCount() returns (r: Result<int>)
      ensures r.Err? <==> state == Closed
      ensures r.Err? ==> r.error == CursorClosedError
      ensures r.Ok? ==> r.value == rowcount
    {
      if state == Closed {
        return Err(CursorClosedError);
      }
      return Ok(rowcount);
    }

    /**
     * `close`: mark the cursor closed and take it out of its connection's
     * registry. Nothing else changes.
     */
    method Close()
      requires Valid()
      modifies this, connection
      ensures Valid() && state == Closed
      ensures rowSets == old(rowSets) && nextSetIdx == old(nextSetIdx) && Active() == old(Active())
      ensures idx == old(idx) && arraysize == old(arraysize)
      ensures connection.cursors == RemoveFirst(old(connection.cursors), this)
      ensures connection.isClosed == old(connection.isClosed)
      ensures old(connection.Valid()) ==> connection.Valid() && this !in connection.cursors
    {
      // The source marks the cursor closed first; nothing observes the
      // cursor between the two steps, so deregistering first is the same.
      ghost var wasValid := connection.Valid();
      ghost var buffer := (rowSets, nextSetIdx, Active(), idx);
      connection.RemoveCursor(this);
      state := Closed;
      assert (rowSets, nextSetIdx, Active(), idx) == buffer;
      if wasValid {
        forall c | c in connection.cursors
          ensures c.connection == connection && c.state != Closed && c.Valid()
        {
          assert c != this;
        }
      }
    }
  }

  // ---------------------------------------------------------------------
  // Connection

  class Connection {
    const database: string
    const engineUrl: string
    var cursors: seq<Cursor>
    var isClosed: bool

    /**
     * Every registered cursor is open, belongs here and is registered
     * once; a closed connection has none.
     */
    ghost predicate Valid()
      reads this, cursors
    {
      && Distinct(cursors)
      && (forall c | c in cursors :: c.connection == this && c.state != Closed && c.Valid())
      && (isClosed ==> cursors == [])
    }

    constructor(engineUrl: string, database: string)
      ensures Valid() && this.engineUrl == engineUrl && this.database == database
      ensures cursors == [] && !isClosed
    {
      this.engineUrl := engineUrl;
      this.database := database;
      cursors := [];
      isClosed := false;
    }

    /** `_cursor`: a new cursor, registered at the end, unless the connection is closed. */
    method NewCursor() returns (r: Result<Cursor>)
      requires Valid()
      modifies this
      ensures Valid() && isClosed == old(isClosed)
      ensures old(isClosed) ==> r == Err(ConnectionClosedError) && cursors == old(cursors)
      ensures !old(isClosed) ==>
        && r.Ok? && fresh(r.value) && cursors == old(cursors) + [r.value]
        && r.value.connection == this && r.value.state == NotRun && r.value.arraysize == 1
        && r.value.rowSets == [] && r.value.nextSetIdx == 0 && r.value.Active() == EmptyRowSet
        && r.value.idx == 0
    {
      if isClosed {
        return Err(ConnectionClosedError);
      }
      var c := new Cursor(this);
      cursors := cursors + [c];
      return Ok(c);
    }

    /** `_remove_cursor`: drop the cursor if registered; silently nothing otherwise. */
    method RemoveCursor(c: Cursor)
      modifies this
      ensures cursors == RemoveFirst(old(cursors), c) && isClosed == old(isClosed)
      ensures old(Valid()) ==> Valid() && c !in cursors
    {
      ghost var registered := cursors;
      cursors := RemoveFirst(cursors, c);
      if old(Valid()) {
        RemoveFirstFromDistinct(registered, c);
        forall x | x in cursors
          ensures x.connection == this && x.state != Closed && x.Valid()
        {
          assert x in registered;
        }
      }
    }

    /**
     * `_aclose`: on an open connection, close every registered cursor
     * (each one deregisters itself), then mark the connection closed; on
     * a closed one, nothing.
     */
    method Close()
      requires Valid()
      modifies this, cursors
      ensures Valid() && isClosed && cursors == []
      ensures forall c | c in old(cursors) :: c.state == Closed && c.Valid()
      ensures forall c | c in old(cursors) :: c.Kept() == old(c.Kept())
      ensures old(isClosed) ==> unchanged(this)
    {
      if isClosed {
        return;
      }
      var snapshot := cursors;
      var i := 0;
      while i < |snapshot|
        invariant i <= |snapshot|
        invariant cursors == snapshot[i..] && !isClosed
        invariant forall j | 0 <= j < i :: snapshot[j].state == Closed && snapshot[j].Valid()
        invariant forall j | i <= j < |snapshot| :: snapshot[j].Valid()
        invariant forall j | 0 <= j < |snapshot| :: snapshot[j].Kept() == old(snapshot[j].Kept())
      {
        var c := snapshot[i];
        assert c in old(cursors);
        c.Close();
        RemoveFirstHead(snapshot[i..]);
        assert snapshot[i..][1..] == snapshot[i + 1..];
        i := i + 1;
      }
      isClosed := true;
    }

    /** `commit`: nothing to commit; a closed connection refuses. */
    method Commit() returns (o: Outcome)
      ensures o.Fail? <==> isClosed
      ensures o.Fail? ==> o.error == ConnectionClosedError
    {
      if isClosed {
        return Fail(ConnectionClosedError);
      }
      return Pass;
    }

    /** `__aenter__`: the connection itself, unless it is closed. */
    method Enter() returns (r: Result<Connection>)
      ensures r.Err? <==> isClosed
      ensures r.Err? ==> r.error == ConnectionClosedError
      ensures r.Ok? ==> r.value == this
    {
      if isClosed {
        return Err(ConnectionClosedError);
      }
      return Ok(this);
    }
  }

  /**
   * Closing a connection cascades: a cursor it handed out refuses to
   * execute afterwards, and the connection refuses new cursors.
   */
  method CloseCascade(lib: Builtins, server: Server, query: string, statements: seq<Token>)
    returns (executed: Result<int>, reopened: Result<Cursor>)
    ensures executed == Err(CursorClosedError)
    ensures reopened == Err(ConnectionClosedError)
  {
    var conn := new Connection("https://engine.example", "db");
    var created := conn.NewCursor();
    var c := created.value;
    conn.Close();
    executed := c.Execute(lib, server, query, statements, None, map[]);
    reopened := conn.NewCursor();
  }
}
