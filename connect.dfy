/**
 * The connection factory's argument checks (`connect_inner` in
 * src/firebolt/async_db/connection.py): exactly one of engine name and
 * engine URL, and a database, user name and password, each non-empty.
 */
module Connect {
  import opened Errors
  import opened Dbapi

  /** Python truthiness of an optional string: present and non-empty. */
  predicate Given(arg: Option<string>)
  {
    arg.Some? && arg.value != ""
  }

  /**
   * The checks in the order the source makes them: the engine pair first,
   * then database, username and password.
   */
  function CheckConnectArgs(database: Option<string>, username: Option<string>, password: Option<string>,
                            engineName: Option<string>, engineUrl: Option<string>): (o: Outcome)
    ensures o.Pass? <==> (Given(engineName) != Given(engineUrl))
                         && Given(database) && Given(username) && Given(password)
    ensures Given(engineName) && Given(engineUrl) ==> o == Fail(InterfaceError(BothEngineNameAndUrl))
    ensures !Given(engineName) && !Given(engineUrl) ==> o == Fail(InterfaceError(NeitherEngineNameNorUrl))
    ensures Given(engineName) != Given(engineUrl) && o.Fail? ==>
      o.error.InterfaceError? && o.error.interfaceReason.MissingArgument?
    ensures Given(engineName) != Given(engineUrl) && !Given(database) ==>
      o == Fail(InterfaceError(MissingArgument("database")))
    ensures Given(engineName) != Given(engineUrl) && Given(database) && !Given(username) ==>
      o == Fail(InterfaceError(MissingArgument("username")))
    ensures Given(engineName) != Given(engineUrl) && Given(database) && Given(username) && !Given(password) ==>
      o == Fail(InterfaceError(MissingArgument("password")))
  {
    if Given(engineName) && Given(engineUrl) then Fail(InterfaceError(BothEngineNameAndUrl))
    else if !Given(engineName) && !Given(engineUrl) then Fail(InterfaceError(NeitherEngineNameNorUrl))
    else if !Given(database) then Fail(InterfaceError(MissingArgument("database")))
    else if !Given(username) then Fail(InterfaceError(MissingArgument("username")))
    else if !Given(password) then Fail(InterfaceError(MissingArgument("password")))
    else Pass
  }

  /**
   * `connect_inner`: check the arguments, resolve an engine name to its
   * URL when no URL was given, and open a connection to that URL.
   * `resolve` stands for the engine lookup and `fixUrl` for the schema
   * normalisation, neither of which this model defines.
   */
  method ConnectTo(database: Option<string>, username: Option<string>, password: Option<string>,
                   engineName: Option<string>, engineUrl: Option<string>,
                   resolve: string -> Result<string>, fixUrl: string -> string)
    returns (r: Result<Connection>)
    ensures var check := CheckConnectArgs(database, username, password, engineName, engineUrl);
      && (check.Fail? ==> r == Err(check.error))
      && (check.Pass? && Given(engineName) && resolve(engineName.value).Err? ==>
            r == Err(resolve(engineName.value).error))
      && (r.Ok? ==>
            && fresh(r.value) && r.value.Valid() && r.value.cursors == [] && !r.value.isClosed
            && r.value.database == database.value
            && r.value.engineUrl == fixUrl(if Given(engineName) then resolve(engineName.value).value
                                           else engineUrl.value))
    ensures (CheckConnectArgs(database, username, password, engineName, engineUrl).Pass? &&
             (!Given(engineName) || resolve(engineName.value).Ok?)) ==> r.Ok?
  {
    var check := CheckConnectArgs(database, username, password, engineName, engineUrl);
    if check.Fail? {
      return Err(check.error);
    }
    var url := engineUrl;
    if Given(engineName) {
      var resolved := resolve(engineName.value);
      if resolved.Err? {
        return Err(resolved.error);
      }
      url := Some(resolved.value);
    }
    var conn := new Connection(fixUrl(url.value), database.value);
    return Ok(conn);
  }
}
