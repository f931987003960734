/**
 * The shapes of the values the driver handles: JSON values decoded from a
 * response body (`RawColType` and the body itself), query parameters
 * (`ParameterType`), converted column values (`ColType`), and the Python
 * library conversions it calls but does not define.
 */
module Values {
  import opened Errors

  /** A floating-point number, carried as its decimal rendering (`str(x)`); never computed with. */
  datatype Float = Float(text: string)

  /** A decoded JSON value. */
  datatype Json =
    | JNull
    | JBool(b: bool)
    | JInt(i: int)
    | JFloat(f: Float)
    | JStr(s: string)
    | JArray(items: seq<Json>)
    | JObject(fields: map<string, Json>)

  /** A calendar date (`datetime.date`). */
  datatype Date = Date(year: int, month: int, day: int)

  /**
   * A `datetime.datetime`: a date, a wall-clock time and, when it is
   * timezone-aware, its offset from UTC in seconds.
   */
  datatype DateTime = DateTime(
    date: Date, hour: int, minute: int, second: int, microsecond: int,
    utcOffset: Option<int>)

  /** A query parameter, by the Python type `format_value` dispatches on. */
  datatype Param =
    | PBool(b: bool)
    | PInt(i: int)
    | PFloat(f: Float)
    | PDecimal(text: string)          // decimal.Decimal, by its str()
    | PStr(s: string)
    | PDateTime(dt: DateTime)
    | PDate(d: Date)
    | PNone
    | PSeq(items: seq<Param>)         // any other Sequence: list, tuple, ...
    | POther                          // any value of another type (dict, set, object, ...)

  /** A column value after conversion by its column type (`ColType`). */
  datatype TypedValue =
    | VNull
    | VInt(i: int)
    | VFloat(f: Float)
    | VStr(s: string)
    | VDate(d: Date)
    | VDateTime(dt: DateTime)
    | VList(items: seq<TypedValue>)

  /**
   * The Python library calls the driver uses on raw values: the `int`,
   * `float` and `str` constructors and the ISO 8601 parser
   * (`ciso8601.parse_datetime`, or `datetime.fromisoformat` without it).
   * Each may raise; `str` never does on a JSON value.
   */
  datatype Builtins = Builtins(
    toInt: Json -> Result<int>,
    toFloat: Json -> Result<Float>,
    toStr: Json -> string,
    parseDateTime: string -> Result<DateTime>)
}
