/**
 * The driver's type system (src/firebolt/async_db/_types.py): wire type
 * names to column types, raw JSON values to typed values, and query
 * parameters to SQL literals.
 */
module Types {
  import opened Errors
  import opened Values
  import opened Text

  /** A column's Python type: int, float, str, date, datetime or ARRAY(subtype). */
  datatype ColumnType =
    | IntType
    | FloatType
    | StrType
    | DateType
    | DateTimeType
    | ArrayType(subtype: ColumnType)

  /** The scalar type names the server sends (`_InternalType`). */
  datatype InternalType =
    | Int8 | UInt8 | Int16 | UInt16 | Int32 | UInt32 | Int64 | UInt64
    | Float32 | Float64
    | String
    | Date
    | DateTime
    | Nothing

  /** The wire name of each scalar type (the enum member's value). */
  function InternalName(t: InternalType): string
  {
    match t
    case Int8 => "Int8"
    case UInt8 => "UInt8"
    case Int16 => "Int16"
    case UInt16 => "UInt16"
    case Int32 => "Int32"
    case UInt32 => "UInt32"
    case Int64 => "Int64"
    case UInt64 => "UInt64"
    case Float32 => "Float32"
    case Float64 => "Float64"
    case String => "String"
    case Date => "Date"
    case DateTime => "DateTime"
    case Nothing => "Nothing"
  }

  /** `_InternalType(name)`: the member whose value is `name`, if there is one. */
  function LookupInternal(name: string): (r: Option<InternalType>)
    ensures r.Some? ==> InternalName(r.value) == name
    ensures forall t :: InternalName(t) == name ==> r == Some(t)
  {
    if name == "Int8" then Some(Int8)
    else if name == "UInt8" then Some(UInt8)
    else if name == "Int16" then Some(Int16)
    else if name == "UInt16" then Some(UInt16)
    else if name == "Int32" then Some(Int32)
    else if name == "UInt32" then Some(UInt32)
    else if name == "Int64" then Some(Int64)
    else if name == "UInt64" then Some(UInt64)
    else if name == "Float32" then Some(Float32)
    else if name == "Float64" then Some(Float64)
    else if name == "String" then Some(String)
    else if name == "Date" then Some(InternalType.Date)
    else if name == "DateTime" then Some(InternalType.DateTime)
    else if name == "Nothing" then Some(Nothing)
    else None
  }

  /** `_InternalType.python_type`. */
  function PythonType(t: InternalType): (c: ColumnType)
    ensures !c.ArrayType?
  {
    match t
    case Int8 | UInt8 | Int16 | UInt16 | Int32 | UInt32 | Int64 | UInt64 => IntType
    case Float32 | Float64 => FloatType
    case String => StrType
    case Date => DateType
    case DateTime => DateTimeType
    case Nothing => StrType
  }

  const ArrayPrefix: string := "Array("
  const NullablePrefix: string := "Nullable("

  /** `raw.startswith(prefix) and raw.endswith(")")`. */
  predicate Wrapped(raw: string, prefix: string)
  {
    prefix <= raw && |raw| > 0 && raw[|raw| - 1] == ')'
  }

  /** The text between a wrapper's opening prefix and its final `)`. */
  function Unwrap(raw: string, prefix: string): (inner: string)
    requires prefix != [] && prefix[|prefix| - 1] == '(' && Wrapped(raw, prefix)
    ensures |inner| < |raw| && raw == prefix + inner + ")"
  {
    assert raw[|prefix| - 1] == '(';
    raw[|prefix|..|raw| - 1]
  }

  /**
   * `parse_type` on a string: `Array(t)` becomes ARRAY of `t`'s type,
   * `Nullable(t)` becomes `t`'s type, a known scalar name its Python type,
   * and every other string (an unknown name, a wrapper without its closing
   * parenthesis) `str`.
   */
  function ParseTypeName(raw: string): (t: ColumnType)
    ensures t.ArrayType? ==> Wrapped(raw, ArrayPrefix) || Wrapped(raw, NullablePrefix)
    ensures !Wrapped(raw, ArrayPrefix) && !Wrapped(raw, NullablePrefix) ==>
      t == (if LookupInternal(raw).Some? then PythonType(LookupInternal(raw).value) else StrType)
    decreases |raw|
  {
    if Wrapped(raw, ArrayPrefix) then ArrayType(ParseTypeName(Unwrap(raw, ArrayPrefix)))
    else if Wrapped(raw, NullablePrefix) then ParseTypeName(Unwrap(raw, NullablePrefix))
    else match LookupInternal(raw)
      case Some(t) => PythonType(t)
      case None => StrType
  }

  /** `parse_type` on a JSON value: anything but a string raises DataError. */
  function ParseType(raw: Json): (r: Result<ColumnType>)
    ensures r.Err? <==> !raw.JStr?
    ensures r.Err? ==> r.error == DataError(InvalidTypename)
    ensures raw.JStr? ==> r.value == ParseTypeName(raw.s)
  {
    match raw
    case JStr(s) => Ok(ParseTypeName(s))
    case _ => Err(DataError(InvalidTypename))
  }

  lemma ParseArrayName(t: string)
    ensures ParseTypeName(ArrayPrefix + t + ")") == ArrayType(ParseTypeName(t))
  {
    var raw := ArrayPrefix + t + ")";
    assert ArrayPrefix <= raw;
    assert Unwrap(raw, ArrayPrefix) == t;
  }

  /** Nullability is dropped: `Nullable(t)` has exactly `t`'s type. */
  lemma ParseNullableName(t: string)
    ensures ParseTypeName(NullablePrefix + t + ")") == ParseTypeName(t)
  {
    var raw := NullablePrefix + t + ")";
    assert raw[0] == 'N';
    assert !(ArrayPrefix <= raw);
    assert NullablePrefix <= raw;
    assert Unwrap(raw, NullablePrefix) == t;
  }

  /** Every scalar wire name parses to its Python type; the integer names to int, and so on. */
  lemma ParseInternalName(t: InternalType)
    ensures ParseTypeName(InternalName(t)) == PythonType(t)
    ensures PythonType(t) == IntType <==>
      t in {Int8, UInt8, Int16, UInt16, Int32, UInt32, Int64, UInt64}
    ensures PythonType(t) == FloatType <==> t in {Float32, Float64}
    ensures PythonType(t) == StrType <==> t in {String, Nothing}
    ensures PythonType(t) == DateType <==> t == InternalType.Date
    ensures PythonType(t) == DateTimeType <==> t == InternalType.DateTime
  {
    var name := InternalName(t);
    assert name[|name| - 1] != ')';
  }

  /** A string that is neither wrapper nor scalar name falls back to `str`. */
  lemma ParseUnknownName(raw: string)
    requires !Wrapped(raw, ArrayPrefix) && !Wrapped(raw, NullablePrefix)
    requires forall t :: InternalName(t) != raw
    ensures ParseTypeName(raw) == StrType
  {
  }

  /** A wrapper missing its closing parenthesis is not a wrapper. */
  lemma ParseMalformedArray()
    ensures ParseTypeName("Array(Int8") == StrType
    ensures ParseTypeName("Nullable(Int8") == StrType
  {
    assert !Wrapped("Array(Int8", ArrayPrefix);
    assert !Wrapped("Array(Int8", NullablePrefix);
    assert !Wrapped("Nullable(Int8", ArrayPrefix);
    assert !Wrapped("Nullable(Int8", NullablePrefix);
  }

  /** A wire name for each column type: the widest scalar name, wrapped in `Array(...)`. */
  function CanonicalName(t: ColumnType): string
  {
    match t
    case IntType => "Int64"
    case FloatType => "Float64"
    case StrType => "String"
    case DateType => "Date"
    case DateTimeType => "DateTime"
    case ArrayType(sub) => ArrayPrefix + CanonicalName(sub) + ")"
  }

  /** Every column type, nested arrays included, is the type of some wire name. */
  lemma {:induction false} ParseCanonicalName(t: ColumnType)
    ensures ParseTypeName(CanonicalName(t)) == t
  {
    match t
    case ArrayType(sub) =>
      ParseCanonicalName(sub);
      ParseArrayName(CanonicalName(sub));
    case IntType => ParseInternalName(Int64);
    case FloatType => ParseInternalName(Float64);
    case StrType => ParseInternalName(String);
    case DateType => ParseInternalName(InternalType.Date);
    case DateTimeType => ParseInternalName(InternalType.DateTime);
  }

  /** `str()` of a column type: Python's class rendering, or `ARRAY.__str__`. */
  function TypeStr(t: ColumnType): string
  {
    match t
    case IntType => "<class 'int'>"
    case FloatType => "<class 'float'>"
    case StrType => "<class 'str'>"
    case DateType => "<class 'datetime.date'>"
    case DateTimeType => "<class 'datetime.datetime'>"
    case ArrayType(sub) => ArrayPrefix + TypeStr(sub) + ")"
  }

  /** `str()` of a type is not a wire name: parsing it back keeps the nesting but loses the scalar. */
  lemma TypeStrNotReparsed()
    ensures ParseTypeName(TypeStr(ArrayType(IntType))) == ArrayType(StrType)
  {
    ParseArrayName(TypeStr(IntType));
    ParseUnknownName(TypeStr(IntType));
  }

  /**
   * `parse_value`: `None` stays `None` whatever the type; int, float and str
   * columns apply the Python constructor; date and datetime columns accept
   * only strings; an array column requires a list and converts it element
   * by element, in order.
   */
  function ParseValue(lib: Builtins, v: Json, t: ColumnType): (r: Result<TypedValue>)
    ensures v.JNull? ==> r == Ok(VNull)
    ensures t.DateType? && !v.JNull? && !v.JStr? ==> r == Err(DataError(InvalidDateValue))
    ensures t.DateTimeType? && !v.JNull? && !v.JStr? ==> r == Err(DataError(InvalidDatetimeValue))
    ensures t.ArrayType? && !v.JNull? && !v.JArray? ==> r == Err(PyAssertionError)
    ensures t.ArrayType? && v.JArray? && r.Ok? ==>
      r.value.VList? && |r.value.items| == |v.items|
    decreases v
  {
    if v.JNull? then Ok(VNull)
    else match t
      case IntType =>
        (match lib.toInt(v) case Ok(i) => Ok(VInt(i)) case Err(e) => Err(e))
      case StrType => Ok(VStr(lib.toStr(v)))
      case FloatType =>
        (match lib.toFloat(v) case Ok(f) => Ok(VFloat(f)) case Err(e) => Err(e))
      case DateType =>
        if !v.JStr? then Err(DataError(InvalidDateValue))
        else (match lib.parseDateTime(v.s) case Ok(dt) => Ok(VDate(dt.date)) case Err(e) => Err(e))
      case DateTimeType =>
        if !v.JStr? then Err(DataError(InvalidDatetimeValue))
        else (match lib.parseDateTime(v.s) case Ok(dt) => Ok(VDateTime(dt)) case Err(e) => Err(e))
      case ArrayType(sub) =>
        if !v.JArray? then Err(PyAssertionError)
        else (match ParseItems(lib, v.items, sub) case Ok(xs) => Ok(VList(xs)) case Err(e) => Err(e))
  }

  /**
   * The list comprehension over an array value: converts every element,
   * and fails with the first element's error when any element fails.
   */
  function ParseItems(lib: Builtins, items: seq<Json>, sub: ColumnType): (r: Result<seq<TypedValue>>)
    ensures r.Ok? ==> |r.value| == |items|
    ensures r.Ok? ==> forall i | 0 <= i < |items| :: ParseValue(lib, items[i], sub) == Ok(r.value[i])
    ensures r.Err? ==> exists i | 0 <= i < |items| ::
      ParseValue(lib, items[i], sub) == Err(r.error) &&
      forall j | 0 <= j < i :: ParseValue(lib, items[j], sub).Ok?
    decreases items
  {
    if items == [] then Ok([])
    else match ParseValue(lib, items[0], sub)
      case Err(e) => Err(e)
      case Ok(x) =>
        match ParseItems(lib, items[1..], sub)
        case Err(e) =>
          ghost var i :| 0 <= i < |items[1..]| && ParseValue(lib, items[1..][i], sub) == Err(e) &&
            forall j | 0 <= j < i :: ParseValue(lib, items[1..][j], sub).Ok?;
          assert ParseValue(lib, items[i + 1], sub) == Err(e);
          Err(e)
        case Ok(xs) => Ok([x] + xs)
  }

  /** An array value converts exactly when each of its elements does, to the list of their conversions. */
  lemma ParseArrayElementwise(lib: Builtins, items: seq<Json>, sub: ColumnType)
    ensures var r := ParseValue(lib, JArray(items), ArrayType(sub));
      (r.Ok? <==> forall i | 0 <= i < |items| :: ParseValue(lib, items[i], sub).Ok?) &&
      (r.Ok? ==>
        && r.value.VList? && |r.value.items| == |items|
        && forall i | 0 <= i < |items| :: ParseValue(lib, items[i], sub) == Ok(r.value.items[i]))
  {
  }

  // ---------------------------------------------------------------------
  // SQL literals

  /** `escape_chars`: NUL, backslash and single quote get a backslash; nothing else changes. */
  function EscapeChar(c: char): string
  {
    if c == '\0' then "\\0"
    else if c == '\\' then "\\\\"
    else if c == '\'' then "\\'"
    else [c]
  }

  function Escape(s: string): (r: string)
    ensures |s| <= |r| <= 2 * |s|
  {
    if s == [] then "" else EscapeChar(s[0]) + Escape(s[1..])
  }

  /** How the server reads the inside of a quoted literal: a backslash escapes the next character, `\0` is NUL. */
  function Unescape(s: string): string
  {
    if s == [] then ""
    else if s[0] == '\\' && |s| >= 2 then [if s[1] == '0' then '\0' else s[1]] + Unescape(s[2..])
    else [s[0]] + Unescape(s[1..])
  }

  predicate NeedsEscape(c: char) { c == '\0' || c == '\\' || c == '\'' }

  /** Quoting is lossless: the server reads back exactly the string that was sent. */
  lemma {:induction false} EscapeRoundTrip(s: string)
    ensures Unescape(Escape(s)) == s
  {
    if s != [] {
      EscapeRoundTrip(s[1..]);
      var e := EscapeChar(s[0]);
      var rest := Escape(s[1..]);
      assert Escape(s) == e + rest;
      if NeedsEscape(s[0]) {
        assert (e + rest)[2..] == rest;
      } else {
        assert (e + rest)[1..] == rest;
      }
    }
  }

  /** Text with none of the three special characters is copied unchanged. */
  lemma {:induction false} EscapePlain(s: string)
    requires forall i | 0 <= i < |s| :: !NeedsEscape(s[i])
    ensures Escape(s) == s
  {
    if s != [] {
      EscapePlain(s[1..]);
    }
  }

  /** A quoted literal never ends early: outside escapes it holds no bare quote. */
  lemma {:induction false} EscapeHasNoBareQuote(s: string)
    ensures NoBareQuote(Escape(s))
  {
    if s != [] {
      EscapeHasNoBareQuote(s[1..]);
      var e := EscapeChar(s[0]);
      var rest := Escape(s[1..]);
      if NeedsEscape(s[0]) {
        assert (e + rest)[2..] == rest;
      } else {
        assert (e + rest)[1..] == rest;
      }
    }
  }

  /** Scanning left to right, every quote is the second character of a backslash escape. */
  predicate NoBareQuote(s: string)
  {
    if s == [] then true
    else if s[0] == '\\' && |s| >= 2 then NoBareQuote(s[2..])
    else s[0] != '\'' && NoBareQuote(s[1..])
  }

  const SecondsPerDay: int := 86400

  predicate IsLeapYear(y: int) { y % 4 == 0 && (y % 100 != 0 || y % 400 == 0) }

  function DaysInMonth(y: int, m: int): int
  {
    if m == 2 then (if IsLeapYear(y) then 29 else 28)
    else if m in {4, 6, 9, 11} then 30
    else 31
  }

  function NextDay(d: Date): Date
  {
    if d.day < DaysInMonth(d.year, d.month) then d.(day := d.day + 1)
    else if d.month < 12 then Values.Date(d.year, d.month + 1, 1)
    else Values.Date(d.year + 1, 1, 1)
  }

  function PreviousDay(d: Date): Date
  {
    if d.day > 1 then d.(day := d.day - 1)
    else if d.month > 1 then Values.Date(d.year, d.month - 1, DaysInMonth(d.year, d.month - 1))
    else Values.Date(d.year - 1, 12, 31)
  }

  function AddDays(d: Date, k: int): Date
    decreases if k < 0 then -k else k
  {
    if k == 0 then d
    else if k > 0 then AddDays(NextDay(d), k - 1)
    else AddDays(PreviousDay(d), k + 1)
  }

  /** `value.astimezone(timezone.utc)` for an aware datetime; a naive one is kept as it is. */
  function AsUtc(dt: DateTime): DateTime
  {
    match dt.utcOffset
    case None => dt
    case Some(offset) =>
      var total := dt.hour * 3600 + dt.minute * 60 + dt.second - offset;
      var secs := total % SecondsPerDay;
      Values.DateTime(AddDays(dt.date, total / SecondsPerDay), secs / 3600, secs % 3600 / 60, secs % 60,
               dt.microsecond, Some(0))
  }

  /** A year, month or day as `strftime`/`isoformat` print it (negative fields are not Python dates). */
  function Field(n: int, width: nat): string
  {
    Pad(if n < 0 then 0 else n, width)
  }

  /** `date.isoformat()`: `YYYY-MM-DD`. */
  function DateText(d: Date): string
  {
    Field(d.year, 4) + "-" + Field(d.month, 2) + "-" + Field(d.day, 2)
  }

  /** `strftime('%Y-%m-%d %H:%M:%S')`: sub-second precision is dropped. */
  function DateTimeText(dt: DateTime): string
  {
    DateText(dt.date) + " " + Field(dt.hour, 2) + ":" + Field(dt.minute, 2) + ":" + Field(dt.second, 2)
  }

  function Quote(s: string): string { "'" + s + "'" }

  /**
   * `format_value`: a parameter as a SQL literal. Booleans are `1`/`0`,
   * numbers their decimal text, strings quoted and escaped, datetimes
   * (in UTC) and dates quoted, `None` is `NULL`, a sequence is the
   * bracketed, comma-separated list of its elements' literals; any other
   * value raises DataError.
   */
  function FormatValue(p: Param): (r: Result<string>)
    ensures p.PBool? ==> r == Ok(if p.b then "1" else "0")
    ensures p.PNone? ==> r == Ok("NULL")
    ensures p.POther? ==> r == Err(DataError(UnsupportedParameterType))
    ensures r.Err? ==> (p.PSeq? || p.POther?) && r.error == DataError(UnsupportedParameterType)
    decreases p
  {
    match p
    case PBool(b) => Ok(if b then "1" else "0")
    case PInt(i) => Ok(IntToString(i))
    case PFloat(f) => Ok(f.text)
    case PDecimal(t) => Ok(t)
    case PStr(s) => Ok(Quote(Escape(s)))
    case PDateTime(dt) => Ok(Quote(DateTimeText(AsUtc(dt))))
    case PDate(d) => Ok(Quote(DateText(d)))
    case PNone => Ok("NULL")
    case PSeq(items) =>
      (match FormatItems(items)
       case Ok(parts) => Ok("[" + Join(parts, ", ") + "]")
       case Err(e) => Err(e))
    case POther => Err(DataError(UnsupportedParameterType))
  }

  /** An integer's literal reads back as that integer. */
  lemma FormatInteger(i: int)
    ensures var r := FormatValue(PInt(i)); r.Ok? && ParseInt(r.value) == Some(i)
  {
    IntToStringRoundTrip(i);
  }

  /**
   * A string's literal is quoted, unescapes to the string, and holds no
   * quote that would end it early.
   */
  lemma FormatString(s: string)
    ensures var r := FormatValue(PStr(s));
      && r.Ok? && |r.value| >= 2 && r.value[0] == '\'' && r.value[|r.value| - 1] == '\''
      && Unescape(r.value[1..|r.value| - 1]) == s && NoBareQuote(r.value[1..|r.value| - 1])
  {
    EscapeRoundTrip(s);
    EscapeHasNoBareQuote(s);
    var lit := Quote(Escape(s));
    assert lit[1..|lit| - 1] == Escape(s);
  }

  /**
   * A sequence parameter formats exactly when each of its elements does,
   * to the elements' own literals, comma-separated, in brackets.
   */
  lemma FormatSequence(items: seq<Param>)
    ensures var r := FormatValue(PSeq(items));
      && (r.Ok? <==> forall i | 0 <= i < |items| :: FormatValue(items[i]).Ok?)
      && (r.Ok? ==>
            var lits := seq(|items|, i requires 0 <= i < |items| && FormatValue(items[i]).Ok? =>
                              FormatValue(items[i]).value);
            r.value == "[" + Join(lits, ", ") + "]")
  {
    var parts := FormatItems(items);
    if parts.Ok? {
      var lits := seq(|items|, i requires 0 <= i < |items| && FormatValue(items[i]).Ok? =>
                        FormatValue(items[i]).value);
      assert parts.value == lits;
    }
  }

  /** The generator inside `", ".join(...)`: each element's literal, or the first error. */
  function FormatItems(items: seq<Param>): (r: Result<seq<string>>)
    ensures r.Ok? ==> |r.value| == |items|
    ensures r.Ok? ==> forall i | 0 <= i < |items| :: FormatValue(items[i]) == Ok(r.value[i])
    ensures r.Ok? <==> forall i | 0 <= i < |items| :: FormatValue(items[i]).Ok?
    ensures r.Err? ==> r.error == DataError(UnsupportedParameterType)
    decreases items
  {
    if items == [] then Ok([])
    else match FormatValue(items[0])
      case Err(e) => Err(e)
      case Ok(x) =>
        match FormatItems(items[1..])
        case Err(e) =>
          assert exists i | 0 <= i < |items[1..]| :: !FormatValue(items[1..][i]).Ok?;
          Err(e)
        case Ok(xs) => Ok([x] + xs)
  }
}
