/**
 * Decoded JSON values as the Python code sees them after `response.json()`, and the few
 * built-ins the code applies to them: truthiness, `dict.get`, `str`, `int` and `float`.
 */
module PyJson {
  import opened Wrappers
  import opened PyText
  import opened PyNum
  import opened Exceptions

  /** A decoded JSON value: `None`, `bool`, `int`, `float`, `str`, `list` or `dict`. */
  datatype Json =
    | JNull
    | JBool(b: bool)
    | JInt(i: int)
    | JFloat(r: real)
    | JStr(s: string)
    | JArr(items: seq<Json>)
    | JObj(fields: map<string, Json>)

  /** Python truthiness: `None`, `False`, zero, and empty texts, lists and dicts are false. */
  predicate IsTruthy(j: Json) {
    match j
    case JNull => false
    case JBool(b) => b
    case JInt(i) => i != 0
    case JFloat(r) => r != 0.0
    case JStr(s) => s != []
    case JArr(items) => items != []
    case JObj(fields) => fields != map[]
  }

  /** `d.get(key, default)`; a value that is not a dict has no `get` (an `AttributeError`). */
  function Get(d: Json, key: string, default: Json := JNull): (r: Result<Json, Exc>)
    ensures r.Ok? <==> d.JObj?
    ensures r.Err? ==> r.error.cls == AttributeError
    ensures d.JObj? && key in d.fields ==> r.value == d.fields[key]
    ensures d.JObj? && key !in d.fields ==> r.value == default
  {
    match d
    case JObj(fields) => Ok(if key in fields then fields[key] else default)
    case _ => Err(Raised(AttributeError, "object has no attribute 'get'"))
  }

  /** `d.get(key, default)` where `d` is known to be a dict. */
  function GetOr(fields: map<string, Json>, key: string, default: Json := JNull): (r: Json)
    ensures key in fields ==> r == fields[key]
    ensures key !in fields ==> r == default
  {
    if key in fields then fields[key] else default
  }

  /** Text shown for values whose Python `repr` is not modelled. */
  const UNRENDERED: string := "<value>"

  /** `str(j)`: exact for `None`, booleans, integers, texts and integral floats below 10**16. */
  function PyStr(j: Json): (r: string)
    ensures j.JStr? ==> r == j.s
    ensures j.JNull? ==> r == "None"
    ensures j.JInt? ==> r == IntToString(j.i)
  {
    match j
    case JNull => "None"
    case JBool(b) => if b then "True" else "False"
    case JInt(i) => IntToString(i)
    case JFloat(r) =>
      if r == r.Floor as real && Abs(r) < 10_000_000_000_000_000.0 then IntToString(r.Floor) + ".0" else UNRENDERED
    case JStr(s) => s
    case _ => UNRENDERED
  }

  /** `repr(s)` of a text, without Python's escaping of quotes and control characters. */
  function Quoted(s: string): (r: string)
    ensures |r| == |s| + 2 && r[0] == '\'' && r[|r| - 1] == '\''
  {
    "'" + s + "'"
  }

  /** `j == n` between a decoded value and an integer: an `int`, an equal `float`, or a `bool` as 0 or 1. */
  predicate EqualsInt(j: Json, n: int) {
    match j
    case JInt(i) => i == n
    case JFloat(r) => r == n as real
    case JBool(b) => (if b then 1 else 0) == n
    case _ => false
  }

  /** `int(j)`: a `ValueError` for a text that is not an integer, a `TypeError` for values of other types. */
  function PyInt(j: Json): (r: Result<int, Exc>)
    ensures j.JInt? ==> r == Ok(j.i)
    ensures j.JStr? ==> (r.Ok? <==> ParseInt(j.s).Some?)
    ensures j.JStr? && r.Ok? ==> r.value == ParseInt(j.s).value
    ensures r.Err? ==> r.error.cls == ValueError || r.error.cls == TypeError
    ensures r.Err? && r.error.cls == ValueError ==> j.JStr?
  {
    match j
    case JInt(i) => Ok(i)
    case JFloat(x) => Ok(TruncToInt(x))
    case JBool(b) => Ok(if b then 1 else 0)
    case JStr(s) =>
      (match ParseInt(s)
       case Some(n) => Ok(n)
       case None => Err(Raised(ValueError, "invalid literal for int() with base 10: " + Quoted(s))))
    case _ => Err(Raised(TypeError, "int() argument must be a string, a bytes-like object or a real number"))
  }

  /** `float(j)`: a `ValueError` for a text that is not a decimal number, a `TypeError` for values of other types. */
  function PyFloat(j: Json): (r: Result<real, Exc>)
    ensures j.JInt? ==> r == Ok(j.i as real)
    ensures j.JFloat? ==> r == Ok(j.r)
    ensures j.JStr? ==> (r.Ok? <==> ParseDecimal(j.s).Some?)
    ensures r.Err? ==> r.error.cls == ValueError || r.error.cls == TypeError
  {
    match j
    case JInt(i) => Ok(i as real)
    case JFloat(x) => Ok(x)
    case JBool(b) => Ok(if b then 1.0 else 0.0)
    case JStr(s) =>
      (match ParseDecimal(s)
       case Some(x) => Ok(x)
       case None => Err(Raised(ValueError, "could not convert string to float: " + Quoted(s))))
    case _ => Err(Raised(TypeError, "float() argument must be a string or a real number"))
  }

  /** `int()` and `float()` agree on every value `int()` accepts except floats, which `int()` truncates. */
  lemma PyIntPyFloatAgree(j: Json)
    requires PyInt(j).Ok? && !j.JFloat?
    ensures PyFloat(j) == Ok(PyInt(j).value as real)
  {
    if j.JStr? {
      ParseDecimalOfInteger(j.s);
    }
  }
}

/** The outcome of one HTTP request, as the `requests` library reports it to the caller. */
module Http {
  import opened PyJson

  /** The body of an answered request: decoded JSON, or text `response.json()` cannot decode.
      `isRequestException` says whether the decoder's error is also a `RequestException`, as
      `requests.exceptions.JSONDecodeError` is from requests 2.27 on. */
  datatype Body =
    | Decoded(data: Json)
    | Undecodable(reason: string, text: string, isRequestException: bool)

  datatype Response =
    | TimedOut                       // requests.exceptions.Timeout
    | RequestFailed(reason: string)  // any other RequestException, e.g. a ConnectionError
    | Answered(status: int, body: Body)

  /** `response.raise_for_status()` raises `HTTPError` for client and server error statuses. */
  predicate RaisesForStatus(status: int) {
    400 <= status < 600
  }

  /** `text[:200]` */
  function Snippet(text: string): (r: string)
    ensures |r| <= 200 && |r| <= |text| && r == text[..|r|]
    ensures |text| <= 200 ==> r == text
  {
    if |text| <= 200 then text else text[..200]
  }
}
