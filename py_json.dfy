/**
 * JSON values as Python's `json` module hands them over (objects become
 * dicts, arrays lists, `null` becomes `None`), with the few built-ins the
 * client and the tools apply to them: `type(v).__name__`, `len(v)` and `str(v)`.
 */
module PyJson {
  import opened Wrappers

  /** A decoded JSON value. Numbers are integers; see README for floats. */
  datatype Json =
    | JNull
    | JBool(b: bool)
    | JInt(i: int)
    | JString(s: string)
    | JArray(items: seq<Json>)
    | JObject(fields: map<string, Json>)

  /** `type(v).__name__` of the Python object a JSON value decodes to. */
  function TypeName(v: Json): string {
    match v
    case JNull => "NoneType"
    case JBool(_) => "bool"
    case JInt(_) => "int"
    case JString(_) => "str"
    case JArray(_) => "list"
    case JObject(_) => "dict"
  }

  /** `dict.get(key, default)`. */
  function Get(fields: map<string, Json>, key: string, default: Json): Json {
    if key in fields then fields[key] else default
  }

  /** `len(v)`: a size for strings, lists and dicts, the text of the TypeError otherwise. */
  function PyLen(v: Json): Result<nat, string> {
    match v
    case JString(s) => Success(|s|)
    case JArray(items) => Success(|items|)
    case JObject(fields) => Success(|fields|)
    case _ => Failure("object of type '" + TypeName(v) + "' has no len()")
  }

  function DigitChar(d: nat): char
    requires d < 10
  {
    ('0' as int + d) as char
  }

  /** Decimal digits of a natural number, most significant first. */
  function NatString(n: nat): (r: string)
    ensures |r| > 0
    ensures forall k :: 0 <= k < |r| ==> '0' <= r[k] <= '9'
    decreases n
  {
    if n < 10 then [DigitChar(n)] else NatString(n / 10) + [DigitChar(n % 10)]
  }

  /** `str(i)` for an int. */
  function IntString(i: int): string {
    if i < 0 then "-" + NatString(-i) else NatString(i)
  }

  /**
   * `str(v)` for a decoded JSON value. Lists and dicts are rendered by a
   * stand-in (their Python repr is not modelled).
   */
  function PyStr(v: Json): string {
    match v
    case JNull => "None"
    case JBool(b) => if b then "True" else "False"
    case JInt(i) => IntString(i)
    case JString(s) => s
    case JArray(_) => "<list>"
    case JObject(_) => "<dict>"
  }
}
