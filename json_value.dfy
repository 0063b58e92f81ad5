/** Python values that travel through the client as JSON: the parsed tweaks,
    the request payload and the preprocessor's result, together with Python's
    truth test `bool(v)`, which decides whether tweaks and an API key are used. */
module JsonValue {

  datatype Option<+T> = None | Some(value: T)

  /** A JSON value as `json.loads` produces it; `Null` is Python's `None`.
      Numbers are integers only. */
  datatype Json =
    | Null
    | Bool(b: bool)
    | Num(n: int)
    | Str(s: string)
    | Array(items: seq<Json>)
    | Object(fields: map<string, Json>)

  /** The empty value of each kind: `None`, `False`, `0`, `""`, `[]`, `{}`. */
  function ZeroOf(v: Json): Json {
    match v
    case Null => Null
    case Bool(_) => Bool(false)
    case Num(_) => Num(0)
    case Str(_) => Str("")
    case Array(_) => Array([])
    case Object(_) => Object(map[])
  }

  /** Python truthiness `bool(v)`, as `if tweaks:` applies it: a value is true
      exactly when it differs from the empty value of its own kind. */
  function Truthy(v: Json): (t: bool)
    ensures t <==> v != ZeroOf(v)
  {
    match v
    case Null => false
    case Bool(b) => b
    case Num(n) => n != 0
    case Str(s) => s != ""
    case Array(items) => items != []
    case Object(fields) => fields != map[]
  }

  /** Truthiness of an optional string such as the API key (`Optional[str]`),
      as `if api_key:` applies it: the same test as on a JSON string. */
  function StrTruthy(s: Option<string>): (t: bool)
    ensures t <==> s.Some? && Truthy(Str(s.value))
  {
    s.Some? && s.value != ""
  }

  /** The falsy values are exactly six, one per kind of value, so `if tweaks:`
      drops more than `None`. */
  lemma FalsyValues(v: Json)
    ensures !Truthy(v) <==>
      v == Null || v == Bool(false) || v == Num(0) || v == Str("") || v == Array([]) || v == Object(map[])
  {
  }

  /** An optional string is falsy exactly when it is absent or empty. */
  lemma FalsyStrings(s: Option<string>)
    ensures !StrTruthy(s) <==> s == None || s == Some("")
  {
  }
}
