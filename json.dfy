/** The values `json.loads` produces, and the Python operations the program applies to them. */
module Json {
  import opened Wrappers

  /** A decoded JSON value: `None`, `bool`, `int`, `float`, `str`, `list` or `dict`. */
  datatype Json =
    | JNull
    | JBool(b: bool)
    | JInt(i: int)
    | JFloat(f: real)
    | JStr(s: string)
    | JArray(items: seq<Json>)
    | JObject(fields: map<string, Json>)

  /** What `json.loads` does with the model's reply: a value, or `json.JSONDecodeError`. */
  datatype Decoded = Value(value: Json) | DecodeError

  /** `d.get(key)`: a missing key reads as `None`, like a JSON `null`. */
  function Get(d: map<string, Json>, key: string): (r: Json)
    ensures key !in d ==> r == JNull
  {
    if key in d then d[key] else JNull
  }

  /** Python truthiness: `None`, `False`, zero, and empty strings, lists and dicts are falsy. */
  predicate Truthy(j: Json) {
    match j
    case JNull => false
    case JBool(b) => b
    case JInt(i) => i != 0
    case JFloat(f) => f != 0.0
    case JStr(s) => s != ""
    case JArray(items) => items != []
    case JObject(fields) => fields != map[]
  }

  /** `type(j).__name__`, as it appears in Python's error messages. */
  function TypeName(j: Json): string {
    match j
    case JNull => "NoneType"
    case JBool(_) => "bool"
    case JInt(_) => "int"
    case JFloat(_) => "float"
    case JStr(_) => "str"
    case JArray(_) => "list"
    case JObject(_) => "dict"
  }

  /** `isinstance(item, str)` for every item. */
  predicate AllStrings(items: seq<Json>) {
    forall k :: 0 <= k < |items| ==> items[k].JStr?
  }

  /** The Python strings of a list of JSON strings. */
  function Strings(items: seq<Json>): (r: seq<string>)
    requires AllStrings(items)
    ensures |r| == |items|
    ensures forall k :: 0 <= k < |items| ==> items[k] == JStr(r[k])
  {
    seq(|items|, k requires 0 <= k < |items| => items[k].s)
  }
}
