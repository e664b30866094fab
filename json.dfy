/**
 * JSON values as the client inspects them (`serde_json::Value`) and the lookups it chains
 * (`get(key)`, `get(0)`, `as_str`). Parsing text into a value is done by the JSON library and
 * enters the model as a parameter of type `Parser`.
 */
module Json {
  import opened Wrappers

  datatype Json =
    | Null
    | Bool(b: bool)
    | Int(i: int)
    /** A number with a fraction or exponent; its value never matters here. */
    | Frac
    | Str(s: string)
    | Arr(items: seq<Json>)
    | Obj(fields: map<string, Json>)

  /** `serde_json::from_str::<Value>`: `None` when the text is not JSON. */
  type Parser = string -> Option<Json>

  /** `Value::get(key)`: the member of an object, `None` for anything else. */
  function Field(v: Option<Json>, key: string): Option<Json> {
    if v.Some? && v.value.Obj? && key in v.value.fields then Some(v.value.fields[key]) else None
  }

  /** `Value::get(0)`: the first element of an array, `None` for anything else. */
  function First(v: Option<Json>): Option<Json> {
    if v.Some? && v.value.Arr? && |v.value.items| > 0 then Some(v.value.items[0]) else None
  }

  /** `Value::as_str`. */
  function AsStr(v: Option<Json>): Option<string> {
    if v.Some? && v.value.Str? then Some(v.value.s) else None
  }
}
