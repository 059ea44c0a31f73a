/**
 * The JSON document a request body is parsed into (serde_json's `Value`), and
 * the key lookup `Value::find` / `Map::get` the handlers use on it.
 */
module Json {
  import opened Wrappers

  datatype Value =
    | Null
    | Bool(b: bool)
    | Number(n: int)
    | Str(s: string)
    | Array(items: seq<Value>)
    | Object(fields: map<string, Value>)

  /** `find` looks a key up in an object; on any other kind of value it finds nothing. */
  function Find(v: Value, key: string): (r: Option<Value>)
    ensures r.Some? <==> v.Object? && key in v.fields
    ensures r.Some? ==> r.value == v.fields[key]
  {
    match v
    case Object(fields) => if key in fields then Some(fields[key]) else None
    case _ => None
  }

  /** The string stored under `key`, if `v` is an object holding a JSON string there. */
  function FindString(v: Value, key: string): (r: Option<string>)
    ensures r.Some? <==> Find(v, key).Some? && Find(v, key).value.Str?
    ensures r.Some? ==> r.value == Find(v, key).value.s
  {
    match Find(v, key)
    case Some(Str(s)) => Some(s)
    case _ => None
  }
}
