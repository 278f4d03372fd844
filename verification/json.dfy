/**
 * An already-parsed JSON value, with the three accessors of serde_json's
 * `Value` that the deletion tool uses: `get`, indexing by a key, `as_array`
 * and `as_str`. Booleans and numbers are never inspected and are lumped
 * together as `Other`.
 */
module Json {
  import opened Wrappers

  datatype Json =
    | Null
    | Str(text: string)
    | Arr(items: seq<Json>)
    | Obj(fields: map<string, Json>)
    | Other

  /** `value.get(key)`: the member under `key` when `v` is an object that has it. */
  function Get(v: Json, key: string): (r: Option<Json>)
    ensures r.Some? <==> v.Obj? && key in v.fields
    ensures r.Some? ==> r.value == v.fields[key]
  {
    if v.Obj? && key in v.fields then Some(v.fields[key]) else None
  }

  /** `value[key]`: like `get`, except that a missing member or a non-object gives `Null`. */
  function At(v: Json, key: string): (r: Json)
    ensures v.Obj? && key in v.fields ==> r == v.fields[key]
    ensures !(v.Obj? && key in v.fields) ==> r == Null
  {
    match Get(v, key)
    case Some(x) => x
    case None => Null
  }

  /** `value.as_array()` */
  function AsArray(v: Json): (r: Option<seq<Json>>)
    ensures r.Some? <==> v.Arr?
    ensures r.Some? ==> v == Arr(r.value)
  {
    if v.Arr? then Some(v.items) else None
  }

  /** `value.as_str()` */
  function AsStr(v: Json): (r: Option<string>)
    ensures r.Some? <==> v.Str?
    ensures r.Some? ==> v == Str(r.value)
  {
    if v.Str? then Some(v.text) else None
  }
}
