/** Values that cross the bridge: optional values, results, and the JSON-shaped data
    the renderer sends as a scene snapshot and the tools receive as arguments.
    JSON text itself (parsing and printing) is not modelled: a parse is an
    `Option<Json>` supplied by the caller. */
module SceneJson {

  datatype Option<+T> = None | Some(value: T)

  datatype Result<+T, +E> = Ok(value: T) | Err(error: E)

  /** A parsed JSON value. Objects are key/value maps: a JavaScript object built by
      JSON.parse or by a spread has at most one value per key. */
  datatype Json =
    | Null
    | Bool(b: bool)
    | Num(n: real)
    | Str(s: string)
    | Arr(items: seq<Json>)
    | Obj(members: map<string, Json>)

  /** JavaScript truthiness of a parsed value: `null`, `false`, `0` and `""` are falsy,
      every array and object (even an empty one) is truthy. */
  predicate Truthy(v: Json)
    ensures Truthy(v) <==> v != Null && v != Bool(false) && v != Num(0.0) && v != Str("")
  {
    match v
    case Null => false
    case Bool(b) => b
    case Num(n) => n != 0.0
    case Str(s) => s != ""
    case Arr(_) => true
    case Obj(_) => true
  }

  /** Optional property access `v?.key`: only an object has own members; on any other
      value, and for a missing key, the access yields `undefined` (None). */
  function Member(v: Json, key: string): (r: Option<Json>)
    ensures r.Some? <==> v.Obj? && key in v.members
    ensures r.Some? ==> r.value == v.members[key]
  {
    match v
    case Obj(m) => if key in m then Some(m[key]) else None
    case _ => None
  }
}
