/** A parsed JSON document, as the extractor receives it from the JSON parser. */
module Json {

  /** A JSON value. Objects have unique keys, so they are maps.
      Numbers are kept as integers: the extractor never looks at their value. */
  datatype Json =
    | Null
    | Bool(b: bool)
    | Num(n: int)
    | Str(s: string)
    | Arr(items: seq<Json>)
    | Obj(members: map<string, Json>)

  /** `v[key]`: the member under `key` when `v` is an object holding it,
      and `Null` otherwise (a missing key and a non-object look the same). */
  function Index(v: Json, key: string): (r: Json)
  {
    if v.Obj? && key in v.members then v.members[key] else Null
  }
}
