/** Decoded JSON values, as Go's encoding/json hands them to the loader and the search tool. */
module Json {

  datatype Json =
    | Null
    | Bool(b: bool)
    | Num(n: int)
    | Str(s: string)
    | Arr(items: seq<Json>)
    | Obj(fields: map<string, Json>)

  type Fields = map<string, Json>

  /** `m[key].(string)` with Go's comma-ok form: the empty string when absent or not a string. */
  function StringField(m: Fields, key: string): string {
    if key in m && m[key].Str? then m[key].s else ""
  }

  /** No object member at any object depth is null; nulls inside arrays do not matter. */
  predicate NullFree(j: Json) {
    match j
    case Obj(m) => forall k | k in m :: !m[k].Null? && NullFree(m[k])
    case _ => true
  }
}
