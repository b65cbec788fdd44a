/** A decoded JSON value, as encoding/json leaves it in an interface{}. */
module Json {
  import opened Text

  datatype Json = Null | Bool(b: bool) | Num(n: real) | Str(s: string) | Arr(items: seq<Json>) | Obj(fields: map<string, Json>)

  /** v[key].(string), "" when that fails */
  function StringAt(m: map<string, Json>, key: string): string {
    if key in m && m[key].Str? then m[key].s else ""
  }

  predicate HasList(m: map<string, Json>, key: string) {
    key in m && m[key].Arr?
  }

  /** v[key].([]interface{}), nil when that fails */
  function ListAt(m: map<string, Json>, key: string): seq<Json> {
    if HasList(m, key) then m[key].items else []
  }

  /** v[key].(map[string]interface{}), nil when that fails */
  function ObjectAt(m: map<string, Json>, key: string): map<string, Json> {
    if key in m && m[key].Obj? then m[key].fields else map[]
  }
}
