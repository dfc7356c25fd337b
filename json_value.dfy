/**
 * Decoded JSON values, as `json.loads` hands them to Python code. Numbers are
 * integers only; floating point is not part of this model.
 */
module JsonValue {

  datatype Json =
    | JNull
    | JBool(b: bool)
    | JNum(n: int)
    | JStr(s: string)
    | JArr(elems: seq<Json>)
    | JObj(fields: map<string, Json>)

  /** `v[key]` succeeds: `v` is an object holding `key`. */
  predicate HasKey(v: Json, key: string) {
    v.JObj? && key in v.fields
  }
}
