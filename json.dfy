/** JSON values: request bodies, event `data` records and response envelopes. Numbers are
    reals; objects are maps (key order is not modelled). */
module Json {
  import opened Wrappers

  datatype Json =
    | JNull
    | JBool(b: bool)
    | JNum(n: real)
    | JStr(s: string)
    | JArr(items: seq<Json>)
    | JObj(fields: map<string, Json>)

  /** `obj[key]` on an object; absent keys and non-objects give None (`undefined`). */
  function Member(j: Json, key: string): (r: Option<Json>)
    ensures r.Some? <==> j.JObj? && key in j.fields
  {
    if j.JObj? && key in j.fields then Some(j.fields[key]) else None
  }

  /** A JSON string value, or None for any other value. */
  function AsString(j: Option<Json>): (r: Option<string>)
    ensures r.Some? <==> j.Some? && j.value.JStr?
  {
    if j.Some? && j.value.JStr? then Some(j.value.s) else None
  }

  /** A JSON number value, or None for any other value. */
  function AsNumber(j: Option<Json>): (r: Option<real>)
    ensures r.Some? <==> j.Some? && j.value.JNum?
  {
    if j.Some? && j.value.JNum? then Some(j.value.n) else None
  }
}
