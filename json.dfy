/** JSON values as the caller script builds and inspects them. Parsing text
    into a value (`JSON.parse`) is not modelled: the transports take it as a
    partial function `string -> Option<Json>`. */
module Json {
  import opened Common

  datatype Json =
    | JNull
    | JBool(b: bool)
    | JNum(n: real)
    | JStr(s: string)
    | JArr(elems: seq<Json>)
    | JObj(fields: map<string, Json>)

  /** JavaScript truthiness of a value (NaN is not a value here). */
  predicate Truthy(v: Json)
  {
    match v
    case JNull => false
    case JBool(b) => b
    case JNum(n) => n != 0.0
    case JStr(s) => s != ""
    case JArr(_) => true
    case JObj(_) => true
  }

  /** `v[key]` read as JavaScript would: a missing property (and any
      property of a non-object) is `undefined`, here None. */
  function Field(v: Json, key: string): (r: Option<Json>)
    ensures r.Some? <==> v.JObj? && key in v.fields
    ensures r.Some? ==> r.value == v.fields[key]
  {
    if v.JObj? && key in v.fields then Some(v.fields[key]) else None
  }

  /** `if (v[key])` */
  predicate FieldTruthy(v: Json, key: string)
  {
    Field(v, key).Some? && Truthy(Field(v, key).value)
  }
}
