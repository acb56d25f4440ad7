/** The slice of `serde_json::Value` the server inspects: member lookup and
    the `as_str` / `as_u64` / `as_i64` accessors. Decoding text into a value
    is not modelled; values arrive already decoded. */
module Json {
  import opened Wrappers

  const U64_LIMIT: int := 0x1_0000_0000_0000_0000
  const I64_MIN: int := -0x8000_0000_0000_0000
  const I64_LIMIT: int := 0x8000_0000_0000_0000

  /** A decoded JSON value. Integer literals are kept exactly; serde_json
      stores an integer outside the u64/i64 ranges as a float, which the
      accessors below treat the same way as `JFloat`. */
  datatype Json =
    | JNull
    | JBool(b: bool)
    | JInt(i: int)
    | JFloat(literal: string)
    | JStr(s: string)
    | JArr(items: seq<Json>)
    | JObj(members: map<string, Json>)

  /** `Value::get(key)`: a member of an object, `None` on every other value. */
  function Get(v: Json, key: string): (r: Option<Json>)
    ensures r.Some? <==> v.JObj? && key in v.members
    ensures r.Some? ==> r.value == v.members[key]
  {
    if v.JObj? && key in v.members then Some(v.members[key]) else None
  }

  /** `.and_then(|v| v.as_str())`. */
  function AsStr(v: Option<Json>): (r: Option<string>)
    ensures r.Some? <==> v.Some? && v.value.JStr?
    ensures r.Some? ==> r.value == v.value.s
  {
    match v
    case Some(JStr(s)) => Some(s)
    case _ => None
  }

  /** `.and_then(|v| v.as_u64())`: a non-negative integer that fits in 64 bits. */
  function AsU64(v: Option<Json>): (r: Option<nat>)
    ensures r.Some? ==> r.value < U64_LIMIT
    ensures r.Some? <==> v.Some? && v.value.JInt? && 0 <= v.value.i < U64_LIMIT
    ensures r.Some? ==> r.value == v.value.i
  {
    match v
    case Some(JInt(i)) => if 0 <= i < U64_LIMIT then Some(i) else None
    case _ => None
  }

  /** `.and_then(|v| v.as_i64())`: an integer that fits in a signed 64-bit word. */
  function AsI64(v: Option<Json>): (r: Option<int>)
    ensures r.Some? ==> I64_MIN <= r.value < I64_LIMIT
    ensures r.Some? <==> v.Some? && v.value.JInt? && I64_MIN <= v.value.i < I64_LIMIT
    ensures r.Some? ==> r.value == v.value.i
  {
    match v
    case Some(JInt(i)) => if I64_MIN <= i < I64_LIMIT then Some(i) else None
    case _ => None
  }
}
