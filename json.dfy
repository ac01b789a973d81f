/**
 * The subset of `serde_json::Value` the core reads and builds. Numbers are
 * either integers (serde_json keeps these when they fit an `i64` or a `u64`)
 * or floating-point values, modelled as reals.
 */
module Json {
  import opened Wrappers

  const I64_MIN: int := -0x8000_0000_0000_0000
  const I64_MAX: int := 0x7FFF_FFFF_FFFF_FFFF
  const U64_MAX: int := 0xFFFF_FFFF_FFFF_FFFF

  datatype Json =
    | Null
    | Bool(b: bool)
    | Int(i: int)
    | Float(f: real)
    | Str(s: string)
    | Arr(items: seq<Json>)
    | Obj(fields: map<string, Json>)

  /** `Value::get(key)`: the field of an object; every other value has no fields. */
  function Get(v: Json, key: string): (r: Option<Json>)
    ensures r.Some? <==> v.Obj? && key in v.fields
    ensures r.Some? ==> r.value == v.fields[key]
  {
    if v.Obj? && key in v.fields then Some(v.fields[key]) else None
  }

  /** `Value::as_str` lifted over an optional value (`.and_then(|v| v.as_str())`). */
  function AsStr(v: Option<Json>): (r: Option<string>)
    ensures r.Some? <==> v.Some? && v.value.Str?
    ensures r.Some? ==> r.value == v.value.s
  {
    if v.Some? && v.value.Str? then Some(v.value.s) else None
  }

  /** `Value::as_f64`: any number converts; rounding of large integers is not modelled. */
  function AsF64(v: Option<Json>): (r: Option<real>)
    ensures r.Some? <==> v.Some? && (v.value.Int? || v.value.Float?)
    ensures r.Some? && v.value.Float? ==> r.value == v.value.f
    ensures r.Some? && v.value.Int? ==> r.value == v.value.i as real
  {
    match v
    case Some(Int(i)) => Some(i as real)
    case Some(Float(f)) => Some(f)
    case _ => None
  }

  /** `Value::as_u64`: an integer in 0..2^64. */
  function AsU64(v: Json): (r: Option<nat>)
    ensures r.Some? <==> v.Int? && 0 <= v.i <= U64_MAX
    ensures r.Some? ==> r.value == v.i
  {
    if v.Int? && 0 <= v.i <= U64_MAX then Some(v.i) else None
  }

  /** `Value::as_i64`: an integer in the signed 64-bit range. */
  function AsI64(v: Json): (r: Option<int>)
    ensures r.Some? <==> v.Int? && I64_MIN <= v.i <= I64_MAX
    ensures r.Some? ==> r.value == v.i
  {
    if v.Int? && I64_MIN <= v.i <= I64_MAX then Some(v.i) else None
  }

  /** `Value::as_array` lifted over an optional value. */
  function AsArray(v: Option<Json>): (r: Option<seq<Json>>)
    ensures r.Some? <==> v.Some? && v.value.Arr?
    ensures r.Some? ==> r.value == v.value.items
  {
    if v.Some? && v.value.Arr? then Some(v.value.items) else None
  }

  /** A JSON value for an optional string: `null` when absent. */
  function OptStr(s: Option<string>): Json {
    if s.Some? then Str(s.value) else Null
  }

  /** A JSON value for an optional integer: `null` when absent. */
  function OptInt(i: Option<int>): Json {
    if i.Some? then Int(i.value) else Null
  }
}
