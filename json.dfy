/**
 * The part of serde_json's `Value` that the profile engine inspects:
 * the variants, `get` with a string key and the `as_*` accessors.
 * Objects are maps, so equality of two values is the order-insensitive
 * structural equality that `Value`'s `==` implements.
 */
module Json {
  import opened Wrappers

  const I64Min: int := -0x8000_0000_0000_0000
  const I64Max: int := 0x7FFF_FFFF_FFFF_FFFF

  datatype Json =
    | JNull
    | JBool(b: bool)
    | JInt(i: int)        // an integral JSON number
    | JFloat(f: real)     // a JSON number written with a fraction or an exponent
    | JStr(s: string)
    | JArr(items: seq<Json>)
    | JObj(fields: map<string, Json>)

  /** `Value::get(key)`: a lookup in an object; every other variant has no keys. */
  function Get(v: Json, key: string): Option<Json> {
    if v.JObj? && key in v.fields then Some(v.fields[key]) else None
  }

  /** `Value::as_str` */
  function AsStr(v: Json): Option<string> {
    if v.JStr? then Some(v.s) else None
  }

  /** `Value::as_bool` */
  function AsBool(v: Json): Option<bool> {
    if v.JBool? then Some(v.b) else None
  }

  /** `Value::as_i64`: only integral numbers that fit in 64 signed bits. */
  function AsI64(v: Json): Option<int> {
    if v.JInt? && I64Min <= v.i <= I64Max then Some(v.i) else None
  }

  /** `Value::as_array` */
  function AsArray(v: Json): Option<seq<Json>> {
    if v.JArr? then Some(v.items) else None
  }
}
