/** JSON values, and the accessors the codecs read them with. */
module Json {
  import opened Common

  /** Integers and floats are different number kinds; objects are unordered. */
  datatype Value =
    | Null
    | Bool(b: bool)
    | Int(i: int)
    | Float(r: real)
    | Str(s: string)
    | Arr(items: seq<Value>)
    | Obj(fields: map<string, Value>)

  const I64_MIN: int := -0x8000_0000_0000_0000
  const I64_MAX: int := 0x7FFF_FFFF_FFFF_FFFF
  const U64_MAX: int := 0xFFFF_FFFF_FFFF_FFFF

  /** A member of an object; nothing else has members. */
  function Get(v: Value, key: string): Option<Value> {
    if v.Obj? && key in v.fields then Some(v.fields[key]) else None
  }

  /** An element of an array; nothing else has elements. */
  function At(v: Value, index: nat): Option<Value> {
    if v.Arr? && index < |v.items| then Some(v.items[index]) else None
  }

  function AsStr(v: Value): Option<string> {
    if v.Str? then Some(v.s) else None
  }

  function AsBool(v: Value): Option<bool> {
    if v.Bool? then Some(v.b) else None
  }

  function AsI64(v: Value): Option<int> {
    if v.Int? && I64_MIN <= v.i <= I64_MAX then Some(v.i) else None
  }

  function AsU64(v: Value): Option<int> {
    if v.Int? && 0 <= v.i <= U64_MAX then Some(v.i) else None
  }

  function AsF64(v: Value): Option<real> {
    match v
    case Int(i) => Some(i as real)
    case Float(r) => Some(r)
    case _ => None
  }

  function AsArray(v: Value): Option<seq<Value>> {
    if v.Arr? then Some(v.items) else None
  }

  function StrAt(v: Value, key: string): Option<string> {
    var member :- Get(v, key);
    AsStr(member)
  }
}
