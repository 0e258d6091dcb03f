/** JSON values as the JavaScript handlers see them after parsing, and the few
    pieces of JavaScript semantics the core relies on: property access,
    truthiness, `typeof`, `Array.isArray` and `Number.isInteger`. */
module Json {

  datatype Option<+T> = None | Some(value: T)

  /** A parsed JSON value. Numbers are exact rationals: JSON text has no NaN or
      infinities, and rounding to binary floating point is not modelled. */
  datatype Json =
    | Null
    | Bool(b: bool)
    | Num(r: real)
    | Str(s: string)
    | Arr(items: seq<Json>)
    | Obj(fields: map<string, Json>)

  /** `v[key]` for the property names the core reads; `None` is `undefined`.
      Only objects carry such own properties: strings, arrays, numbers and
      booleans have none of the names used here. */
  function Prop(v: Json, key: string): (r: Option<Json>)
    ensures r.Some? ==> v.Obj? && key in v.fields && r.value == v.fields[key]
    ensures v.Obj? && key in v.fields ==> r == Some(v.fields[key])
  {
    match v
    case Obj(fields) => if key in fields then Some(fields[key]) else None
    case _ => None
  }

  /** `o?.[key]`: optional chaining, undefined and null both give undefined. */
  function OptProp(o: Option<Json>, key: string): (r: Option<Json>)
    ensures r.Some? ==> o.Some? && o.value.Obj?
  {
    if o.Some? then Prop(o.value, key) else None
  }

  /** JavaScript truthiness; `undefined` is falsy. */
  predicate Truthy(v: Option<Json>)
  {
    match v
    case None => false
    case Some(Null) => false
    case Some(Bool(b)) => b
    case Some(Num(r)) => r != 0.0
    case Some(Str(s)) => s != ""
    case Some(Arr(_)) => true
    case Some(Obj(_)) => true
  }

  /** `typeof v === 'object'` (true of null and of arrays). */
  predicate TypeofObject(v: Json)
  {
    v.Null? || v.Arr? || v.Obj?
  }

  /** `typeof v === 'string'`. */
  predicate IsString(v: Option<Json>)
  {
    v.Some? && v.value.Str?
  }

  /** `Number.isInteger(v)`. */
  predicate IsInteger(v: Option<Json>)
  {
    v.Some? && v.value.Num? && v.value.r.Floor as real == v.value.r
  }

  /** `v === s` for a string literal `s`. */
  predicate IsStr(v: Option<Json>, s: string)
  {
    v == Some(Str(s))
  }

  /** The `{ error: { message } }` body every handler uses for its errors. */
  function ErrorBody(message: string): (r: Json)
    ensures OptProp(Prop(r, "error"), "message") == Some(Str(message))
  {
    Obj(map["error" := Obj(map["message" := Str(message)])])
  }
}
