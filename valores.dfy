/** Decoded JSON values and the few pieces of Python semantics the handlers
    rely on: `dict.get`, truthiness and the `or` operator. */
module Valores {

  datatype Option<+T> = None | Some(value: T)

  /** A decoded JSON value. Numbers are integers in this model. */
  datatype Value =
    | Null
    | Bool(b: bool)
    | Num(n: int)
    | Str(s: string)
    | Arr(items: seq<Value>)
    | Obj(fields: map<string, Value>)

  /** A JSON object, a Lambda event, or a DynamoDB item. */
  type Fields = map<string, Value>

  /** Python's `d.get(k)`: the value under `k`, or None when the key is absent. */
  function Get(d: Fields, k: string): Option<Value>
  {
    if k in d then Some(d[k]) else None
  }

  /** Python truthiness of a decoded value: null, false, 0 and empty
      strings, lists and objects are falsy. */
  predicate Truthy(v: Value)
  {
    match v
    case Null => false
    case Bool(b) => b
    case Num(n) => n != 0
    case Str(s) => s != ""
    case Arr(xs) => xs != []
    case Obj(m) => m != map[]
  }

  /** Truthiness of the result of `d.get(k)`: a missing key reads as None. */
  predicate Present(o: Option<Value>)
  {
    o.Some? && Truthy(o.value)
  }

  /** Python's `a or b` on two `get` results. */
  function Or(a: Option<Value>, b: Option<Value>): (r: Option<Value>)
    ensures Present(r) <==> Present(a) || Present(b)
    ensures Present(a) ==> r == a
    ensures !Present(a) ==> r == b
  {
    if Present(a) then a else b
  }

  /** Python's `x or "default"`: the given value when truthy, else the
      default string, so a non-empty default never yields a falsy field. */
  function OrDefault(o: Option<Value>, default: string): (r: Value)
    ensures default != "" ==> Truthy(r)
    ensures Present(o) ==> r == o.value
    ensures !Present(o) ==> r == Str(default)
  {
    if Present(o) then o.value else Str(default)
  }
}
