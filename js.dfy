/** JavaScript values as the client sees them once axios has parsed a JSON
    body, and the few coercions the client code relies on: truthiness,
    property reads and conversion to a string. */
module Js {

  datatype Option<+T> = None | Some(value: T)

  /** A value read out of a parsed JSON body, plus `undefined`, which is what
      a missing property reads as. Numbers are integers here. */
  datatype Json =
    | Undefined
    | Null
    | Bool(b: bool)
    | Num(n: int)
    | Str(s: string)
    | Arr(items: seq<Json>)
    | Obj(props: map<string, Json>)

  /** `null` or `undefined`: reading a property of one throws a TypeError. */
  predicate IsNullish(v: Json) {
    v.Undefined? || v.Null?
  }

  /** What `if (v)`, `v && w` and `v || d` test. */
  predicate Truthy(v: Json) {
    match v
    case Undefined => false
    case Null => false
    case Bool(b) => b
    case Num(n) => n != 0
    case Str(s) => s != ""
    case Arr(_) => true
    case Obj(_) => true
  }

  /** `v?.key`: an own property of an object, `undefined` for anything else
      (none of the keys the client reads names a built-in property of an
      array or a primitive). On a non-nullish `v` this is also `v.key`. */
  function Prop(v: Json, key: string): Json {
    if v.Obj? && key in v.props then v.props[key] else Undefined
  }

  /** The result of the `typeof` operator. */
  function TypeOf(v: Json): string {
    match v
    case Undefined => "undefined"
    case Null => "object"
    case Bool(_) => "boolean"
    case Num(_) => "number"
    case Str(_) => "string"
    case Arr(_) => "object"
    case Obj(_) => "object"
  }

  /** Decimal digits of a natural number, most significant first. */
  function Digits(n: nat): (r: string)
    ensures |r| >= 1
    ensures forall i :: 0 <= i < |r| ==> '0' <= r[i] <= '9'
    decreases n
  {
    if n < 10 then ["0123456789"[n]] else Digits(n / 10) + ["0123456789"[n % 10]]
  }

  /** `String(v)`, which is also what `setItem`, `textContent = v`, template
      literals and `+` with a string apply to a value. */
  function JsString(v: Json): string
    decreases v
  {
    match v
    case Undefined => "undefined"
    case Null => "null"
    case Bool(b) => if b then "true" else "false"
    case Num(n) => if n < 0 then "-" + Digits(-n) else Digits(n)
    case Str(s) => s
    case Arr(items) => ElementsString(items)
    case Obj(_) => "[object Object]"
  }

  /** `Array.prototype.join(",")`, where `null` and `undefined` elements
      become empty strings. */
  function ElementsString(items: seq<Json>): string
    decreases items
  {
    if items == [] then ""
    else
      (if IsNullish(items[0]) then "" else JsString(items[0]))
      + (if |items| == 1 then "" else "," + ElementsString(items[1..]))
  }

  /** What a call can throw. */
  datatype Thrown =
    | TypeError              // a property read on `null` or `undefined`
    | NetworkFailure         // an axios error that carries no HTTP response
    | Error(message: string) // `new Error(message)`

  /** The two ways a call can end. */
  datatype Call<+T> = Returned(value: T) | Threw(thrown: Thrown)
}
