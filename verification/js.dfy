/**
 * The slice of JavaScript value semantics the sandbox code relies on:
 * JSON-shaped values, truthiness, `a || b`, property reads with and without
 * optional chaining, object spread and the TypeError a property read of
 * `null`/`undefined` raises. Numbers are integers here; NaN and fractions do
 * not occur in the modelled code paths.
 */
module Js {
  import opened Common

  datatype Value =
    | Undefined
    | Null
    | Bool(b: bool)
    | Num(n: int)
    | Str(s: string)
    | Arr(elems: seq<Value>)
    | Obj(fields: map<string, Value>)

  /** `null` and `undefined`: the values whose property reads throw */
  predicate Nullish(v: Value) {
    v.Undefined? || v.Null?
  }

  /** JavaScript's ToBoolean: every object and array is truthy, even when empty */
  predicate Truthy(v: Value) {
    match v
    case Undefined => false
    case Null => false
    case Bool(b) => b
    case Num(n) => n != 0
    case Str(s) => s != ""
    case Arr(_) => true
    case Obj(_) => true
  }

  /** `a || b` */
  function Or(a: Value, b: Value): Value {
    if Truthy(a) then a else b
  }

  /** A string that may be absent: None and "" are both falsy */
  predicate TruthyStr(s: Option<string>) {
    s.Some? && s.value != ""
  }

  /** `s || d` for an optional string */
  function OrStr(s: Option<string>, d: string): string {
    if TruthyStr(s) then s.value else d
  }

  /** `v?.k`; also `v.k` wherever `v` is known not to be nullish */
  function Get(v: Value, k: string): Value {
    match v
    case Obj(f) => if k in f then f[k] else Undefined
    case _ => Undefined
  }

  /** The own enumerable properties `{...v}` copies (arrays and strings are not spread in the modelled paths) */
  function Spread(v: Value): map<string, Value> {
    match v
    case Obj(f) => f
    case _ => map[]
  }

  /** An exception as caught by a `catch (error)` clause: its `message` and `stack` properties */
  datatype Thrown = Thrown(message: Value, stack: Value)

  /** V8's message for reading property `k` of a nullish value */
  function ReadErrorMessage(v: Value, k: string): string
    requires Nullish(v)
  {
    "Cannot read properties of " + (if v.Null? then "null" else "undefined") + " (reading '" + k + "')"
  }

  /** The TypeError thrown by `v.k` when `v` is nullish; only the stack's first line is modelled */
  function ReadError(v: Value, k: string): Thrown
    requires Nullish(v)
  {
    var m := ReadErrorMessage(v, k);
    Thrown(Str(m), Str("TypeError: " + m))
  }

  /** `a.join(",")` */
  function JoinComma(parts: seq<string>): string {
    if |parts| == 0 then "" else if |parts| == 1 then parts[0] else parts[0] + "," + JoinComma(parts[1..])
  }

  /** `String(v)`, which is also how a value becomes a property key; arrays join their elements, nullish ones as "" */
  function ToJsString(v: Value): (r: string)
    ensures v.Str? ==> r == v.s
    ensures v.Num? && v.n >= 0 ==> r == NatToString(v.n)
    decreases v
  {
    match v
    case Undefined => "undefined"
    case Null => "null"
    case Bool(b) => if b then "true" else "false"
    case Num(n) => if n < 0 then "-" + NatToString(-n) else NatToString(n)
    case Str(s) => s
    case Arr(elems) =>
      JoinComma(seq(|elems|, i requires 0 <= i < |elems| => if Nullish(elems[i]) then "" else ToJsString(elems[i])))
    case Obj(_) => "[object Object]"
  }

  /** What an Express handler sends with `res.status(status).json(body)` */
  datatype Response = Response(status: nat, body: Value)
}
