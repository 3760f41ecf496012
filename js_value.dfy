/**
 * The JavaScript values that cross the HTTP boundary: response bodies, query
 * parameters and request bodies, with the few operators the client applies
 * to them (truthiness, `??`, `?.`, `in` and `typeof x === 'object'`).
 */
module JsValue {
  import opened Text

  /**
   * A JSON-like JavaScript value. Numbers are integers; objects are maps from
   * own keys to values (a key may be present with the value `undefined`).
   */
  datatype Value =
    | Undefined
    | Null
    | Bool(b: bool)
    | Num(n: int)
    | Str(s: string)
    | Arr(items: seq<Value>)
    | Obj(fields: map<string, Value>)

  /** JavaScript truthiness: `undefined`, `null`, `false`, `0` and `''` are falsy. */
  predicate Truthy(v: Value) {
    match v
    case Undefined => false
    case Null => false
    case Bool(b) => b
    case Num(n) => n != 0
    case Str(s) => s != ""
    case Arr(_) => true
    case Obj(_) => true
  }

  /** `v == null`, i.e. what `??` and `?.` test for. */
  predicate Nullish(v: Value) {
    v.Undefined? || v.Null?
  }

  /** `typeof v === 'object'`, which holds for `null` and arrays too. */
  predicate IsObjectType(v: Value) {
    v.Null? || v.Arr? || v.Obj?
  }

  /** `a ?? b`. */
  function Coalesce(a: Value, b: Value): (r: Value)
    ensures !Nullish(a) ==> r == a
    ensures Nullish(a) ==> r == b
  {
    if Nullish(a) then b else a
  }

  /** `key in v` for a value that is an object: an own key of a plain object. */
  predicate HasKey(v: Value, key: string) {
    v.Obj? && key in v.fields
  }

  /**
   * `v?.[key]` on the own keys of plain objects: `undefined` for a missing key,
   * for `null`/`undefined`, and for primitives and arrays (whose prototype
   * properties are never among the keys this model reads).
   */
  function Member(v: Value, key: string): (r: Value)
    ensures HasKey(v, key) ==> r == v.fields[key]
    ensures !HasKey(v, key) ==> r == Undefined
  {
    if HasKey(v, key) then v.fields[key] else Undefined
  }

  /** `String(v)`: arrays join their elements with ',', writing `null`/`undefined` elements as ''. */
  function ToJsString(v: Value): string
    decreases v, 1
  {
    match v
    case Undefined => "undefined"
    case Null => "null"
    case Bool(b) => if b then "true" else "false"
    case Num(n) => if n < 0 then "-" + NatToString(-n) else NatToString(n)
    case Str(s) => s
    case Arr(items) => JoinElements(v, items)
    case Obj(_) => "[object Object]"
  }

  function JoinElements(ghost parent: Value, items: seq<Value>): string
    requires parent.Arr? && forall i | 0 <= i < |items| :: items[i] in parent.items
    decreases parent, 0, |items|
  {
    if |items| == 0 then ""
    else
      var first := if Nullish(items[0]) then "" else ToJsString(items[0]);
      if |items| == 1 then first else first + "," + JoinElements(parent, items[1..])
  }

  /** `new Error(v).message`: '' for `undefined`, otherwise `String(v)`. */
  function ErrorMessage(v: Value): (m: string)
    ensures v.Str? ==> m == v.s
    ensures v.Undefined? ==> m == ""
  {
    if v.Undefined? then "" else ToJsString(v)
  }
}
