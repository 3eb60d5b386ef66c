/** Decoded JSON bodies as the pages hold them, and the few JavaScript value
    rules the pages rely on: truthiness, `||`, `??`, property reads, object
    spread, `typeof v === 'object'`, strict equality and conversion to a
    string. */
module Json {

  datatype Option<+T> = None | Some(value: T)

  /** A JavaScript value that a decoded body, or a record built from one, can
      hold. `JUndefined` is what reading a missing property yields. Numbers
      are integers here. */
  datatype Json =
    | JUndefined
    | JNull
    | JBool(b: bool)
    | JNum(n: int)
    | JStr(s: string)
    | JArr(items: seq<Json>)
    | JObj(fields: map<string, Json>)

  /** JavaScript truthiness: `undefined`, `null`, `false`, `0` and `""` are falsy. */
  predicate Truthy(v: Json) {
    match v
    case JUndefined => false
    case JNull => false
    case JBool(b) => b
    case JNum(n) => n != 0
    case JStr(s) => s != ""
    case JArr(_) => true
    case JObj(_) => true
  }

  /** `null` or `undefined`: reading a property of such a value throws a TypeError. */
  predicate Nullish(v: Json) {
    v.JUndefined? || v.JNull?
  }

  /** `typeof v === 'object'`, which holds of `null` and of arrays as well. */
  predicate IsObjectType(v: Json) {
    v.JNull? || v.JArr? || v.JObj?
  }

  /** The value stored under `k` in an object's own fields, `undefined` when absent. */
  function Field(fields: map<string, Json>, k: string): Json {
    if k in fields then fields[k] else JUndefined
  }

  /** `v?.k` for the record keys the pages read (`_id`, `data`, `name`, ...):
      none of them is a property of a string, number, boolean or array. */
  function Prop(v: Json, k: string): Json {
    if v.JObj? then Field(v.fields, k) else JUndefined
  }

  /** `a || b` */
  function Or(a: Json, b: Json): Json {
    if Truthy(a) then a else b
  }

  /** `a ?? b` */
  function Coalesce(a: Json, b: Json): Json {
    if Nullish(a) then b else a
  }

  /** The own fields that `{...v}` copies. */
  function Spread(v: Json): map<string, Json> {
    if v.JObj? then v.fields else map[]
  }

  /** `a === b` between values decoded from bodies: primitives compare by
      value, while two arrays or objects are never the same object. */
  predicate StrictEq(a: Json, b: Json) {
    a == b && !a.JArr? && !a.JObj?
  }

  function DigitChar(d: nat): char
    requires d < 10
  {
    "0123456789"[d]
  }

  function NatToString(n: nat): (s: string)
    ensures |s| > 0
  {
    if n < 10 then [DigitChar(n)] else NatToString(n / 10) + [DigitChar(n % 10)]
  }

  /** Decimal text of an integer, as a template literal renders a status code. */
  function IntToString(i: int): string {
    if i < 0 then "-" + NatToString(-i) else NatToString(i)
  }

  /** `String(v)`: what a template literal prints and what an object key becomes. */
  function Display(v: Json): string
    decreases v
  {
    match v
    case JUndefined => "undefined"
    case JNull => "null"
    case JBool(b) => if b then "true" else "false"
    case JNum(n) => IntToString(n)
    case JStr(s) => s
    case JArr(items) => JoinItems(items)
    case JObj(_) => "[object Object]"
  }

  /** `Array.prototype.join(",")`, which prints `null` and `undefined` as empty. */
  function JoinItems(items: seq<Json>): string
    decreases items
  {
    if items == [] then ""
    else
      var head := if Nullish(items[0]) then "" else Display(items[0]);
      if |items| == 1 then head else head + "," + JoinItems(items[1..])
  }
}
