/**
 * JavaScript values as the relay and the browser client see them after
 * `JSON.parse`, with the handful of language rules the handlers lean on:
 * truthiness, optional-chaining property access, the `||` operator and
 * conversion to a string.
 */
module Js {

  datatype Option<+T> = None | Some(value: T)

  datatype Result<+T> = Ok(value: T) | Err(error: string)

  /** A parsed JSON value. Numbers are modelled as integers. */
  datatype Json =
    | JNull
    | JBool(b: bool)
    | JNum(n: int)
    | JStr(s: string)
    | JArr(items: seq<Json>)
    | JObj(fields: map<string, Json>)

  /** A JavaScript value that may be `undefined` (None). */
  type Value = Option<Json>

  /** JavaScript truthiness: `undefined`, `null`, `false`, `0` and `""` are falsy. */
  predicate Truthy(v: Value)
  {
    match v
    case None => false
    case Some(j) =>
      match j
      case JNull => false
      case JBool(b) => b
      case JNum(n) => n != 0
      case JStr(s) => s != ""
      case JArr(_) => true
      case JObj(_) => true
  }

  /** `a || b`: the left operand when it is truthy, otherwise the right one. */
  function Or(a: Value, b: Value): (r: Value)
    ensures Truthy(a) ==> r == a
    ensures !Truthy(a) ==> r == b
  {
    if Truthy(a) then a else b
  }

  /**
   * `v?.key` for the fixed property names used by the handlers: `undefined`
   * for `undefined` and `null`, the member of an object, and `undefined` for
   * every other value (none of those names is a property of a primitive or
   * an array).
   */
  function Get(v: Value, key: string): (r: Value)
    ensures r.Some? ==> v.Some? && v.value.JObj? && key in v.value.fields && r.value == v.value.fields[key]
    ensures v.Some? && v.value.JObj? && key in v.value.fields ==> r.Some?
  {
    match v
    case Some(JObj(m)) => if key in m then Some(m[key]) else None
    case _ => None
  }

  /**
   * `v?.[0]`: the first element of a non-empty array, the member named "0" of
   * an object, the first character of a non-empty string, otherwise `undefined`.
   */
  function First(v: Value): Value
  {
    match v
    case Some(JArr(items)) => if |items| > 0 then Some(items[0]) else None
    case Some(JObj(m)) => if "0" in m then Some(m["0"]) else None
    case Some(JStr(s)) => if |s| > 0 then Some(JStr([s[0]])) else None
    case _ => None
  }

  /** The number a string of decimal digits denotes, read most significant first. */
  function DigitsValue(s: string): nat
    requires forall i :: 0 <= i < |s| ==> '0' <= s[i] <= '9'
  {
    if s == [] then 0 else 10 * DigitsValue(s[..|s| - 1]) + (s[|s| - 1] as int - '0' as int)
  }

  /** Decimal digits of a natural number, most significant first, with no leading zero. */
  function NatToString(n: nat): (r: string)
    ensures |r| > 0
    ensures forall i :: 0 <= i < |r| ==> '0' <= r[i] <= '9'
    ensures DigitsValue(r) == n
    ensures r[0] == '0' ==> r == "0"
    decreases n
  {
    var d := ['0' + (n % 10) as char];
    if n < 10 then d
    else
      var h := NatToString(n / 10);
      assert (h + d)[..|h + d| - 1] == h;
      h + d
  }

  /** `String(n)` for an integer. */
  function IntToString(n: int): string
  {
    if n < 0 then "-" + NatToString(-n) else NatToString(n)
  }

  /**
   * `String(v)` for a JSON value: arrays are joined with "," after turning
   * `null` elements into "", other objects become "[object Object]".
   */
  function ToStr(v: Json): string
    decreases v, 1
  {
    match v
    case JNull => "null"
    case JBool(b) => if b then "true" else "false"
    case JNum(n) => IntToString(n)
    case JStr(s) => s
    case JArr(_) => JoinElements(v, 0)
    case JObj(_) => "[object Object]"
  }

  /** `items.slice(i).join(",")` where `items` are the elements of `whole`. */
  function JoinElements(whole: Json, i: nat): string
    requires whole.JArr? && i <= |whole.items|
    decreases whole, 0, |whole.items| - i
  {
    if i == |whole.items| then ""
    else
      var e := whole.items[i];
      var head := if e == JNull then "" else ToStr(e);
      if i + 1 == |whole.items| then head else head + "," + JoinElements(whole, i + 1)
  }

  /** A value as a template literal `${v}` renders it. */
  function Template(v: Value): string
  {
    match v
    case None => "undefined"
    case Some(j) => ToStr(j)
  }

  /** `e?.message || fallback`, the handlers' error text for a thrown error. */
  function ErrorText(thrown: string, fallback: string): (r: string)
    ensures thrown != "" ==> r == thrown
    ensures thrown == "" ==> r == fallback
  {
    if thrown != "" then thrown else fallback
  }

  /** An object literal with one string member. */
  function Obj1(k: string, v: Json): Json
  {
    JObj(map[k := v])
  }

  /** An object literal with two members. */
  function Obj2(k1: string, v1: Json, k2: string, v2: Json): Json
  {
    JObj(map[k1 := v1, k2 := v2])
  }
}
