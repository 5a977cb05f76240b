/**
 * JavaScript values as they reach the request handler after JSON body parsing,
 * and the three JavaScript rules the handler applies to them: truthiness,
 * `typeof v === "number"` and property reads.
 */
module Js {
  import opened Wrappers

  /**
   * A parsed JSON document. A number is a real: JSON cannot spell NaN, and an
   * out-of-range literal such as `1e400`, which parses to an infinity, behaves
   * here like any non-zero real (it is a number and it is truthy); how it is
   * rendered is left to the caller's rendering.
   */
  datatype Json =
    | JNull
    | JBool(b: bool)
    | JNum(n: real)
    | JStr(s: string)
    | JArr(items: seq<Json>)
    | JObj(fields: map<string, Json>)

  /** A JavaScript value as read from a parsed body: `None` is `undefined`. */
  type Value = Option<Json>

  /** `undefined` or `null`: the two values on which a property read throws. */
  predicate IsNullish(v: Value) {
    v.None? || v.value.JNull?
  }

  /** JavaScript truthiness: `undefined`, `null`, `false`, `0` and `""` are falsy; every array and object is truthy. */
  function Truthy(v: Value): (t: bool)
    ensures t ==> !IsNullish(v)
    ensures v.Some? && (v.value.JObj? || v.value.JArr?) ==> t
  {
    match v
    case None => false
    case Some(j) =>
      match j
      case JNull => false
      case JBool(b) => b
      case JNum(n) => n != 0.0
      case JStr(s) => s != ""
      case JArr(_) => true
      case JObj(_) => true
  }

  /** `typeof v === "number"`. */
  function IsNumber(v: Value): (num: bool)
    ensures num ==> !IsNullish(v)
    ensures num ==> v.value.JNum? && (Truthy(v) <==> v.value.n != 0.0)
  {
    v.Some? && v.value.JNum?
  }

  /**
   * The property read `v.key`. Only an object carries the keys the handler reads
   * (none of them is a property of strings or arrays); a missing key reads as `undefined`.
   * The read throws on `undefined` and `null`, so callers must rule those out.
   */
  function Get(v: Value, key: string): (r: Value)
    requires !IsNullish(v)
    ensures r.Some? <==> v.value.JObj? && key in v.value.fields
    ensures r.Some? ==> r.value == v.value.fields[key]
  {
    match v.value
    case JObj(fields) => if key in fields then Some(fields[key]) else None
    case _ => None
  }
}
