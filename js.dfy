/** The JavaScript values the dashboard handles: parsed JSON, thrown errors,
    the result of `Number()`, and the operators it applies to them
    (truthiness, optional property access `x?.k`, nullish coalescing `??`,
    and the string conversion `String(x)` that `new Error(x)` performs). */
module Js {
  import Text

  datatype Option<T> = None | Some(value: T)

  /** A value parsed by `JSON.parse`. Numbers are modelled as integers. */
  datatype Json =
    | JNull
    | JBool(b: bool)
    | JNum(n: int)
    | JStr(s: string)
    | JArr(items: seq<Json>)
    | JObj(fields: map<string, Json>)

  /** An exception: an `Error` built by the program, or a `TypeError` raised by the runtime. */
  datatype Thrown = Error(message: string) | TypeError(message: string)

  /** The outcome of an async call: its value, or the exception it rejected with. */
  datatype Result<T> = Ok(value: T) | Err(error: Thrown)

  /** A value produced by `Number(text)`. */
  datatype JsNumber = Finite(value: real) | NaN

  /** JavaScript truthiness of a JSON value. */
  predicate Truthy(j: Json) {
    match j
    case JNull => false
    case JBool(b) => b
    case JNum(n) => n != 0
    case JStr(s) => s != ""
    case JArr(_) => true
    case JObj(_) => true
  }

  /** Truthiness of a value that may be `undefined` (None). */
  predicate TruthyOpt(v: Option<Json>) {
    v.Some? && Truthy(v.value)
  }

  /** `v === null || v === undefined` */
  predicate Nullish(v: Option<Json>) {
    v.None? || v.value.JNull?
  }

  /** `j?.key`: the property of an object; `undefined` (None) for a missing key and for
      every non-object, since JSON strings, numbers, booleans and arrays have no
      such data properties. */
  function Get(j: Json, key: string): (v: Option<Json>)
    ensures v.Some? <==> j.JObj? && key in j.fields
    ensures v.Some? ==> v.value == j.fields[key]
  {
    if j.JObj? && key in j.fields then Some(j.fields[key]) else None
  }

  /** `v ?? fallback` */
  function Coalesce(v: Option<Json>, fallback: Json): (r: Json)
    ensures Nullish(v) ==> r == fallback
    ensures !Nullish(v) ==> Some(r) == v
  {
    if Nullish(v) then fallback else v.value
  }

  /** `String(j)`: the message `new Error(j)` carries. Arrays join their
      elements with commas, writing null elements as the empty string. */
  function ToText(j: Json): string
    decreases j, 0
  {
    match j
    case JNull => "null"
    case JBool(b) => if b then "true" else "false"
    case JNum(n) => Text.IntToString(n)
    case JStr(s) => s
    case JArr(items) => JoinWithCommas(seq(|items|, i requires 0 <= i < |items| => ElementText(items[i])))
    case JObj(_) => "[object Object]"
  }

  function ElementText(e: Json): string
    decreases e, 1
  {
    if e.JNull? then "" else ToText(e)
  }

  function JoinWithCommas(parts: seq<string>): string {
    if |parts| == 0 then ""
    else if |parts| == 1 then parts[0]
    else parts[0] + "," + JoinWithCommas(parts[1..])
  }

  /** `x <= 0` for a number; every comparison with NaN is false. */
  predicate AtMostZero(x: JsNumber) {
    x.Finite? && x.value <= 0.0
  }
}
