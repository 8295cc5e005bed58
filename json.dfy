/** Decoded JSON values as both PHP (`json_decode($s, true)`) and JavaScript
    see them, with the two languages' notions of truthiness. Numbers are split
    into integral and fractional ones; only integral numbers take part in the
    arithmetic of the model. */
module Json {

  datatype Json =
    | JNull
    | JBool(b: bool)
    | JNum(n: int)
    | JFrac(r: real)
    | JStr(s: string)
    | JArr(items: seq<Json>)
    | JObj(fields: map<string, Json>)

  /** PHP's `if ($x)`: null, false, 0, 0.0, "", "0" and the empty array are falsy.
      A decoded JSON object is an array in PHP, so an empty object is falsy too. */
  predicate PhpTruthy(j: Json) {
    match j
    case JNull => false
    case JBool(b) => b
    case JNum(n) => n != 0
    case JFrac(r) => r != 0.0
    case JStr(s) => s != "" && s != "0"
    case JArr(items) => |items| > 0
    case JObj(fields) => |fields| > 0
  }

  /** JavaScript's `if (x)`: null, false, 0 and "" are falsy; every array and
      object, even an empty one, is truthy. */
  predicate JsTruthy(j: Json) {
    match j
    case JNull => false
    case JBool(b) => b
    case JNum(n) => n != 0
    case JFrac(r) => r != 0.0
    case JStr(s) => s != ""
    case JArr(_) => true
    case JObj(_) => true
  }

  /** PHP's `if ($s)` on a string request parameter. */
  predicate PhpTruthyString(s: string) {
    s != "" && s != "0"
  }

  /** `$data['total']` / `data.total` read as an integer: the field of an
      object when it holds an integral number, and 0 (which is never `> 0`)
      when the value is not an object or the field is missing or not integral. */
  function TotalOf(data: Json): int {
    if data.JObj? && "total" in data.fields && data.fields["total"].JNum? then
      data.fields["total"].n
    else
      0
  }
}
