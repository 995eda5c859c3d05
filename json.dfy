/** The JavaScript values a character card can hold once `JSON.parse` has read it,
    with the few language rules the card code relies on: property lookup,
    truthiness, `a || b`, and conversion to a string when a value is written into
    a text field or joined. */
module JsValue {

  /** `JUndefined` is what a lookup of a missing property yields; `JSON.parse`
      itself never produces it. Numbers are limited to integers. */
  datatype Json =
    | JUndefined
    | JNull
    | JBool(b: bool)
    | JNumber(n: int)
    | JString(s: string)
    | JArray(elems: seq<Json>)
    | JObject(fields: map<string, Json>)

  /** JavaScript truthiness: undefined, null, false, 0 and "" are falsy. */
  predicate Truthy(v: Json) {
    match v
    case JUndefined => false
    case JNull => false
    case JBool(b) => b
    case JNumber(n) => n != 0
    case JString(s) => s != ""
    case JArray(_) => true
    case JObject(_) => true
  }

  /** `a || b`: the first operand when it is truthy, otherwise the second. */
  function Or(a: Json, b: Json): (r: Json)
    ensures Truthy(r) <==> Truthy(a) || Truthy(b)
    ensures r == a || r == b
  {
    if Truthy(a) then a else b
  }

  /** `v.key` for a value `v` that is neither null nor undefined. Only objects carry
      the card's own properties; on any other value the lookup yields undefined. */
  function Get(v: Json, key: string): Json {
    if v.JObject? && key in v.fields then v.fields[key] else JUndefined
  }

  /** `typeof v === 'object'`: true of objects, arrays and null. */
  predicate TypeofObject(v: Json) {
    v.JObject? || v.JArray? || v.JNull?
  }

  /** The decimal digits of a natural number, as `String(n)` writes them. */
  function NatToString(n: nat): (r: string)
    ensures |r| > 0
    decreases n
  {
    var d := ['0' + (n % 10) as char];
    if n < 10 then d else NatToString(n / 10) + d
  }

  /** `Array.prototype.join`: elements separated by `sep`. */
  function Join(xs: seq<string>, sep: string): string
    decreases |xs|
  {
    if |xs| == 0 then ""
    else if |xs| == 1 then xs[0]
    else xs[0] + sep + Join(xs[1..], sep)
  }

  /** The texts `join` puts between the separators: "" for null and undefined
      elements, the element's string conversion otherwise. */
  function ElementStrings(xs: seq<Json>): (r: seq<string>)
    ensures |r| == |xs|
    decreases JArray(xs), 0
  {
    seq(|xs|, i requires 0 <= i < |xs| =>
      if xs[i].JNull? || xs[i].JUndefined? then "" else ToJsString(xs[i]))
  }

  /** `String(v)`, which is also what a text field shows after `.val(v)`. */
  function ToJsString(v: Json): string
    decreases v, 1
  {
    match v
    case JUndefined => "undefined"
    case JNull => "null"
    case JBool(b) => if b then "true" else "false"
    case JNumber(n) => if n < 0 then "-" + NatToString(-n) else NatToString(n)
    case JString(s) => s
    case JArray(xs) => Join(ElementStrings(xs), ",")
    case JObject(_) => "[object Object]"
  }
}
