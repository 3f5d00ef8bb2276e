/**
 * An abstract JSON value, standing for what `JSONSerialization` produces and
 * consumes (`[String: Any]` dictionaries, arrays, strings, numbers, booleans,
 * `NSNull`). Byte-level encoding is not modelled.
 */
module Json {
  import opened Wrappers

  datatype Json =
    | JNull
    | JBool(b: bool)
    | JNum(n: int)
    | JStr(s: string)
    | JArr(items: seq<Json>)
    | JObj(fields: map<string, Json>)

  type Object = map<string, Json>

  /** `obj[key] as? String` */
  function StringField(obj: Object, key: string): (r: Option<string>)
    ensures r.Some? <==> key in obj && obj[key].JStr?
    ensures r.Some? ==> obj[key] == JStr(r.value)
  {
    if key in obj && obj[key].JStr? then Some(obj[key].s) else None
  }

  /** `obj[key] as? Bool` */
  function BoolField(obj: Object, key: string): (r: Option<bool>)
    ensures r.Some? <==> key in obj && obj[key].JBool?
    ensures r.Some? ==> obj[key] == JBool(r.value)
  {
    if key in obj && obj[key].JBool? then Some(obj[key].b) else None
  }

  /** `obj[key] as? [String: Any]` */
  function ObjectField(obj: Object, key: string): (r: Option<Object>)
    ensures r.Some? <==> key in obj && obj[key].JObj?
    ensures r.Some? ==> obj[key] == JObj(r.value)
  {
    if key in obj && obj[key].JObj? then Some(obj[key].fields) else None
  }

  /** Decimal rendering of an integer, as Swift's string interpolation writes it. */
  function IntToString(i: int): (r: string)
    ensures |r| > 0
  {
    if i < 0 then "-" + NatToString(-i) else NatToString(i)
  }

  function NatToString(n: nat): (r: string)
    ensures |r| > 0
    ensures forall k :: 0 <= k < |r| ==> '0' <= r[k] <= '9'
  {
    if n < 10 then [DigitChar(n)] else NatToString(n / 10) + [DigitChar(n % 10)]
  }

  function DigitChar(d: nat): (c: char)
    requires d < 10
    ensures '0' <= c <= '9'
  {
    "0123456789"[d]
  }
}
