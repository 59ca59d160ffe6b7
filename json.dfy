/** JSON values as the client and the Python backend see them once parsed, with the
    JavaScript operations the core applies to them: truthiness, property reads and
    conversion to a string. */
module Json {
  import opened Wrappers
  import opened Strings

  /** A parsed JSON value. Numbers are modelled as integers. */
  datatype Json =
    | JNull
    | JBool(b: bool)
    | JNum(n: int)
    | JStr(s: string)
    | JArr(items: seq<Json>)
    | JObj(fields: map<string, Json>)

  /** JavaScript truthiness of a parsed JSON value. */
  predicate Truthy(j: Json) {
    match j
    case JNull => false
    case JBool(b) => b
    case JNum(n) => n != 0
    case JStr(s) => s != ""
    case JArr(_) => true
    case JObj(_) => true
  }

  /** The outcome of reading `j[name]` with plain `.` access: `null` throws a
      TypeError, an object yields its field or `undefined`. The names the core reads
      (`status`, `text`, `detail`, `response`) are not properties of the other values. */
  function Property(j: Json, name: string): (r: Result<Option<Json>, string>)
    ensures r.Err? <==> j.JNull?
    ensures r.Ok? && r.value.Some? ==> j.JObj? && name in j.fields && r.value.value == j.fields[name]
  {
    match j
    case JNull => Err("Cannot read properties of null (reading '" + name + "')")
    case JObj(fields) => Ok(if name in fields then Some(fields[name]) else None)
    case _ => Ok(None)
  }

  /** `j?.[name]`: optional chaining turns a null base into `undefined`. */
  function OptionalProperty(j: Json, name: string): (r: Option<Json>)
    ensures r.Some? <==> j.JObj? && name in j.fields
  {
    if j.JObj? && name in j.fields then Some(j.fields[name]) else None
  }

  function DigitChar(d: nat): char
    requires d < 10
  {
    "0123456789"[d]
  }

  function NatToString(n: nat): (r: string)
    ensures r != ""
  {
    if n < 10 then [DigitChar(n)] else NatToString(n / 10) + [DigitChar(n % 10)]
  }

  /** `String(j)` for a parsed JSON value. */
  function JsString(j: Json): string {
    match j
    case JNull => "null"
    case JBool(b) => if b then "true" else "false"
    case JNum(n) => if n < 0 then "-" + NatToString(-n) else NatToString(n)
    case JStr(s) => s
    case JArr(items) =>
      // Array.prototype.toString joins the elements with "," and writes null as "".
      Join(seq(|items|, i requires 0 <= i < |items| =>
        if items[i].JNull? then "" else JsString(items[i])), ",")
    case JObj(_) => "[object Object]"
  }
}
