/** Decoded JSON response bodies and the JavaScript operators the client applies to them. */
module Json {
  import opened Wrappers
  import JsNumber

  /** A decoded JSON value. Numbers are modelled as integers. */
  datatype Json =
    | JNull
    | JBool(b: bool)
    | JNum(n: int)
    | JStr(s: string)
    | JArr(items: seq<Json>)
    | JObj(fields: map<string, Json>)

  /** Optional chaining `v?.key`; `None` is `undefined` (also for a missing key or a non-object). */
  function Get(v: Option<Json>, key: string): Option<Json>
  {
    if v.Some? && v.value.JObj? && key in v.value.fields then Some(v.value.fields[key]) else None
  }

  /** JavaScript truthiness: `undefined`, `null`, `false`, `0` and `""` are falsy. */
  predicate Truthy(v: Option<Json>)
  {
    match v
    case None => false
    case Some(JNull) => false
    case Some(JBool(b)) => b
    case Some(JNum(n)) => n != 0
    case Some(JStr(s)) => s != ""
    case Some(_) => true
  }

  /** `a || b`. */
  function Or(a: Option<Json>, b: Option<Json>): (r: Option<Json>)
    ensures Truthy(a) ==> r == a
    ensures !Truthy(a) ==> r == b
  {
    if Truthy(a) then a else b
  }

  /** `a || d` where the default `d` is a literal. */
  function OrElse(a: Option<Json>, d: Json): (r: Json)
    ensures Truthy(a) ==> Some(r) == a
    ensures !Truthy(a) ==> r == d
  {
    if Truthy(a) then a.value else d
  }

  /** `String(v)`: the text JavaScript produces when the value is stored or put into a template. */
  function ToJsString(v: Json): string
    decreases v, 1, 0
  {
    match v
    case JNull => "null"
    case JBool(b) => if b then "true" else "false"
    case JNum(n) => JsNumber.ToText(JsNumber.Int(n))
    case JStr(s) => s
    case JArr(items) => JoinItems(v, 0)
    case JObj(_) => "[object Object]"
  }

  /** `items.slice(i).join(",")`, where `null` elements become empty text. */
  function JoinItems(arr: Json, i: nat): string
    requires arr.JArr? && i <= |arr.items|
    decreases arr, 0, |arr.items| - i
  {
    if i == |arr.items| then ""
    else
      var head := if arr.items[i].JNull? then "" else ToJsString(arr.items[i]);
      if i + 1 == |arr.items| then head else head + "," + JoinItems(arr, i + 1)
  }
}
