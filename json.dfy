/**
 * A JSON value as `JSON.parse` hands it over, and the two things the JSON
 * importer asks of it: `String(value)` and `Object.entries(value)`.
 */
module JsonValue {
  import opened JsText

  /**
   * A parsed JSON value. A number carries the text JavaScript prints for it
   * (`String(n)`); an object carries its members in the order
   * `Object.entries` lists them, one member per distinct key.
   */
  datatype Json =
    | JNull
    | JBool(b: bool)
    | JNumber(text: string)
    | JString(s: string)
    | JArray(elements: seq<Json>)
    | JObject(members: seq<(string, Json)>)

  /** `typeof value === 'object' && value !== null`: objects and arrays alike. */
  predicate IsObject(v: Json) {
    v.JObject? || v.JArray?
  }

  /**
   * `String(value)`. An array is joined with commas, its `null` elements
   * printed as the empty string; an object is "[object Object]".
   */
  function ToJsString(v: Json): string
    decreases v, 1
  {
    match v
    case JNull => "null"
    case JBool(b) => if b then "true" else "false"
    case JNumber(text) => text
    case JString(s) => s
    case JArray(elements) => JoinElements(elements)
    case JObject(_) => "[object Object]"
  }

  /** `Array.prototype.join(',')` on the elements of a parsed array. */
  function JoinElements(elements: seq<Json>): string
    decreases JArray(elements), 0
  {
    Join(seq(|elements|, k requires 0 <= k < |elements| => ElementString(elements[k])), ',')
  }

  function ElementString(e: Json): string
    decreases e, 2
  {
    if e.JNull? then "" else ToJsString(e)
  }

  /** `Object.entries(value)`: an array's elements are listed under the keys "0", "1", ... */
  function Entries(v: Json): (es: seq<(string, Json)>)
    requires IsObject(v)
    ensures v.JObject? ==> es == v.members
    ensures v.JArray? ==> |es| == |v.elements| && forall k :: 0 <= k < |es| ==> es[k] == (NatToString(k), v.elements[k])
  {
    if v.JObject? then v.members
    else seq(|v.elements|, k requires 0 <= k < |v.elements| => (NatToString(k), v.elements[k]))
  }

  /** `Array.isArray(data) ? data : [data]`. */
  function Items(data: Json): (items: seq<Json>)
    ensures data.JArray? ==> items == data.elements
    ensures !data.JArray? ==> items == [data]
  {
    if data.JArray? then data.elements else [data]
  }
}
