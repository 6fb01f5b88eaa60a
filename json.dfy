/** JSON documents as the server and the worker exchange them. `JSON.parse` and
    `json.dumps` are not written out: the model works on parsed values, and the
    parser appears only as a function from text to an optional value. */
module JsonValue {
  import opened Common

  datatype Json =
    | JNull
    | JBool(b: bool)
    | JNum(n: real)
    | JStr(s: string)
    | JArr(items: seq<Json>)
    | JObj(fields: map<string, Json>)

  /** JavaScript truthiness of a parsed JSON value (JSON has no NaN or undefined). */
  predicate Truthy(v: Json) {
    match v
    case JNull => false
    case JBool(b) => b
    case JNum(n) => n != 0.0
    case JStr(s) => s != ""
    case JArr(_) => true
    case JObj(_) => true
  }

  /** Property access `v.key` on a value that is not null: `None` is `undefined`.
      Only objects carry own properties named by JSON keys. */
  function Prop(v: Json, key: string): (r: Option<Json>)
    requires !v.JNull?
    ensures r.Some? <==> v.JObj? && key in v.fields
    ensures r.Some? ==> r.value == v.fields[key]
  {
    if v.JObj? && key in v.fields then Some(v.fields[key]) else None
  }

  /** The object literal `{ error: msg }`. */
  function ErrorBody(msg: string): Json {
    JObj(map["error" := JStr(msg)])
  }

  /** The object literal `{ error: msg, details: details }`. */
  function ErrorDetailsBody(msg: string, details: string): Json {
    JObj(map["error" := JStr(msg), "details" := JStr(details)])
  }
}
