/** The JSON values exchanged with the Slack Web API (serde_json's `Value`). */
module Json {
  import opened Wrappers

  /** Numbers are integers here: every number this layer builds is a `u32` limit. */
  datatype JSON =
    | JNull
    | JBool(b: bool)
    | JNum(n: int)
    | JStr(s: string)
    | JArr(items: seq<JSON>)
    | JObj(fields: map<string, JSON>)

  /** `value.get(key)`: the member `key` of an object; None for a missing key or a non-object. */
  function Get(j: JSON, key: string): (r: Option<JSON>)
    ensures r.Some? <==> j.JObj? && key in j.fields
    ensures r.Some? ==> r.value == j.fields[key]
  {
    match j
    case JObj(fields) => if key in fields then Some(fields[key]) else None
    case _ => None
  }
}
