/** Python values decoded from JSON (task files, task records, prediction
    dicts). A JSON object is a Python dict, keyed by string. */
module JsonValues {
  import opened Wrappers

  datatype Json =
    | JNull
    | JBool(b: bool)
    | JInt(i: int)
    | JReal(r: real)
    | JStr(s: string)
    | JList(items: seq<Json>)
    | JObject(fields: map<string, Json>)

  /** `j[key]` on a dict; None where Python raises (KeyError on a dict without
      the key, TypeError on anything that is not a dict). */
  function Lookup(j: Json, key: string): (r: Option<Json>)
    ensures r.Some? <==> j.JObject? && key in j.fields
    ensures r.Some? ==> r.value == j.fields[key]
  {
    if j.JObject? && key in j.fields then Some(j.fields[key]) else None
  }

  /** `j.get(key, default)`; None where Python raises AttributeError because
      j is not a dict. A key present with value null yields null, not the
      default. */
  function GetOr(j: Json, key: string, default: Json): (r: Option<Json>)
    ensures r.Some? <==> j.JObject?
    ensures j.JObject? && key in j.fields ==> r == Some(j.fields[key])
    ensures j.JObject? && key !in j.fields ==> r == Some(default)
  {
    if !j.JObject? then None
    else if key in j.fields then Some(j.fields[key])
    else Some(default)
  }

  /** A Python `Optional[str]` as it appears in a dict: None becomes null. */
  function OptString(v: Option<string>): Json {
    match v
    case None => JNull
    case Some(s) => JStr(s)
  }

  function OptReal(v: Option<real>): Json {
    match v
    case None => JNull
    case Some(r) => JReal(r)
  }
}
