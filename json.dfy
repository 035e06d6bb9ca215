/** Python values as produced by json.loads and consumed by json.dumps.
    Numbers are integers only: no value in this model is a float. */
module Json {
  import opened Wrappers

  datatype Json =
    | JNull
    | JBool(b: bool)
    | JNumber(n: int)
    | JString(str: string)
    | JArray(items: seq<Json>)
    | JObject(members: map<string, Json>)

  /** `j[key]`: succeeds only on a dict that holds `key`; every other case raises. */
  function Member(j: Json, key: string): Option<Json>
  {
    if j.JObject? && key in j.members then Some(j.members[key]) else None
  }

  /** `j[i]` on a list; a string yields a one-character string; everything else raises. */
  function Element(j: Json, i: nat): Option<Json>
  {
    match j
    case JArray(items) => if i < |items| then Some(items[i]) else None
    case JString(s) => if i < |s| then Some(JString([s[i]])) else None
    case _ => None
  }

  /** Python truthiness: None, False, 0, "", [] and {} are false. */
  predicate Truthy(j: Json)
  {
    match j
    case JNull => false
    case JBool(b) => b
    case JNumber(n) => n != 0
    case JString(s) => s != ""
    case JArray(items) => items != []
    case JObject(members) => members != map[]
  }

  /** Python's `a or b`. */
  function Or(a: Json, b: Json): Json
  {
    if Truthy(a) then a else b
  }
}
