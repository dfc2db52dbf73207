/**
 * Decoded JSON documents as the bot receives them from the lyrics API, and
 * the Python lookups it performs on them (`d["key"]`, `bool(v)`).
 * Floating-point numbers are not part of this model.
 */
module Json {
  import opened Wrappers
  import opened Text

  datatype Json =
    | JNull
    | JBool(b: bool)
    | JInt(i: int)
    | JStr(s: string)
    | JList(items: seq<Json>)
    | JObject(fields: map<string, Json>)

  /**
   * `v[key]`: the member of an object. `None` stands for the `KeyError` of a
   * missing member and the `TypeError` of indexing a non-object by a string.
   */
  function Get(v: Json, key: string): (r: Option<Json>)
    ensures r.Some? <==> v.JObject? && key in v.fields
    ensures r.Some? ==> r.value == v.fields[key]
  {
    match v
    case JObject(fields) => if key in fields then Some(fields[key]) else None
    case _ => None
  }

  /** `v[k1][k2]`, failing as soon as either step fails. */
  function Path(v: Json, k1: string, k2: string): (r: Option<Json>)
    ensures r.Some? <==> Get(v, k1).Some? && Get(Get(v, k1).value, k2).Some?
  {
    match Get(v, k1)
    case None => None
    case Some(w) => Get(w, k2)
  }

  /** A member that must be a JSON string (a title, a name, a url). */
  function GetStr(v: Json, key: string): (r: Option<string>)
    ensures r.Some? <==> Get(v, key).Some? && Get(v, key).value.JStr?
  {
    match Get(v, key)
    case Some(JStr(s)) => Some(s)
    case _ => None
  }

  /** A member that must be a JSON integer (an id). */
  function GetInt(v: Json, key: string): (r: Option<int>)
    ensures r.Some? <==> Get(v, key).Some? && Get(v, key).value.JInt?
  {
    match Get(v, key)
    case Some(JInt(n)) => Some(n)
    case _ => None
  }

  /** Python's `bool(v)`: `None`, `False`, `0` and empty strings, lists and objects are false. */
  predicate Truthy(v: Json) {
    match v
    case JNull => false
    case JBool(b) => b
    case JInt(i) => i != 0
    case JStr(s) => s != ""
    case JList(items) => items != []
    case JObject(fields) => fields != map[]
  }

  /**
   * `str(v)` inside an f-string, for the scalar values. Lists and objects,
   * whose `repr` form is not part of this model, give `None`.
   */
  function Display(v: Json): (r: Option<string>)
    ensures v.JStr? ==> r == Some(v.s)
    ensures r.None? <==> v.JList? || v.JObject?
  {
    match v
    case JNull => Some("None")
    case JBool(b) => Some(if b then "True" else "False")
    case JInt(i) => Some(IntToString(i))
    case JStr(s) => Some(s)
    case _ => None
  }
}
