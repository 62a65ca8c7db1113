/**
 * Decoded JSON values, as `json.loads` hands them to the scraper, and the
 * few Python operations the scraper applies to them.
 */
module Json {
  import opened Wrappers

  datatype Json =
    | JNull
    | JBool(b: bool)
    | JNum(n: int)
    | JStr(s: string)
    | JArr(items: seq<Json>)
    | JObj(fields: map<string, Json>)

  /** The empty dict `{}`. */
  const EmptyObj: Json := JObj(map[])

  /** Python truthiness of a decoded value. */
  predicate Truthy(j: Json) {
    match j
    case JNull => false
    case JBool(b) => b
    case JNum(n) => n != 0
    case JStr(s) => s != []
    case JArr(items) => items != []
    case JObj(fields) => fields != map[]
  }

  /**
   * `j.get(key, default)`: only a dict has `.get`; on anything else Python
   * raises AttributeError, which is `None` here.
   */
  function DictGet(j: Json, key: string, default: Json): (r: Option<Json>)
    ensures r.Some? <==> j.JObj?
    ensures j.JObj? && key in j.fields ==> r == Some(j.fields[key])
    ensures j.JObj? && key !in j.fields ==> r == Some(default)
  {
    match j
    case JObj(fields) => Some(if key in fields then fields[key] else default)
    case _ => None
  }
}
