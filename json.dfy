/** JSON documents as the application loads them (settings, sequence files, action configs). */
module Json {
  import opened Wrappers

  /** A decoded JSON value; objects are dictionaries keyed by string. */
  datatype Json =
    | JNull
    | JBool(b: bool)
    | JInt(i: int)
    | JReal(r: real)
    | JStr(s: string)
    | JArr(items: seq<Json>)
    | JObj(fields: map<string, Json>)

  /** Python truthiness of the decoded value (`if value:`). */
  predicate Truthy(j: Json) {
    match j
    case JNull => false
    case JBool(b) => b
    case JInt(i) => i != 0
    case JReal(r) => r != 0.0
    case JStr(s) => s != ""
    case JArr(items) => |items| > 0
    case JObj(fields) => |fields| > 0
  }

  /** `d.get(key, default)` on a dictionary */
  function Get(fields: map<string, Json>, key: string, default: Json): Json {
    if key in fields then fields[key] else default
  }

  /** `config.get(key)` on an action's config, which raises when the config is not a dictionary. */
  function Lookup(config: Json, key: string): Result<Json> {
    match config
    case JObj(fields) => Ok(Get(fields, key, JNull))
    case _ => Err("config is not a dictionary")
  }
}
