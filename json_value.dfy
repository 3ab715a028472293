/**
 * Structured values as the ledger stores them (the dossier payload, a block's
 * `data_content`), together with the two Python behaviours the resolver
 * depends on: `dict.get` and truthiness (`if x:` / `x or {}`).
 */
module JsonValue {

  datatype Option<+T> = None | Some(value: T)

  /**
   * A JSON-like value. Objects are maps, so two objects that differ only in
   * key order are the same value: `json.dumps(..., sort_keys=True)` gives
   * them the same text, which is what sorting the keys is for.
   */
  datatype Json =
    | JNull
    | JBool(b: bool)
    | JInt(i: int)
    | JFloat(f: real)
    | JStr(s: string)
    | JList(items: seq<Json>)
    | JObj(fields: map<string, Json>)

  const EmptyObject: Json := JObj(map[])

  /** Python truthiness: None, False, 0, 0.0, "", [] and {} are false. */
  predicate Truthy(j: Json) {
    match j
    case JNull => false
    case JBool(b) => b
    case JInt(i) => i != 0
    case JFloat(f) => f != 0.0
    case JStr(s) => s != ""
    case JList(items) => items != []
    case JObj(fields) => fields != map[]
  }

  /** Python's `d.get(key)`: None (here JNull) when the key is absent. */
  function Get(fields: map<string, Json>, key: string): Json {
    if key in fields then fields[key] else JNull
  }
}
