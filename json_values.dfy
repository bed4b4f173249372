/** Plain JSON data: what `json.loads` produces, and the Python exceptions that indexing it raises. */
module JsonValues {

  /** A JSON value. Numbers are integers here: no field the core reads is a float. */
  datatype Json =
    | JNull
    | JBool(b: bool)
    | JNumber(n: int)
    | JString(s: string)
    | JArray(items: seq<Json>)
    | JObject(fields: map<string, Json>)

  /** A JSON object: a record of the listener, or a status's dictionary. */
  type Record = map<string, Json>

  /** The exceptions the core lets propagate to its caller. */
  datatype Error =
    | KeyError(key: string)   // a dictionary or data frame lacks the key
    | TypeError(key: string)  // the value indexed with `key` is not a dictionary

  /** The set of keys listed in `keys` (a Python key list read as the keys of a dict). */
  function KeySet(keys: seq<string>): set<string>
  {
    set k | k in keys
  }
}
