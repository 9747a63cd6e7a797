/** A JSON document after decoding, in the shape Python's `json` module returns it:
    objects become dicts (a later duplicate key replaces an earlier one, so a map),
    arrays become lists. */
module Json {

  datatype Json =
    | JNull
    | JBool(b: bool)
    | JNumber(n: int)   // every JSON number; the model never reads one
    | JString(s: string)
    | JArray(items: seq<Json>)
    | JObject(fields: map<string, Json>)
}
