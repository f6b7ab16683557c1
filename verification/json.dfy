/** JSON documents, as `JSON.parse` yields them and `to_json` consumes them. */
module Json {

  /** A JSON value. Numbers are kept as integers: the report passes parsed
      documents through unchanged, so their numeric contents never matter. */
  datatype Json =
    | JNull
    | JBool(b: bool)
    | JNumber(n: int)
    | JString(s: string)
    | JArray(items: seq<Json>)
    | JObject(fields: map<string, Json>)
}
