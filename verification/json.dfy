/**
 * A JSON document as a value. It is what the backend's dictionaries become on the
 * wire and what the app's `JSONDecoder` reads.
 */
module Json {

  datatype Json =
    | JNull
    | JBool(b: bool)
    | JNumber(n: real)
    | JString(s: string)
    | JArray(items: seq<Json>)
    | JObject(fields: map<string, Json>)
}
