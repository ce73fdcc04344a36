/** Values shared by the whole runtime: decoded JSON and an optional value. */
module Values {

  /** A value that may be absent. */
  datatype Option<T> = None | Some(value: T)

  /** A decoded JSON value, as the transport's JSON decoder hands it over. */
  datatype Json =
    | JNull
    | JBool(b: bool)
    | JNumber(n: real)
    | JString(s: string)
    | JArray(items: seq<Json>)
    | JObject(fields: map<string, Json>)

  /** A JSON object: one sensor's payload, or a batch of staged robot commands. */
  type Object = map<string, Json>
}
