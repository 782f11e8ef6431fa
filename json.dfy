/** JSON values as a request body carries them, and what `request.json()`
    produces from the raw body. */
module Json {
  datatype Json =
    | JNull
    | JBool(b: bool)
    | JNumber(n: real)
    | JString(s: string)
    | JArray(items: seq<Json>)
    | JObject(fields: map<string, Json>)

  /** A body that parsed, or the parser's error message (a thrown `SyntaxError`). */
  datatype Body = Malformed(message: string) | Parsed(json: Json)
}
