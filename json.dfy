/** The JSON values the API reads and writes. */
module Json {

  datatype Json =
    | JNull
    | JBool(b: bool)
    | JInt(i: int)
    | JString(s: string)
    | JArray(elements: seq<Json>)
    | JObject(fields: map<string, Json>)

  /** The `{"error": ...}` object the handlers answer with on a client error. */
  function ErrorObject(message: string): Json {
    JObject(map["error" := JString(message)])
  }

  /** The `{"message": ...}` object the delete handler answers with. */
  function MessageObject(message: string): Json {
    JObject(map["message" := JString(message)])
  }
}
