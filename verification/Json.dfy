// JSON values, as the SDK's JSON library parses and prints them.
module Json {
  import opened Prelude

  datatype Json =
    | JNull
    | JBool(truth: bool)
    | JInt(number: int)
    | JString(text: string)
    | JArray(items: seq<Json>)
    | JObject(members: map<string, Json>)

  // A piece of text together with what the JSON parser makes of it; None is "discarded".
  datatype JsonText = JsonText(text: string, parsed: Option<Json>)
}
