/** Decoded JSON, as far as anything here looks at it. */
module JsonValues {
  datatype Json =
    | JString(text: string)
    | JInt(number: int)
    | JArray(items: seq<Json>)
    | JObject(fields: map<string, Json>)
    | JOther
}
