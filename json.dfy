/** The decoded JSON values that the custom unmarshalers and coercion
    helpers receive as `interface{}`. Numbers are integers here: the
    float64 of encoding/json is not modelled. */
module Json {

  datatype Json =
    | JNull
    | JBool(b: bool)
    | JNumber(n: int)
    | JString(s: string)
    | JArray(items: seq<Json>)
    | JObject(fields: map<string, Json>)

  /** The raw value of `key` in an object, or null when the key is absent or
      the value is not an object: what an `interface{}` struct field holds
      after json.Unmarshal. */
  function Field(data: Json, key: string): Json {
    if data.JObject? && key in data.fields then data.fields[key] else JNull
  }
}
