/** The values a JSON extractor can hand back from a model reply. Floating-point numbers are
    represented by their integer part only; nothing in the workflows inspects numbers. */
module Json {

  datatype Json =
    | JNull
    | JBool(b: bool)
    | JNumber(n: int)
    | JString(s: string)
    | JArray(items: seq<Json>)
    | JObject(fields: map<string, Json>)

  /** What a JSON extraction helper does with a model reply: it raises, returns None, or
      returns the value it parsed. */
  datatype Extracted<+T> = Raised | NoValue | Found(value: T)
}
