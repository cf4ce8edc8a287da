/** Values shared by the cloud control plane and the edge controller. */
module Common {

  /** Python's `Optional[...]`: `None` or a present value. */
  datatype Option<+T> = None | Some(value: T)

  /** A JSON document as exchanged over HTTP. Both programs treat a site's
      desired configuration as opaque data, so only its shape is modelled
      (numbers are kept as integers). */
  datatype Json =
    | JNull
    | JBool(b: bool)
    | JNumber(n: int)
    | JString(s: string)
    | JArray(items: seq<Json>)
    | JObject(fields: map<string, Json>)

  /** A desired configuration: a JSON object, `Dict` in the source. */
  type Config = map<string, Json>
}
