/** Value types shared by every component: optional values, results with an
    error, and the JSON-like payloads that requests and ledger entries carry. */
module Values {

  datatype Option<+T> = None | Some(value: T)

  datatype Result<+T, +E> = Ok(value: T) | Err(error: E)

  /** A JSON value as produced by a request's `model_dump()` or a tool's
      argument map. Floating-point numbers are not modelled. */
  datatype Json =
    | JNull
    | JBool(b: bool)
    | JInt(i: int)
    | JStr(s: string)
    | JList(items: seq<Json>)
    | JObject(fields: map<string, Json>)

  /** A JSON list of strings, as `json.dumps` renders a Python `List[str]`. */
  function StringList(xs: seq<string>): (r: Json)
    ensures r.JList? && |r.items| == |xs|
    ensures forall i :: 0 <= i < |xs| ==> r.items[i] == JStr(xs[i])
  {
    if xs == [] then JList([])
    else JList([JStr(xs[0])] + StringList(xs[1..]).items)
  }
}
