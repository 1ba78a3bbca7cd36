/**
 * Values that cross the boundary between the routing clients and the
 * outside world, already decoded: optional values, results with an error
 * message, JSON documents and the outcome of one HTTP request.
 */
module Wire {

  datatype Option<+T> = None | Some(value: T)

  /** A computation that either produced a value or raised with a message. */
  datatype Result<+T> = Ok(value: T) | Err(message: string)

  /**
   * A decoded JSON document. Numbers are integers only; fractional and
   * exponent numbers are not modelled. An object keeps the last value of a
   * repeated member name, as both JSON decoders do.
   */
  datatype Json =
    | JNull
    | JBool(b: bool)
    | JInt(i: int)
    | JStr(s: string)
    | JArr(elems: seq<Json>)
    | JObj(fields: map<string, Json>)

  /**
   * What one GET to the route server gave back: a transport-level failure
   * (connection refused, reset, timeout), or a response with its status and
   * its body decoded as JSON (None when the body is not valid JSON).
   */
  datatype HttpReply =
    | TransportError
    | Reply(status: int, body: Option<Json>)

  /** The member `name` of a JSON object, if the value is an object that has it. */
  function Member(data: Json, name: string): (r: Option<Json>)
    ensures r.Some? <==> data.JObj? && name in data.fields
    ensures r.Some? ==> r.value == data.fields[name]
  {
    if data.JObj? && name in data.fields then Some(data.fields[name]) else None
  }
}
