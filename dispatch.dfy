/** The dispatcher boundary.  The dispatcher itself (credential resolution and
    the HTTP call) is outside the model: a request is an output value and the
    dispatcher's response is an input value. */
module Dispatch {
  import opened Wrappers
  import Json

  datatype Method = GET | POST | PUT | PATCH | DELETE

  /** What a tool hands to the dispatcher. */
  datatype Request = Request(
    verb: Method,
    path: string,
    headers: map<string, string>,
    body: Option<Json.Value>)

  /** What the dispatcher returns: a success flag, the parsed body, and an optional error message. */
  datatype Response = Response(success: bool, body: Json.Value, error: Option<string>)

  /** `response.error.message if response.error else default`. */
  function ErrorMessage(resp: Response, default: string): (msg: string)
    ensures resp.error.Some? ==> msg == resp.error.value
    ensures resp.error.None? ==> msg == default
  {
    resp.error.GetOr(default)
  }
}
