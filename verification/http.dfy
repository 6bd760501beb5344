/** HTTP as the routes and the browser see it. */
module Http {
  import opened Values

  /** A JSON response produced by one of the application's routes. */
  datatype Response = Response(status: int, body: Json)

  /** `response.ok`: the status is in the 2xx range. */
  predicate IsOk(status: int) {
    200 <= status <= 299
  }

  /** `NextResponse.json({ error: message }, { status })`. */
  function ErrorResponse(status: int, message: string): Response {
    Response(status, ErrorBody(message))
  }

  /** The generic message of the routes' catch-all handlers. */
  const InternalError := "Internal server error"

  /** What a `fetch` made by the browser yields: a thrown network error, or a
      response with its `ok` flag and its body parsed as JSON (None when
      `response.json()` would throw). */
  datatype ClientReply = NetworkFailure | Received(ok: bool, json: Option<Json>)

  /** The browser's view of a route's response. */
  function Deliver(r: Response): (c: ClientReply)
    ensures c.Received? && c.json == Some(r.body)
    ensures c.ok <==> 200 <= r.status < 300
  {
    Received(IsOk(r.status), Some(r.body))
  }
}
