/** Shared value types: optional values and the JSON responses of the route handlers. */
module Common {

  datatype Option<+T> = None | Some(value: T)

  /** What a route handler's `NextResponse.json(body, { status })` carries. */
  datatype Payload<+T> = ErrorBody(error: string) | Json(value: T)

  datatype Response<+T> = Response(status: nat, body: Payload<T>) {
    /** `response.ok` on the client: a status in 200..299. */
    predicate Ok() { 200 <= status <= 299 }
  }

  /** `NextResponse.json(value)` with the default status 200. */
  function JsonOk<T>(value: T): Response<T> { Response(200, Json(value)) }

  function Error<T>(status: nat, message: string): Response<T> { Response(status, ErrorBody(message)) }
}
