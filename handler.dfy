/** The status and body the HTTP layer sends for an error (`ErrHandler`, main.go:55-65). */
module Http {

  import opened Errors

  /** The response: its status code and the `fiber.Error` rendered as the JSON body. */
  datatype ErrorResponse = ErrorResponse(status: int, body: FiberError)

  const InternalServerError: int := 500

  /**
   * `ErrHandler`: an error that carries a status keeps it and is sent as it is;
   * any other error is wrapped with status 500 and its own message.
   */
  function ErrHandler(err: Error): (r: ErrorResponse)
    ensures r.status == if err.Fiber? then err.fiber.code else 500
    ensures r.body.code == r.status
    ensures r.body.message == Message(err)
  {
    match err
    case Fiber(f) => ErrorResponse(f.code, f)
    case _ =>
      var code := InternalServerError;
      ErrorResponse(code, FiberError(code, Message(err)))
  }

  /** Handling the body of a response once more changes nothing. */
  lemma ErrHandlerIdempotent(err: Error)
    ensures ErrHandler(Fiber(ErrHandler(err).body)) == ErrHandler(err)
  {
  }
}
