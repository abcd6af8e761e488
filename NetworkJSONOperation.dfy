/**
  `NetworkJSONOperation.json(for:)`: asks the session for the request's
  payload and response, then hands both to the JSON handler. A session
  failure becomes `sessionError`, a handler failure `jsonHandlerError`; in
  both the collaborator's own error is the `underlying` error.
 */
module NetworkJSONOperation {
  import opened Foundation
  import opened Errors

  /** The collaborator calls the operation makes. */
  datatype Call =
    | SessionCall(request: Request)
    | JSONHandlerCall(data: Data, response: Response)

  /**
    The session is `request -> Result<(Data, Response)>` (one awaited call)
    and the JSON handler `(data, response) -> Result<J>`.
   */
  function JSON<J>(
    request: Request,
    session: Request -> Result<(Data, Response)>,
    jsonHandler: (Data, Response) -> Result<J>
  ): (run: Traced<J, Call>)
    // The session is always asked first, for exactly the given request.
    ensures |run.calls| > 0 && run.calls[0] == SessionCall(request)
    // A session failure is wrapped once and the handler is never called.
    ensures session(request).Failure?
        ==> run == Traced(Failure(JSONOperationFailure(JSONOperationCode.SessionError, Some(session(request).error))),
                          [SessionCall(request)])
    // The handler gets exactly what the session returned; its value comes back
    // unchanged, its error wrapped once.
    ensures session(request).Success?
        ==> var (data, response) := session(request).value;
            && run.calls == [SessionCall(request), JSONHandlerCall(data, response)]
            && (jsonHandler(data, response).Success? ==> run.result == jsonHandler(data, response))
            && (jsonHandler(data, response).Failure?
                ==> run.result == Failure(JSONOperationFailure(JSONHandlerError, Some(jsonHandler(data, response).error))))
    // Every error of this stage is a NetworkJSONOperation.Error with an underlying error.
    ensures run.result.Failure?
        ==> run.result.error.JSONOperationFailure? && run.result.error.underlying.Some?
  {
    var first := SessionCall(request);
    match session(request)
    case Failure(e) => Traced(Failure(JSONOperationFailure(JSONOperationCode.SessionError, Some(e))), [first])
    case Success((data, response)) =>
      var second := JSONHandlerCall(data, response);
      match jsonHandler(data, response)
      case Failure(e) => Traced(Failure(JSONOperationFailure(JSONHandlerError, Some(e))), [first, second])
      case Success(json) => Traced(Success(json), [first, second])
  }

  /**
    Whatever fails, the operation adds exactly one level of wrapping and the
    original cause is still at the bottom of the chain.
   */
  lemma FailureWrapsOnce<J>(
    request: Request,
    session: Request -> Result<(Data, Response)>,
    jsonHandler: (Data, Response) -> Result<J>
  )
    requires JSON(request, session, jsonHandler).result.Failure?
    ensures var e := JSON(request, session, jsonHandler).result.error;
            var cause := if session(request).Failure? then session(request).error
                         else jsonHandler(session(request).value.0, session(request).value.1).error;
            && e.underlying == Some(cause)
            && Depth(e) == Depth(cause) + 1
            && Root(e) == Root(cause)
  {
    var e := JSON(request, session, jsonHandler).result.error;
    WrapKeepsRoot(e, e.underlying.value);
  }
}
