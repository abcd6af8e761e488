/**
  `NetworkImageOperation.image(for:)`: asks the session for the request's
  payload and response, then hands both to the image handler. A session
  failure becomes `sessionError`, a handler failure `imageHandlerError`; in
  both the collaborator's own error is the `underlying` error.
 */
module NetworkImageOperation {
  import opened Foundation
  import opened Errors

  /** The collaborator calls the operation makes. */
  datatype Call =
    | SessionCall(request: Request)
    | ImageHandlerCall(data: Data, response: Response)

  /**
    The session is `request -> Result<(Data, Response)>` (one awaited call)
    and the image handler `(data, response) -> Result<I>`.
   */
  function Image<I>(
    request: Request,
    session: Request -> Result<(Data, Response)>,
    imageHandler: (Data, Response) -> Result<I>
  ): (run: Traced<I, Call>)
    // The session is always asked first, for exactly the given request.
    ensures |run.calls| > 0 && run.calls[0] == SessionCall(request)
    // A session failure is wrapped once and the handler is never called.
    ensures session(request).Failure?
        ==> run == Traced(Failure(ImageOperationFailure(ImageOperationCode.SessionError, Some(session(request).error))),
                          [SessionCall(request)])
    // The handler gets exactly what the session returned; its value comes back
    // unchanged, its error wrapped once.
    ensures session(request).Success?
        ==> var (data, response) := session(request).value;
            && run.calls == [SessionCall(request), ImageHandlerCall(data, response)]
            && (imageHandler(data, response).Success? ==> run.result == imageHandler(data, response))
            && (imageHandler(data, response).Failure?
                ==> run.result == Failure(ImageOperationFailure(ImageHandlerError, Some(imageHandler(data, response).error))))
    // Every error of this stage is a NetworkImageOperation.Error with an underlying error.
    ensures run.result.Failure?
        ==> run.result.error.ImageOperationFailure? && run.result.error.underlying.Some?
  {
    var first := SessionCall(request);
    match session(request)
    case Failure(e) => Traced(Failure(ImageOperationFailure(ImageOperationCode.SessionError, Some(e))), [first])
    case Success((data, response)) =>
      var second := ImageHandlerCall(data, response);
      match imageHandler(data, response)
      case Failure(e) => Traced(Failure(ImageOperationFailure(ImageHandlerError, Some(e))), [first, second])
      case Success(image) => Traced(Success(image), [first, second])
  }

  /**
    Whatever fails, the operation adds exactly one level of wrapping and the
    original cause is still at the bottom of the chain.
   */
  lemma FailureWrapsOnce<I>(
    request: Request,
    session: Request -> Result<(Data, Response)>,
    imageHandler: (Data, Response) -> Result<I>
  )
    requires Image(request, session, imageHandler).result.Failure?
    ensures var e := Image(request, session, imageHandler).result.error;
            var cause := if session(request).Failure? then session(request).error
                         else imageHandler(session(request).value.0, session(request).value.1).error;
            && e.underlying == Some(cause)
            && Depth(e) == Depth(cause) + 1
            && Root(e) == Root(cause)
  {
    var e := Image(request, session, imageHandler).result.error;
    WrapKeepsRoot(e, e.underlying.value);
  }
}
