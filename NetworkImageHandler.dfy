/**
  `NetworkImageHandler.image(with:response:)`: the image pipeline's twin of
  the JSON handler. It checks for `image/png`, hands payload and response to
  the data handler, and decodes what the data handler returns.
 */
module NetworkImageHandler {
  import opened Foundation
  import opened Errors

  /** The collaborator calls the handler makes. */
  datatype Call =
    | DataHandlerCall(data: Data, response: Response)
    | ImageSerializationCall(data: Data)

  const ExpectedMimeType: string := "image/png"

  /**
    The data handler is `(data, response) -> Result<Data>` and the image
    serialization `data -> Result<I>`; `I` is its `Image` type.
   */
  function Image<I>(
    data: Data,
    response: Response,
    dataHandler: (Data, Response) -> Result<Data>,
    imageSerialization: Data -> Result<I>
  ): (run: Traced<I, Call>)
    // A wrong or missing MIME type fails before either collaborator is called.
    ensures !HasMimeType(response, ExpectedMimeType)
        ==> run == Traced(Failure(ImageHandlerFailure(ImageHandlerCode.MimeTypeError, None)), [])
    // Otherwise the data handler is called first, with the untouched payload and response.
    ensures HasMimeType(response, ExpectedMimeType)
        ==> |run.calls| > 0 && run.calls[0] == DataHandlerCall(data, response)
    // A data handler failure is wrapped once and stops the handler before decoding.
    ensures HasMimeType(response, ExpectedMimeType) && dataHandler(data, response).Failure?
        ==> run.calls == [DataHandlerCall(data, response)]
            && run.result == Failure(ImageHandlerFailure(ImageHandlerCode.DataHandlerError, Some(dataHandler(data, response).error)))
    // The decoder sees the data handler's output, never the input payload.
    ensures HasMimeType(response, ExpectedMimeType) && dataHandler(data, response).Success?
        ==> var handled := dataHandler(data, response).value;
            && run.calls == [DataHandlerCall(data, response), ImageSerializationCall(handled)]
            && (imageSerialization(handled).Success? ==> run.result == imageSerialization(handled))
            && (imageSerialization(handled).Failure?
                ==> run.result == Failure(ImageHandlerFailure(ImageHandlerCode.ImageSerializationError, Some(imageSerialization(handled).error))))
    // Every error of this stage is a NetworkImageHandler.Error.
    ensures run.result.Failure? ==> run.result.error.ImageHandlerFailure?
  {
    if !HasMimeType(response, ExpectedMimeType) then
      Traced(Failure(ImageHandlerFailure(ImageHandlerCode.MimeTypeError, None)), [])
    else
      var first := DataHandlerCall(data, response);
      match dataHandler(data, response)
      case Failure(e) => Traced(Failure(ImageHandlerFailure(ImageHandlerCode.DataHandlerError, Some(e))), [first])
      case Success(handled) =>
        var second := ImageSerializationCall(handled);
        match imageSerialization(handled)
        case Failure(e) => Traced(Failure(ImageHandlerFailure(ImageHandlerCode.ImageSerializationError, Some(e))), [first, second])
        case Success(image) => Traced(Success(image), [first, second])
  }

  /**
    The handler succeeds exactly when all three steps do, and then returns the
    decoder's image unchanged.
   */
  lemma SucceedsIffEveryStepSucceeds<I>(
    data: Data,
    response: Response,
    dataHandler: (Data, Response) -> Result<Data>,
    imageSerialization: Data -> Result<I>,
    image: I
  )
    ensures Image(data, response, dataHandler, imageSerialization).result == Success(image)
        <==> && HasMimeType(response, ExpectedMimeType)
             && dataHandler(data, response).Success?
             && imageSerialization(dataHandler(data, response).value) == Success(image)
  {
  }

  /** The guard is case-insensitive: the upper-case spelling passes. */
  lemma AcceptsUpperCaseMimeType(url: Url, status: Option<int>)
    ensures HasMimeType(Response(url, Some("IMAGE/PNG"), status), ExpectedMimeType)
  {
  }

  /** The feed pipeline's type, and a missing type, fail the guard. */
  lemma RefusesOtherMimeTypes(url: Url, status: Option<int>)
    ensures !HasMimeType(Response(url, Some("TEXT/JAVASCRIPT"), status), ExpectedMimeType)
    ensures !HasMimeType(Response(url, None, status), ExpectedMimeType)
  {
  }

  /**
    For every response, the image handler's guard passes exactly when a MIME
    type is declared and it is `image/png` in any mix of letter case.
   */
  lemma GuardIgnoresCase(response: Response)
    ensures HasMimeType(response, ExpectedMimeType)
        <==> response.mimeType.Some? && EqualIgnoringCase(response.mimeType.value, "image/png")
  {
    assert IsLowercase(ExpectedMimeType);
  }
}
