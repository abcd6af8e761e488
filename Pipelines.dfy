/**
  The two pipelines as the app wires them: the operation over a session and
  the handler, the handler over `NetworkDataHandler` and the decoder (and, for
  images, the decoder over an image source). The lemmas give every outcome of
  a whole fetch, showing how many layers wrap each failure.
 */
module Pipelines {
  import opened Foundation
  import opened Errors
  import NetworkDataHandler
  import NetworkJSONHandler
  import NetworkJSONOperation
  import NetworkImageHandler
  import NetworkImageOperation
  import NetworkImageSerialization

  /** The session: one awaited request, its payload and response or an error. */
  type Session = Request -> Result<(Data, Response)>

  /** `NetworkJSONOperation<NetworkSession, NetworkJSONHandler<NetworkDataHandler, JSONSerialization>>.json(for:)` */
  function FeedFetch(
    request: Request,
    session: Session,
    jsonObject: (Data, set<NetworkJSONHandler.ReadingOption>) -> Result<Json>
  ): (fetch: Traced<Json, NetworkJSONOperation.Call>)
    // The session is asked first, for exactly this request.
    ensures |fetch.calls| > 0 && fetch.calls[0] == NetworkJSONOperation.SessionCall(request)
    // A value only ever comes from parsing the payload the session returned.
    ensures fetch.result.Success?
        ==> session(request).Success? && fetch.result == jsonObject(session(request).value.0, {})
    // Every failure is the operation's error, wrapping its cause.
    ensures fetch.result.Failure?
        ==> fetch.result.error.JSONOperationFailure? && fetch.result.error.underlying.Some?
  {
    NetworkJSONOperation.JSON(request, session,
      (data: Data, response: Response) => NetworkJSONHandler.JSON(data, response, NetworkDataHandler.DataWith, jsonObject).result)
  }

  /**
    `NetworkImageOperation<NetworkSession, NetworkImageHandler<NetworkDataHandler,
    NetworkImageSerialization<NetworkImageSource>>>.image(for:)`
   */
  function ImageFetch<S, I>(
    request: Request,
    session: Session,
    createImageSource: (Data, Option<NetworkImageSerialization.ImageOptions>) -> Option<S>,
    createImage: (S, int, Option<NetworkImageSerialization.ImageOptions>) -> Option<I>
  ): (fetch: Traced<I, NetworkImageOperation.Call>)
    // The session is asked first, for exactly this request.
    ensures |fetch.calls| > 0 && fetch.calls[0] == NetworkImageOperation.SessionCall(request)
    // An image only ever is frame 0 of a source made from the session's payload.
    ensures fetch.result.Success?
        ==> && session(request).Success?
            && var source := createImageSource(session(request).value.0, None);
            && source.Some?
            && createImage(source.value, NetworkImageSerialization.FirstFrame, None) == Some(fetch.result.value)
    // Every failure is the operation's error, wrapping its cause.
    ensures fetch.result.Failure?
        ==> fetch.result.error.ImageOperationFailure? && fetch.result.error.underlying.Some?
  {
    NetworkImageOperation.Image(request, session,
      (data: Data, response: Response) =>
        NetworkImageHandler.Image(data, response, NetworkDataHandler.DataWith,
          (handled: Data) => NetworkImageSerialization.Image(handled, createImageSource, createImage).result).result)
  }

  /**
    Every outcome of a feed fetch. A handler failure is nested one level
    below `jsonHandlerError`, and a status-code failure two levels; only a
    session failure is wrapped once.
   */
  lemma FeedFetchOutcomes(
    request: Request,
    session: Session,
    jsonObject: (Data, set<NetworkJSONHandler.ReadingOption>) -> Result<Json>
  )
    ensures var result := FeedFetch(request, session, jsonObject).result;
      && (session(request).Failure?
          ==> result == Failure(JSONOperationFailure(JSONOperationCode.SessionError, Some(session(request).error))))
      && (session(request).Success?
          ==> var (data, response) := session(request).value;
              && (!HasMimeType(response, NetworkJSONHandler.ExpectedMimeType)
                  ==> result == Failure(JSONOperationFailure(JSONOperationCode.JSONHandlerError,
                                 Some(JSONHandlerFailure(JSONHandlerCode.MimeTypeError, None)))))
              && (HasMimeType(response, NetworkJSONHandler.ExpectedMimeType) && !NetworkDataHandler.IsSuccessStatus(response)
                  ==> result == Failure(JSONOperationFailure(JSONOperationCode.JSONHandlerError,
                                 Some(JSONHandlerFailure(JSONHandlerCode.DataHandlerError,
                                   Some(DataHandlerFailure(StatusCodeError, None)))))))
              && (HasMimeType(response, NetworkJSONHandler.ExpectedMimeType) && NetworkDataHandler.IsSuccessStatus(response)
                  ==> match jsonObject(data, {})
                      case Success(json) => result == Success(json)
                      case Failure(e) =>
                        result == Failure(JSONOperationFailure(JSONOperationCode.JSONHandlerError,
                                    Some(JSONHandlerFailure(JSONHandlerCode.JSONSerializationError, Some(e)))))))
  {
  }

  /**
    Every outcome of an image fetch: three layers of wrapping for a decoding
    failure, whose innermost error never has an underlying error.
   */
  lemma ImageFetchOutcomes<S, I>(
    request: Request,
    session: Session,
    createImageSource: (Data, Option<NetworkImageSerialization.ImageOptions>) -> Option<S>,
    createImage: (S, int, Option<NetworkImageSerialization.ImageOptions>) -> Option<I>
  )
    ensures var result := ImageFetch(request, session, createImageSource, createImage).result;
      && (session(request).Failure?
          ==> result == Failure(ImageOperationFailure(ImageOperationCode.SessionError, Some(session(request).error))))
      && (session(request).Success?
          ==> var (data, response) := session(request).value;
              && (!HasMimeType(response, NetworkImageHandler.ExpectedMimeType)
                  ==> result == Failure(ImageOperationFailure(ImageOperationCode.ImageHandlerError,
                                 Some(ImageHandlerFailure(ImageHandlerCode.MimeTypeError, None)))))
              && (HasMimeType(response, NetworkImageHandler.ExpectedMimeType) && !NetworkDataHandler.IsSuccessStatus(response)
                  ==> result == Failure(ImageOperationFailure(ImageOperationCode.ImageHandlerError,
                                 Some(ImageHandlerFailure(ImageHandlerCode.DataHandlerError,
                                   Some(DataHandlerFailure(StatusCodeError, None)))))))
              && (HasMimeType(response, NetworkImageHandler.ExpectedMimeType) && NetworkDataHandler.IsSuccessStatus(response)
                  ==> match createImageSource(data, None)
                      case None =>
                        result == Failure(ImageOperationFailure(ImageOperationCode.ImageHandlerError,
                                    Some(ImageHandlerFailure(ImageHandlerCode.ImageSerializationError,
                                      Some(ImageSerializationFailure(ImageSourceError, None))))))
                      case Some(source) =>
                        match createImage(source, NetworkImageSerialization.FirstFrame, None)
                        case None =>
                          result == Failure(ImageOperationFailure(ImageOperationCode.ImageHandlerError,
                                      Some(ImageHandlerFailure(ImageHandlerCode.ImageSerializationError,
                                        Some(ImageSerializationFailure(ImageError, None))))))
                        case Some(image) => result == Success(image)))
  {
  }

  /**
    Provenance: a failed feed fetch's root cause is the session's or the
    parser's own root cause, or one of the two errors the pipeline raises
    itself (wrong MIME type, refused status code).
   */
  lemma FeedFetchRootCause(
    request: Request,
    session: Session,
    jsonObject: (Data, set<NetworkJSONHandler.ReadingOption>) -> Result<Json>
  )
    requires FeedFetch(request, session, jsonObject).result.Failure?
    ensures var root := Root(FeedFetch(request, session, jsonObject).result.error);
      || (session(request).Failure? && root == Root(session(request).error))
      || root == JSONHandlerFailure(JSONHandlerCode.MimeTypeError, None)
      || root == DataHandlerFailure(StatusCodeError, None)
      || (session(request).Success? && jsonObject(session(request).value.0, {}).Failure?
          && root == Root(jsonObject(session(request).value.0, {}).error))
  {
    FeedFetchOutcomes(request, session, jsonObject);
  }
}
