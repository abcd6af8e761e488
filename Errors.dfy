/**
  The errors of the pipeline. Swift throws values of the existential type
  `Swift.Error`; here that is one datatype with a constructor for each `Error`
  struct of the pipeline (its `code` and its optional `underlying` error) and
  one for errors raised by code outside the model (an `NSError`, known only by
  its identity).
 */
module Errors {
  import opened Foundation

  /** `NetworkDataHandler.Error.Code` (only the code its tests observe). */
  datatype DataHandlerCode = StatusCodeError

  /** `NetworkJSONHandler.Error.Code`. */
  datatype JSONHandlerCode = MimeTypeError | DataHandlerError | JSONSerializationError

  /** `NetworkImageHandler.Error.Code`. */
  datatype ImageHandlerCode = MimeTypeError | DataHandlerError | ImageSerializationError

  /** `NetworkJSONOperation.Error.Code`. */
  datatype JSONOperationCode = SessionError | JSONHandlerError

  /** `NetworkImageOperation.Error.Code`. */
  datatype ImageOperationCode = SessionError | ImageHandlerError

  /** `NetworkImageSerialization.Error.Code`. */
  datatype ImageSerializationCode = ImageSourceError | ImageError

  datatype Error =
    | Foreign(id: nat)
    | DataHandlerFailure(dataHandlerCode: DataHandlerCode, underlying: Option<Error>)
    | JSONHandlerFailure(jsonHandlerCode: JSONHandlerCode, underlying: Option<Error>)
    | ImageHandlerFailure(imageHandlerCode: ImageHandlerCode, underlying: Option<Error>)
    | JSONOperationFailure(jsonOperationCode: JSONOperationCode, underlying: Option<Error>)
    | ImageOperationFailure(imageOperationCode: ImageOperationCode, underlying: Option<Error>)
    | ImageSerializationFailure(imageSerializationCode: ImageSerializationCode, underlying: Option<Error>)

  /** A call that returns a value or throws. */
  datatype Result<+T> = Success(value: T) | Failure(error: Error)

  /**
    The result of one stage together with the collaborator calls it made, in
    the order it made them.
   */
  datatype Traced<+T, +C> = Traced(result: Result<T>, calls: seq<C>)

  /** How a controller request ends: it returns, it throws, or the Swift runtime traps. */
  datatype Completion = Returned | Threw(error: Error) | Trapped

  /** The number of `underlying` links below `e`. */
  function Depth(e: Error): nat {
    if e.Foreign? || e.underlying.None? then 0 else 1 + Depth(e.underlying.value)
  }

  /** The innermost error of the `underlying` chain: the original cause. */
  function Root(e: Error): (r: Error)
    ensures r.Foreign? || r.underlying.None?
    ensures Depth(e) == 0 <==> r == e
  {
    if e.Foreign? || e.underlying.None? then e else Root(e.underlying.value)
  }

  /**
    Wrapping a cause adds exactly one level and keeps its root: the discipline
    every stage follows when it turns a collaborator's error into its own.
   */
  lemma WrapKeepsRoot(outer: Error, cause: Error)
    requires !outer.Foreign? && outer.underlying == Some(cause)
    ensures Depth(outer) == Depth(cause) + 1
    ensures Root(outer) == Root(cause)
  {
  }
}
