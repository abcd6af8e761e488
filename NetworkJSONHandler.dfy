/**
  `NetworkJSONHandler.json(with:response:)`: checks the response's MIME type,
  hands payload and response to the data handler, and parses what the data
  handler returns. Each failure becomes a `NetworkJSONHandler.Error` whose
  `underlying` is the collaborator's own error.
 */
module NetworkJSONHandler {
  import opened Foundation
  import opened Errors

  /** `JSONSerialization.ReadingOptions`. */
  datatype ReadingOption =
    | MutableContainers | MutableLeaves | FragmentsAllowed | JSON5Allowed | TopLevelDictionaryAssumed

  /** The collaborator calls the handler makes. */
  datatype Call =
    | DataHandlerCall(data: Data, response: Response)
    | JSONObjectCall(data: Data, options: set<ReadingOption>)

  const ExpectedMimeType: string := "text/javascript"

  /**
    The data handler is `(data, response) -> Result<Data>` and the parser
    `(data, options) -> Result<J>`; `J` is the parser's `JSON` type.
   */
  function JSON<J>(
    data: Data,
    response: Response,
    dataHandler: (Data, Response) -> Result<Data>,
    jsonObject: (Data, set<ReadingOption>) -> Result<J>
  ): (run: Traced<J, Call>)
    // A wrong or missing MIME type fails before either collaborator is called.
    ensures !HasMimeType(response, ExpectedMimeType)
        ==> run == Traced(Failure(JSONHandlerFailure(JSONHandlerCode.MimeTypeError, None)), [])
    // Otherwise the data handler is called first, with the untouched payload and response.
    ensures HasMimeType(response, ExpectedMimeType)
        ==> |run.calls| > 0 && run.calls[0] == DataHandlerCall(data, response)
    // A data handler failure is wrapped once and stops the handler before parsing.
    ensures HasMimeType(response, ExpectedMimeType) && dataHandler(data, response).Failure?
        ==> run.calls == [DataHandlerCall(data, response)]
            && run.result == Failure(JSONHandlerFailure(JSONHandlerCode.DataHandlerError, Some(dataHandler(data, response).error)))
    // The parser sees the data handler's output, never the input payload, with no options.
    ensures HasMimeType(response, ExpectedMimeType) && dataHandler(data, response).Success?
        ==> var handled := dataHandler(data, response).value;
            && run.calls == [DataHandlerCall(data, response), JSONObjectCall(handled, {})]
            && (jsonObject(handled, {}).Success? ==> run.result == jsonObject(handled, {}))
            && (jsonObject(handled, {}).Failure?
                ==> run.result == Failure(JSONHandlerFailure(JSONHandlerCode.JSONSerializationError, Some(jsonObject(handled, {}).error))))
    // Every error of this stage is a NetworkJSONHandler.Error.
    ensures run.result.Failure? ==> run.result.error.JSONHandlerFailure?
  {
    if !HasMimeType(response, ExpectedMimeType) then
      Traced(Failure(JSONHandlerFailure(JSONHandlerCode.MimeTypeError, None)), [])
    else
      var first := DataHandlerCall(data, response);
      match dataHandler(data, response)
      case Failure(e) => Traced(Failure(JSONHandlerFailure(JSONHandlerCode.DataHandlerError, Some(e))), [first])
      case Success(handled) =>
        var second := JSONObjectCall(handled, {});
        match jsonObject(handled, {})
        case Failure(e) => Traced(Failure(JSONHandlerFailure(JSONHandlerCode.JSONSerializationError, Some(e))), [first, second])
        case Success(json) => Traced(Success(json), [first, second])
  }

  /**
    The handler succeeds exactly when all three steps do, and then returns the
    parser's value unchanged.
   */
  lemma SucceedsIffEveryStepSucceeds<J>(
    data: Data,
    response: Response,
    dataHandler: (Data, Response) -> Result<Data>,
    jsonObject: (Data, set<ReadingOption>) -> Result<J>,
    json: J
  )
    ensures JSON(data, response, dataHandler, jsonObject).result == Success(json)
        <==> && HasMimeType(response, ExpectedMimeType)
             && dataHandler(data, response).Success?
             && jsonObject(dataHandler(data, response).value, {}) == Success(json)
  {
  }

  /** The guard is case-insensitive: the upper-case spelling passes. */
  lemma AcceptsUpperCaseMimeType(url: Url, status: Option<int>)
    ensures HasMimeType(Response(url, Some("TEXT/JAVASCRIPT"), status), ExpectedMimeType)
  {
  }

  /** The image pipeline's type, and a missing type, fail the guard. */
  lemma RefusesOtherMimeTypes(url: Url, status: Option<int>)
    ensures !HasMimeType(Response(url, Some("IMAGE/PNG"), status), ExpectedMimeType)
    ensures !HasMimeType(Response(url, None, status), ExpectedMimeType)
  {
  }

  /**
    For every response, the JSON handler's guard passes exactly when a MIME
    type is declared and it is `text/javascript` in any mix of letter case.
   */
  lemma GuardIgnoresCase(response: Response)
    ensures HasMimeType(response, ExpectedMimeType)
        <==> response.mimeType.Some? && EqualIgnoringCase(response.mimeType.value, "text/javascript")
  {
    assert IsLowercase(ExpectedMimeType);
  }
}
