/**
  `NetworkDataHandler`, the status-code gate both handlers hand the payload
  to. Its source is not part of this model. Its tests fix this much: a
  response with a status code in 200...299 passes the payload through
  unchanged. A response with a code in 100...199 or 300...599, or with no
  status code, fails with `statusCodeError` and no underlying error. Codes
  below 100 and from 600 up are never exercised by the tests; refusing them
  too is this model's own choice.
 */
module NetworkDataHandler {
  import opened Foundation
  import opened Errors

  predicate IsSuccessStatus(response: Response) {
    response.statusCode.Some? && 200 <= response.statusCode.value <= 299
  }

  /** `NetworkDataHandler.data(with:response:)`. */
  function DataWith(data: Data, response: Response): (r: Result<Data>)
    ensures r.Success? <==> IsSuccessStatus(response)
    ensures r.Success? ==> r.value == data
    ensures r.Failure? ==> r.error == DataHandlerFailure(StatusCodeError, None)
  {
    if IsSuccessStatus(response) then Success(data)
    else Failure(DataHandlerFailure(StatusCodeError, None))
  }

  /** Informational and redirection-to-server-error codes are all refused. */
  lemma RefusesOutOfRangeCodes(data: Data, response: Response)
    requires response.statusCode.Some?
    requires var c := response.statusCode.value; 100 <= c <= 199 || 300 <= c <= 599
    ensures DataWith(data, response) == Failure(DataHandlerFailure(StatusCodeError, None))
  {
  }

  /** A response with no status code (not an HTTP response) is refused, not waved through. */
  lemma RefusesResponseWithoutStatus(data: Data, response: Response)
    requires response.statusCode.None?
    ensures DataWith(data, response) == Failure(DataHandlerFailure(StatusCodeError, None))
  {
  }
}
