/** Base models of the network client: the fixed codes, the status-code
    wrapper with its classification into an ErrorType, and the response
    envelope. */
module DataModels {
  import opened Outcomes
  import opened Domain

  // NetworkParams
  const NO_CONNECTION_CODE: int := -1
  const BAD_REQUEST_CODE: int := 400
  const SERVER_ERROR_CODE: int := 500

  /** StatusCode: a value class around an HTTP status (or the two
      pseudo-codes -1, no connection, and 0, no answer). */
  datatype StatusCode = StatusCode(code: int)

  /** StatusCode.mapToErrorType. As written, the whole 400..499 range is
      classified like a lost connection. */
  function MapToErrorType(s: StatusCode): (e: ErrorType)
    ensures e == NoConnection <==> s.code == NO_CONNECTION_CODE || BAD_REQUEST_CODE <= s.code <= 499
    ensures e == ServerError <==> SERVER_ERROR_CODE <= s.code <= 599
    ensures e == UnknownError <==>
      s.code != NO_CONNECTION_CODE && !(BAD_REQUEST_CODE <= s.code <= 599)
  {
    if s.code == NO_CONNECTION_CODE then NoConnection
    else if BAD_REQUEST_CODE <= s.code <= 499 then NoConnection
    else if SERVER_ERROR_CODE <= s.code <= 599 then ServerError
    else UnknownError
  }

  /** Response<SealedResponse>: the envelope every request ends in. */
  datatype Response<+B> = Response(resultCode: StatusCode, body: Option<B>)

  /** `Response()`: the envelope built from the constructor's defaults. */
  function DefaultResponse<B>(): (r: Response<B>)
    ensures r.resultCode.code == 0 && r.body.None?
  {
    Response(StatusCode(0), None)
  }

  lemma NoConnectionCodeClassified()
    ensures MapToErrorType(StatusCode(NO_CONNECTION_CODE)) == NoConnection
  {
  }

  lemma ClientErrorsClassifiedAsNoConnection(code: int)
    requires 400 <= code <= 499
    ensures MapToErrorType(StatusCode(code)) == NoConnection
  {
  }

  lemma ServerErrorsClassified(code: int)
    requires 500 <= code <= 599
    ensures MapToErrorType(StatusCode(code)) == ServerError
  {
  }

  /** Every code that is neither -1 nor in 400..599 (0, 1xx to 3xx, 600 and
      above, every other negative number) is an unknown error. */
  lemma OtherCodesClassifiedAsUnknown(code: int)
    requires code != -1 && (code < 400 || code > 599)
    ensures MapToErrorType(StatusCode(code)) == UnknownError
  {
  }

  /** The code of the default envelope is an unknown error. */
  lemma DefaultResponseClassifiedAsUnknown<B>()
    ensures MapToErrorType(DefaultResponse<B>().resultCode) == UnknownError
  {
  }
}
