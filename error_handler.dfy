/** The services' exception handlers: which exception kinds become which HTTP
    status with an HttpErrorInfo body, in the current variant (three kinds) and
    the earlier one (two kinds), and the HTTP response a caller then sees. */
module ErrorHandler {
  import opened Api
  import Decimal

  const BAD_REQUEST: int := 400
  const NOT_FOUND: int := 404
  const UNPROCESSABLE_ENTITY: int := 422
  const INTERNAL_SERVER_ERROR: int := 500

  /** The status the current handler gives the exception kind, if it handles it. */
  function HandledStatus(e: Error): Option<int> {
    match e
    case BadRequest(_) => Some(BAD_REQUEST)
    case NotFound(_) => Some(NOT_FOUND)
    case InvalidInput(_) => Some(UNPROCESSABLE_ENTITY)
    case _ => None
  }

  /** The status the earlier handler gives the exception kind, if it handles it. */
  function LegacyHandledStatus(e: Error): Option<int> {
    match e
    case NotFound(_) => Some(NOT_FOUND)
    case InvalidInput(_) => Some(UNPROCESSABLE_ENTITY)
    case _ => None
  }

  /** createHttpErrorInfo: the status, the request path, and the exception's message or "". */
  function CreateHttpErrorInfo(httpStatus: int, path: string, e: Error): HttpErrorInfo {
    HttpErrorInfo(httpStatus, path, MessageOf(e).GetOr(""))
  }

  function ReasonPhrase(status: int): string {
    if status == BAD_REQUEST then "Bad Request"
    else if status == NOT_FOUND then "Not Found"
    else if status == UNPROCESSABLE_ENTITY then "Unprocessable Entity"
    else if status == INTERNAL_SERVER_ERROR then "Internal Server Error"
    else ""
  }

  /** The message the caller's HTTP client gives the exception it raises for a status. */
  function ClientMessage(status: int): Option<string> {
    Some(Decimal.IntToString(status) + " " + ReasonPhrase(status))
  }

  /** A handler's answer for an exception: a handled kind gets its status and an
      HttpErrorInfo body; anything else is a 500 whose body is not an HttpErrorInfo. */
  function ErrorResponseFor(status: Option<int>, path: string, e: Error): ErrorResponse {
    match status
    case Some(st) => ErrorResponse(st, ClientMessage(st), Parsed(CreateHttpErrorInfo(st, path, e)))
    case None => ErrorResponse(INTERNAL_SERVER_ERROR, ClientMessage(INTERNAL_SERVER_ERROR), Unparseable(None))
  }

  /** What a caller of an endpoint of the current variant sees for its outcome. */
  function Respond<T>(r: Result<T>, path: string): HttpResult<T> {
    match r
    case Success(v) => Ok(v)
    case Failure(e) => Failed(ResponseError(ErrorResponseFor(HandledStatus(e), path, e)))
  }

  /** The same for the earlier variant. */
  function LegacyRespond<T>(r: Result<T>, path: string): HttpResult<T> {
    match r
    case Success(v) => Ok(v)
    case Failure(e) => Failed(ResponseError(ErrorResponseFor(LegacyHandledStatus(e), path, e)))
  }

  /** The current handler: 400 exactly for BadRequest, 404 exactly for NotFound,
      422 exactly for InvalidInput; every other kind is left to the framework. */
  lemma HandledStatusKinds(e: Error)
    ensures HandledStatus(e) == Some(400) <==> e.BadRequest?
    ensures HandledStatus(e) == Some(404) <==> e.NotFound?
    ensures HandledStatus(e) == Some(422) <==> e.InvalidInput?
    ensures HandledStatus(e).None? <==> !(e.BadRequest? || e.NotFound? || e.InvalidInput?)
  {
  }

  /** The earlier handler agrees with the current one except that it has no BadRequest handler. */
  lemma LegacyHandledStatusKinds(e: Error)
    ensures LegacyHandledStatus(e) == Some(404) <==> e.NotFound?
    ensures LegacyHandledStatus(e) == Some(422) <==> e.InvalidInput?
    ensures LegacyHandledStatus(e) == if e.BadRequest? then None else HandledStatus(e)
  {
  }

  /** A handled exception reaches the caller with its status and its body; an
      unhandled one as a 500; a success as its value. */
  lemma RespondShape<T>(r: Result<T>, path: string)
    ensures r.Success? <==> Respond(r, path).Ok?
    ensures r.Success? ==> Respond(r, path).body == r.value
    ensures r.Failure? && HandledStatus(r.error).Some? ==>
      var resp := Respond(r, path).error.response;
      resp.status == HandledStatus(r.error).value &&
      resp.body == Parsed(HttpErrorInfo(resp.status, path, MessageOf(r.error).GetOr("")))
    ensures r.Failure? && HandledStatus(r.error).None? ==> Respond(r, path).error.response.status == 500
  {
  }
}
