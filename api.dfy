/** The value types shared by the product, recommendation, review and composite
    services: the API records, the event envelope sent over the broker, the
    exception kinds, and the shapes of HTTP outcomes as a caller sees them. */
module Api {

  /** Kotlin's nullable values. */
  datatype Option<+T> = None | Some(value: T) {
    /** Kotlin's `?:` operator. */
    function GetOr(default: T): T {
      if Some? then value else default
    }
  }

  /** A product as the product service's API carries it; `serviceAddress` is
      set only by the product service on reads. */
  datatype Product = Product(productId: int, name: string, weight: int, serviceAddress: Option<string>)

  datatype Recommendation = Recommendation(
    productId: int, recommendationId: int, author: string, rate: int, content: string,
    serviceAddress: Option<string>)

  datatype Review = Review(
    productId: int, reviewId: int, author: string, subject: string, content: string,
    serviceAddress: Option<string>)

  /** A recommendation inside a composite product: no productId, no address. */
  datatype RecommendationSummary = RecommendationSummary(recommendationId: int, author: string, rate: int, content: string)

  datatype ReviewSummary = ReviewSummary(reviewId: int, author: string, subject: string, content: string)

  datatype ServiceAddresses = ServiceAddresses(
    compositeAddress: string, productAddress: string, reviewAddress: string, recommendationAddress: string)

  /** The composite product. An absent summary list is modelled as the empty list. */
  datatype ProductAggregate = ProductAggregate(
    productId: int, name: string, weight: int,
    recommendations: seq<RecommendationSummary>, reviews: seq<ReviewSummary>,
    serviceAddresses: Option<ServiceAddresses>)

  /** CREATE and DELETE are the event types the consumers handle; `Other`
      stands for any further value of the enumeration. */
  datatype EventType = CREATE | DELETE | Other(name: string)

  /** The enumeration constant's name, as string interpolation prints it. */
  function EventTypeName(t: EventType): string {
    match t
    case CREATE => "CREATE"
    case DELETE => "DELETE"
    case Other(name) => name
  }

  /** The event envelope; the timestamp is not modelled. */
  datatype Event<T> = Event(eventType: EventType, key: int, data: Option<T>)

  /** The error body written by the services' exception handlers. */
  datatype HttpErrorInfo = HttpErrorInfo(httpStatus: int, path: string, message: string)

  /** What parsing a response body as an HttpErrorInfo gives: the parsed body,
      or the parse exception together with its own message. */
  datatype ParseOutcome = Parsed(info: HttpErrorInfo) | Unparseable(reason: Option<string>)

  /** A non-2xx HTTP response as the client library raises it: the status, the
      exception's own message, and the parse of its body. */
  datatype ErrorResponse = ErrorResponse(status: int, message: Option<string>, body: ParseOutcome)

  /** The exception kinds of the system. */
  datatype Error =
    | InvalidInput(message: Option<string>)
    | NotFound(message: Option<string>)
    | BadRequest(message: Option<string>)
    | EventProcessing(message: Option<string>)
    | ResponseError(response: ErrorResponse)   // an HTTP error response, rethrown unchanged
    | Unexpected(message: Option<string>)      // any other runtime failure (I/O, broker client)
    | NullValue                                // `!!` applied to null

  /** The exception's message (`ex.message`). */
  function MessageOf(e: Error): Option<string> {
    match e
    case ResponseError(r) => r.message
    case NullValue => None
    case _ => e.message
  }

  /** A call that returns a value or throws. */
  datatype Result<T> = Success(value: T) | Failure(error: Error)

  /** A call that returns nothing or throws. */
  datatype Outcome = Pass | Fail(error: Error)

  /** An HTTP call as the caller sees it: the decoded body, or the exception. */
  datatype HttpResult<T> = Ok(body: T) | Failed(error: Error)
}
