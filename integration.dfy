/** The composite's integration layer in its current, event-driven variant:
    writes become events published to one output binding per entity, reads are
    HTTP calls whose failures are translated (product) or absorbed
    (recommendations, reviews). */
module CompositeIntegration {
  import opened Api
  import Urls
  import Messaging
  import Dispatch
  import ErrorHandler

  const ProductServiceUrl: string := "http://product"
  const RecommendationServiceUrl: string := "http://recommendation"
  const ReviewServiceUrl: string := "http://review"

  const ProductsBinding: string := "products-out-0"
  const RecommendationsBinding: string := "recommendations-out-0"
  const ReviewsBinding: string := "reviews-out-0"

  /** The answers the network gives to GET requests, by URL. */
  datatype Network = Network(
    product: string -> HttpResult<Product>,
    recommendations: string -> HttpResult<seq<Recommendation>>,
    reviews: string -> HttpResult<seq<Review>>)

  /** sendMessage: the message built for an event, with the event's key as partitionKey. */
  function BuildMessage(bindingName: string, payload: Messaging.Payload): Messaging.Message {
    Messaging.Message(bindingName, payload, Messaging.EventKey(payload))
  }

  /** The message each integration call publishes. */
  function MessageFor(c: Dispatch.Command): Messaging.Message {
    match c
    case CreateProductCmd(body) =>
      BuildMessage(ProductsBinding, Messaging.ProductEvent(Event(CREATE, body.productId, Some(body))))
    case CreateRecommendationCmd(body) =>
      BuildMessage(RecommendationsBinding, Messaging.RecommendationEvent(Event(CREATE, body.productId, Some(body))))
    case CreateReviewCmd(body) =>
      BuildMessage(ReviewsBinding, Messaging.ReviewEvent(Event(CREATE, body.productId, Some(body))))
    case DeleteProductCmd(productId) =>
      BuildMessage(ProductsBinding, Messaging.ProductEvent(Event(DELETE, productId, None)))
    case DeleteRecommendationsCmd(productId) =>
      BuildMessage(RecommendationsBinding, Messaging.RecommendationEvent(Event(DELETE, productId, None)))
    case DeleteReviewsCmd(productId) =>
      BuildMessage(ReviewsBinding, Messaging.ReviewEvent(Event(DELETE, productId, None)))
  }

  /** The messages of a sequence of calls, in order. */
  function Publish(cs: seq<Dispatch.Command>): (ms: seq<Messaging.Message>)
    ensures |ms| == |cs|
  {
    seq(|cs|, i requires 0 <= i < |cs| => MessageFor(cs[i]))
  }

  /** The messages of consecutive calls are consecutive. */
  lemma PublishConcat(a: seq<Dispatch.Command>, b: seq<Dispatch.Command>)
    ensures Publish(a + b) == Publish(a) + Publish(b)
  {
  }

  /** getErrorMessage as intended: the parsed body's message, otherwise the HTTP exception's own message. */
  function ErrorMessage(ex: ErrorResponse): Option<string> {
    match ex.body
    case Parsed(info) => Some(info.message)
    case Unparseable(_) => ex.message
  }

  /** getErrorMessage as written: the catch parameter shadows the HTTP exception,
      so the fallback is the parse exception's message. */
  function ErrorMessageAsWritten(ex: ErrorResponse): Option<string> {
    match ex.body
    case Parsed(info) => Some(info.message)
    case Unparseable(reason) => reason
  }

  /** handleException: 404 becomes NotFound, 422 InvalidInput, anything else is rethrown. */
  function HandleException(ex: ErrorResponse): Error {
    if ex.status == 404 then NotFound(ErrorMessage(ex))
    else if ex.status == 422 then InvalidInput(ErrorMessage(ex))
    else ResponseError(ex)
  }

  /** handleException as written, with the shadowed getErrorMessage. */
  function HandleExceptionAsWritten(ex: ErrorResponse): Error {
    if ex.status == 404 then NotFound(ErrorMessageAsWritten(ex))
    else if ex.status == 422 then InvalidInput(ErrorMessageAsWritten(ex))
    else ResponseError(ex)
  }

  /** The product read's error mapping: HTTP error responses go through
      handleException, every other failure propagates as it is. */
  function ReadProduct(response: HttpResult<Product>): Result<Product> {
    match response
    case Ok(p) => Success(p)
    case Failed(ResponseError(ex)) => Failure(HandleException(ex))
    case Failed(e) => Failure(e)
  }

  /** onErrorResume: any failure reads as the empty list. */
  function Absorb<T>(response: HttpResult<seq<T>>): seq<T> {
    match response
    case Ok(list) => list
    case Failed(_) => []
  }

  function GetProduct(net: Network, productId: int): Result<Product> {
    ReadProduct(net.product(Urls.ProductUrl(ProductServiceUrl, productId)))
  }

  function GetRecommendations(net: Network, productId: int): seq<Recommendation> {
    Absorb(net.recommendations(Urls.RecommendationsUrl(RecommendationServiceUrl, productId)))
  }

  function GetReviews(net: Network, productId: int): seq<Review> {
    Absorb(net.reviews(Urls.ReviewsUrl(ReviewServiceUrl, productId)))
  }

  class ProductCompositeIntegration {
    const broker: Messaging.Channel<Messaging.Message>

    constructor (broker: Messaging.Channel<Messaging.Message>)
      ensures this.broker == broker
    {
      this.broker := broker;
    }

    method SendMessage(bindingName: string, payload: Messaging.Payload) returns (o: Outcome)
      modifies broker
      ensures o == broker.answer(old(broker.sent)) && broker.sent == old(broker.sent) + 1
      ensures broker.log == if o.Pass? then old(broker.log) + [BuildMessage(bindingName, payload)] else old(broker.log)
    {
      var message := Messaging.Message(bindingName, payload, Messaging.EventKey(payload));
      o := broker.Send(message);
    }

    method CreateProduct(body: Product) returns (r: Result<Product>)
      modifies broker
      ensures broker.sent == old(broker.sent) + 1
      ensures var o := broker.answer(old(broker.sent));
        broker.log == (if o.Pass? then old(broker.log) + [MessageFor(Dispatch.CreateProductCmd(body))] else old(broker.log)) &&
        r == if o.Pass? then Success(body) else Failure(o.error)
    {
      var o := SendMessage(ProductsBinding, Messaging.ProductEvent(Event(CREATE, body.productId, Some(body))));
      r := if o.Pass? then Success(body) else Failure(o.error);
    }

    method DeleteProduct(productId: int) returns (o: Outcome)
      modifies broker
      ensures o == broker.answer(old(broker.sent)) && broker.sent == old(broker.sent) + 1
      ensures broker.log == if o.Pass? then old(broker.log) + [MessageFor(Dispatch.DeleteProductCmd(productId))] else old(broker.log)
    {
      o := SendMessage(ProductsBinding, Messaging.ProductEvent(Event(DELETE, productId, None)));
    }

    method CreateRecommendation(body: Recommendation) returns (r: Result<Recommendation>)
      modifies broker
      ensures broker.sent == old(broker.sent) + 1
      ensures var o := broker.answer(old(broker.sent));
        broker.log == (if o.Pass? then old(broker.log) + [MessageFor(Dispatch.CreateRecommendationCmd(body))] else old(broker.log)) &&
        r == if o.Pass? then Success(body) else Failure(o.error)
    {
      var o := SendMessage(RecommendationsBinding, Messaging.RecommendationEvent(Event(CREATE, body.productId, Some(body))));
      r := if o.Pass? then Success(body) else Failure(o.error);
    }

    method DeleteRecommendations(productId: int) returns (o: Outcome)
      modifies broker
      ensures o == broker.answer(old(broker.sent)) && broker.sent == old(broker.sent) + 1
      ensures broker.log == if o.Pass? then old(broker.log) + [MessageFor(Dispatch.DeleteRecommendationsCmd(productId))] else old(broker.log)
    {
      o := SendMessage(RecommendationsBinding, Messaging.RecommendationEvent(Event(DELETE, productId, None)));
    }

    method CreateReview(body: Review) returns (r: Result<Review>)
      modifies broker
      ensures broker.sent == old(broker.sent) + 1
      ensures var o := broker.answer(old(broker.sent));
        broker.log == (if o.Pass? then old(broker.log) + [MessageFor(Dispatch.CreateReviewCmd(body))] else old(broker.log)) &&
        r == if o.Pass? then Success(body) else Failure(o.error)
    {
      var o := SendMessage(ReviewsBinding, Messaging.ReviewEvent(Event(CREATE, body.productId, Some(body))));
      r := if o.Pass? then Success(body) else Failure(o.error);
    }

    method DeleteReviews(productId: int) returns (o: Outcome)
      modifies broker
      ensures o == broker.answer(old(broker.sent)) && broker.sent == old(broker.sent) + 1
      ensures broker.log == if o.Pass? then old(broker.log) + [MessageFor(Dispatch.DeleteReviewsCmd(productId))] else old(broker.log)
    {
      o := SendMessage(ReviewsBinding, Messaging.ReviewEvent(Event(DELETE, productId, None)));
    }
  }

  // ---- Properties ----

  /** Every message carries its call's productId as event key and as partitionKey;
      each entity has its own binding; creates carry their body, deletes no data. */
  lemma MessageForShape(c: Dispatch.Command)
    ensures MessageFor(c).partitionKey == Dispatch.CommandKey(c)
    ensures Messaging.EventKey(MessageFor(c).payload) == Dispatch.CommandKey(c)
    ensures MessageFor(c).binding == ProductsBinding <==> MessageFor(c).payload.ProductEvent?
    ensures MessageFor(c).binding == RecommendationsBinding <==> MessageFor(c).payload.RecommendationEvent?
    ensures MessageFor(c).binding == ReviewsBinding <==> MessageFor(c).payload.ReviewEvent?
    ensures c.CreateProductCmd? ==> MessageFor(c).payload == Messaging.ProductEvent(Event(CREATE, c.product.productId, Some(c.product)))
    ensures c.CreateRecommendationCmd? ==>
      MessageFor(c).payload == Messaging.RecommendationEvent(Event(CREATE, c.recommendation.productId, Some(c.recommendation)))
    ensures c.CreateReviewCmd? ==> MessageFor(c).payload == Messaging.ReviewEvent(Event(CREATE, c.review.productId, Some(c.review)))
    ensures c.DeleteProductCmd? ==> MessageFor(c).payload == Messaging.ProductEvent(Event(DELETE, c.productId, None))
    ensures c.DeleteRecommendationsCmd? ==> MessageFor(c).payload == Messaging.RecommendationEvent(Event(DELETE, c.productId, None))
    ensures c.DeleteReviewsCmd? ==> MessageFor(c).payload == Messaging.ReviewEvent(Event(DELETE, c.productId, None))
  {
  }

  /** All messages of a composite create are keyed and partitioned by the aggregate's productId. */
  lemma CreateMessagesKeyed(body: ProductAggregate)
    ensures forall i :: 0 <= i < |Publish(Dispatch.CreateCommands(body))| ==>
      Publish(Dispatch.CreateCommands(body))[i].partitionKey == body.productId &&
      Messaging.EventKey(Publish(Dispatch.CreateCommands(body))[i].payload) == body.productId
  {
    var cs := Dispatch.CreateCommands(body);
    Dispatch.CreateCommandsLayout(body);
    forall i | 0 <= i < |cs|
      ensures Publish(cs)[i].partitionKey == body.productId && Messaging.EventKey(Publish(cs)[i].payload) == body.productId
    {
      MessageForShape(cs[i]);
    }
  }

  /** handleException, as a relation between status and outcome. */
  lemma HandleExceptionStatus(ex: ErrorResponse)
    ensures HandleException(ex).NotFound? <==> ex.status == 404
    ensures HandleException(ex).InvalidInput? <==> ex.status == 422
    ensures ex.status != 404 && ex.status != 422 <==> HandleException(ex) == ResponseError(ex)
    ensures HandleException(ex).NotFound? || HandleException(ex).InvalidInput? ==> MessageOf(HandleException(ex)) == ErrorMessage(ex)
  {
  }

  /** An error that a core service's handler turns into 404 or 422 reaches the
      composite as the same kind of exception with the same message ("" when it
      had none); a BadRequest (400) and an unhandled exception (500) arrive as
      the HTTP error itself. */
  lemma ErrorTranslationRoundTrip(e: Error, path: string)
    ensures e.NotFound? ==>
      ReadProduct(ErrorHandler.Respond(Failure(e), path)) == Failure(NotFound(Some(e.message.GetOr(""))))
    ensures e.InvalidInput? ==>
      ReadProduct(ErrorHandler.Respond(Failure(e), path)) == Failure(InvalidInput(Some(e.message.GetOr(""))))
    ensures (e.NotFound? || e.InvalidInput?) && e.message.Some? ==>
      ReadProduct(ErrorHandler.Respond<Product>(Failure(e), path)) == Failure(e)
    ensures e.BadRequest? ==>
      var r := ReadProduct(ErrorHandler.Respond<Product>(Failure(e), path));
      r.Failure? && r.error.ResponseError? && r.error.response.status == 400
    ensures ErrorHandler.HandledStatus(e).None? ==>
      var r := ReadProduct(ErrorHandler.Respond<Product>(Failure(e), path));
      r.Failure? && r.error.ResponseError? && r.error.response.status == 500
  {
  }

  /** With the intended message, a 404 or 422 whose body is not an
      HttpErrorInfo reaches the composite's caller with the HTTP exception's own
      message, whatever the parser reported. */
  lemma ErrorMessageFallback(ex: ErrorResponse, reason1: Option<string>, reason2: Option<string>)
    ensures ex.status == 404 && ex.body.Unparseable? ==>
      ReadProduct(Failed(ResponseError(ex))) == Failure(NotFound(ex.message))
    ensures ex.status == 422 && ex.body.Unparseable? ==>
      ReadProduct(Failed(ResponseError(ex))) == Failure(InvalidInput(ex.message))
    ensures ex.status == 404 || ex.status == 422 ==>
      HandleException(ex.(body := Unparseable(reason1))) == HandleException(ex.(body := Unparseable(reason2)))
  {
  }

  /** As written, the fallback reports the parse failure rather than the HTTP
      exception: for a 404 whose body is not an HttpErrorInfo the NotFound
      exception carries the parser's message instead of the HTTP message. */
  lemma ErrorMessageAsWrittenDiffers()
    ensures var ex := ErrorResponse(404, Some("404 Not Found"), Unparseable(Some("Unexpected character")));
      ErrorMessageAsWritten(ex) == Some("Unexpected character") &&
      ErrorMessage(ex) == Some("404 Not Found") &&
      ErrorMessageAsWritten(ex) != ErrorMessage(ex)
  {
  }

  /** The two versions agree exactly when the body parses or the two messages coincide. */
  lemma ErrorMessageAsWrittenAgreement(ex: ErrorResponse)
    ensures ErrorMessageAsWritten(ex) == ErrorMessage(ex) <==> ex.body.Parsed? || ex.body.reason == ex.message
  {
  }

  /** handleException as written differs from the modelled one only in the
      message of a 404 or 422 whose body does not parse: there it reports the
      parser's message instead of the HTTP exception's. */
  lemma HandleExceptionAsWrittenAgreement(ex: ErrorResponse)
    ensures HandleExceptionAsWritten(ex) == HandleException(ex) <==>
      (ex.status != 404 && ex.status != 422) || ex.body.Parsed? || ex.body.reason == ex.message
    ensures ex.status == 404 ==> HandleExceptionAsWritten(ex) == NotFound(ErrorMessageAsWritten(ex))
    ensures ex.status == 422 ==> HandleExceptionAsWritten(ex) == InvalidInput(ErrorMessageAsWritten(ex))
    ensures ex.body.Unparseable? && (ex.status == 404 || ex.status == 422) ==>
      MessageOf(HandleExceptionAsWritten(ex)) == ex.body.reason
  {
    ErrorMessageAsWrittenAgreement(ex);
  }

  /** The product read fails exactly when its response does, and passes through a body unchanged. */
  lemma ReadProductShape(response: HttpResult<Product>)
    ensures ReadProduct(response).Success? <==> response.Ok?
    ensures response.Ok? ==> ReadProduct(response).value == response.body
    ensures response.Failed? && !response.error.ResponseError? ==> ReadProduct(response) == Failure(response.error)
  {
  }
}
