/** The composite's integration layer in its earlier, blocking variant: reads
    go to URLs built from configured hosts and ports; a client error (4xx) on
    the product read is translated, everything else propagates; the list reads
    turn every exception into the empty list. */
module BlockingIntegration {
  import opened Api
  import Decimal
  import Urls
  import CompositeIntegration

  /** The configured hosts and ports of the three core services. */
  datatype Config = Config(
    productServiceHost: string, productServicePort: string,
    recommendationServiceHost: string, recommendationServicePort: string,
    reviewServiceHost: string, reviewServicePort: string)

  /** "http://<host>:<port>" */
  function BaseUrl(host: string, port: string): string {
    "http://" + host + ":" + port
  }

  function ProductUrl(config: Config, productId: int): string {
    Urls.ProductUrl(BaseUrl(config.productServiceHost, config.productServicePort), productId)
  }

  function RecommendationsUrl(config: Config, productId: int): string {
    Urls.RecommendationsUrl(BaseUrl(config.recommendationServiceHost, config.recommendationServicePort), productId)
  }

  function ReviewsUrl(config: Config, productId: int): string {
    Urls.ReviewsUrl(BaseUrl(config.reviewServiceHost, config.reviewServicePort), productId)
  }

  /** The exceptions the product read catches: client errors. */
  predicate IsClientError(status: int) {
    400 <= status < 500
  }

  /** getProduct: a client error is translated by status (404 NotFound, 422
      InvalidInput, any other rethrown); other failures are not caught. */
  function GetProduct(config: Config, net: CompositeIntegration.Network, productId: int): Result<Product> {
    match net.product(ProductUrl(config, productId))
    case Ok(product) => Success(product)
    case Failed(ResponseError(ex)) =>
      if IsClientError(ex.status) then
        if ex.status == 404 then Failure(NotFound(CompositeIntegration.ErrorMessage(ex)))
        else if ex.status == 422 then Failure(InvalidInput(CompositeIntegration.ErrorMessage(ex)))
        else Failure(ResponseError(ex))
      else Failure(ResponseError(ex))
    case Failed(e) => Failure(e)
  }

  /** getRecommendations: any exception gives the empty list. */
  function GetRecommendations(config: Config, net: CompositeIntegration.Network, productId: int): seq<Recommendation> {
    match net.recommendations(RecommendationsUrl(config, productId))
    case Ok(recommendations) => recommendations
    case Failed(_) => []
  }

  /** getReviews: any exception gives the empty list. */
  function GetReviews(config: Config, net: CompositeIntegration.Network, productId: int): seq<Review> {
    match net.reviews(ReviewsUrl(config, productId))
    case Ok(reviews) => reviews
    case Failed(_) => []
  }

  /** Catching only client errors translates exactly as the current variant's
      handler with the intended message does: a server error is rethrown
      unchanged by both. Against the current handler as written, an HTTP error
      is translated alike whenever its body parses or its status is neither 404
      nor 422. */
  lemma GetProductAgrees(config: Config, net: CompositeIntegration.Network, productId: int)
    ensures GetProduct(config, net, productId) == CompositeIntegration.ReadProduct(net.product(ProductUrl(config, productId)))
    ensures var response := net.product(ProductUrl(config, productId));
      response.Failed? && response.error.ResponseError? &&
      (response.error.response.body.Parsed? || (response.error.response.status != 404 && response.error.response.status != 422)) ==>
        GetProduct(config, net, productId) == Failure(CompositeIntegration.HandleExceptionAsWritten(response.error.response))
  {
    var response := net.product(ProductUrl(config, productId));
    if response.Failed? && response.error.ResponseError? {
      CompositeIntegration.HandleExceptionAsWrittenAgreement(response.error.response);
    }
  }

  /** The list reads agree with the current variant's absorbing reads. */
  lemma ListReadsAgree(config: Config, net: CompositeIntegration.Network, productId: int)
    ensures GetRecommendations(config, net, productId) == CompositeIntegration.Absorb(net.recommendations(RecommendationsUrl(config, productId)))
    ensures GetReviews(config, net, productId) == CompositeIntegration.Absorb(net.reviews(ReviewsUrl(config, productId)))
  {
  }

  /** The product URL is "http://<host>:<port>/product/<id>" and routes back to the id. */
  lemma ProductUrlShape(config: Config, productId: int)
    ensures ProductUrl(config, productId) ==
      "http://" + config.productServiceHost + ":" + config.productServicePort + "/product/" + Decimal.IntToString(productId)
    ensures Urls.RouteProduct(BaseUrl(config.productServiceHost, config.productServicePort), ProductUrl(config, productId)) == Some(productId)
  {
    var base := BaseUrl(config.productServiceHost, config.productServicePort);
    var digits := Decimal.IntToString(productId);
    assert ProductUrl(config, productId) == base + ("/product/" + digits);
    assert base + ("/product/" + digits) == base + "/product/" + digits;
    Urls.RouteOfUrl(base, productId);
  }
}
