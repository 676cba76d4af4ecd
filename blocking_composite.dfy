/** The composite service in its earlier, blocking variant. Its writes go to
    integration calls (create and delete for each entity) that the integration
    class of that variant does not define; they are modelled as commands the
    integration receives in order, any of which may throw. Its read calls the
    three services one after another. */
module BlockingCompositeService {
  import opened Api
  import Messaging
  import Dispatch
  import CompositeIntegration
  import CompositeService
  import BlockingIntegration

  /** getProduct: the result and the URLs requested, in order. A failed product
      read is thrown before the other two reads are made. */
  function GetProduct(config: BlockingIntegration.Config, net: CompositeIntegration.Network,
                      serviceAddress: string, productId: int): (Result<ProductAggregate>, seq<string>)
  {
    var productUrl := BlockingIntegration.ProductUrl(config, productId);
    match BlockingIntegration.GetProduct(config, net, productId)
    case Failure(e) => (Failure(e), [productUrl])
    case Success(product) =>
      var recommendations := BlockingIntegration.GetRecommendations(config, net, productId);
      var reviews := BlockingIntegration.GetReviews(config, net, productId);
      (CompositeService.CreateProductAggregate(product, recommendations, reviews, serviceAddress),
       [productUrl, BlockingIntegration.RecommendationsUrl(config, productId), BlockingIntegration.ReviewsUrl(config, productId)])
  }

  class ProductCompositeServiceImpl {
    const serviceAddress: string
    const integration: Messaging.Channel<Dispatch.Command>

    constructor (serviceAddress: string, integration: Messaging.Channel<Dispatch.Command>)
      ensures this.serviceAddress == serviceAddress && this.integration == integration
    {
      this.serviceAddress := serviceAddress;
      this.integration := integration;
    }

    /** createProduct: the integration receives the longest prefix of the plan
        that it accepts; the first exception is rethrown unchanged and no later
        call is made. */
    method CreateProduct(body: ProductAggregate) returns (o: Outcome)
      modifies integration
      ensures Messaging.RunOutcome(integration.answer, old(integration.log), old(integration.sent),
        Dispatch.CreateCommands(body), integration.log, integration.sent, o)
    {
      ghost var log0, n0 := integration.log, integration.sent;
      ghost var pm := [Dispatch.CreateProductCmd(Dispatch.ProductOf(body))];
      ghost var rm := Dispatch.RecommendationCreates(body.productId, body.recommendations);
      ghost var vm := Dispatch.ReviewCreates(body.productId, body.reviews);

      var product := Product(body.productId, body.name, body.weight, None);
      o := integration.Send(Dispatch.CreateProductCmd(product));
      assert Messaging.RunOutcome(integration.answer, log0, n0, pm, integration.log, integration.sent, o);

      ghost var log1, n1, o1 := integration.log, integration.sent, o;
      if o.Pass? {
        o := CreateRecommendations(body.productId, body.recommendations);
      }
      ghost var log2, n2, o2 := integration.log, integration.sent, o;
      if o.Pass? {
        o := CreateReviews(body.productId, body.reviews);
      }
      Messaging.RunThenThen(integration.answer, log0, n0, Dispatch.CreateCommands(body), pm, rm, vm,
                            log1, n1, o1, log2, n2, o2, integration.log, integration.sent, o);
    }

    /** The recommendation loop of createProduct: one create per summary, in
        order, completed with the productId; the first exception stops the loop. */
    method CreateRecommendations(productId: int, summaries: seq<RecommendationSummary>) returns (o: Outcome)
      modifies integration
      ensures Messaging.RunOutcome(integration.answer, old(integration.log), old(integration.sent),
        Dispatch.RecommendationCreates(productId, summaries), integration.log, integration.sent, o)
    {
      ghost var plan := Dispatch.RecommendationCreates(productId, summaries);
      ghost var log0, n0 := integration.log, integration.sent;
      assert log0 + plan[..0] == log0;

      var i := 0;
      while i < |summaries|
        invariant 0 <= i <= |summaries|
        invariant integration.log == log0 + plan[..i]
        invariant integration.sent == n0 + i
        invariant Messaging.Accepted(integration.answer, n0, i) == i
      {
        var recommendationSummary := summaries[i];
        var recommendation := Recommendation(
          productId, recommendationSummary.recommendationId, recommendationSummary.author,
          recommendationSummary.rate, recommendationSummary.content, None);
        o := integration.Send(Dispatch.CreateRecommendationCmd(recommendation));
        assert plan[i] == Dispatch.CreateRecommendationCmd(recommendation);
        if o.Fail? {
          Messaging.SendRefused(integration.answer, n0, |plan|, i);
          return;
        }
        Messaging.SendAccepted(integration.answer, log0, n0, plan, i);
        i := i + 1;
      }
      assert plan[..|plan|] == plan;
      o := Pass;
    }

    /** The review loop of createProduct. */
    method CreateReviews(productId: int, summaries: seq<ReviewSummary>) returns (o: Outcome)
      modifies integration
      ensures Messaging.RunOutcome(integration.answer, old(integration.log), old(integration.sent),
        Dispatch.ReviewCreates(productId, summaries), integration.log, integration.sent, o)
    {
      ghost var plan := Dispatch.ReviewCreates(productId, summaries);
      ghost var log0, n0 := integration.log, integration.sent;
      assert log0 + plan[..0] == log0;

      var j := 0;
      while j < |summaries|
        invariant 0 <= j <= |summaries|
        invariant integration.log == log0 + plan[..j]
        invariant integration.sent == n0 + j
        invariant Messaging.Accepted(integration.answer, n0, j) == j
      {
        var reviewSummary := summaries[j];
        var review := Review(
          productId, reviewSummary.reviewId, reviewSummary.author,
          reviewSummary.subject, reviewSummary.content, None);
        o := integration.Send(Dispatch.CreateReviewCmd(review));
        assert plan[j] == Dispatch.CreateReviewCmd(review);
        if o.Fail? {
          Messaging.SendRefused(integration.answer, n0, |plan|, j);
          return;
        }
        Messaging.SendAccepted(integration.answer, log0, n0, plan, j);
        j := j + 1;
      }
      assert plan[..|plan|] == plan;
      o := Pass;
    }

    /** deleteProduct: the three deletes in order; the first exception is
        rethrown and no later delete is made. */
    method DeleteProduct(productId: int) returns (o: Outcome)
      modifies integration
      ensures Messaging.RunOutcome(integration.answer, old(integration.log), old(integration.sent),
        Dispatch.DeleteCommands(productId), integration.log, integration.sent, o)
    {
      ghost var plan := Dispatch.DeleteCommands(productId);
      ghost var log0, n0 := integration.log, integration.sent;
      assert log0 + plan[..0] == log0;

      o := integration.Send(Dispatch.DeleteProductCmd(productId));
      if o.Fail? {
        Messaging.SendRefused(integration.answer, n0, 3, 0);
        return;
      }
      Messaging.SendAccepted(integration.answer, log0, n0, plan, 0);
      o := integration.Send(Dispatch.DeleteRecommendationsCmd(productId));
      if o.Fail? {
        Messaging.SendRefused(integration.answer, n0, 3, 1);
        return;
      }
      Messaging.SendAccepted(integration.answer, log0, n0, plan, 1);
      o := integration.Send(Dispatch.DeleteReviewsCmd(productId));
      if o.Fail? {
        Messaging.SendRefused(integration.answer, n0, 3, 2);
        return;
      }
      Messaging.SendAccepted(integration.answer, log0, n0, plan, 2);
      assert plan[..3] == plan;
    }
  }

  /** The reads are made in order product, recommendations, reviews; a failed
      product read stops there with its error. Given the same answers, the
      result is the one the current variant computes. */
  lemma GetProductSequence(config: BlockingIntegration.Config, net: CompositeIntegration.Network,
                           serviceAddress: string, productId: int)
    ensures var (r, calls) := GetProduct(config, net, serviceAddress, productId);
      var product := BlockingIntegration.GetProduct(config, net, productId);
      (product.Failure? ==> r == Failure(product.error) && calls == [BlockingIntegration.ProductUrl(config, productId)]) &&
      (product.Success? ==> calls == [BlockingIntegration.ProductUrl(config, productId),
                                      BlockingIntegration.RecommendationsUrl(config, productId),
                                      BlockingIntegration.ReviewsUrl(config, productId)]) &&
      r == CompositeService.Assemble(
        CompositeIntegration.ReadProduct(net.product(BlockingIntegration.ProductUrl(config, productId))),
        CompositeIntegration.Absorb(net.recommendations(BlockingIntegration.RecommendationsUrl(config, productId))),
        CompositeIntegration.Absorb(net.reviews(BlockingIntegration.ReviewsUrl(config, productId))),
        serviceAddress)
  {
    BlockingIntegration.GetProductAgrees(config, net, productId);
    BlockingIntegration.ListReadsAgree(config, net, productId);
  }
}
