/** The composite service in its current variant: a write is published as
    events through the integration layer, step by step in plan order, stopping
    at the first failure; a read fetches the product, its recommendations and
    its reviews and assembles them into one aggregate. */
module CompositeService {
  import opened Api
  import Messaging
  import Dispatch
  import CompositeIntegration

  function SummaryOfRecommendation(r: Recommendation): RecommendationSummary {
    RecommendationSummary(r.recommendationId, r.author, r.rate, r.content)
  }

  function SummaryOfReview(r: Review): ReviewSummary {
    ReviewSummary(r.reviewId, r.author, r.subject, r.content)
  }

  function RecommendationSummaries(recommendations: seq<Recommendation>): (ss: seq<RecommendationSummary>)
    ensures |ss| == |recommendations|
  {
    seq(|recommendations|, i requires 0 <= i < |recommendations| => SummaryOfRecommendation(recommendations[i]))
  }

  function ReviewSummaries(reviews: seq<Review>): (ss: seq<ReviewSummary>)
    ensures |ss| == |reviews|
  {
    seq(|reviews|, i requires 0 <= i < |reviews| => SummaryOfReview(reviews[i]))
  }

  /** createServiceAddresses; `!!` on an absent address throws. */
  function CreateServiceAddresses(serviceAddress: string, product: Product,
                                  recommendations: seq<Recommendation>, reviews: seq<Review>): Result<ServiceAddresses>
  {
    if product.serviceAddress.None? then Failure(NullValue)
    else if |reviews| > 0 && reviews[0].serviceAddress.None? then Failure(NullValue)
    else if |recommendations| > 0 && recommendations[0].serviceAddress.None? then Failure(NullValue)
    else Success(ServiceAddresses(
      serviceAddress,
      product.serviceAddress.value,
      if |reviews| > 0 then reviews[0].serviceAddress.value else "",
      if |recommendations| > 0 then recommendations[0].serviceAddress.value else ""))
  }

  /** createProductAggregate. */
  function CreateProductAggregate(product: Product, recommendations: seq<Recommendation>,
                                  reviews: seq<Review>, serviceAddress: string): Result<ProductAggregate>
  {
    var recommendationSummaries := RecommendationSummaries(recommendations);
    var reviewSummaries := ReviewSummaries(reviews);
    match CreateServiceAddresses(serviceAddress, product, recommendations, reviews)
    case Failure(e) => Failure(e)
    case Success(serviceAddresses) =>
      Success(ProductAggregate(product.productId, product.name, product.weight,
                               recommendationSummaries, reviewSummaries, Some(serviceAddresses)))
  }

  /** Awaiting the three reads: a failed product read is thrown, otherwise the aggregate is built. */
  function Assemble(product: Result<Product>, recommendations: seq<Recommendation>,
                    reviews: seq<Review>, serviceAddress: string): Result<ProductAggregate>
  {
    match product
    case Failure(e) => Failure(e)
    case Success(p) => CreateProductAggregate(p, recommendations, reviews, serviceAddress)
  }

  /** getProduct, given the network's answers. */
  function GetProduct(net: CompositeIntegration.Network, serviceAddress: string, productId: int): Result<ProductAggregate> {
    Assemble(CompositeIntegration.GetProduct(net, productId),
             CompositeIntegration.GetRecommendations(net, productId),
             CompositeIntegration.GetReviews(net, productId),
             serviceAddress)
  }

  class ProductCompositeServiceImpl {
    const serviceAddress: string
    const integration: CompositeIntegration.ProductCompositeIntegration

    constructor (serviceAddress: string, integration: CompositeIntegration.ProductCompositeIntegration)
      ensures this.serviceAddress == serviceAddress && this.integration == integration
    {
      this.serviceAddress := serviceAddress;
      this.integration := integration;
    }

    /** createProduct: the broker receives the longest prefix of the plan it
        accepts; the first refused step's own exception is rethrown and no later
        step is attempted. */
    method CreateProduct(body: ProductAggregate) returns (o: Outcome)
      modifies integration.broker
      ensures Messaging.RunOutcome(integration.broker.answer, old(integration.broker.log), old(integration.broker.sent),
        CompositeIntegration.Publish(Dispatch.CreateCommands(body)),
        integration.broker.log, integration.broker.sent, o)
    {
      var broker := integration.broker;
      ghost var log0, n0 := broker.log, broker.sent;
      ghost var pm := CompositeIntegration.Publish([Dispatch.CreateProductCmd(Dispatch.ProductOf(body))]);
      ghost var rm := CompositeIntegration.Publish(Dispatch.RecommendationCreates(body.productId, body.recommendations));
      ghost var vm := CompositeIntegration.Publish(Dispatch.ReviewCreates(body.productId, body.reviews));

      var product := Product(body.productId, body.name, body.weight, None);
      var created := integration.CreateProduct(product);
      o := if created.Success? then Pass else Fail(created.error);
      assert pm == [CompositeIntegration.MessageFor(Dispatch.CreateProductCmd(product))];
      assert Messaging.RunOutcome(broker.answer, log0, n0, pm, broker.log, broker.sent, o);

      ghost var log1, n1, o1 := broker.log, broker.sent, o;
      if o.Pass? {
        o := CreateRecommendations(body.productId, body.recommendations);
      }
      ghost var log2, n2, o2 := broker.log, broker.sent, o;
      if o.Pass? {
        o := CreateReviews(body.productId, body.reviews);
      }
      CompositeIntegration.PublishConcat([Dispatch.CreateProductCmd(Dispatch.ProductOf(body))],
                                         Dispatch.RecommendationCreates(body.productId, body.recommendations));
      CompositeIntegration.PublishConcat([Dispatch.CreateProductCmd(Dispatch.ProductOf(body))] +
                                         Dispatch.RecommendationCreates(body.productId, body.recommendations),
                                         Dispatch.ReviewCreates(body.productId, body.reviews));
      Messaging.RunThenThen(broker.answer, log0, n0, CompositeIntegration.Publish(Dispatch.CreateCommands(body)),
                            pm, rm, vm, log1, n1, o1, log2, n2, o2, broker.log, broker.sent, o);
    }

    /** The recommendation loop of createProduct: one create per summary, in
        order, completed with the productId; the first exception stops the loop. */
    method CreateRecommendations(productId: int, summaries: seq<RecommendationSummary>) returns (o: Outcome)
      modifies integration.broker
      ensures Messaging.RunOutcome(integration.broker.answer, old(integration.broker.log), old(integration.broker.sent),
        CompositeIntegration.Publish(Dispatch.RecommendationCreates(productId, summaries)),
        integration.broker.log, integration.broker.sent, o)
    {
      var broker := integration.broker;
      ghost var plan := CompositeIntegration.Publish(Dispatch.RecommendationCreates(productId, summaries));
      ghost var log0, n0 := broker.log, broker.sent;
      assert log0 + plan[..0] == log0;

      var i := 0;
      while i < |summaries|
        invariant 0 <= i <= |summaries|
        invariant broker.log == log0 + plan[..i]
        invariant broker.sent == n0 + i
        invariant Messaging.Accepted(broker.answer, n0, i) == i
      {
        var recommendationSummary := summaries[i];
        var recommendation := Recommendation(
          productId, recommendationSummary.recommendationId, recommendationSummary.author,
          recommendationSummary.rate, recommendationSummary.content, None);
        var r := integration.CreateRecommendation(recommendation);
        assert plan[i] == CompositeIntegration.MessageFor(Dispatch.CreateRecommendationCmd(recommendation));
        if r.Failure? {
          Messaging.SendRefused(broker.answer, n0, |plan|, i);
          return Fail(r.error);
        }
        Messaging.SendAccepted(broker.answer, log0, n0, plan, i);
        i := i + 1;
      }
      assert plan[..|plan|] == plan;
      o := Pass;
    }

    /** The review loop of createProduct. */
    method CreateReviews(productId: int, summaries: seq<ReviewSummary>) returns (o: Outcome)
      modifies integration.broker
      ensures Messaging.RunOutcome(integration.broker.answer, old(integration.broker.log), old(integration.broker.sent),
        CompositeIntegration.Publish(Dispatch.ReviewCreates(productId, summaries)),
        integration.broker.log, integration.broker.sent, o)
    {
      var broker := integration.broker;
      ghost var plan := CompositeIntegration.Publish(Dispatch.ReviewCreates(productId, summaries));
      ghost var log0, n0 := broker.log, broker.sent;
      assert log0 + plan[..0] == log0;

      var j := 0;
      while j < |summaries|
        invariant 0 <= j <= |summaries|
        invariant broker.log == log0 + plan[..j]
        invariant broker.sent == n0 + j
        invariant Messaging.Accepted(broker.answer, n0, j) == j
      {
        var reviewSummary := summaries[j];
        var review := Review(
          productId, reviewSummary.reviewId, reviewSummary.author,
          reviewSummary.subject, reviewSummary.content, None);
        var r := integration.CreateReview(review);
        assert plan[j] == CompositeIntegration.MessageFor(Dispatch.CreateReviewCmd(review));
        if r.Failure? {
          Messaging.SendRefused(broker.answer, n0, |plan|, j);
          return Fail(r.error);
        }
        Messaging.SendAccepted(broker.answer, log0, n0, plan, j);
        j := j + 1;
      }
      assert plan[..|plan|] == plan;
      o := Pass;
    }

    /** deleteProduct: the three deletes in order; the first exception is
        rethrown and no later delete is attempted. */
    method DeleteProduct(productId: int) returns (o: Outcome)
      modifies integration.broker
      ensures Messaging.RunOutcome(integration.broker.answer, old(integration.broker.log), old(integration.broker.sent),
        CompositeIntegration.Publish(Dispatch.DeleteCommands(productId)),
        integration.broker.log, integration.broker.sent, o)
    {
      var broker := integration.broker;
      ghost var plan := CompositeIntegration.Publish(Dispatch.DeleteCommands(productId));
      ghost var log0, n0 := broker.log, broker.sent;
      assert log0 + plan[..0] == log0;

      o := integration.DeleteProduct(productId);
      if o.Fail? {
        Messaging.SendRefused(broker.answer, n0, 3, 0);
        return;
      }
      Messaging.SendAccepted(broker.answer, log0, n0, plan, 0);
      o := integration.DeleteRecommendations(productId);
      if o.Fail? {
        Messaging.SendRefused(broker.answer, n0, 3, 1);
        return;
      }
      Messaging.SendAccepted(broker.answer, log0, n0, plan, 1);
      o := integration.DeleteReviews(productId);
      if o.Fail? {
        Messaging.SendRefused(broker.answer, n0, 3, 2);
        return;
      }
      Messaging.SendAccepted(broker.answer, log0, n0, plan, 2);
      assert plan[..3] == plan;
    }
  }

  // ---- Properties ----

  /** The aggregate is built exactly when every address it needs is present; it
      copies the product's productId, name and weight, and its summary lists are
      the element-wise projections of the reads, with the same length and order. */
  lemma AggregateProjection(product: Product, recommendations: seq<Recommendation>,
                            reviews: seq<Review>, serviceAddress: string)
    ensures CreateProductAggregate(product, recommendations, reviews, serviceAddress).Success? <==>
      product.serviceAddress.Some? &&
      (|reviews| > 0 ==> reviews[0].serviceAddress.Some?) &&
      (|recommendations| > 0 ==> recommendations[0].serviceAddress.Some?)
    ensures CreateProductAggregate(product, recommendations, reviews, serviceAddress).Failure? ==>
      CreateProductAggregate(product, recommendations, reviews, serviceAddress).error == NullValue
    ensures var r := CreateProductAggregate(product, recommendations, reviews, serviceAddress);
      r.Success? ==>
        r.value.productId == product.productId && r.value.name == product.name && r.value.weight == product.weight &&
        |r.value.recommendations| == |recommendations| && |r.value.reviews| == |reviews| &&
        (forall i :: 0 <= i < |recommendations| ==>
           r.value.recommendations[i] == RecommendationSummary(recommendations[i].recommendationId,
             recommendations[i].author, recommendations[i].rate, recommendations[i].content)) &&
        (forall i :: 0 <= i < |reviews| ==>
           r.value.reviews[i] == ReviewSummary(reviews[i].reviewId, reviews[i].author, reviews[i].subject, reviews[i].content))
  {
  }

  /** The composite's own address is first; the product's address is second;
      each list contributes its first element's address, or "" when empty. */
  lemma ServiceAddressSelection(product: Product, recommendations: seq<Recommendation>,
                                reviews: seq<Review>, serviceAddress: string)
    ensures var r := CreateServiceAddresses(serviceAddress, product, recommendations, reviews);
      r.Success? ==>
        r.value.compositeAddress == serviceAddress &&
        Some(r.value.productAddress) == product.serviceAddress &&
        (reviews == [] ==> r.value.reviewAddress == "") &&
        (reviews != [] ==> Some(r.value.reviewAddress) == reviews[0].serviceAddress) &&
        (recommendations == [] ==> r.value.recommendationAddress == "") &&
        (recommendations != [] ==> Some(r.value.recommendationAddress) == recommendations[0].serviceAddress)
  {
  }

  /** Summaries survive the write path and the read path: completing a summary
      with a productId and projecting it back gives the summary. */
  lemma SummaryRoundTrip(productId: int, rs: seq<RecommendationSummary>, vs: seq<ReviewSummary>, address: Option<string>)
    ensures forall s :: SummaryOfRecommendation(Dispatch.RecommendationOf(productId, s).(serviceAddress := address)) == s
    ensures forall s :: SummaryOfReview(Dispatch.ReviewOf(productId, s).(serviceAddress := address)) == s
    ensures RecommendationSummaries(seq(|rs|, i requires 0 <= i < |rs| =>
      Dispatch.RecommendationOf(productId, rs[i]).(serviceAddress := address))) == rs
    ensures ReviewSummaries(seq(|vs|, i requires 0 <= i < |vs| =>
      Dispatch.ReviewOf(productId, vs[i]).(serviceAddress := address))) == vs
  {
  }

  /** A failed product read fails the composite read with the same error,
      whatever the other two reads give. */
  lemma ProductFailurePropagates(net: CompositeIntegration.Network, serviceAddress: string, productId: int)
    requires CompositeIntegration.GetProduct(net, productId).Failure?
    ensures GetProduct(net, serviceAddress, productId) == Failure(CompositeIntegration.GetProduct(net, productId).error)
  {
  }

  /** A failed recommendation or review read leaves that list empty in the
      aggregate, with "" as its address. */
  lemma AuxiliaryFailuresGiveEmptyLists(product: Product, recommendations: HttpResult<seq<Recommendation>>,
                                        reviews: HttpResult<seq<Review>>, serviceAddress: string)
    ensures var r := Assemble(Success(product), CompositeIntegration.Absorb(recommendations),
                              CompositeIntegration.Absorb(reviews), serviceAddress);
      (recommendations.Failed? && r.Success? ==>
         r.value.recommendations == [] && r.value.serviceAddresses.value.recommendationAddress == "") &&
      (reviews.Failed? && r.Success? ==>
         r.value.reviews == [] && r.value.serviceAddresses.value.reviewAddress == "")
  {
  }
}
