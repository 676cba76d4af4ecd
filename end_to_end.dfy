/** The system as a whole: the messages the composite publishes are delivered,
    in order, to the consumer of their binding; the core services then answer
    the composite's reads over HTTP through their exception handlers. The
    lemmas here follow a composite write through the broker and the stores and
    back out through the composite read. */
module EndToEnd {
  import opened Api
  import Seqs
  import Urls
  import Messaging
  import Dispatch
  import ErrorHandler
  import ProductCore
  import RecommendationCore
  import ReviewCore
  import CompositeIntegration
  import CompositeService

  /** The three repositories. */
  datatype Stores = Stores(
    products: ProductCore.Store,
    recommendations: RecommendationCore.Store,
    reviews: ReviewCore.Store)

  /** One message, handled by the consumer of its binding; a message on no
      consumer's binding, or not of that consumer's event type, is not consumed. */
  function Deliver(st: Stores, m: Messaging.Message): (Stores, Outcome) {
    if m.binding == CompositeIntegration.ProductsBinding && m.payload.ProductEvent? then
      var (products, o) := ProductCore.Process(st.products, m.payload.productEvent);
      (st.(products := products), o)
    else if m.binding == CompositeIntegration.RecommendationsBinding && m.payload.RecommendationEvent? then
      var (recommendations, o) := RecommendationCore.Process(st.recommendations, m.payload.recommendationEvent);
      (st.(recommendations := recommendations), o)
    else if m.binding == CompositeIntegration.ReviewsBinding && m.payload.ReviewEvent? then
      var (reviews, o) := ReviewCore.Process(st.reviews, m.payload.reviewEvent);
      (st.(reviews := reviews), o)
    else (st, Pass)
  }

  /** The messages delivered in order: the final stores and the exceptions the
      consumers threw, in order. A failed message changes nothing and delivery goes on. */
  function Replay(st: Stores, ms: seq<Messaging.Message>): (Stores, seq<Error>)
    decreases |ms|
  {
    if ms == [] then (st, [])
    else
      var (st1, o) := Deliver(st, ms[0]);
      var (st2, errors) := Replay(st1, ms[1..]);
      (st2, (if o.Fail? then [o.error] else []) + errors)
  }

  /** The product service's `GET /product/{productId}` endpoint. */
  function ServeProduct(st: Stores, addresses: ServiceAddresses, url: string): HttpResult<Product> {
    match Urls.RouteProduct(CompositeIntegration.ProductServiceUrl, url)
    case None => Failed(ResponseError(ErrorResponse(404, ErrorHandler.ClientMessage(404), Unparseable(None))))
    case Some(productId) =>
      ErrorHandler.Respond(ProductCore.Get(st.products, productId, addresses.productAddress), Urls.ProductPath(productId))
  }

  /** The recommendation service's `GET /recommendation?productId=` endpoint. */
  function ServeRecommendations(st: Stores, addresses: ServiceAddresses, url: string): HttpResult<seq<Recommendation>> {
    match Urls.RouteRecommendations(CompositeIntegration.RecommendationServiceUrl, url)
    case None => Failed(ResponseError(ErrorResponse(404, ErrorHandler.ClientMessage(404), Unparseable(None))))
    case Some(productId) =>
      ErrorHandler.Respond(RecommendationCore.Get(st.recommendations, productId, addresses.recommendationAddress), "/recommendation")
  }

  /** The review service's `GET /review?productId=` endpoint. */
  function ServeReviews(st: Stores, addresses: ServiceAddresses, url: string): HttpResult<seq<Review>> {
    match Urls.RouteReviews(CompositeIntegration.ReviewServiceUrl, url)
    case None => Failed(ResponseError(ErrorResponse(404, ErrorHandler.ClientMessage(404), Unparseable(None))))
    case Some(productId) =>
      ErrorHandler.Respond(ReviewCore.Get(st.reviews, productId, addresses.reviewAddress), "/review")
  }

  /** The network as the composite sees it when the core services serve the given stores. */
  function NetworkOf(st: Stores, addresses: ServiceAddresses): CompositeIntegration.Network {
    CompositeIntegration.Network(
      url => ServeProduct(st, addresses, url),
      url => ServeRecommendations(st, addresses, url),
      url => ServeReviews(st, addresses, url))
  }

  /** The composite's getProduct against the stores. */
  function ReadAggregate(st: Stores, addresses: ServiceAddresses, productId: int): Result<ProductAggregate> {
    CompositeService.GetProduct(NetworkOf(st, addresses), addresses.compositeAddress, productId)
  }

  predicate DistinctRecommendationIds(ss: seq<RecommendationSummary>) {
    forall i, j :: 0 <= i < j < |ss| ==> ss[i].recommendationId != ss[j].recommendationId
  }

  predicate DistinctReviewIds(ss: seq<ReviewSummary>) {
    forall i, j :: 0 <= i < j < |ss| ==> ss[i].reviewId != ss[j].reviewId
  }

  /** The entities a list of recommendation summaries is stored as. */
  function RecommendationEntities(productId: int, ss: seq<RecommendationSummary>): (es: seq<RecommendationCore.RecommendationEntity>)
    ensures |es| == |ss|
  {
    seq(|ss|, i requires 0 <= i < |ss| => RecommendationCore.ApiToEntity(Dispatch.RecommendationOf(productId, ss[i])))
  }

  /** The entities a list of review summaries is stored as. */
  function ReviewEntities(productId: int, ss: seq<ReviewSummary>): (es: seq<ReviewCore.ReviewEntity>)
    ensures |es| == |ss|
  {
    seq(|ss|, i requires 0 <= i < |ss| => ReviewCore.ApiToEntity(Dispatch.ReviewOf(productId, ss[i])))
  }

  // ---- Delivery ----

  /** Delivering a concatenation is delivering one part after the other. */
  lemma {:induction false} ReplayConcat(st: Stores, a: seq<Messaging.Message>, b: seq<Messaging.Message>)
    ensures Replay(st, a + b) ==
      (Replay(Replay(st, a).0, b).0, Replay(st, a).1 + Replay(Replay(st, a).0, b).1)
    decreases |a|
  {
    if a == [] {
      assert a + b == b;
      assert Replay(st, a) == (st, []);
      assert [] + Replay(st, b).1 == Replay(st, b).1;
    } else {
      assert (a + b)[0] == a[0];
      assert (a + b)[1..] == a[1..] + b;
      var d := Deliver(st, a[0]);
      var first: seq<Error> := if d.1.Fail? then [d.1.error] else [];
      ReplayConcat(d.0, a[1..], b);
      var ra := Replay(d.0, a[1..]);
      var rb := Replay(ra.0, b);
      assert Replay(st, a) == (ra.0, first + ra.1);
      assert Replay(st, a + b) == (rb.0, first + (ra.1 + rb.1));
      assert first + (ra.1 + rb.1) == (first + ra.1) + rb.1;
    }
  }

  lemma ReplayOne(st: Stores, m: Messaging.Message)
    ensures Replay(st, [m]) == (Deliver(st, m).0, if Deliver(st, m).1.Fail? then [Deliver(st, m).1.error] else [])
  {
    assert [m][1..] == [];
    var d := Deliver(st, m);
    var first: seq<Error> := if d.1.Fail? then [d.1.error] else [];
    assert Replay(d.0, []) == (d.0, []);
    assert first + [] == first;
  }

  /** Replaying the recommendation creates of fresh, distinct summaries appends
      their entities in order and throws nothing. */
  lemma {:induction false} ReplayRecommendationCreates(st: Stores, productId: int, ss: seq<RecommendationSummary>)
    requires RecommendationCore.FindByProductId(st.recommendations, productId) == []
    requires DistinctRecommendationIds(ss)
    ensures Replay(st, CompositeIntegration.Publish(Dispatch.RecommendationCreates(productId, ss))) ==
      (st.(recommendations := st.recommendations + RecommendationEntities(productId, ss)), [])
    decreases |ss|
  {
    var cs := Dispatch.RecommendationCreates(productId, ss);
    if ss == [] {
      assert CompositeIntegration.Publish(cs) == [];
      assert st.recommendations + RecommendationEntities(productId, ss) == st.recommendations;
    } else {
      var n := |ss| - 1;
      var front := ss[..n];
      var x := ss[n];
      var rec := Dispatch.RecommendationOf(productId, x);
      var m := CompositeIntegration.MessageFor(Dispatch.CreateRecommendationCmd(rec));
      assert DistinctRecommendationIds(front);
      assert cs == Dispatch.RecommendationCreates(productId, front) + [Dispatch.CreateRecommendationCmd(rec)];
      CompositeIntegration.PublishConcat(Dispatch.RecommendationCreates(productId, front), [Dispatch.CreateRecommendationCmd(rec)]);
      assert CompositeIntegration.Publish(cs) == CompositeIntegration.Publish(Dispatch.RecommendationCreates(productId, front)) + [m];
      ReplayConcat(st, CompositeIntegration.Publish(Dispatch.RecommendationCreates(productId, front)), [m]);
      ReplayRecommendationCreates(st, productId, front);
      var before := st.recommendations + RecommendationEntities(productId, front);
      var st1 := st.(recommendations := before);
      assert !RecommendationCore.HasKey(before, productId, x.recommendationId) by {
        Seqs.WithKeyElements(st.recommendations, RecommendationCore.ProductIdOf, productId);
        forall i | 0 <= i < |before|
          ensures !(before[i].productId == productId && before[i].recommendationId == x.recommendationId)
        {
          if i < |st.recommendations| {
            assert before[i] == st.recommendations[i];
            assert st.recommendations[i] in st.recommendations;
          } else {
            assert before[i] == RecommendationEntities(productId, front)[i - |st.recommendations|];
            assert before[i].recommendationId == ss[i - |st.recommendations|].recommendationId;
          }
        }
      }
      ReplayOne(st1, m);
      assert before + [RecommendationCore.ApiToEntity(rec)] == st.recommendations + RecommendationEntities(productId, ss);
    }
  }

  /** Replaying the review creates of fresh, distinct summaries appends their
      entities in order and throws nothing. */
  lemma {:induction false} ReplayReviewCreates(st: Stores, productId: int, ss: seq<ReviewSummary>)
    requires ReviewCore.FindByProductId(st.reviews, productId) == []
    requires DistinctReviewIds(ss)
    ensures Replay(st, CompositeIntegration.Publish(Dispatch.ReviewCreates(productId, ss))) ==
      (st.(reviews := st.reviews + ReviewEntities(productId, ss)), [])
    decreases |ss|
  {
    var cs := Dispatch.ReviewCreates(productId, ss);
    if ss == [] {
      assert CompositeIntegration.Publish(cs) == [];
      assert st.reviews + ReviewEntities(productId, ss) == st.reviews;
    } else {
      var n := |ss| - 1;
      var front := ss[..n];
      var x := ss[n];
      var rev := Dispatch.ReviewOf(productId, x);
      var m := CompositeIntegration.MessageFor(Dispatch.CreateReviewCmd(rev));
      assert DistinctReviewIds(front);
      assert cs == Dispatch.ReviewCreates(productId, front) + [Dispatch.CreateReviewCmd(rev)];
      CompositeIntegration.PublishConcat(Dispatch.ReviewCreates(productId, front), [Dispatch.CreateReviewCmd(rev)]);
      assert CompositeIntegration.Publish(cs) == CompositeIntegration.Publish(Dispatch.ReviewCreates(productId, front)) + [m];
      ReplayConcat(st, CompositeIntegration.Publish(Dispatch.ReviewCreates(productId, front)), [m]);
      ReplayReviewCreates(st, productId, front);
      var before := st.reviews + ReviewEntities(productId, front);
      var st1 := st.(reviews := before);
      assert !ReviewCore.HasKey(before, productId, x.reviewId) by {
        Seqs.WithKeyElements(st.reviews, ReviewCore.ProductIdOf, productId);
        forall i | 0 <= i < |before|
          ensures !(before[i].productId == productId && before[i].reviewId == x.reviewId)
        {
          if i < |st.reviews| {
            assert before[i] == st.reviews[i];
            assert st.reviews[i] in st.reviews;
          } else {
            assert before[i] == ReviewEntities(productId, front)[i - |st.reviews|];
            assert before[i].reviewId == ss[i - |st.reviews|].reviewId;
          }
        }
      }
      ReplayOne(st1, m);
      assert before + [ReviewCore.ApiToEntity(rev)] == st.reviews + ReviewEntities(productId, ss);
    }
  }

  /** Replaying a composite create for a product none of the stores knows: every
      consumer succeeds, the product is stored, and its summaries are appended
      to the other two stores in input order. */
  lemma ReplayCreate(st: Stores, c: ProductAggregate)
    requires c.productId !in st.products
    requires RecommendationCore.FindByProductId(st.recommendations, c.productId) == []
    requires ReviewCore.FindByProductId(st.reviews, c.productId) == []
    requires DistinctRecommendationIds(c.recommendations) && DistinctReviewIds(c.reviews)
    ensures Replay(st, CompositeIntegration.Publish(Dispatch.CreateCommands(c))) ==
      (Stores(st.products[c.productId := ProductCore.ProductEntity(c.productId, c.name, c.weight)],
              st.recommendations + RecommendationEntities(c.productId, c.recommendations),
              st.reviews + ReviewEntities(c.productId, c.reviews)),
       [])
  {
    var pid := c.productId;
    var pc := [Dispatch.CreateProductCmd(Dispatch.ProductOf(c))];
    var rc := Dispatch.RecommendationCreates(pid, c.recommendations);
    var vc := Dispatch.ReviewCreates(pid, c.reviews);
    CompositeIntegration.PublishConcat(pc + rc, vc);
    CompositeIntegration.PublishConcat(pc, rc);
    var pm := CompositeIntegration.Publish(pc);
    var rm := CompositeIntegration.Publish(rc);
    var vm := CompositeIntegration.Publish(vc);
    assert CompositeIntegration.Publish(Dispatch.CreateCommands(c)) == (pm + rm) + vm;
    ReplayConcat(st, pm + rm, vm);
    ReplayConcat(st, pm, rm);
    assert pm == [CompositeIntegration.MessageFor(Dispatch.CreateProductCmd(Dispatch.ProductOf(c)))];
    ReplayOne(st, pm[0]);
    var st1 := st.(products := st.products[pid := ProductCore.ProductEntity(pid, c.name, c.weight)]);
    assert Replay(st, pm) == (st1, []);
    ReplayRecommendationCreates(st1, pid, c.recommendations);
    var st2 := st1.(recommendations := st.recommendations + RecommendationEntities(pid, c.recommendations));
    ReplayReviewCreates(st2, pid, c.reviews);
  }

  lemma DeliverDeleteProduct(st: Stores, productId: int)
    ensures Deliver(st, CompositeIntegration.MessageFor(Dispatch.DeleteProductCmd(productId))) ==
      (st.(products := ProductCore.Delete(st.products, productId)), Pass)
  {
  }

  lemma DeliverDeleteRecommendations(st: Stores, productId: int)
    ensures Deliver(st, CompositeIntegration.MessageFor(Dispatch.DeleteRecommendationsCmd(productId))) ==
      (st.(recommendations := RecommendationCore.Delete(st.recommendations, productId)), Pass)
  {
  }

  lemma DeliverDeleteReviews(st: Stores, productId: int)
    ensures Deliver(st, CompositeIntegration.MessageFor(Dispatch.DeleteReviewsCmd(productId))) ==
      (st.(reviews := ReviewCore.Delete(st.reviews, productId)), Pass)
  {
  }

  /** One replay of the three delete messages. */
  lemma ReplayDeleteOnce(st: Stores, productId: int)
    ensures Replay(st, CompositeIntegration.Publish(Dispatch.DeleteCommands(productId))) ==
      (Stores(ProductCore.Delete(st.products, productId),
              RecommendationCore.Delete(st.recommendations, productId),
              ReviewCore.Delete(st.reviews, productId)), [])
  {
    var m0 := CompositeIntegration.MessageFor(Dispatch.DeleteProductCmd(productId));
    var m1 := CompositeIntegration.MessageFor(Dispatch.DeleteRecommendationsCmd(productId));
    var m2 := CompositeIntegration.MessageFor(Dispatch.DeleteReviewsCmd(productId));
    var ms := CompositeIntegration.Publish(Dispatch.DeleteCommands(productId));
    assert ms == [m0] + [m1] + [m2];
    ReplayConcat(st, [m0] + [m1], [m2]);
    ReplayConcat(st, [m0], [m1]);
    DeliverDeleteProduct(st, productId);
    ReplayOne(st, m0);
    var s1 := Deliver(st, m0).0;
    DeliverDeleteRecommendations(s1, productId);
    ReplayOne(s1, m1);
    var s2 := Deliver(s1, m1).0;
    DeliverDeleteReviews(s2, productId);
    ReplayOne(s2, m2);
  }

  /** Replaying a composite delete removes the product and all its
      recommendations and reviews, throws nothing, and leaves every other
      product's entries as they were; replaying it again changes nothing. */
  lemma ReplayDelete(st: Stores, productId: int)
    ensures var (st1, errors) := Replay(st, CompositeIntegration.Publish(Dispatch.DeleteCommands(productId)));
      errors == [] &&
      st1 == Stores(ProductCore.Delete(st.products, productId),
                    RecommendationCore.Delete(st.recommendations, productId),
                    ReviewCore.Delete(st.reviews, productId)) &&
      Replay(st1, CompositeIntegration.Publish(Dispatch.DeleteCommands(productId))).0 == st1
  {
    ReplayDeleteOnce(st, productId);
    var st1 := Replay(st, CompositeIntegration.Publish(Dispatch.DeleteCommands(productId))).0;
    ReplayDeleteOnce(st1, productId);
    Seqs.WithoutKeyIdempotent(st.recommendations, RecommendationCore.ProductIdOf, productId);
    Seqs.WithoutKeyIdempotent(st.reviews, ReviewCore.ProductIdOf, productId);
  }

  /** A CREATE for a product that is already stored throws InvalidInput in the
      product consumer and leaves the stores unchanged. */
  lemma ReplayDuplicateProduct(st: Stores, c: ProductAggregate)
    requires c.productId in st.products
    ensures Replay(st, CompositeIntegration.Publish(Dispatch.CreateCommands(c))[..1]) ==
      (st, [InvalidInput(Some(ProductCore.DuplicateKeyMessage(c.productId)))])
  {
    var ms := CompositeIntegration.Publish(Dispatch.CreateCommands(c));
    Dispatch.CreateCommandsProduct(c);
    assert ms[..1] == [ms[0]];
    ReplayOne(st, ms[0]);
  }

  // ---- Reads ----

  /** A stored product reads back through the product service and the
      integration with the product service's address. */
  lemma ProductReadBack(st: Stores, addresses: ServiceAddresses, productId: int, name: string, weight: int)
    requires productId >= 1
    requires productId in st.products && st.products[productId] == ProductCore.ProductEntity(productId, name, weight)
    ensures CompositeIntegration.GetProduct(NetworkOf(st, addresses), productId) ==
      Success(Product(productId, name, weight, Some(addresses.productAddress)))
  {
    Urls.RouteOfUrl(CompositeIntegration.ProductServiceUrl, productId);
  }

  /** The recommendations of fresh summaries read back as those summaries. */
  lemma RecommendationsReadBack(st: Stores, addresses: ServiceAddresses, productId: int,
                                base: RecommendationCore.Store, ss: seq<RecommendationSummary>)
    requires productId >= 1
    requires RecommendationCore.FindByProductId(base, productId) == []
    requires st.recommendations == base + RecommendationEntities(productId, ss)
    ensures var list := CompositeIntegration.GetRecommendations(NetworkOf(st, addresses), productId);
      CompositeService.RecommendationSummaries(list) == ss &&
      (forall i :: 0 <= i < |list| ==> list[i].serviceAddress == Some(addresses.recommendationAddress))
  {
    var es := RecommendationEntities(productId, ss);
    Urls.RouteOfUrl(CompositeIntegration.RecommendationServiceUrl, productId);
    Seqs.WithKeyConcat(base, es, RecommendationCore.ProductIdOf, productId);
    Seqs.WithKeyAll(es, RecommendationCore.ProductIdOf, productId);
    assert RecommendationCore.FindByProductId(st.recommendations, productId) == es;
    var list := CompositeIntegration.GetRecommendations(NetworkOf(st, addresses), productId);
    assert list == RecommendationCore.WithAddress(RecommendationCore.EntityListToApiList(es), addresses.recommendationAddress);
    assert CompositeService.RecommendationSummaries(list) == ss;
  }

  /** The reviews of fresh summaries read back as those summaries. */
  lemma ReviewsReadBack(st: Stores, addresses: ServiceAddresses, productId: int,
                        base: ReviewCore.Store, ss: seq<ReviewSummary>)
    requires productId >= 1
    requires ReviewCore.FindByProductId(base, productId) == []
    requires st.reviews == base + ReviewEntities(productId, ss)
    ensures var list := CompositeIntegration.GetReviews(NetworkOf(st, addresses), productId);
      CompositeService.ReviewSummaries(list) == ss &&
      (forall i :: 0 <= i < |list| ==> list[i].serviceAddress == Some(addresses.reviewAddress))
  {
    var es := ReviewEntities(productId, ss);
    Urls.RouteOfUrl(CompositeIntegration.ReviewServiceUrl, productId);
    Seqs.WithKeyConcat(base, es, ReviewCore.ProductIdOf, productId);
    Seqs.WithKeyAll(es, ReviewCore.ProductIdOf, productId);
    assert ReviewCore.FindByProductId(st.reviews, productId) == es;
    var list := CompositeIntegration.GetReviews(NetworkOf(st, addresses), productId);
    assert list == ReviewCore.WithAddress(ReviewCore.EntityListToApiList(es), addresses.reviewAddress);
    assert CompositeService.ReviewSummaries(list) == ss;
  }

  /** The round trip: a composite create for a product none of the stores knows,
      replayed through the consumers, then read through the composite, gives back
      the aggregate's productId, name, weight and summaries, with each service's
      own address. */
  lemma CreateReplayRead(st: Stores, addresses: ServiceAddresses, c: ProductAggregate)
    requires c.productId >= 1
    requires c.productId !in st.products
    requires RecommendationCore.FindByProductId(st.recommendations, c.productId) == []
    requires ReviewCore.FindByProductId(st.reviews, c.productId) == []
    requires DistinctRecommendationIds(c.recommendations) && DistinctReviewIds(c.reviews)
    ensures var (st1, errors) := Replay(st, CompositeIntegration.Publish(Dispatch.CreateCommands(c)));
      errors == [] &&
      ReadAggregate(st1, addresses, c.productId) == Success(ProductAggregate(
        c.productId, c.name, c.weight, c.recommendations, c.reviews,
        Some(ServiceAddresses(addresses.compositeAddress, addresses.productAddress,
                              if c.reviews == [] then "" else addresses.reviewAddress,
                              if c.recommendations == [] then "" else addresses.recommendationAddress))))
  {
    var pid := c.productId;
    ReplayCreate(st, c);
    var st1 := Replay(st, CompositeIntegration.Publish(Dispatch.CreateCommands(c))).0;
    var net := NetworkOf(st1, addresses);
    ProductReadBack(st1, addresses, pid, c.name, c.weight);
    RecommendationsReadBack(st1, addresses, pid, st.recommendations, c.recommendations);
    ReviewsReadBack(st1, addresses, pid, st.reviews, c.reviews);
    var product := Product(pid, c.name, c.weight, Some(addresses.productAddress));
    var recommendations := CompositeIntegration.GetRecommendations(net, pid);
    var reviews := CompositeIntegration.GetReviews(net, pid);
    assert ReadAggregate(st1, addresses, pid) ==
      CompositeService.CreateProductAggregate(product, recommendations, reviews, addresses.compositeAddress);
    assert |recommendations| == |c.recommendations| && |reviews| == |c.reviews|;
  }

  /** After a composite delete is replayed, the composite read fails with the
      product service's NotFound message, carried through its 404 response. */
  lemma DeleteReplayRead(st: Stores, addresses: ServiceAddresses, productId: int)
    requires productId >= 1
    ensures var st1 := Replay(st, CompositeIntegration.Publish(Dispatch.DeleteCommands(productId))).0;
      ReadAggregate(st1, addresses, productId) == Failure(NotFound(Some(ProductCore.NotFoundMessage(productId)))) &&
      RecommendationCore.FindByProductId(st1.recommendations, productId) == [] &&
      ReviewCore.FindByProductId(st1.reviews, productId) == []
  {
    ReplayDelete(st, productId);
    Urls.RouteOfUrl(CompositeIntegration.ProductServiceUrl, productId);
    RecommendationCore.DeleteRemovesProduct(st.recommendations, productId, productId);
    ReviewCore.DeleteRemovesProduct(st.reviews, productId, productId);
  }

  /** The composite does not check the productId itself: an id below 1 is
      rejected by the product service, and its InvalidInput reaches the caller
      with the same message, whatever the stores hold. */
  lemma InvalidIdRead(st: Stores, addresses: ServiceAddresses, productId: int)
    requires productId < 1
    ensures ReadAggregate(st, addresses, productId) == Failure(InvalidInput(Some(ProductCore.InvalidProductIdMessage(productId))))
  {
    Urls.RouteOfUrl(CompositeIntegration.ProductServiceUrl, productId);
  }

  /** A missing product is NotFound at the composite, with the product service's message. */
  lemma MissingProductRead(st: Stores, addresses: ServiceAddresses, productId: int)
    requires productId >= 1 && productId !in st.products
    ensures ReadAggregate(st, addresses, productId) == Failure(NotFound(Some(ProductCore.NotFoundMessage(productId))))
  {
    Urls.RouteOfUrl(CompositeIntegration.ProductServiceUrl, productId);
  }

  /** The whole write-then-read with the composite's own methods: a create over
      a broker that accepts every send publishes the full plan, which replayed
      and read back gives the aggregate's contents. */
  method CreateThenRead(st: Stores, addresses: ServiceAddresses, c: ProductAggregate) returns (r: Result<ProductAggregate>, errors: seq<Error>)
    requires c.productId >= 1
    requires c.productId !in st.products
    requires RecommendationCore.FindByProductId(st.recommendations, c.productId) == []
    requires ReviewCore.FindByProductId(st.reviews, c.productId) == []
    requires DistinctRecommendationIds(c.recommendations) && DistinctReviewIds(c.reviews)
    ensures errors == []
    ensures r.Success? && r.value.productId == c.productId && r.value.name == c.name && r.value.weight == c.weight
    ensures r.Success? && r.value.recommendations == c.recommendations && r.value.reviews == c.reviews
  {
    var acceptAll: nat -> Outcome := n => Pass;
    var broker := new Messaging.Channel<Messaging.Message>(acceptAll);
    var integration := new CompositeIntegration.ProductCompositeIntegration(broker);
    var composite := new CompositeService.ProductCompositeServiceImpl(addresses.compositeAddress, integration);
    var o := composite.CreateProduct(c);
    Messaging.AcceptedAll(acceptAll, 0, |CompositeIntegration.Publish(Dispatch.CreateCommands(c))|);
    assert broker.log == CompositeIntegration.Publish(Dispatch.CreateCommands(c));
    var st1;
    st1, errors := Replay(st, broker.log).0, Replay(st, broker.log).1;
    CreateReplayRead(st, addresses, c);
    r := ReadAggregate(st1, addresses, c.productId);
  }
}
