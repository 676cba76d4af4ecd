/** The plan the composite service follows for a write: the calls it makes on
    the integration layer, in order. Both composite variants follow the same
    plan; they differ only in what carries each call out. */
module Dispatch {
  import opened Api

  /** One call on the integration layer. */
  datatype Command =
    | CreateProductCmd(product: Product)
    | CreateRecommendationCmd(recommendation: Recommendation)
    | CreateReviewCmd(review: Review)
    | DeleteProductCmd(productId: int)
    | DeleteRecommendationsCmd(productId: int)
    | DeleteReviewsCmd(productId: int)

  /** The productId the call is about. */
  function CommandKey(c: Command): int {
    match c
    case CreateProductCmd(p) => p.productId
    case CreateRecommendationCmd(r) => r.productId
    case CreateReviewCmd(r) => r.productId
    case DeleteProductCmd(id) => id
    case DeleteRecommendationsCmd(id) => id
    case DeleteReviewsCmd(id) => id
  }

  /** The product of an aggregate; no service address. */
  function ProductOf(body: ProductAggregate): Product {
    Product(body.productId, body.name, body.weight, None)
  }

  /** A recommendation summary completed with the aggregate's productId. */
  function RecommendationOf(productId: int, summary: RecommendationSummary): Recommendation {
    Recommendation(productId, summary.recommendationId, summary.author, summary.rate, summary.content, None)
  }

  /** A review summary completed with the aggregate's productId. */
  function ReviewOf(productId: int, summary: ReviewSummary): Review {
    Review(productId, summary.reviewId, summary.author, summary.subject, summary.content, None)
  }

  /** The recommendation creates, one per summary, in input order. */
  function RecommendationCreates(productId: int, summaries: seq<RecommendationSummary>): (cs: seq<Command>)
    ensures |cs| == |summaries|
  {
    seq(|summaries|, i requires 0 <= i < |summaries| => CreateRecommendationCmd(RecommendationOf(productId, summaries[i])))
  }

  /** The review creates, one per summary, in input order. */
  function ReviewCreates(productId: int, summaries: seq<ReviewSummary>): (cs: seq<Command>)
    ensures |cs| == |summaries|
  {
    seq(|summaries|, i requires 0 <= i < |summaries| => CreateReviewCmd(ReviewOf(productId, summaries[i])))
  }

  /** createProduct: the product, then its recommendations, then its reviews. */
  function CreateCommands(body: ProductAggregate): seq<Command> {
    [CreateProductCmd(ProductOf(body))] +
    RecommendationCreates(body.productId, body.recommendations) +
    ReviewCreates(body.productId, body.reviews)
  }

  /** deleteProduct: the product, its recommendations, its reviews. */
  function DeleteCommands(productId: int): seq<Command> {
    [DeleteProductCmd(productId), DeleteRecommendationsCmd(productId), DeleteReviewsCmd(productId)]
  }

  /** The create plan has 1 + |recommendations| + |reviews| steps: the product
      first, built from the aggregate's productId, name and weight; then one
      recommendation per summary in input order; then one review per summary in
      input order; and every step is about the aggregate's productId. */
  lemma CreateCommandsLayout(body: ProductAggregate)
    ensures var cs := CreateCommands(body);
      var nr := |body.recommendations|;
      |cs| == 1 + nr + |body.reviews| &&
      cs[0] == CreateProductCmd(Product(body.productId, body.name, body.weight, None)) &&
      (forall i :: 0 <= i < nr ==>
         cs[1 + i] == CreateRecommendationCmd(RecommendationOf(body.productId, body.recommendations[i]))) &&
      (forall i :: 0 <= i < |body.reviews| ==>
         cs[1 + nr + i] == CreateReviewCmd(ReviewOf(body.productId, body.reviews[i]))) &&
      (forall i :: 0 <= i < |cs| ==> CommandKey(cs[i]) == body.productId)
  {
    var cs := CreateCommands(body);
    var nr := |body.recommendations|;
    forall i | 0 <= i < nr
      ensures cs[1 + i] == CreateRecommendationCmd(RecommendationOf(body.productId, body.recommendations[i]))
    {
      CreateCommandsRecommendation(body, i);
    }
    forall i | 0 <= i < |body.reviews|
      ensures cs[1 + nr + i] == CreateReviewCmd(ReviewOf(body.productId, body.reviews[i]))
    {
      CreateCommandsReview(body, i);
    }
    forall i | 0 <= i < |cs|
      ensures CommandKey(cs[i]) == body.productId
    {
      if 1 <= i < 1 + nr {
        CreateCommandsRecommendation(body, i - 1);
      } else if 1 + nr <= i {
        CreateCommandsReview(body, i - 1 - nr);
      }
    }
  }

  lemma CreateCommandsProduct(body: ProductAggregate)
    ensures |CreateCommands(body)| == 1 + |body.recommendations| + |body.reviews|
    ensures CreateCommands(body)[..1] == [CreateProductCmd(ProductOf(body))]
  {
  }

  lemma CreateCommandsRecommendation(body: ProductAggregate, i: nat)
    requires i < |body.recommendations|
    ensures CreateCommands(body)[1 + i] == CreateRecommendationCmd(RecommendationOf(body.productId, body.recommendations[i]))
  {
    var recs := RecommendationCreates(body.productId, body.recommendations);
    var front := [CreateProductCmd(ProductOf(body))] + recs;
    assert CreateCommands(body) == front + ReviewCreates(body.productId, body.reviews);
    assert CreateCommands(body)[1 + i] == front[1 + i] == recs[i];
  }

  lemma CreateCommandsReview(body: ProductAggregate, j: nat)
    requires j < |body.reviews|
    ensures CreateCommands(body)[1 + |body.recommendations| + j] == CreateReviewCmd(ReviewOf(body.productId, body.reviews[j]))
  {
    var front := [CreateProductCmd(ProductOf(body))] + RecommendationCreates(body.productId, body.recommendations);
    var revs := ReviewCreates(body.productId, body.reviews);
    assert CreateCommands(body) == front + revs;
    assert |front| == 1 + |body.recommendations|;
    assert CreateCommands(body)[|front| + j] == revs[j];
  }

  /** An aggregate without summaries is one create: its product. */
  lemma CreateCommandsEmptyLists(body: ProductAggregate)
    requires body.recommendations == [] && body.reviews == []
    ensures CreateCommands(body) == [CreateProductCmd(ProductOf(body))]
  {
  }

  /** The delete plan: exactly three deletes, product first, all for the same productId. */
  lemma DeleteCommandsLayout(productId: int)
    ensures |DeleteCommands(productId)| == 3
    ensures DeleteCommands(productId)[0].DeleteProductCmd?
    ensures DeleteCommands(productId)[1].DeleteRecommendationsCmd?
    ensures DeleteCommands(productId)[2].DeleteReviewsCmd?
    ensures forall i :: 0 <= i < 3 ==> CommandKey(DeleteCommands(productId)[i]) == productId
  {
  }
}
