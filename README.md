# Product microservices: a verified model

This project models the core of a small Kotlin/Spring microservice landscape
built around a product. A **composite service** accepts a product aggregate
(product, recommendation summaries, review summaries). It turns a create
into a product create, one recommendation create per summary and one review
create per summary, in that order. It turns a delete into three deletes.
In the current (event-driven) variant the **integration layer** publishes
each call as an event to one output binding per entity
(`products-out-0`, `recommendations-out-0`, `reviews-out-0`). The event is
keyed by the productId and partitioned by the same key. In the earlier
(blocking) variant the integration receives the calls directly.
Three **core services** each own a repository:
- products, unique by productId;
- recommendations, unique by (productId, recommendationId);
- reviews, unique by (productId, reviewId).

Their **message processors** apply CREATE and DELETE events and reject
every other event type. Reads go over HTTP. A core service validates the
id, looks the entities up and stamps its own address. Its **exception
handler** turns NotFound into 404, InvalidInput into 422 and (in the
current variant) BadRequest into 400. The body is an `HttpErrorInfo`. The
composite translates 404 and 422 back into exceptions and absorbs every
failure of the list reads into an empty list. It then assembles the
aggregate with the three services' addresses.

Layout, one module per part of the system:

- `api.dfy` (`Api`): the shared records, events, error kinds and results.
- `decimal.dfy`, `urls.dfy`, `seqs.dfy`: decimal rendering of ids, the read URLs and their routing, and the keyed filters the repositories use.
- `product_service.dfy`, `recommendation_service.dfy`, `review_service.dfy`: each store's rules as functions over the repository value. Each has a service class whose methods (create, get, delete, message processor) update the repository field and are proved against those functions. Both package variants share these rules. The earlier recommendation service stamps addresses in place in an array loop (`RecommendationCore.StampServiceAddress`).
- `messaging.dfy`: the broker as an append-only log. Its answer to each send (accepted, or the exception the send throws) is a parameter, standing for the broker's unseen behaviour, and the channel counts the sends made.
- `dispatch.dfy`: the call plan of a composite create and delete.
- `error_handler.dfy`: both exception handlers and the HTTP response a caller sees.
- `integration.dfy`, `composite.dfy`: the current integration layer and composite.
- `blocking_integration.dfy`, `blocking_composite.dfy`: the earlier variant of each.
- `end_to_end.dfy`: the published log replayed through the three consumers, the stores served back over HTTP, and the round trip from create to read.

Both variants of each core service have the same rules, so one model
covers both; the rows below cite whichever variant states a rule most
directly.

I/O is modelled as follows:
- HTTP answers are a parameter: a `Network` maps each URL to a response.
- The broker's answers are a parameter: the channel's n-th send gets `answer(n)`.
- Service addresses are plain string parameters.

## Model

| member | source | states |
|---|---|---|
| ProductCore.ProductServiceImpl.CreateProduct | product-service/src/main/kotlin/com/ykatsatos/microservices/core/product/services/ProductServiceImpl.kt:25-40 | the new repository and the result are those of `Create`: a fresh productId is stored and the body is returned without its address; a productId already stored fails with InvalidInput "Duplicate key, Product id: <id>" and changes nothing; the store stays keyed by productId |
| ProductCore.ProductServiceImpl.GetProduct | product-service/src/main/kotlin/com/ykatsatos/microservices/core/product/services/ProductServiceImpl.kt:42-56 | the result is `Get` of the repository: InvalidInput for an id below 1, NotFound for a missing id, otherwise the stored product with the service's own address; nothing changes |
| ProductCore.ProductServiceImpl.DeleteProduct | product-service/src/main/kotlin/com/ykatsatos/microservices/core/product/services/ProductServiceImpl.kt:58-63 | the repository loses the entity of that productId if there is one and is otherwise unchanged; it never fails |
| ProductCore.ProductServiceImpl.MessageProcessor | product-service/src/main/kotlin/com/ykatsatos/microservices/core/product/services/MessageProcessorConfig.kt:22-45 | the repository and the outcome are those of `Process` on the old repository; the store stays keyed by productId |
| ProductCore.CreateThenGet | product-service/src/main/kotlin/com/ykatsatos/microservices/core/product/services/ProductServiceImpl.kt:28-34 | a create of a fresh productId succeeds with the body minus its address, and a later get of a valid id returns the body with the service's own address |
| ProductCore.CreateDuplicate | product-service/src/main/kotlin/com/ykatsatos/microservices/core/product/services/ProductServiceImpl.kt:36-39 | a create of a stored productId fails with InvalidInput "Duplicate key, Product id: <id>" and leaves the store unchanged |
| ProductCore.CreateAddsOne | product-service/src/main/kotlin/se/magnus/microservices/core/product/persistence/ProductEntity.kt:12 | a successful create adds exactly the new productId to the keys, keeps every other entity, and keeps the store keyed by its unique productId |
| ProductCore.GetInvalidId | product-service/src/main/kotlin/com/ykatsatos/microservices/core/product/services/ProductServiceImpl.kt:44-46 | an id below 1 fails with InvalidInput "Invalid productId: <id>" whatever the store holds |
| ProductCore.GetFound | product-service/src/main/kotlin/se/magnus/microservices/core/product/services/ProductServiceImpl.kt:46-50 | a get succeeds exactly for a stored id of at least 1, and then carries the stored productId, name and weight and the service's own address |
| ProductCore.DeleteRemoves | product-service/src/main/kotlin/com/ykatsatos/microservices/core/product/services/ProductServiceImpl.kt:62 | after a delete the product is NotFound, a second delete changes nothing, and every other id reads as before |
| ProductCore.ProcessDispatch | product-service/src/main/kotlin/com/ykatsatos/microservices/core/product/services/MessageProcessorConfig.kt:27-42 | CREATE with data makes the store of the create, and the consumer passes when the create succeeds and otherwise throws the create's own exception; a CREATE of a stored productId throws InvalidInput "Duplicate key, Product id: <id>" and changes nothing; CREATE without data changes nothing; DELETE deletes by the event key; any other type throws EventProcessing "Incorrect event type <type>" and changes nothing |
| ProductCore.Create | product-service/src/main/kotlin/com/ykatsatos/microservices/core/product/services/ProductServiceImpl.kt:25-40 | createProduct as a rule on the repository value; its contract is stated by CreateThenGet, CreateDuplicate and CreateAddsOne, and the service method is proved equal to it |
| ProductCore.Get | product-service/src/main/kotlin/com/ykatsatos/microservices/core/product/services/ProductServiceImpl.kt:42-56 | getProduct as a rule; stated by GetInvalidId and GetFound |
| ProductCore.Delete | product-service/src/main/kotlin/com/ykatsatos/microservices/core/product/services/ProductServiceImpl.kt:58-63 | deleteProduct as a rule; stated by DeleteRemoves |
| ProductCore.Process | product-service/src/main/kotlin/com/ykatsatos/microservices/core/product/services/MessageProcessorConfig.kt:22-45 | the message processor as a rule; stated by ProcessDispatch and ProcessDeleteIgnoresData |
| ProductCore.ProcessDeleteIgnoresData | product-service/src/main/kotlin/com/ykatsatos/microservices/core/product/services/MessageProcessorConfig.kt:33-36 | a DELETE event gives the same result whatever data it carries |
| RecommendationCore.RecommendationServiceImpl.CreateRecommendation | recommendation-service/src/main/kotlin/com/ykatsatos/microservices/core/recommendation/services/RecommendationServiceImpl.kt:24-42 | the new repository and result are those of `Create`: appended when the (productId, recommendationId) pair is new, otherwise InvalidInput "Duplicate key, productId: <p>, recommendationId: <r>" and no change; the pair stays unique |
| RecommendationCore.RecommendationServiceImpl.GetRecommendations | recommendation-service/src/main/kotlin/com/ykatsatos/microservices/core/recommendation/services/RecommendationServiceImpl.kt:44-56 | the result is `Get`: InvalidInput for an id below 1, otherwise the product's entries in store order, each converted and given the service's address |
| RecommendationCore.RecommendationServiceImpl.GetRecommendationsInPlace | recommendation-service/src/main/kotlin/se/magnus/microservices/core/recommendation/services/RecommendationServiceImpl.kt:42-56 | the earlier variant, which converts the entries and then overwrites each element's address in an array, gives the same result as `Get` |
| RecommendationCore.StampServiceAddress | recommendation-service/src/main/kotlin/se/magnus/microservices/core/recommendation/services/RecommendationServiceImpl.kt:51 | after the loop the array holds `WithAddress` of its old contents: every element has the service's address and no other field changed |
| RecommendationCore.RecommendationServiceImpl.DeleteRecommendations | recommendation-service/src/main/kotlin/com/ykatsatos/microservices/core/recommendation/services/RecommendationServiceImpl.kt:58-63 | the repository loses exactly the entries of that productId, keeping the others in order; the pair stays unique |
| RecommendationCore.RecommendationServiceImpl.MessageProcessor | recommendation-service/src/main/kotlin/com/ykatsatos/microservices/core/recommendation/services/MessageProcessorConfig.kt:22-45 | the repository and outcome are those of `Process` on the old repository; the pair stays unique |
| RecommendationCore.CreatePreservesUniqueKeys | recommendation-service/src/main/kotlin/se/magnus/microservices/core/recommendation/persistence/RecommendationEntity.kt:9 | a create keeps the (productId, recommendationId) pairs of the store pairwise distinct |
| RecommendationCore.DeletePreservesUniqueKeys | recommendation-service/src/main/kotlin/com/ykatsatos/microservices/core/recommendation/services/RecommendationServiceImpl.kt:62 | a delete keeps the pairs pairwise distinct |
| RecommendationCore.CreateThenGet | recommendation-service/src/main/kotlin/com/ykatsatos/microservices/core/recommendation/services/RecommendationServiceImpl.kt:28-35 | a create of a new pair appends its entity and returns the body without address; a later valid get returns the earlier entries of the product followed by the body with the service's address |
| RecommendationCore.CreateDuplicate | recommendation-service/src/main/kotlin/com/ykatsatos/microservices/core/recommendation/services/RecommendationServiceImpl.kt:37-41 | a create of a stored pair fails with InvalidInput "Duplicate key, productId: <p>, recommendationId: <r>" and leaves the store unchanged |
| RecommendationCore.GetReturnsProductEntries | recommendation-service/src/main/kotlin/com/ykatsatos/microservices/core/recommendation/services/RecommendationServiceImpl.kt:49-51 | a get succeeds exactly for an id of at least 1; a recommendation is in the result exactly when it is a stored entry of that productId, converted and given the service's address |
| RecommendationCore.GetInvalidId | recommendation-service/src/main/kotlin/se/magnus/microservices/core/recommendation/services/RecommendationServiceImpl.kt:44-46 | an id below 1 fails with InvalidInput "Invalid productId: <id>" whatever the store holds |
| RecommendationCore.DeleteRemovesProduct | recommendation-service/src/main/kotlin/se/magnus/microservices/core/recommendation/services/RecommendationServiceImpl.kt:62 | after a delete the product has no entries, every other product's entries are unchanged, and a second delete changes nothing |
| RecommendationCore.WithAddressKeepsFields | recommendation-service/src/main/kotlin/com/ykatsatos/microservices/core/recommendation/services/RecommendationServiceImpl.kt:69-78 | the address stamping keeps length, order, productId, recommendationId, author, rate and content, and sets every address to the service's own |
| RecommendationCore.ProcessDispatch | recommendation-service/src/main/kotlin/com/ykatsatos/microservices/core/recommendation/services/MessageProcessorConfig.kt:27-42 | CREATE with data makes the store of the create, and the consumer passes when the create succeeds and otherwise throws the create's own exception; a CREATE of a stored (productId, recommendationId) throws InvalidInput with the duplicate-key message and changes nothing; CREATE without data changes nothing; DELETE deletes by the event key; any other type throws EventProcessing "Incorrect event type <type>" |
| RecommendationCore.Create | recommendation-service/src/main/kotlin/com/ykatsatos/microservices/core/recommendation/services/RecommendationServiceImpl.kt:24-42 | createRecommendation as a rule; stated by CreateThenGet, CreateDuplicate and CreatePreservesUniqueKeys |
| RecommendationCore.Get | recommendation-service/src/main/kotlin/com/ykatsatos/microservices/core/recommendation/services/RecommendationServiceImpl.kt:44-56 | getRecommendations as a rule; stated by GetInvalidId and GetReturnsProductEntries |
| RecommendationCore.Delete | recommendation-service/src/main/kotlin/com/ykatsatos/microservices/core/recommendation/services/RecommendationServiceImpl.kt:58-63 | deleteRecommendations as a rule; stated by DeleteRemovesProduct and DeletePreservesUniqueKeys |
| RecommendationCore.Process | recommendation-service/src/main/kotlin/com/ykatsatos/microservices/core/recommendation/services/MessageProcessorConfig.kt:22-45 | the message processor as a rule; stated by ProcessDispatch |
| ReviewCore.ReviewServiceImpl.CreateReview | review-service/src/main/kotlin/com/ykatsatos/microservices/core/review/services/ReviewServiceImpl.kt:26-42 | the new repository and result are those of `Create`: appended when the (productId, reviewId) pair is new, otherwise InvalidInput "Duplicate key, productId: <p>, reviewId: <r>" and no change; the pair stays unique |
| ReviewCore.ReviewServiceImpl.GetReviews | review-service/src/main/kotlin/com/ykatsatos/microservices/core/review/services/ReviewServiceImpl.kt:44-53 | the result is `Get`: InvalidInput for an id below 1, otherwise the product's reviews in store order, each given the service's address |
| ReviewCore.ReviewServiceImpl.DeleteReviews | review-service/src/main/kotlin/com/ykatsatos/microservices/core/review/services/ReviewServiceImpl.kt:55-60 | the repository loses exactly the reviews of that productId; the pair stays unique |
| ReviewCore.ReviewServiceImpl.MessageProcessor | review-service/src/main/kotlin/com/ykatsatos/microservices/core/review/services/MessageProcessorConfig.kt:22-45 | the repository and outcome are those of `Process` on the old repository; the pair stays unique |
| ReviewCore.CreatePreservesUniqueKeys | review-service/src/main/kotlin/se/magnus/microservices/core/review/persistence/ReviewEntity.kt:7-10 | a create keeps the (productId, reviewId) pairs pairwise distinct |
| ReviewCore.DeletePreservesUniqueKeys | review-service/src/main/kotlin/com/ykatsatos/microservices/core/review/services/ReviewServiceImpl.kt:59 | a delete keeps the pairs pairwise distinct |
| ReviewCore.CreateThenGet | review-service/src/main/kotlin/com/ykatsatos/microservices/core/review/services/ReviewServiceImpl.kt:30-36 | a create of a new pair appends its entity; a later valid get returns the product's earlier reviews followed by the body with the service's address |
| ReviewCore.CreateDuplicate | review-service/src/main/kotlin/se/magnus/microservices/core/review/services/ReviewServiceImpl.kt:35-38 | a create of a stored pair fails with InvalidInput "Duplicate key, productId: <p>, reviewId: <r>" and leaves the store unchanged |
| ReviewCore.GetReturnsProductEntries | review-service/src/main/kotlin/com/ykatsatos/microservices/core/review/services/ReviewServiceImpl.kt:52 | a get succeeds exactly for an id of at least 1; a review is in the result exactly when it is a stored review of that productId, given the service's address |
| ReviewCore.GetInvalidId | review-service/src/main/kotlin/se/magnus/microservices/core/review/services/ReviewServiceImpl.kt:43-45 | an id below 1 fails with InvalidInput "Invalid productId: <id>" whatever the store holds |
| ReviewCore.DeleteRemovesProduct | review-service/src/main/kotlin/se/magnus/microservices/core/review/services/ReviewServiceImpl.kt:60 | after a delete the product has no reviews, every other product's reviews are unchanged, and a second delete changes nothing |
| ReviewCore.WithAddressKeepsFields | review-service/src/main/kotlin/se/magnus/microservices/core/review/services/ReviewServiceImpl.kt:67-75 | the conversion keeps length, order, productId, reviewId, author, subject and content, and sets every address to the service's own |
| ReviewCore.ProcessDispatch | review-service/src/main/kotlin/com/ykatsatos/microservices/core/review/services/MessageProcessorConfig.kt:27-42 | CREATE with data makes the store of the create, and the consumer passes when the create succeeds and otherwise throws the create's own exception; a CREATE of a stored (productId, reviewId) throws InvalidInput with the duplicate-key message and changes nothing; CREATE without data changes nothing; DELETE deletes by the event key; any other type throws EventProcessing "Incorrect event type <type>" |
| ReviewCore.Create | review-service/src/main/kotlin/com/ykatsatos/microservices/core/review/services/ReviewServiceImpl.kt:26-42 | createReview as a rule; stated by CreateThenGet, CreateDuplicate and CreatePreservesUniqueKeys |
| ReviewCore.Get | review-service/src/main/kotlin/com/ykatsatos/microservices/core/review/services/ReviewServiceImpl.kt:44-53 | getReviews as a rule; stated by GetInvalidId and GetReturnsProductEntries |
| ReviewCore.Delete | review-service/src/main/kotlin/com/ykatsatos/microservices/core/review/services/ReviewServiceImpl.kt:55-60 | deleteReviews as a rule; stated by DeleteRemovesProduct and DeletePreservesUniqueKeys |
| ReviewCore.Process | review-service/src/main/kotlin/com/ykatsatos/microservices/core/review/services/MessageProcessorConfig.kt:22-45 | the message processor as a rule; stated by ProcessDispatch |
| Messaging.Channel.Send | product-composite-service/src/main/kotlin/com/ykatsatos/microservices/composite/product/services/ProductCompositeIntegration.kt:138-147 | one send gets the broker's answer to the channel's next send: accepted, it is appended to the log; refused, its exception is returned and the log is unchanged; every send is counted, whatever its answer |
| Messaging.AcceptedIsFirstRefusal | product-composite-service/src/main/kotlin/com/ykatsatos/microservices/composite/product/services/ProductCompositeServiceImpl.kt:24-54 | the number of accepted steps of a run is the index of its first refused step: every step before it is accepted and, when the run is not all accepted, that step is refused; so the exception the composite rethrows is that step's own |
| Messaging.AcceptedConcat | product-composite-service/src/main/kotlin/com/ykatsatos/microservices/composite/product/services/ProductCompositeServiceImpl.kt:27-50 | a run of the product step, then the recommendation steps, then the review steps: a later part counts only when every step before it was accepted |
| Dispatch.CreateCommandsLayout | product-composite-service/src/main/kotlin/com/ykatsatos/microservices/composite/product/services/ProductCompositeServiceImpl.kt:22-50 | the plan of a create holds 1 + |recommendations| + |reviews| calls: first the product built from productId, name and weight, then one recommendation per summary in order, then one review per summary in order, each keyed by the aggregate's productId |
| Dispatch.CreateCommandsProduct | product-composite-service/src/main/kotlin/com/ykatsatos/microservices/composite/product/services/ProductCompositeServiceImpl.kt:27-28 | the first call is the product create built from productId, name and weight alone |
| Dispatch.CreateCommandsRecommendation | product-composite-service/src/main/kotlin/com/ykatsatos/microservices/composite/product/services/ProductCompositeServiceImpl.kt:30-39 | call 1 + i is the create of the i-th recommendation summary completed with the aggregate's productId |
| Dispatch.CreateCommandsReview | product-composite-service/src/main/kotlin/com/ykatsatos/microservices/composite/product/services/ProductCompositeServiceImpl.kt:41-50 | call 1 + |recommendations| + j is the create of the j-th review summary completed with the aggregate's productId |
| Dispatch.CreateCommandsEmptyLists | product-composite-service/src/main/kotlin/com/ykatsatos/microservices/composite/product/services/ProductCompositeServiceImpl.kt:22-50 | an aggregate with no summaries gives exactly one call, the product create |
| Dispatch.DeleteCommandsLayout | product-composite-service/src/main/kotlin/com/ykatsatos/microservices/composite/product/services/ProductCompositeServiceImpl.kt:72-76 | a delete is exactly three calls, product then recommendations then reviews, all with the same productId |
| Urls.RouteOfUrl | product-composite-service/src/main/kotlin/com/ykatsatos/microservices/composite/product/services/ProductCompositeIntegration.kt:55 | each of the three read URLs, "<base>/product/<id>", "<base>/recommendation?productId=<id>" and "<base>/review?productId=<id>", routes back to the id it was built from |
| Urls.ProductUrlInjective | product-composite-service/src/main/kotlin/com/ykatsatos/microservices/composite/product/services/ProductCompositeIntegration.kt:55 | distinct ids give distinct product URLs |
| Decimal.ParseIntOfIntToString | product-service/src/main/kotlin/com/ykatsatos/microservices/core/product/services/ProductServiceImpl.kt:45 | the decimal rendering of an id in messages and URLs parses back to the id |
| Decimal.IntToStringInjective | product-service/src/main/kotlin/com/ykatsatos/microservices/core/product/services/ProductServiceImpl.kt:45 | distinct ids render differently |
| ErrorHandler.HandledStatusKinds | utilities/src/main/kotlin/com/ykatsatos/microservices/utilities/http/GlobalControllerExceptionHandler.kt:21-45 | 400 exactly for BadRequest, 404 exactly for NotFound, 422 exactly for InvalidInput, and no handler for any other kind |
| ErrorHandler.LegacyHandledStatusKinds | utilities/src/main/kotlin/se/magnus/microservices/utilities/http/GlobalControllerExceptionHandler.kt:22-39 | the earlier handler gives 404 exactly for NotFound and 422 exactly for InvalidInput, and agrees with the current one except that BadRequest is unhandled |
| ErrorHandler.HandledStatus | utilities/src/main/kotlin/com/ykatsatos/microservices/utilities/http/GlobalControllerExceptionHandler.kt:21-45 | the status each handler of the current variant gives; stated by HandledStatusKinds |
| ErrorHandler.LegacyHandledStatus | utilities/src/main/kotlin/se/magnus/microservices/utilities/http/GlobalControllerExceptionHandler.kt:22-39 | the same for the earlier variant; stated by LegacyHandledStatusKinds |
| ErrorHandler.CreateHttpErrorInfo | utilities/src/main/kotlin/com/ykatsatos/microservices/utilities/http/GlobalControllerExceptionHandler.kt:47-55 | the error body; stated by RespondShape |
| ErrorHandler.Respond | utilities/src/main/kotlin/com/ykatsatos/microservices/utilities/http/GlobalControllerExceptionHandler.kt:19-56 | what a caller sees for an endpoint's outcome; stated by RespondShape and carried to the composite by ErrorTranslationRoundTrip |
| ErrorHandler.RespondShape | utilities/src/main/kotlin/com/ykatsatos/microservices/utilities/http/GlobalControllerExceptionHandler.kt:19-56 | a success reaches the caller as its value; a handled exception as its status with the matching HttpErrorInfo body; an unhandled one as a 500 |
| CompositeIntegration.ProductCompositeIntegration.SendMessage | product-composite-service/src/main/kotlin/com/ykatsatos/microservices/composite/product/services/ProductCompositeIntegration.kt:138-147 | the broker log gains the message of the event, with partitionKey the event key, when the send is accepted |
| CompositeIntegration.ProductCompositeIntegration.CreateProduct | product-composite-service/src/main/kotlin/com/ykatsatos/microservices/composite/product/services/ProductCompositeIntegration.kt:46-51 | the log gains one CREATE event on products-out-0 keyed by body.productId with the body as data, and the body is returned unchanged |
| CompositeIntegration.ProductCompositeIntegration.DeleteProduct | product-composite-service/src/main/kotlin/com/ykatsatos/microservices/composite/product/services/ProductCompositeIntegration.kt:67-70 | the log gains one DELETE event on products-out-0 keyed by the productId with no data |
| CompositeIntegration.ProductCompositeIntegration.CreateRecommendation | product-composite-service/src/main/kotlin/com/ykatsatos/microservices/composite/product/services/ProductCompositeIntegration.kt:72-77 | the log gains one CREATE event on recommendations-out-0 keyed by body.productId with the body, and the body is returned |
| CompositeIntegration.ProductCompositeIntegration.DeleteRecommendations | product-composite-service/src/main/kotlin/com/ykatsatos/microservices/composite/product/services/ProductCompositeIntegration.kt:94-97 | the log gains one DELETE event on recommendations-out-0 with no data |
| CompositeIntegration.ProductCompositeIntegration.CreateReview | product-composite-service/src/main/kotlin/com/ykatsatos/microservices/composite/product/services/ProductCompositeIntegration.kt:99-104 | the log gains one CREATE event on reviews-out-0 keyed by body.productId with the body, and the body is returned |
| CompositeIntegration.ProductCompositeIntegration.DeleteReviews | product-composite-service/src/main/kotlin/com/ykatsatos/microservices/composite/product/services/ProductCompositeIntegration.kt:121-124 | the log gains one DELETE event on reviews-out-0 with no data |
| CompositeIntegration.MessageForShape | product-composite-service/src/main/kotlin/com/ykatsatos/microservices/composite/product/services/ProductCompositeIntegration.kt:74 | every message's partitionKey and event key are its call's productId; each entity has its own binding; creates carry their body and deletes no data |
| CompositeIntegration.CreateMessagesKeyed | product-composite-service/src/main/kotlin/com/ykatsatos/microservices/composite/product/services/ProductCompositeIntegration.kt:138-147 | every message of a composite create is keyed and partitioned by the aggregate's productId |
| CompositeIntegration.HandleExceptionStatus | product-composite-service/src/main/kotlin/com/ykatsatos/microservices/composite/product/services/ProductCompositeIntegration.kt:163-177 | NotFound exactly for 404, InvalidInput exactly for 422, the exception itself for every other status; the translated message is the intended getErrorMessage (see HandleExceptionAsWrittenAgreement for the code as written) |
| CompositeIntegration.ErrorTranslationRoundTrip | product-composite-service/src/main/kotlin/com/ykatsatos/microservices/composite/product/services/ProductCompositeIntegration.kt:63 | a NotFound or InvalidInput thrown in a core service reaches the composite as the same kind with the same message; a BadRequest arrives as a 400 and an unhandled exception as a 500 |
| CompositeIntegration.ErrorMessageFallback | product-composite-service/src/main/kotlin/com/ykatsatos/microservices/composite/product/services/ProductCompositeIntegration.kt:179-185 | with the intended message, a 404 or 422 whose body is not an HttpErrorInfo reaches the composite's caller as NotFound or InvalidInput carrying the HTTP exception's own message, whatever the parser reported |
| CompositeIntegration.ErrorMessageAsWrittenDiffers | product-composite-service/src/main/kotlin/com/ykatsatos/microservices/composite/product/services/ProductCompositeIntegration.kt:182-183 | as written, a 404 whose body does not parse carries the parser's message instead of the HTTP exception's |
| CompositeIntegration.ErrorMessageAsWrittenAgreement | product-composite-service/src/main/kotlin/com/ykatsatos/microservices/composite/product/services/ProductCompositeIntegration.kt:179-185 | the written and the intended message agree exactly when the body parses or the two fallback messages coincide |
| CompositeIntegration.HandleExceptionAsWrittenAgreement | product-composite-service/src/main/kotlin/com/ykatsatos/microservices/composite/product/services/ProductCompositeIntegration.kt:163-185 | handleException as written (with the shadowed getErrorMessage) equals the modelled one exactly when the status is neither 404 nor 422, or the body parses, or the parser's message coincides with the HTTP exception's; otherwise its NotFound or InvalidInput carries the parser's message |
| CompositeIntegration.HandleException | product-composite-service/src/main/kotlin/com/ykatsatos/microservices/composite/product/services/ProductCompositeIntegration.kt:163-177 | handleException with the intended message; stated by HandleExceptionStatus and ErrorTranslationRoundTrip; how it differs from the code as written is HandleExceptionAsWrittenAgreement |
| CompositeIntegration.HandleExceptionAsWritten | product-composite-service/src/main/kotlin/com/ykatsatos/microservices/composite/product/services/ProductCompositeIntegration.kt:163-177 | handleException as written; stated by HandleExceptionAsWrittenAgreement |
| CompositeIntegration.ErrorMessage | product-composite-service/src/main/kotlin/se/magnus/microservices/composite/product/services/ProductCompositeIntegration.kt:111-117 | getErrorMessage as intended (the corrected member of the finding); stated by ErrorMessageFallback and ErrorMessageAsWrittenAgreement |
| CompositeIntegration.ErrorMessageAsWritten | product-composite-service/src/main/kotlin/com/ykatsatos/microservices/composite/product/services/ProductCompositeIntegration.kt:179-185 | getErrorMessage as written (the as-written member of the finding); stated by ErrorMessageAsWrittenDiffers and ErrorMessageAsWrittenAgreement |
| CompositeIntegration.ReadProduct | product-composite-service/src/main/kotlin/com/ykatsatos/microservices/composite/product/services/ProductCompositeIntegration.kt:53-65 | the product read's error mapping; stated by ReadProductShape and ErrorTranslationRoundTrip |
| CompositeIntegration.Absorb | product-composite-service/src/main/kotlin/com/ykatsatos/microservices/composite/product/services/ProductCompositeIntegration.kt:90 | onErrorResume to the empty list; stated by AuxiliaryFailuresGiveEmptyLists and the read-back lemmas of EndToEnd |
| CompositeIntegration.GetProduct | product-composite-service/src/main/kotlin/com/ykatsatos/microservices/composite/product/services/ProductCompositeIntegration.kt:53-65 | getProduct over the network; stated by ProductFailurePropagates and EndToEnd.ProductReadBack |
| CompositeIntegration.GetRecommendations | product-composite-service/src/main/kotlin/com/ykatsatos/microservices/composite/product/services/ProductCompositeIntegration.kt:79-92 | getRecommendations over the network; stated by EndToEnd.RecommendationsReadBack |
| CompositeIntegration.GetReviews | product-composite-service/src/main/kotlin/com/ykatsatos/microservices/composite/product/services/ProductCompositeIntegration.kt:106-119 | getReviews over the network; stated by EndToEnd.ReviewsReadBack |
| CompositeIntegration.ReadProductShape | product-composite-service/src/main/kotlin/com/ykatsatos/microservices/composite/product/services/ProductCompositeIntegration.kt:63 | the product read fails exactly when its response does, passes a body through unchanged, and propagates non-HTTP failures as they are |
| CompositeService.ProductCompositeServiceImpl.CreateProduct | product-composite-service/src/main/kotlin/com/ykatsatos/microservices/composite/product/services/ProductCompositeServiceImpl.kt:22-55 | the broker log gains exactly the plan's messages before the first refused one; the sends made are exactly those, plus the refused one; the result is that send's own exception, or passes when the whole plan was accepted (no step after a refusal is attempted) |
| CompositeService.ProductCompositeServiceImpl.CreateRecommendations | product-composite-service/src/main/kotlin/com/ykatsatos/microservices/composite/product/services/ProductCompositeServiceImpl.kt:30-39 | the broker log gains, in order, one create per summary (completed with the productId) up to the first refused one; no create after it is attempted; the result is the refused create's own exception, or passes when all were accepted |
| CompositeService.ProductCompositeServiceImpl.CreateReviews | product-composite-service/src/main/kotlin/com/ykatsatos/microservices/composite/product/services/ProductCompositeServiceImpl.kt:41-50 | the same for the review summaries |
| CompositeService.ProductCompositeServiceImpl.DeleteProduct | product-composite-service/src/main/kotlin/com/ykatsatos/microservices/composite/product/services/ProductCompositeServiceImpl.kt:68-79 | the same for the three delete messages, in order: a refused delete's exception is returned and no later delete is attempted |
| CompositeService.GetProduct | product-composite-service/src/main/kotlin/com/ykatsatos/microservices/composite/product/services/ProductCompositeServiceImpl.kt:57-66 | getProduct given the network's answers; stated by ProductFailurePropagates, AuxiliaryFailuresGiveEmptyLists and EndToEnd.CreateReplayRead |
| CompositeService.Assemble | product-composite-service/src/main/kotlin/com/ykatsatos/microservices/composite/product/services/ProductCompositeServiceImpl.kt:65 | the awaits of getProduct: a failed product read is thrown, otherwise the aggregate is built; stated by ProductFailurePropagates |
| CompositeService.CreateProductAggregate | product-composite-service/src/main/kotlin/com/ykatsatos/microservices/composite/product/services/ProductCompositeServiceImpl.kt:81-104 | createProductAggregate; stated by AggregateProjection |
| CompositeService.CreateServiceAddresses | product-composite-service/src/main/kotlin/com/ykatsatos/microservices/composite/product/services/ProductCompositeServiceImpl.kt:106-116 | createServiceAddresses; stated by ServiceAddressSelection |
| CompositeService.AggregateProjection | product-composite-service/src/main/kotlin/com/ykatsatos/microservices/composite/product/services/ProductCompositeServiceImpl.kt:81-104 | the aggregate is built exactly when the needed addresses are present (otherwise NullValue); it copies productId, name and weight, and its summary lists project the reads element by element with the same length and order |
| CompositeService.ServiceAddressSelection | product-composite-service/src/main/kotlin/com/ykatsatos/microservices/composite/product/services/ProductCompositeServiceImpl.kt:106-116 | the addresses are the composite's own, the product's, and each list's first element's address or "" for an empty list |
| CompositeService.SummaryRoundTrip | product-composite-service/src/main/kotlin/com/ykatsatos/microservices/composite/product/services/ProductCompositeServiceImpl.kt:30-39 | completing a summary with a productId on the write path and projecting it back on the read path gives the summary |
| CompositeService.ProductFailurePropagates | product-composite-service/src/main/kotlin/com/ykatsatos/microservices/composite/product/services/ProductCompositeServiceImpl.kt:57-66 | a failed product read fails the composite read with the same error, whatever the other reads give |
| CompositeService.AuxiliaryFailuresGiveEmptyLists | product-composite-service/src/main/kotlin/com/ykatsatos/microservices/composite/product/services/ProductCompositeServiceImpl.kt:57-66 | a failed recommendation or review read yields an empty list in the aggregate with "" as its address |
| BlockingIntegration.GetProductAgrees | product-composite-service/src/main/kotlin/se/magnus/microservices/composite/product/services/ProductCompositeIntegration.kt:52-62 | catching client errors only and translating 404 and 422 gives exactly the current variant's product read with the intended message; any other status is rethrown; against the current code as written the two agree whenever the error body parses or the status is neither 404 nor 422 |
| BlockingIntegration.ListReadsAgree | product-composite-service/src/main/kotlin/se/magnus/microservices/composite/product/services/ProductCompositeIntegration.kt:83-86 | any exception on the list reads gives the empty list, as in the current variant |
| BlockingIntegration.ProductUrlShape | product-composite-service/src/main/kotlin/se/magnus/microservices/composite/product/services/ProductCompositeIntegration.kt:44 | the product URL is "http://<host>:<port>/product/<id>" and routes back to the id |
| BlockingIntegration.GetProduct | product-composite-service/src/main/kotlin/se/magnus/microservices/composite/product/services/ProductCompositeIntegration.kt:40-64 | the earlier getProduct; stated by GetProductAgrees |
| BlockingIntegration.GetRecommendations | product-composite-service/src/main/kotlin/se/magnus/microservices/composite/product/services/ProductCompositeIntegration.kt:66-87 | the earlier getRecommendations; stated by ListReadsAgree |
| BlockingIntegration.GetReviews | product-composite-service/src/main/kotlin/se/magnus/microservices/composite/product/services/ProductCompositeIntegration.kt:89-109 | the earlier getReviews; stated by ListReadsAgree |
| BlockingCompositeService.ProductCompositeServiceImpl.CreateProduct | product-composite-service/src/main/kotlin/se/magnus/microservices/composite/product/services/ProductCompositeServiceImpl.kt:20-53 | the integration receives exactly the calls of the plan (product, then recommendations, then reviews) before the first one that throws; no later call is made; the result is that call's own exception, or passes |
| BlockingCompositeService.ProductCompositeServiceImpl.CreateRecommendations | product-composite-service/src/main/kotlin/se/magnus/microservices/composite/product/services/ProductCompositeServiceImpl.kt:28-37 | the integration receives one create per summary, in order, up to the first one that throws; no later create is made; the result is that exception, or passes |
| BlockingCompositeService.ProductCompositeServiceImpl.CreateReviews | product-composite-service/src/main/kotlin/se/magnus/microservices/composite/product/services/ProductCompositeServiceImpl.kt:39-48 | the same for the review summaries |
| BlockingCompositeService.ProductCompositeServiceImpl.DeleteProduct | product-composite-service/src/main/kotlin/se/magnus/microservices/composite/product/services/ProductCompositeServiceImpl.kt:66-77 | the integration receives the product, recommendations and reviews deletes in order up to the first that throws; no later delete is made; the result is that exception, or passes |
| BlockingCompositeService.GetProductSequence | product-composite-service/src/main/kotlin/se/magnus/microservices/composite/product/services/ProductCompositeServiceImpl.kt:55-64 | the reads are made product, recommendations, reviews in that order; a failed product read stops after the first call; the result is the current variant's for the same answers |
| BlockingCompositeService.GetProduct | product-composite-service/src/main/kotlin/se/magnus/microservices/composite/product/services/ProductCompositeServiceImpl.kt:55-64 | the earlier getProduct with its URLs in call order; stated by GetProductSequence |
| EndToEnd.ReplayRecommendationCreates | recommendation-service/src/main/kotlin/com/ykatsatos/microservices/core/recommendation/services/MessageProcessorConfig.kt:28-31 | delivering the recommendation creates of fresh, distinct summaries appends their entities in order and throws nothing |
| EndToEnd.ReplayReviewCreates | review-service/src/main/kotlin/com/ykatsatos/microservices/core/review/services/MessageProcessorConfig.kt:28-31 | the same for review creates |
| EndToEnd.ReplayCreate | product-composite-service/src/main/kotlin/com/ykatsatos/microservices/composite/product/services/ProductCompositeServiceImpl.kt:22-50 | delivering a composite create for an unknown product stores the product and appends its summaries' entities to the other two stores in input order, with no consumer exception |
| EndToEnd.ReplayDelete | product-composite-service/src/main/kotlin/com/ykatsatos/microservices/composite/product/services/ProductCompositeServiceImpl.kt:68-79 | delivering a composite delete removes the product and all its recommendations and reviews, throws nothing, and delivering it again changes nothing |
| EndToEnd.ReplayDuplicateProduct | product-service/src/main/kotlin/com/ykatsatos/microservices/core/product/services/MessageProcessorConfig.kt:28-31 | a product CREATE for a stored productId throws InvalidInput in the consumer and changes no store |
| EndToEnd.Deliver | product-service/src/main/kotlin/com/ykatsatos/microservices/core/product/services/MessageProcessorConfig.kt:22-45 | one message handed to the consumer of its binding; stated by ReplayCreate, ReplayDelete and ReplayDuplicateProduct |
| EndToEnd.Replay | product-service/src/main/kotlin/com/ykatsatos/microservices/core/product/services/MessageProcessorConfig.kt:22-45 | a log of messages consumed in order, collecting what the consumers throw; stated by ReplayCreate and ReplayDelete |
| EndToEnd.ProductReadBack | product-composite-service/src/main/kotlin/com/ykatsatos/microservices/composite/product/services/ProductCompositeIntegration.kt:53-65 | a stored product reads back through the product service and the integration with the product service's address |
| EndToEnd.RecommendationsReadBack | product-composite-service/src/main/kotlin/com/ykatsatos/microservices/composite/product/services/ProductCompositeIntegration.kt:79-92 | freshly stored recommendation summaries read back through the service and the integration as those summaries, each with the recommendation service's address |
| EndToEnd.ReviewsReadBack | product-composite-service/src/main/kotlin/com/ykatsatos/microservices/composite/product/services/ProductCompositeIntegration.kt:106-119 | the same for reviews |
| EndToEnd.CreateReplayRead | product-composite-service/src/main/kotlin/com/ykatsatos/microservices/composite/product/services/ProductCompositeServiceImpl.kt:57-66 | a composite create replayed through the consumers and read through the composite gives back the aggregate's productId, name, weight and summaries, with each service's address |
| EndToEnd.DeleteReplayRead | product-service/src/main/kotlin/com/ykatsatos/microservices/core/product/services/ProductServiceImpl.kt:48-49 | after a composite delete is replayed the composite read fails with NotFound "No product found for productId: <id>" and no recommendations or reviews remain |
| EndToEnd.InvalidIdRead | product-service/src/main/kotlin/com/ykatsatos/microservices/core/product/services/ProductServiceImpl.kt:44-46 | the composite does not check ids: an id below 1 reaches its caller as the product service's InvalidInput with the same message |
| EndToEnd.MissingProductRead | product-service/src/main/kotlin/com/ykatsatos/microservices/core/product/services/ProductServiceImpl.kt:48-49 | a missing product reaches the composite's caller as NotFound with the product service's message |
| EndToEnd.CreateThenRead | product-composite-service/src/main/kotlin/com/ykatsatos/microservices/composite/product/services/ProductCompositeServiceImpl.kt:22-66 | the composite's own create over a broker that accepts every send, replayed and read back, throws nothing and gives back productId, name, weight and summaries |

## Left out

- The `async`/`coroutineScope` fan-out of the current composite read: the three reads are sequential calls, and only the result is modelled.
- WebClient, RestTemplate, StreamBridge, MessageBuilder and Jackson: HTTP answers are a `Network` parameter, a JSON parse is the `ParseOutcome` of the response, and the broker is a log whose answer to each send is a parameter.
- The text of the HTTP client's exception messages: `ErrorHandler.ClientMessage` ("<status> <reason>") stands in for it.
- The body of an unhandled exception's 500 response: it is modelled as a body that does not parse as `HttpErrorInfo`.
- Event timestamps, all logging, the health checks and `ServiceUtil`'s host lookup: clocks, side channels and network probes. A service's address is a string parameter.
- The MapStruct mappers: their code is generated. Their field correspondences are written out as `ApiToEntity`/`EntityToApi`: rate becomes rating, and id, version and address are not copied.
- Database ids, versions, optimistic locking and the order a database returns rows in: the stores return entries in insertion order.
- Which exception class a database raises on a duplicate (`DuplicateKeyException` or `DataIntegrityViolationException`): each store checks its unique key before saving and throws InvalidInput.
- The schema of the current review table is not part of this model: its entity declares no index, and the (productId, reviewId) key of the earlier variant's table is assumed for both.
- Kotlin's 32-bit `Int`: ids, weights and rates are unbounded integers; overflow is not modelled.
- The nullable summary lists of the current `ProductAggregate`: an absent list is modelled as an empty one.
- The earlier `RecommendationSummary` declares three fields but is built with four: the four-field summary is used for both variants.
- The earlier composite calls create and delete operations its integration class does not define: they are modelled as calls the integration receives in order, any of which may throw, on a `Channel<Command>`.
- An empty response body is not modelled: a successful response always has a body. In the earlier integration's reads that case is the `!!` on the body. In the current integration's three reads, `bodyToMono` then completes empty, `onErrorResume` does not fire on an empty result, and `awaitFirst()` throws NoSuchElementException (ProductCompositeIntegration.kt:62-64, 88-91, 115-118), so even the list reads can fail there.
- Messaging.Channel.Send: `sendMessage` ignores the Boolean that `streamBridge.send` returns (ProductCompositeIntegration.kt:146), so a message the binding does not take without throwing is lost and the composite goes on. The model's broker either takes a send into the log or throws; it has no silent loss.
- HandleException: the current variant's handleException is modelled with the intended getErrorMessage, the corrected half of the finding below. `ReadProduct`, `CompositeIntegration.GetProduct`, `CompositeService.GetProduct` and the end-to-end reads inherit this. For a 404 or 422 whose body does not parse, the code as written reports the parser's message instead; `HandleExceptionAsWritten` models that code and `HandleExceptionAsWrittenAgreement` states exactly where the two differ.
- HandleExceptionStatus: its message clause is the intended message, not the one the code as written computes for an unparseable 404 or 422 body (see HandleException above).
- GetProductAgrees: its first clause compares the earlier read with the current read under the intended message. Against the current code as written, the two agree only when the error body parses or the status is neither 404 nor 422, which its second clause states.
- The `!!` on a missing address in `createServiceAddresses` is the error `NullValue`.
- Delete events of recommendations and reviews are declared with the product's data type; they carry no data, so they are modelled with the entity's own payload type.
- Request routing, Swagger annotations and the application mains: framework wiring. `EndToEnd` serves each read endpoint from its URL by `Urls` routing, and a URL of no route answers 404.
- The store and composite classes are single-threaded: concurrent consumers and requests are not modelled.

## Findings

| source | as written | input that shows it | evidently intended | confidence | as-written member | corrected member |
|---|---|---|---|---|---|---|
| product-composite-service/src/main/kotlin/com/ykatsatos/microservices/composite/product/services/ProductCompositeIntegration.kt:179-185 | the catch parameter `ex` shadows the function's parameter, so when the body does not parse the message is the parse exception's message | a 404 response with message "404 Not Found" whose body does not parse, the parser reporting "Unexpected character": NotFound carries "Unexpected character" (CompositeIntegration.ErrorMessageAsWrittenDiffers) | the HTTP exception's own message, as in the earlier variant, proved in CompositeIntegration.ErrorMessageFallback (product-composite-service/src/main/kotlin/se/magnus/microservices/composite/product/services/ProductCompositeIntegration.kt:111-117) | medium, not executed | CompositeIntegration.ErrorMessageAsWritten | CompositeIntegration.ErrorMessage |
