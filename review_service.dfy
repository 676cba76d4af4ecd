/** The review service: a repository of reviews, unique by the pair
    (productId, reviewId), the rules of ReviewServiceImpl (both package
    variants have the same rules), and the consumer that applies review
    events to it. */
module ReviewCore {
  import opened Api
  import Decimal
  import Seqs

  /** The stored form; the database id and version are not modelled. */
  datatype ReviewEntity = ReviewEntity(
    productId: int, reviewId: int, author: string, subject: string, content: string)

  function ApiToEntity(api: Review): ReviewEntity {
    ReviewEntity(api.productId, api.reviewId, api.author, api.subject, api.content)
  }

  /** The mapper's entityToApi: the service address is left unset. */
  function EntityToApi(entity: ReviewEntity): Review {
    Review(entity.productId, entity.reviewId, entity.author, entity.subject, entity.content, None)
  }

  /** The mapper's entityListToApiList. */
  function EntityListToApiList(entities: seq<ReviewEntity>): (list: seq<Review>)
    ensures |list| == |entities|
  {
    seq(|entities|, i requires 0 <= i < |entities| => EntityToApi(entities[i]))
  }

  /** The list with every element's service address set to the given one. */
  function WithAddress(list: seq<Review>, serviceAddress: string): (r: seq<Review>)
    ensures |r| == |list|
  {
    seq(|list|, i requires 0 <= i < |list| => list[i].(serviceAddress := Some(serviceAddress)))
  }

  function ProductIdOf(entity: ReviewEntity): int {
    entity.productId
  }

  /** The repository, in store order. */
  type Store = seq<ReviewEntity>

  /** The compound unique index on (productId, reviewId). */
  predicate UniqueKeys(s: Store) {
    forall i, j :: 0 <= i < |s| && 0 <= j < |s| && i != j ==>
      (s[i].productId, s[i].reviewId) != (s[j].productId, s[j].reviewId)
  }

  predicate HasKey(s: Store, productId: int, reviewId: int) {
    exists i :: 0 <= i < |s| && s[i].productId == productId && s[i].reviewId == reviewId
  }

  /** findByProductId: the entities of a product in store order. */
  function FindByProductId(s: Store, productId: int): Store {
    Seqs.WithKey(s, ProductIdOf, productId)
  }

  function InvalidProductIdMessage(productId: int): string {
    "Invalid productId: " + Decimal.IntToString(productId)
  }

  function DuplicateKeyMessage(productId: int, reviewId: int): string {
    "Duplicate key, productId: " + Decimal.IntToString(productId) +
    ", reviewId: " + Decimal.IntToString(reviewId)
  }

  /** createReview: the new store and the result. */
  function Create(s: Store, body: Review): (Store, Result<Review>) {
    var entity := ApiToEntity(body);
    if HasKey(s, entity.productId, entity.reviewId) then
      (s, Failure(InvalidInput(Some(DuplicateKeyMessage(body.productId, body.reviewId)))))
    else (s + [entity], Success(EntityToApi(entity)))
  }

  /** getReviews: validate the id, then the product's entries with the service's own address. */
  function Get(s: Store, productId: int, serviceAddress: string): Result<seq<Review>> {
    if productId < 1 then Failure(InvalidInput(Some(InvalidProductIdMessage(productId))))
    else Success(WithAddress(EntityListToApiList(FindByProductId(s, productId)), serviceAddress))
  }

  /** deleteReviews: delete every entry of the product; never fails. */
  function Delete(s: Store, productId: int): Store {
    Seqs.WithoutKey(s, ProductIdOf, productId)
  }

  /** The message processor: the new store and whether the consumer threw. */
  function Process(s: Store, event: Event<Review>): (Store, Outcome) {
    match event.eventType
    case CREATE =>
      if event.data.None? then (s, Pass)
      else
        var (s', r) := Create(s, event.data.value);
        (s', if r.Success? then Pass else Fail(r.error))
    case DELETE => (Delete(s, event.key), Pass)
    case Other(_) =>
      (s, Fail(EventProcessing(Some("Incorrect event type " + EventTypeName(event.eventType)))))
  }

  class ReviewServiceImpl {
    const serviceAddress: string
    var repository: Store

    ghost predicate Valid()
      reads this
    {
      UniqueKeys(repository)
    }

    constructor (serviceAddress: string)
      ensures Valid() && this.serviceAddress == serviceAddress && repository == []
    {
      this.serviceAddress := serviceAddress;
      repository := [];
    }

    method CreateReview(body: Review) returns (r: Result<Review>)
      requires Valid()
      modifies this
      ensures Valid()
      ensures (repository, r) == Create(old(repository), body)
    {
      var reviewEntity := ApiToEntity(body);
      if HasKey(repository, reviewEntity.productId, reviewEntity.reviewId) {
        r := Failure(InvalidInput(Some(DuplicateKeyMessage(body.productId, body.reviewId))));
      } else {
        CreatePreservesUniqueKeys(repository, body);
        repository := repository + [reviewEntity];
        r := Success(EntityToApi(reviewEntity));
      }
    }

    /** The read of both variants: new records carrying the address. */
    method GetReviews(productId: int) returns (r: Result<seq<Review>>)
      ensures r == Get(repository, productId, serviceAddress)
    {
      if productId < 1 {
        return Failure(InvalidInput(Some(InvalidProductIdMessage(productId))));
      }
      var reviewEntityList := FindByProductId(repository, productId);
      var reviewApiList := EntityListToApiList(reviewEntityList);
      var stamped := seq(|reviewApiList|, i requires 0 <= i < |reviewApiList| =>
        var it := reviewApiList[i];
        Review(it.productId, it.reviewId, it.author, it.subject, it.content, Some(serviceAddress)));
      assert stamped == WithAddress(reviewApiList, serviceAddress);
      r := Success(stamped);
    }

    method DeleteReviews(productId: int)
      requires Valid()
      modifies this
      ensures Valid()
      ensures repository == Delete(old(repository), productId)
    {
      DeletePreservesUniqueKeys(repository, productId);
      repository := Seqs.WithoutKey(repository, ProductIdOf, productId);
    }

    /** MessageProcessorConfig.messageProcessor, consuming one review event. */
    method MessageProcessor(event: Event<Review>) returns (o: Outcome)
      requires Valid()
      modifies this
      ensures Valid()
      ensures (repository, o) == Process(old(repository), event)
    {
      match event.eventType {
        case CREATE =>
          if event.data.Some? {
            var r := CreateReview(event.data.value);
            o := if r.Success? then Pass else Fail(r.error);
          } else {
            o := Pass;
          }
        case DELETE =>
          DeleteReviews(event.key);
          o := Pass;
        case Other(_) =>
          o := Fail(EventProcessing(Some("Incorrect event type " + EventTypeName(event.eventType))));
      }
    }
  }

  // ---- Properties of the rules ----

  /** A create keeps the compound unique index. */
  lemma CreatePreservesUniqueKeys(s: Store, body: Review)
    requires UniqueKeys(s)
    ensures UniqueKeys(Create(s, body).0)
  {
    if !HasKey(s, body.productId, body.reviewId) {
      var t := s + [ApiToEntity(body)];
      forall i, j | 0 <= i < |t| && 0 <= j < |t| && i != j
        ensures (t[i].productId, t[i].reviewId) != (t[j].productId, t[j].reviewId)
      {
        if i == |s| {
          assert t[j] == s[j];
        } else if j == |s| {
          assert t[i] == s[i];
        }
      }
    }
  }

  /** Deleting a product's entries keeps the compound unique index. */
  lemma {:induction false} DeletePreservesUniqueKeys(s: Store, productId: int)
    requires UniqueKeys(s)
    ensures UniqueKeys(Delete(s, productId))
    decreases |s|
  {
    if s != [] {
      var rest := s[1..];
      assert UniqueKeys(rest) by {
        forall i, j | 0 <= i < |rest| && 0 <= j < |rest| && i != j
          ensures (rest[i].productId, rest[i].reviewId) != (rest[j].productId, rest[j].reviewId)
        {
          assert rest[i] == s[i + 1] && rest[j] == s[j + 1];
        }
      }
      DeletePreservesUniqueKeys(rest, productId);
      var tail := Delete(rest, productId);
      if s[0].productId != productId {
        Seqs.WithoutKeyElements(rest, ProductIdOf, productId);
        var t := [s[0]] + tail;
        assert Delete(s, productId) == t;
        forall i, j | 0 <= i < |t| && 0 <= j < |t| && i != j
          ensures (t[i].productId, t[i].reviewId) != (t[j].productId, t[j].reviewId)
        {
          if i == 0 || j == 0 {
            var k := if i == 0 then j else i;
            assert t[k] == tail[k - 1] && t[k] in rest;
            var m :| 0 <= m < |rest| && rest[m] == t[k];
            assert s[m + 1] == t[k];
          } else {
            assert t[i] == tail[i - 1] && t[j] == tail[j - 1];
          }
        }
      } else {
        assert Delete(s, productId) == tail;
      }
    }
  }

  /** A fresh create succeeds with the body minus its address, and the product's
      list then ends with the new entry carrying the service's own address. */
  lemma CreateThenGet(s: Store, body: Review, serviceAddress: string)
    requires !HasKey(s, body.productId, body.reviewId)
    ensures Create(s, body) == (s + [ApiToEntity(body)], Success(body.(serviceAddress := None)))
    ensures body.productId >= 1 ==>
      Get(Create(s, body).0, body.productId, serviceAddress) ==
      Success(Get(s, body.productId, serviceAddress).value + [body.(serviceAddress := Some(serviceAddress))])
  {
    var e := ApiToEntity(body);
    if body.productId >= 1 {
      var before := FindByProductId(s, body.productId);
      Seqs.WithKeyConcat(s, [e], ProductIdOf, body.productId);
      assert Seqs.WithKey([e], ProductIdOf, body.productId) == [e];
      assert FindByProductId(s + [e], body.productId) == before + [e];
      var l1 := WithAddress(EntityListToApiList(before + [e]), serviceAddress);
      var l2 := WithAddress(EntityListToApiList(before), serviceAddress) + [body.(serviceAddress := Some(serviceAddress))];
      assert |l1| == |l2|;
      forall i | 0 <= i < |l1| ensures l1[i] == l2[i] {
        if i < |before| {
          assert (before + [e])[i] == before[i];
        } else {
          assert (before + [e])[i] == e;
        }
      }
      assert l1 == l2;
    }
  }

  /** A duplicate (productId, reviewId) fails with InvalidInput and changes nothing. */
  lemma CreateDuplicate(s: Store, body: Review)
    requires HasKey(s, body.productId, body.reviewId)
    ensures Create(s, body) ==
      (s, Failure(InvalidInput(Some(DuplicateKeyMessage(body.productId, body.reviewId)))))
  {
  }

  /** A read of a valid id returns exactly the stored entries of that product,
      each with its fields kept and the service's own address. */
  lemma GetReturnsProductEntries(s: Store, productId: int, serviceAddress: string)
    ensures Get(s, productId, serviceAddress).Success? <==> productId >= 1
    ensures productId >= 1 ==>
      forall x :: x in Get(s, productId, serviceAddress).value <==>
        exists e :: e in s && e.productId == productId &&
          x == EntityToApi(e).(serviceAddress := Some(serviceAddress))
  {
    if productId >= 1 {
      var found := FindByProductId(s, productId);
      var r := Get(s, productId, serviceAddress).value;
      Seqs.WithKeyElements(s, ProductIdOf, productId);
      forall x
        ensures x in r <==>
          exists e :: e in s && e.productId == productId && x == EntityToApi(e).(serviceAddress := Some(serviceAddress))
      {
        if x in r {
          var i :| 0 <= i < |r| && r[i] == x;
          assert found[i] in found;
        }
        if exists e :: e in s && e.productId == productId && x == EntityToApi(e).(serviceAddress := Some(serviceAddress)) {
          var e :| e in s && e.productId == productId && x == EntityToApi(e).(serviceAddress := Some(serviceAddress));
          assert e in found;
          var i :| 0 <= i < |found| && found[i] == e;
          assert r[i] == x;
        }
      }
    }
  }

  /** An id below 1 is rejected whatever the store holds. */
  lemma GetInvalidId(s1: Store, s2: Store, productId: int, serviceAddress: string)
    requires productId < 1
    ensures Get(s1, productId, serviceAddress) == Get(s2, productId, serviceAddress)
    ensures Get(s1, productId, serviceAddress) == Failure(InvalidInput(Some(InvalidProductIdMessage(productId))))
  {
  }

  /** Deleting a product's entries leaves none of them, leaves every other
      product's entries as they were, and repeating it changes nothing. */
  lemma DeleteRemovesProduct(s: Store, productId: int, other: int)
    ensures FindByProductId(Delete(s, productId), productId) == []
    ensures other != productId ==> FindByProductId(Delete(s, productId), other) == FindByProductId(s, other)
    ensures Delete(Delete(s, productId), productId) == Delete(s, productId)
  {
    Seqs.WithKeyOfWithoutKey(s, ProductIdOf, productId, productId);
    Seqs.WithKeyOfWithoutKey(s, ProductIdOf, productId, other);
    Seqs.WithoutKeyIdempotent(s, ProductIdOf, productId);
  }

  /** The stamping sets every address and changes no other field, keeping length and order. */
  lemma WithAddressKeepsFields(list: seq<Review>, serviceAddress: string)
    ensures |WithAddress(list, serviceAddress)| == |list|
    ensures forall i :: 0 <= i < |list| ==>
      WithAddress(list, serviceAddress)[i].serviceAddress == Some(serviceAddress) &&
      WithAddress(list, serviceAddress)[i].(serviceAddress := list[i].serviceAddress) == list[i]
  {
  }

  /** The consumer's dispatch over the event type. */
  lemma ProcessDispatch(s: Store, event: Event<Review>)
    ensures event.eventType == CREATE && event.data.Some? ==>
      Process(s, event).0 == Create(s, event.data.value).0 &&
      Process(s, event).1 == (if Create(s, event.data.value).1.Success? then Pass else Fail(Create(s, event.data.value).1.error))
    ensures event.eventType == CREATE && event.data.Some? &&
            HasKey(s, event.data.value.productId, event.data.value.reviewId) ==>
      Process(s, event) ==
        (s, Fail(InvalidInput(Some(DuplicateKeyMessage(event.data.value.productId, event.data.value.reviewId)))))
    ensures event.eventType == CREATE && event.data.None? ==> Process(s, event) == (s, Pass)
    ensures event.eventType == DELETE ==> Process(s, event) == (Delete(s, event.key), Pass)
    ensures event.eventType.Other? ==>
      Process(s, event) == (s, Fail(EventProcessing(Some("Incorrect event type " + event.eventType.name))))
  {
  }
}
