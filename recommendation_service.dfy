/** The recommendation service: a repository of recommendations, unique by the
    pair (productId, recommendationId), the rules of RecommendationServiceImpl,
    and the consumer that applies recommendation events to it. The two package
    variants differ only in how a read stamps the service address: one builds
    new records, the other overwrites each element of the list in place. */
module RecommendationCore {
  import opened Api
  import Decimal
  import Seqs

  /** The stored form: the API's `rate` is stored as `rating`; database id and version are not modelled. */
  datatype RecommendationEntity = RecommendationEntity(
    productId: int, recommendationId: int, author: string, rating: int, content: string)

  function ApiToEntity(api: Recommendation): RecommendationEntity {
    RecommendationEntity(api.productId, api.recommendationId, api.author, api.rate, api.content)
  }

  /** The mapper's entityToApi: the service address is left unset. */
  function EntityToApi(entity: RecommendationEntity): Recommendation {
    Recommendation(entity.productId, entity.recommendationId, entity.author, entity.rating, entity.content, None)
  }

  /** The mapper's entityListToApiList. */
  function EntityListToApiList(entities: seq<RecommendationEntity>): (list: seq<Recommendation>)
    ensures |list| == |entities|
  {
    seq(|entities|, i requires 0 <= i < |entities| => EntityToApi(entities[i]))
  }

  /** The list with every element's service address set to the given one. */
  function WithAddress(list: seq<Recommendation>, serviceAddress: string): (r: seq<Recommendation>)
    ensures |r| == |list|
  {
    seq(|list|, i requires 0 <= i < |list| => list[i].(serviceAddress := Some(serviceAddress)))
  }

  function ProductIdOf(entity: RecommendationEntity): int {
    entity.productId
  }

  /** The repository, in store order. */
  type Store = seq<RecommendationEntity>

  /** The compound unique index on (productId, recommendationId). */
  predicate UniqueKeys(s: Store) {
    forall i, j :: 0 <= i < |s| && 0 <= j < |s| && i != j ==>
      (s[i].productId, s[i].recommendationId) != (s[j].productId, s[j].recommendationId)
  }

  predicate HasKey(s: Store, productId: int, recommendationId: int) {
    exists i :: 0 <= i < |s| && s[i].productId == productId && s[i].recommendationId == recommendationId
  }

  /** findByProductId: the entities of a product in store order. */
  function FindByProductId(s: Store, productId: int): Store {
    Seqs.WithKey(s, ProductIdOf, productId)
  }

  function InvalidProductIdMessage(productId: int): string {
    "Invalid productId: " + Decimal.IntToString(productId)
  }

  function DuplicateKeyMessage(productId: int, recommendationId: int): string {
    "Duplicate key, productId: " + Decimal.IntToString(productId) +
    ", recommendationId: " + Decimal.IntToString(recommendationId)
  }

  /** createRecommendation: the new store and the result. */
  function Create(s: Store, body: Recommendation): (Store, Result<Recommendation>) {
    var entity := ApiToEntity(body);
    if HasKey(s, entity.productId, entity.recommendationId) then
      (s, Failure(InvalidInput(Some(DuplicateKeyMessage(body.productId, body.recommendationId)))))
    else (s + [entity], Success(EntityToApi(entity)))
  }

  /** getRecommendations: validate the id, then the product's entries with the service's own address. */
  function Get(s: Store, productId: int, serviceAddress: string): Result<seq<Recommendation>> {
    if productId < 1 then Failure(InvalidInput(Some(InvalidProductIdMessage(productId))))
    else Success(WithAddress(EntityListToApiList(FindByProductId(s, productId)), serviceAddress))
  }

  /** deleteRecommendations: delete every entry of the product; never fails. */
  function Delete(s: Store, productId: int): Store {
    Seqs.WithoutKey(s, ProductIdOf, productId)
  }

  /** The message processor: the new store and whether the consumer threw. */
  function Process(s: Store, event: Event<Recommendation>): (Store, Outcome) {
    match event.eventType
    case CREATE =>
      if event.data.None? then (s, Pass)
      else
        var (s', r) := Create(s, event.data.value);
        (s', if r.Success? then Pass else Fail(r.error))
    case DELETE => (Delete(s, event.key), Pass)
    case Other(_) =>
      (s, Fail(EventProcessing(Some("Incorrect event type " + EventTypeName(event.eventType)))))
  }

  /** The in-place `forEach { it.serviceAddress = ... }` of the earlier variant. */
  method StampServiceAddress(list: array<Recommendation>, serviceAddress: string)
    modifies list
    ensures list[..] == WithAddress(old(list[..]), serviceAddress)
  {
    var i := 0;
    while i < list.Length
      invariant 0 <= i <= list.Length
      invariant forall k :: 0 <= k < i ==> list[k] == old(list[k]).(serviceAddress := Some(serviceAddress))
      invariant forall k :: i <= k < list.Length ==> list[k] == old(list[k])
    {
      list[i] := list[i].(serviceAddress := Some(serviceAddress));
      i := i + 1;
    }
  }

  class RecommendationServiceImpl {
    const serviceAddress: string
    var repository: Store

    ghost predicate Valid()
      reads this
    {
      UniqueKeys(repository)
    }

    constructor (serviceAddress: string)
      ensures Valid() && this.serviceAddress == serviceAddress && repository == []
    {
      this.serviceAddress := serviceAddress;
      repository := [];
    }

    method CreateRecommendation(body: Recommendation) returns (r: Result<Recommendation>)
      requires Valid()
      modifies this
      ensures Valid()
      ensures (repository, r) == Create(old(repository), body)
    {
      var recommendationEntity := ApiToEntity(body);
      if HasKey(repository, recommendationEntity.productId, recommendationEntity.recommendationId) {
        r := Failure(InvalidInput(Some(DuplicateKeyMessage(body.productId, body.recommendationId))));
      } else {
        CreatePreservesUniqueKeys(repository, body);
        repository := repository + [recommendationEntity];
        r := Success(EntityToApi(recommendationEntity));
      }
    }

    /** The read of the reactive variant: new records carrying the address. */
    method GetRecommendations(productId: int) returns (r: Result<seq<Recommendation>>)
      ensures r == Get(repository, productId, serviceAddress)
    {
      if productId < 1 {
        return Failure(InvalidInput(Some(InvalidProductIdMessage(productId))));
      }
      var recommendationEntityList := FindByProductId(repository, productId);
      var recommendationApiList := EntityListToApiList(recommendationEntityList);
      var stamped := seq(|recommendationApiList|, i requires 0 <= i < |recommendationApiList| =>
        var it := recommendationApiList[i];
        Recommendation(it.productId, it.recommendationId, it.author, it.rate, it.content, Some(serviceAddress)));
      assert stamped == WithAddress(recommendationApiList, serviceAddress);
      r := Success(stamped);
    }

    /** The read of the earlier variant: the mapped list is stamped in place.
        Both reads return the same list. */
    method GetRecommendationsInPlace(productId: int) returns (r: Result<seq<Recommendation>>)
      ensures r == Get(repository, productId, serviceAddress)
    {
      if productId < 1 {
        return Failure(InvalidInput(Some(InvalidProductIdMessage(productId))));
      }
      var mapped := EntityListToApiList(FindByProductId(repository, productId));
      var recommendationApiList := new Recommendation[|mapped|](i requires 0 <= i < |mapped| => mapped[i]);
      assert recommendationApiList[..] == mapped;
      StampServiceAddress(recommendationApiList, serviceAddress);
      r := Success(recommendationApiList[..]);
    }

    method DeleteRecommendations(productId: int)
      requires Valid()
      modifies this
      ensures Valid()
      ensures repository == Delete(old(repository), productId)
    {
      DeletePreservesUniqueKeys(repository, productId);
      repository := Seqs.WithoutKey(repository, ProductIdOf, productId);
    }

    /** MessageProcessorConfig.messageProcessor, consuming one recommendation event. */
    method MessageProcessor(event: Event<Recommendation>) returns (o: Outcome)
      requires Valid()
      modifies this
      ensures Valid()
      ensures (repository, o) == Process(old(repository), event)
    {
      match event.eventType {
        case CREATE =>
          if event.data.Some? {
            var r := CreateRecommendation(event.data.value);
            o := if r.Success? then Pass else Fail(r.error);
          } else {
            o := Pass;
          }
        case DELETE =>
          DeleteRecommendations(event.key);
          o := Pass;
        case Other(_) =>
          o := Fail(EventProcessing(Some("Incorrect event type " + EventTypeName(event.eventType))));
      }
    }
  }

  // ---- Properties of the rules ----

  /** A create keeps the compound unique index. */
  lemma CreatePreservesUniqueKeys(s: Store, body: Recommendation)
    requires UniqueKeys(s)
    ensures UniqueKeys(Create(s, body).0)
  {
    if !HasKey(s, body.productId, body.recommendationId) {
      var t := s + [ApiToEntity(body)];
      forall i, j | 0 <= i < |t| && 0 <= j < |t| && i != j
        ensures (t[i].productId, t[i].recommendationId) != (t[j].productId, t[j].recommendationId)
      {
        if i == |s| {
          assert t[j] == s[j];
        } else if j == |s| {
          assert t[i] == s[i];
        }
      }
    }
  }

  /** Deleting a product's entries keeps the compound unique index. */
  lemma {:induction false} DeletePreservesUniqueKeys(s: Store, productId: int)
    requires UniqueKeys(s)
    ensures UniqueKeys(Delete(s, productId))
    decreases |s|
  {
    if s != [] {
      var rest := s[1..];
      assert UniqueKeys(rest) by {
        forall i, j | 0 <= i < |rest| && 0 <= j < |rest| && i != j
          ensures (rest[i].productId, rest[i].recommendationId) != (rest[j].productId, rest[j].recommendationId)
        {
          assert rest[i] == s[i + 1] && rest[j] == s[j + 1];
        }
      }
      DeletePreservesUniqueKeys(rest, productId);
      var tail := Delete(rest, productId);
      if s[0].productId != productId {
        Seqs.WithoutKeyElements(rest, ProductIdOf, productId);
        var t := [s[0]] + tail;
        assert Delete(s, productId) == t;
        forall i, j | 0 <= i < |t| && 0 <= j < |t| && i != j
          ensures (t[i].productId, t[i].recommendationId) != (t[j].productId, t[j].recommendationId)
        {
          if i == 0 || j == 0 {
            var k := if i == 0 then j else i;
            assert t[k] == tail[k - 1] && t[k] in rest;
            var m :| 0 <= m < |rest| && rest[m] == t[k];
            assert s[m + 1] == t[k];
          } else {
            assert t[i] == tail[i - 1] && t[j] == tail[j - 1];
          }
        }
      } else {
        assert Delete(s, productId) == tail;
      }
    }
  }

  /** A fresh create succeeds with the body minus its address, and the product's
      list then ends with the new entry carrying the service's own address. */
  lemma CreateThenGet(s: Store, body: Recommendation, serviceAddress: string)
    requires !HasKey(s, body.productId, body.recommendationId)
    ensures Create(s, body) == (s + [ApiToEntity(body)], Success(body.(serviceAddress := None)))
    ensures body.productId >= 1 ==>
      Get(Create(s, body).0, body.productId, serviceAddress) ==
      Success(Get(s, body.productId, serviceAddress).value + [body.(serviceAddress := Some(serviceAddress))])
  {
    var e := ApiToEntity(body);
    if body.productId >= 1 {
      var before := FindByProductId(s, body.productId);
      Seqs.WithKeyConcat(s, [e], ProductIdOf, body.productId);
      assert Seqs.WithKey([e], ProductIdOf, body.productId) == [e];
      assert FindByProductId(s + [e], body.productId) == before + [e];
      var l1 := WithAddress(EntityListToApiList(before + [e]), serviceAddress);
      var l2 := WithAddress(EntityListToApiList(before), serviceAddress) + [body.(serviceAddress := Some(serviceAddress))];
      assert |l1| == |l2|;
      forall i | 0 <= i < |l1| ensures l1[i] == l2[i] {
        if i < |before| {
          assert (before + [e])[i] == before[i];
        } else {
          assert (before + [e])[i] == e;
        }
      }
      assert l1 == l2;
    }
  }

  /** A duplicate (productId, recommendationId) fails with InvalidInput and changes nothing. */
  lemma CreateDuplicate(s: Store, body: Recommendation)
    requires HasKey(s, body.productId, body.recommendationId)
    ensures Create(s, body) ==
      (s, Failure(InvalidInput(Some(DuplicateKeyMessage(body.productId, body.recommendationId)))))
  {
  }

  /** A read of a valid id returns exactly the stored entries of that product,
      each with its fields kept and the service's own address. */
  lemma GetReturnsProductEntries(s: Store, productId: int, serviceAddress: string)
    ensures Get(s, productId, serviceAddress).Success? <==> productId >= 1
    ensures productId >= 1 ==>
      forall x :: x in Get(s, productId, serviceAddress).value <==>
        exists e :: e in s && e.productId == productId &&
          x == EntityToApi(e).(serviceAddress := Some(serviceAddress))
  {
    if productId >= 1 {
      var found := FindByProductId(s, productId);
      var r := Get(s, productId, serviceAddress).value;
      Seqs.WithKeyElements(s, ProductIdOf, productId);
      forall x
        ensures x in r <==>
          exists e :: e in s && e.productId == productId && x == EntityToApi(e).(serviceAddress := Some(serviceAddress))
      {
        if x in r {
          var i :| 0 <= i < |r| && r[i] == x;
          assert found[i] in found;
        }
        if exists e :: e in s && e.productId == productId && x == EntityToApi(e).(serviceAddress := Some(serviceAddress)) {
          var e :| e in s && e.productId == productId && x == EntityToApi(e).(serviceAddress := Some(serviceAddress));
          assert e in found;
          var i :| 0 <= i < |found| && found[i] == e;
          assert r[i] == x;
        }
      }
    }
  }

  /** An id below 1 is rejected whatever the store holds. */
  lemma GetInvalidId(s1: Store, s2: Store, productId: int, serviceAddress: string)
    requires productId < 1
    ensures Get(s1, productId, serviceAddress) == Get(s2, productId, serviceAddress)
    ensures Get(s1, productId, serviceAddress) == Failure(InvalidInput(Some(InvalidProductIdMessage(productId))))
  {
  }

  /** Deleting a product's entries leaves none of them, leaves every other
      product's entries as they were, and repeating it changes nothing. */
  lemma DeleteRemovesProduct(s: Store, productId: int, other: int)
    ensures FindByProductId(Delete(s, productId), productId) == []
    ensures other != productId ==> FindByProductId(Delete(s, productId), other) == FindByProductId(s, other)
    ensures Delete(Delete(s, productId), productId) == Delete(s, productId)
  {
    Seqs.WithKeyOfWithoutKey(s, ProductIdOf, productId, productId);
    Seqs.WithKeyOfWithoutKey(s, ProductIdOf, productId, other);
    Seqs.WithoutKeyIdempotent(s, ProductIdOf, productId);
  }

  /** The stamping sets every address and changes no other field, keeping length and order. */
  lemma WithAddressKeepsFields(list: seq<Recommendation>, serviceAddress: string)
    ensures |WithAddress(list, serviceAddress)| == |list|
    ensures forall i :: 0 <= i < |list| ==>
      WithAddress(list, serviceAddress)[i].serviceAddress == Some(serviceAddress) &&
      WithAddress(list, serviceAddress)[i].(serviceAddress := list[i].serviceAddress) == list[i]
  {
  }

  /** The consumer's dispatch over the event type. */
  lemma ProcessDispatch(s: Store, event: Event<Recommendation>)
    ensures event.eventType == CREATE && event.data.Some? ==>
      Process(s, event).0 == Create(s, event.data.value).0 &&
      Process(s, event).1 == (if Create(s, event.data.value).1.Success? then Pass else Fail(Create(s, event.data.value).1.error))
    ensures event.eventType == CREATE && event.data.Some? &&
            HasKey(s, event.data.value.productId, event.data.value.recommendationId) ==>
      Process(s, event) ==
        (s, Fail(InvalidInput(Some(DuplicateKeyMessage(event.data.value.productId, event.data.value.recommendationId)))))
    ensures event.eventType == CREATE && event.data.None? ==> Process(s, event) == (s, Pass)
    ensures event.eventType == DELETE ==> Process(s, event) == (Delete(s, event.key), Pass)
    ensures event.eventType.Other? ==>
      Process(s, event) == (s, Fail(EventProcessing(Some("Incorrect event type " + event.eventType.name))))
  {
  }
}
