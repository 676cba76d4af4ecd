/** The product service: a repository of products with a unique productId, the
    create/get/delete rules of ProductServiceImpl (both package variants have
    the same rules), and the consumer that applies product events to it. */
module ProductCore {
  import opened Api
  import Decimal

  /** The stored form of a product; the database id and version are not modelled. */
  datatype ProductEntity = ProductEntity(productId: int, name: string, weight: int)

  /** The mapper's apiToEntity: the service address is not stored. */
  function ApiToEntity(api: Product): ProductEntity {
    ProductEntity(api.productId, api.name, api.weight)
  }

  /** The mapper's entityToApi: the service address is left unset. */
  function EntityToApi(entity: ProductEntity): Product {
    Product(entity.productId, entity.name, entity.weight, None)
  }

  /** The repository, indexed by the unique productId. */
  type Store = map<int, ProductEntity>

  /** Each entity sits under its own productId. */
  predicate WellKeyed(s: Store) {
    forall id :: id in s ==> s[id].productId == id
  }

  function InvalidProductIdMessage(productId: int): string {
    "Invalid productId: " + Decimal.IntToString(productId)
  }

  function NotFoundMessage(productId: int): string {
    "No product found for productId: " + Decimal.IntToString(productId)
  }

  function DuplicateKeyMessage(productId: int): string {
    "Duplicate key, Product id: " + Decimal.IntToString(productId)
  }

  /** createProduct: save the entity, or fail with InvalidInput when the unique
      index already holds its productId. Gives the new store and the result. */
  function Create(s: Store, body: Product): (Store, Result<Product>) {
    var entity := ApiToEntity(body);
    if entity.productId in s then (s, Failure(InvalidInput(Some(DuplicateKeyMessage(body.productId)))))
    else (s[entity.productId := entity], Success(EntityToApi(entity)))
  }

  /** getProduct: validate the id, look the entity up, stamp the service's own address. */
  function Get(s: Store, productId: int, serviceAddress: string): Result<Product> {
    if productId < 1 then Failure(InvalidInput(Some(InvalidProductIdMessage(productId))))
    else if productId !in s then Failure(NotFound(Some(NotFoundMessage(productId))))
    else
      var response := EntityToApi(s[productId]);
      Success(response.(serviceAddress := Some(serviceAddress)))
  }

  /** deleteProduct: delete the entity if there is one; never fails. */
  function Delete(s: Store, productId: int): Store {
    if productId in s then s - {productId} else s
  }

  /** The message processor: the new store and whether the consumer threw. */
  function Process(s: Store, event: Event<Product>): (Store, Outcome) {
    match event.eventType
    case CREATE =>
      if event.data.None? then (s, Pass)
      else
        var (s', r) := Create(s, event.data.value);
        (s', if r.Success? then Pass else Fail(r.error))
    case DELETE => (Delete(s, event.key), Pass)
    case Other(_) =>
      (s, Fail(EventProcessing(Some("Incorrect event type " + EventTypeName(event.eventType)))))
  }

  class ProductServiceImpl {
    const serviceAddress: string
    var repository: Store

    ghost predicate Valid()
      reads this
    {
      WellKeyed(repository)
    }

    constructor (serviceAddress: string)
      ensures Valid() && this.serviceAddress == serviceAddress && repository == map[]
    {
      this.serviceAddress := serviceAddress;
      repository := map[];
    }

    method CreateProduct(body: Product) returns (r: Result<Product>)
      requires Valid()
      modifies this
      ensures Valid()
      ensures (repository, r) == Create(old(repository), body)
    {
      var productEntity := ApiToEntity(body);
      if productEntity.productId in repository {
        r := Failure(InvalidInput(Some(DuplicateKeyMessage(body.productId))));
      } else {
        repository := repository[productEntity.productId := productEntity];
        r := Success(EntityToApi(productEntity));
      }
    }

    method GetProduct(productId: int) returns (r: Result<Product>)
      ensures r == Get(repository, productId, serviceAddress)
    {
      if productId < 1 {
        return Failure(InvalidInput(Some(InvalidProductIdMessage(productId))));
      }
      if productId !in repository {
        return Failure(NotFound(Some(NotFoundMessage(productId))));
      }
      var response := EntityToApi(repository[productId]);
      r := Success(response.(serviceAddress := Some(serviceAddress)));
    }

    method DeleteProduct(productId: int)
      requires Valid()
      modifies this
      ensures Valid()
      ensures repository == Delete(old(repository), productId)
    {
      if productId in repository {
        repository := repository - {productId};
      }
    }

    /** MessageProcessorConfig.messageProcessor, consuming one product event. */
    method MessageProcessor(event: Event<Product>) returns (o: Outcome)
      requires Valid()
      modifies this
      ensures Valid()
      ensures (repository, o) == Process(old(repository), event)
    {
      match event.eventType {
        case CREATE =>
          if event.data.Some? {
            var r := CreateProduct(event.data.value);
            o := if r.Success? then Pass else Fail(r.error);
          } else {
            o := Pass;
          }
        case DELETE =>
          DeleteProduct(event.key);
          o := Pass;
        case Other(_) =>
          o := Fail(EventProcessing(Some("Incorrect event type " + EventTypeName(event.eventType))));
      }
    }
  }

  // ---- Properties of the rules ----

  /** A fresh create succeeds with the body minus its address, and a later get
      of a valid id gives the body back with the service's own address. */
  lemma CreateThenGet(s: Store, body: Product, serviceAddress: string)
    requires body.productId !in s
    ensures Create(s, body).1 == Success(body.(serviceAddress := None))
    ensures body.productId >= 1 ==>
      Get(Create(s, body).0, body.productId, serviceAddress) == Success(body.(serviceAddress := Some(serviceAddress)))
  {
  }

  /** A create for a productId already stored fails with InvalidInput and leaves the store unchanged. */
  lemma CreateDuplicate(s: Store, body: Product)
    requires body.productId in s
    ensures Create(s, body) == (s, Failure(InvalidInput(Some(DuplicateKeyMessage(body.productId)))))
  {
  }

  /** A successful create adds exactly one entity; nothing else changes. */
  lemma CreateAddsOne(s: Store, body: Product)
    requires WellKeyed(s) && body.productId !in s
    ensures WellKeyed(Create(s, body).0)
    ensures Create(s, body).0.Keys == s.Keys + {body.productId}
    ensures forall id :: id in s ==> Create(s, body).0[id] == s[id]
  {
  }

  /** An id below 1 is rejected whatever the store holds. */
  lemma GetInvalidId(s1: Store, s2: Store, productId: int, serviceAddress: string)
    requires productId < 1
    ensures Get(s1, productId, serviceAddress) == Get(s2, productId, serviceAddress)
    ensures Get(s1, productId, serviceAddress) == Failure(InvalidInput(Some(InvalidProductIdMessage(productId))))
  {
  }

  /** A successful get carries the stored fields and the service's own address. */
  lemma GetFound(s: Store, productId: int, serviceAddress: string)
    requires WellKeyed(s)
    ensures Get(s, productId, serviceAddress).Success? <==> productId >= 1 && productId in s
    ensures Get(s, productId, serviceAddress).Success? ==>
      var p := Get(s, productId, serviceAddress).value;
      p.productId == productId && p.name == s[productId].name && p.weight == s[productId].weight &&
      p.serviceAddress == Some(serviceAddress)
  {
  }

  /** After a delete the product is not found; deleting again changes nothing;
      other products are untouched. */
  lemma DeleteRemoves(s: Store, productId: int, serviceAddress: string)
    requires WellKeyed(s)
    ensures WellKeyed(Delete(s, productId))
    ensures productId >= 1 ==> Get(Delete(s, productId), productId, serviceAddress) == Failure(NotFound(Some(NotFoundMessage(productId))))
    ensures Delete(Delete(s, productId), productId) == Delete(s, productId)
    ensures forall id :: id != productId ==> Get(Delete(s, productId), id, serviceAddress) == Get(s, id, serviceAddress)
  {
  }

  /** The consumer's dispatch over the event type. */
  lemma ProcessDispatch(s: Store, event: Event<Product>)
    ensures event.eventType == CREATE && event.data.Some? ==>
      Process(s, event).0 == Create(s, event.data.value).0 &&
      Process(s, event).1 == (if Create(s, event.data.value).1.Success? then Pass else Fail(Create(s, event.data.value).1.error))
    ensures event.eventType == CREATE && event.data.Some? && event.data.value.productId in s ==>
      Process(s, event) == (s, Fail(InvalidInput(Some(DuplicateKeyMessage(event.data.value.productId)))))
    ensures event.eventType == CREATE && event.data.None? ==> Process(s, event) == (s, Pass)
    ensures event.eventType == DELETE ==> Process(s, event) == (Delete(s, event.key), Pass)
    ensures event.eventType.Other? ==>
      Process(s, event) == (s, Fail(EventProcessing(Some("Incorrect event type " + event.eventType.name))))
  {
  }

  /** A DELETE event ignores its data. */
  lemma ProcessDeleteIgnoresData(s: Store, key: int, d1: Option<Product>, d2: Option<Product>)
    ensures Process(s, Event(DELETE, key, d1)) == Process(s, Event(DELETE, key, d2))
  {
  }
}
