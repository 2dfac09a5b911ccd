/** Properties of the read-through lookup that span several calls, stated
    as client code over the domain aggregate and proved from the contracts
    of the layers alone. */
module Scenarios {
  import opened Base
  import opened ObjectIds
  import opened Repository
  import opened CustomerCache
  import opened Domain

  /** Read-through populates: a name the cache misses and the repository
      holds is fetched once from the repository; the next lookup is
      answered by the cache alone and gives the same customer. */
  method LookupTwice(aggregate: CustomerAggregate, name: string) returns (first: Result<Option<Customer>>, second: Result<Option<Customer>>)
    requires RoundTrips(aggregate.cacheStore.codec) && !aggregate.cacheStore.localCache.full
    requires aggregate.cacheStore.Cached(name).None?
    requires aggregate.repository.Find(name).Ok? && aggregate.repository.Find(name).value.Some?
    requires aggregate.cacheStore.codec.encode(aggregate.repository.Find(name).value.value).Some?
    modifies aggregate.repository`lookups, aggregate.cacheStore`persisted, aggregate.cacheStore.localCache`entries
    ensures first == second
    ensures first == Ok(Some(MakeCustomerByEntity(old(aggregate.repository.Find(name)).value.value)))
    ensures aggregate.repository.lookups == old(aggregate.repository.lookups) + [name]
    ensures aggregate.cacheStore.persisted == old(aggregate.cacheStore.persisted) + [old(aggregate.repository.Find(name)).value.value]
  {
    var store := aggregate.cacheStore.localCache;
    ghost var entity := aggregate.repository.Find(name).value.value;
    first := aggregate.CustomerByName(name);
    PersistThenRetrieve(old(store.entries), store.clock, store.clock, store.lifeWindow, aggregate.cacheStore.codec, entity);
    assert aggregate.cacheStore.Cached(name) == Some(entity);
    second := aggregate.CustomerByName(name);
  }

  /** Creating a customer whose name the cache misses and no row carries
      makes the next lookup of that name find exactly the created customer. */
  method CreateThenLookup(aggregate: CustomerAggregate, newCustomer: Customer, freshId: ObjectId)
      returns (created: Result<Customer>, after: Result<Option<Customer>>)
    requires aggregate.repository.outage.None? && Validate(newCustomer).None?
    requires aggregate.cacheStore.Cached(newCustomer.name).None?
    requires forall i :: 0 <= i < |aggregate.repository.rows| ==> aggregate.repository.rows[i].name != newCustomer.name
    modifies aggregate.repository`lookups, aggregate.repository`rows, aggregate.repository`inserts
    modifies aggregate.cacheStore`persisted, aggregate.cacheStore.localCache`entries
    ensures created == Ok(Customer(Hex(freshId), newCustomer.name, newCustomer.city))
    ensures after == Ok(Some(Customer(Hex(freshId), newCustomer.name, newCustomer.city)))
  {
    var repository := aggregate.repository;
    ghost var rows := repository.rows;
    created := aggregate.CreateCustomer(newCustomer, freshId);
    ghost var entity := CustomerEntity(freshId, newCustomer.name, newCustomer.city);
    FirstNamedAppended(rows, entity);
    assert repository.Find(newCustomer.name) == Ok(Some(entity));
    after := aggregate.CustomerByName(newCustomer.name);
  }

  /** No negative caching: a lookup that finds nothing leaves the cache as
      it was, so once the customer is created the next lookup finds it. */
  method MissThenCreateThenLookup(aggregate: CustomerAggregate, newCustomer: Customer, freshId: ObjectId)
      returns (before: Result<Option<Customer>>, created: Result<Customer>, after: Result<Option<Customer>>)
    requires aggregate.repository.outage.None? && Validate(newCustomer).None?
    requires aggregate.cacheStore.Cached(newCustomer.name).None?
    requires forall i :: 0 <= i < |aggregate.repository.rows| ==> aggregate.repository.rows[i].name != newCustomer.name
    modifies aggregate.repository`lookups, aggregate.repository`rows, aggregate.repository`inserts
    modifies aggregate.cacheStore`persisted, aggregate.cacheStore.localCache`entries
    ensures before == Ok(None)
    ensures created == Ok(Customer(Hex(freshId), newCustomer.name, newCustomer.city))
    ensures after == Ok(Some(Customer(Hex(freshId), newCustomer.name, newCustomer.city)))
  {
    before := aggregate.CustomerByName(newCustomer.name);
    created, after := CreateThenLookup(aggregate, newCustomer, freshId);
  }
}
