/** The customer service of pkg/service/customer_service.go: the same
    create, list and read-through lookup as the domain aggregate, in the
    revision that keeps the aggregate outside the domain package. It uses
    the domain's validation and the same two entity constructors. */
module Service {
  import opened Base
  import opened ObjectIds
  import opened Repository
  import opened CustomerCache
  import opened Domain

  class CustomerAggregate {
    const repository: CustomerRepository
    const cacheStore: CacheStore

    constructor (repository: CustomerRepository, cacheStore: CacheStore)
      ensures this.repository == repository && this.cacheStore == cacheStore
    {
      this.repository := repository;
      this.cacheStore := cacheStore;
    }

    /** `CreateNewCustomer`: validation first; the repository is only asked
        to insert a valid customer. */
    method CreateNewCustomer(newCustomer: Customer, freshId: ObjectId) returns (r: Result<Customer>)
      modifies repository`rows, repository`inserts
      ensures Validate(newCustomer).Some? ==>
                r == Fail(Validate(newCustomer).value)
                && repository.inserts == old(repository.inserts) && repository.rows == old(repository.rows)
      ensures Validate(newCustomer).None? ==> repository.inserts == old(repository.inserts) + [ToEntity(newCustomer)]
      ensures Validate(newCustomer).None? && repository.outage.Some? ==>
                r == Fail(RegistrationFailed) && repository.rows == old(repository.rows)
      ensures Validate(newCustomer).None? && repository.outage.None? ==>
                r == Ok(Customer(Hex(freshId), newCustomer.name, newCustomer.city))
                && repository.rows == old(repository.rows) + [CustomerEntity(freshId, newCustomer.name, newCustomer.city)]
    {
      var err := Validate(newCustomer);
      if err.Some? {
        return Fail(err.value);
      }
      var newCustomerEntity := ToEntity(newCustomer);
      var insertErr;
      insertErr, newCustomerEntity := repository.InsertCustomer(newCustomerEntity, freshId);
      if insertErr.Some? {
        return Fail(RegistrationFailed);
      }
      r := Ok(MakeCustomerByEntity(newCustomerEntity));
    }

    /** `FindCustomerByName`: a cache hit never reaches the repository and
        writes nothing; on a miss only a found entity is cached. */
    method FindCustomerByName(customerName: string) returns (r: Result<Option<Customer>>)
      modifies repository`lookups, cacheStore`persisted, cacheStore.localCache`entries
      ensures var hit := old(cacheStore.Cached(customerName));
        hit.Some? ==>
          && r == Ok(Some(MakeCustomerByEntity(hit.value)))
          && repository.lookups == old(repository.lookups)
          && cacheStore.persisted == old(cacheStore.persisted)
          && cacheStore.localCache.entries == old(cacheStore.localCache.entries)
      ensures var hit, found := old(cacheStore.Cached(customerName)), old(repository.Find(customerName));
        hit.None? ==>
          && repository.lookups == old(repository.lookups) + [customerName]
          && (found.Fail? ==> r == Fail(LookupFailed(found.error)))
          && (found == Ok(None) ==> r == Ok(None))
          && (found.Ok? && found.value.Some? ==> r == Ok(Some(MakeCustomerByEntity(found.value.value))))
      ensures var hit, found := old(cacheStore.Cached(customerName)), old(repository.Find(customerName));
        hit.None? && found.Ok? && found.value.Some? ==>
          && cacheStore.persisted == old(cacheStore.persisted) + [found.value.value]
          && cacheStore.localCache.entries == PersistedIn(old(cacheStore.localCache.entries), cacheStore.localCache.clock,
                                                          cacheStore.localCache.full, cacheStore.codec, found.value.value)
      ensures var hit, found := old(cacheStore.Cached(customerName)), old(repository.Find(customerName));
        hit.None? && (found.Fail? || found == Ok(None)) ==>
          && cacheStore.persisted == old(cacheStore.persisted)
          && cacheStore.localCache.entries == old(cacheStore.localCache.entries)
    {
      var customerEntity := cacheStore.RetriveCustomerEntity(customerName);
      if customerEntity.Some? {
        return Ok(Some(MakeCustomerByEntity(customerEntity.value)));
      }
      var found := repository.FindCustomerByName(customerName);
      if found.Fail? {
        return Fail(LookupFailed(found.error));
      }
      if found.value.None? {
        return Ok(None);
      }
      cacheStore.PersistCustomerEntity(found.value.value);
      r := Ok(Some(MakeCustomerByEntity(found.value.value)));
    }

    /** `FindAllCustomers`: a list as long as the repository's, element i
        mirroring row i; an empty repository gives an empty list. */
    method FindAllCustomers() returns (r: Result<seq<Customer>>)
      ensures repository.All().Fail? ==> r == Fail(ListingFailed(repository.All().error))
      ensures repository.All().Ok? ==> r.Ok? && |r.value| == |repository.rows|
      ensures r.Ok? ==> forall i :: 0 <= i < |r.value| ==> r.value[i] == MakeCustomerByEntity(repository.rows[i])
    {
      var customersEntity := repository.FindAllCustomers();
      if customersEntity.Fail? {
        return Fail(ListingFailed(customersEntity.error));
      }
      var entities := customersEntity.value;
      var customers := new Customer[|entities|];
      var i := 0;
      while i < |entities|
        invariant 0 <= i <= |entities|
        invariant forall j :: 0 <= j < i ==> customers[j] == MakeCustomerByEntity(entities[j])
      {
        customers[i] := MakeCustomerByEntity(entities[i]);
        i := i + 1;
      }
      r := Ok(customers[..]);
    }
  }
}
