/** The customer domain of pkg/domain/customer.go: the customer a client
    sees, its validation, and the aggregate that creates, lists and looks
    up customers over the repository and the customer cache. */
module Domain {
  import opened Base
  import opened ObjectIds
  import opened Strings
  import opened Repository
  import opened CustomerCache

  /** A customer as clients see it: the identifier is rendered as text. */
  datatype Customer = Customer(id: string, name: string, city: string)

  const InvalidName := Error("Invalid value 'name'")
  const InvalidCity := Error("Invalid value 'city'")
  const RegistrationFailed := Error("could not complete customer registration")

  /** The error returned when looking up by name fails in the repository. */
  function LookupFailed(cause: Error): Error {
    Error("could not find customer\n" + cause.message)
  }

  /** The error returned when listing fails in the repository. */
  function ListingFailed(cause: Error): Error {
    Error("could not find customers\n" + cause.message)
  }

  /** `validate`: the name is checked first, then the city; a field is
      rejected when nothing but white space is left after trimming. */
  function Validate(customer: Customer): (err: Option<Error>)
    ensures err == Some(InvalidName) <==> Blank(customer.name)
    ensures err == Some(InvalidCity) <==> !Blank(customer.name) && Blank(customer.city)
    ensures err == None <==> !Blank(customer.name) && !Blank(customer.city)
  {
    if |TrimSpace(customer.name)| == 0 then Some(InvalidName)
    else if |TrimSpace(customer.city)| == 0 then Some(InvalidCity)
    else None
  }

  /** `toEntity`: a new entity with the customer's name and city and no
      identifier yet. */
  function ToEntity(customer: Customer): (entity: CustomerEntity)
    ensures entity.name == customer.name && entity.city == customer.city
    ensures entity.id == NilObjectId
  {
    CustomerEntity(NilObjectId, customer.name, customer.city)
  }

  /** `makeCustomerByEntity`: name and city copied, the identifier rendered
      as its 24 hexadecimal digits, so a customer's ID is never empty. */
  function MakeCustomerByEntity(entity: CustomerEntity): (customer: Customer)
    ensures customer.name == entity.name && customer.city == entity.city
    ensures customer.id == Hex(entity.id) && |customer.id| == 24
  {
    Customer(Hex(entity.id), entity.name, entity.city)
  }

  /** Nothing of the entity is lost: distinct entities give distinct
      customers. */
  lemma MakeCustomerByEntityInjective(a: CustomerEntity, b: CustomerEntity)
    ensures MakeCustomerByEntity(a) == MakeCustomerByEntity(b) <==> a == b
  {
    HexInjective(a.id, b.id);
  }

  /** `CustomerAggregate`, over its repository and its cache store. */
  class CustomerAggregate {
    const repository: CustomerRepository
    const cacheStore: CacheStore

    constructor (repository: CustomerRepository, cacheStore: CacheStore)
      ensures this.repository == repository && this.cacheStore == cacheStore
    {
      this.repository := repository;
      this.cacheStore := cacheStore;
    }

    /** `CreateCustomer`: an invalid customer is refused before the
        repository is asked; otherwise the repository's answer decides. */
    method CreateCustomer(newCustomer: Customer, freshId: ObjectId) returns (r: Result<Customer>)
      modifies repository`rows, repository`inserts
      ensures Validate(newCustomer).Some? ==>
                r == Fail(Validate(newCustomer).value)
                && repository.inserts == old(repository.inserts) && repository.rows == old(repository.rows)
      ensures Validate(newCustomer).None? ==> repository.inserts == old(repository.inserts) + [ToEntity(newCustomer)]
      ensures Validate(newCustomer).None? && repository.outage.Some? ==>
                r == Fail(RegistrationFailed) && repository.rows == old(repository.rows)
      ensures Validate(newCustomer).None? && repository.outage.None? ==>
                r == Ok(Customer(Hex(freshId), newCustomer.name, newCustomer.city))
                && repository.rows == old(repository.rows) + [CustomerEntity(freshId, newCustomer.name, newCustomer.city)]
    {
      var invalid := Validate(newCustomer);
      if invalid.Some? {
        return Fail(invalid.value);
      }
      var newCustomerEntity := ToEntity(newCustomer);
      var err;
      err, newCustomerEntity := repository.InsertCustomer(newCustomerEntity, freshId);
      if err.Some? {
        return Fail(RegistrationFailed);
      }
      r := Ok(MakeCustomerByEntity(newCustomerEntity));
    }

    /** `Customers`: every repository row, in order, as a customer. */
    method Customers() returns (r: Result<seq<Customer>>)
      ensures repository.All().Fail? ==> r == Fail(ListingFailed(repository.All().error))
      ensures repository.All().Ok? ==> r.Ok? && |r.value| == |repository.rows|
      ensures r.Ok? ==> forall i :: 0 <= i < |r.value| ==> r.value[i] == MakeCustomerByEntity(repository.rows[i])
    {
      var customersEntity := repository.FindAllCustomers();
      if customersEntity.Fail? {
        return Fail(ListingFailed(customersEntity.error));
      }
      var entities := customersEntity.value;
      var customers := new Customer[|entities|];
      for i := 0 to |entities|
        invariant forall j :: 0 <= j < i ==> customers[j] == MakeCustomerByEntity(entities[j])
      {
        customers[i] := MakeCustomerByEntity(entities[i]);
      }
      r := Ok(customers[..]);
    }

    /** `CustomerByName`: read-through lookup. A cache hit answers alone; on
        a miss the repository is asked, and only an entity it returns is
        written to the cache. */
    method CustomerByName(name: string) returns (r: Result<Option<Customer>>)
      modifies repository`lookups, cacheStore`persisted, cacheStore.localCache`entries
      ensures var hit := old(cacheStore.Cached(name));
        hit.Some? ==>
          && r == Ok(Some(MakeCustomerByEntity(hit.value)))
          && repository.lookups == old(repository.lookups)
          && cacheStore.persisted == old(cacheStore.persisted)
          && cacheStore.localCache.entries == old(cacheStore.localCache.entries)
      ensures var hit, found := old(cacheStore.Cached(name)), old(repository.Find(name));
        hit.None? ==>
          && repository.lookups == old(repository.lookups) + [name]
          && (found.Fail? ==> r == Fail(LookupFailed(found.error)))
          && (found == Ok(None) ==> r == Ok(None))
          && (found.Ok? && found.value.Some? ==> r == Ok(Some(MakeCustomerByEntity(found.value.value))))
      ensures var hit, found := old(cacheStore.Cached(name)), old(repository.Find(name));
        hit.None? && found.Ok? && found.value.Some? ==>
          && cacheStore.persisted == old(cacheStore.persisted) + [found.value.value]
          && cacheStore.localCache.entries == PersistedIn(old(cacheStore.localCache.entries), cacheStore.localCache.clock,
                                                          cacheStore.localCache.full, cacheStore.codec, found.value.value)
      ensures var hit, found := old(cacheStore.Cached(name)), old(repository.Find(name));
        hit.None? && (found.Fail? || found == Ok(None)) ==>
          && cacheStore.persisted == old(cacheStore.persisted)
          && cacheStore.localCache.entries == old(cacheStore.localCache.entries)
    {
      var customerEntity := cacheStore.RetriveCustomerEntity(name);
      if customerEntity.Some? {
        return Ok(Some(MakeCustomerByEntity(customerEntity.value)));
      }
      var found := repository.FindCustomerByName(name);
      if found.Fail? {
        return Fail(LookupFailed(found.error));
      }
      if found.value.None? {
        return Ok(None);
      }
      cacheStore.PersistCustomerEntity(found.value.value);
      r := Ok(Some(MakeCustomerByEntity(found.value.value)));
    }
  }
}
