# Customer lookup of go-api-learn, modelled in Dafny

This project models the customer core of the `go-api-learn` HTTP service.

- A `Customer` is validated, inserted into the customer repository and returned with its identifier rendered as 24 hexadecimal digits.
- Customers can be listed.
- Lookup by name is read-through. The customer cache store answers first. On a miss the repository is asked, and only an entity it actually returns is written back to the cache under the key `customer-<name>`.
- The cache store sits on a process-wide in-memory byte cache whose entries live ten minutes. Every cache failure degrades to a miss or to a write that does not happen. Nothing ever reaches the caller as an error.
- The database connection keeps a shared client and a 0/1 health flag. A monitor pings the client on every tick and reconnects when the client is missing or the ping fails.

Modules, one per source file or layer:

| module | models |
|---|---|
| `Base` | bytes, nil-or-value (`Option`), Go `error` values, `(value, error)` results (`Result`), ASCII `[]byte(s)`, `%v` of an integer |
| `Strings` | `unicode.IsSpace` and `strings.TrimSpace`, which validation relies on |
| `ObjectIds` | the 12-byte object identifier and its `Hex()` rendering, with its inverse |
| `Repository` | `CustomerEntity` and the `CustomerRepository` interface, with the behaviour its test double gives it |
| `Bigcache` | the `BigCache` handle seen from outside: entries with write times, one life window, a clock, a full flag |
| `Cache` | `pkg/infra/cache/cache.go`, including the start-up smoke test `InitLocalCache` |
| `LocalCache` | `pkg/infra/cache/local_cache.go`, the revision that logs only errors, without the smoke test |
| `CustomerCache` | the `CacheStore` adapter, its key rule and its codec |
| `CustomerCacheLegacy` | the older package-level cache functions, with their inverted error check as written |
| `Domain` | `Customer`, validation, the two entity conversions and the domain `CustomerAggregate` |
| `Service` | the service-package `CustomerAggregate` (a second revision of the same orchestration) |
| `Database` | the Mongo client holder, health flag and one monitor tick |
| `Scenarios` | multi-call properties of the read-through lookup, proved from the layers' contracts |

Both aggregates use the one concrete `CacheStore` and the in-memory repository. Tests that assert a call was or was not made are modelled by ghost call logs:

- `CustomerRepository.lookups` and `CustomerRepository.inserts`;
- `CacheStore.persisted`.

The JSON codec is a pair of total functions, one that may fail to encode and one that may refuse to decode. The properties that need a working codec assume `RoundTrips(codec)`.

Two functions are views of the current state, used by the contracts of the methods that read it. `BigCache.Peek` is `Fetch` of the store's entries and clock, which `Get` answers. `CacheStore.Cached` is `CachedIn` of the underlying store, which `RetriveCustomerEntity` answers; the aggregates' lookup contracts and the scenarios are stated over it.

Inputs supplied from outside:

- The current Unix time is the cache's `clock`.
- The identifier the store assigns on insert is the parameter `freshId`.
- What a ping or a connection attempt answers is a `Probe` or an `Attempt`.

Where the source's two revisions disagree, the model follows the code:

- The service package calls `newCustomer.Validate()`, but `pkg/domain/customer.go` only defines the unexported `validate`. Both are modelled by the single `Domain.Validate`.
- The service's `makeCustomerByEntity` and `toEntity` (pkg/service/customer_service.go:70-80) have the same bodies as the domain's. Each is defined once, in `Domain`.
- `PersistCustomerEntityInCache` tests `err == nil` where `customer_cache.go:45` tests `err != nil`. It is modelled as written, and the current adapter is the corrected behaviour (see Findings).

## Model

| member | source | states |
|---|---|---|
| Strings.TrimSpace | pkg/domain/customer.go:28-33 | the trimmed text is empty exactly when the field is all white space; otherwise it neither starts nor ends with white space |
| Strings.TrimSpaceCutsOnlySpace | pkg/domain/customer.go:28-33 | trimming keeps one contiguous run of the field, and everything it removes on either side is white space |
| ObjectIds.Hex | pkg/domain/customer.go:99 | an identifier renders as exactly 24 lower-case hexadecimal digits |
| ObjectIds.HexRoundTrip | pkg/domain/customer.go:99 | decoding the hexadecimal rendering gives back the identifier's bytes |
| ObjectIds.HexInjective | pkg/domain/customer.go:99 | two identifiers render equally if and only if they are equal |
| Repository.FirstNamed | pkg/infra/database/repository/customer_repository.go:34 | a found entity is stored and carries the name; nothing is found exactly when no stored entity carries the name |
| Repository.FirstNamedAppended | pkg/infra/database/repository/customer_repository.go:33-34 | an entity inserted under a name no earlier entity carries is the one a later find returns |
| Repository.CustomerRepository.constructor | pkg/infra/database/repository/customer_repository_mock.go:8-11 | a repository starts with the given documents and availability and empty call logs |
| Repository.CustomerRepository.Find | pkg/infra/database/repository/customer_repository_mock.go:25-37 | a find fails exactly when the database is unreachable; otherwise it answers a stored entity with that name, or nil when there is none |
| Repository.CustomerRepository.All | pkg/infra/database/repository/customer_repository_mock.go:40-52 | a listing fails exactly when the database is unreachable; otherwise it gives every stored entity in order |
| Repository.CustomerRepository.InsertCustomer | pkg/infra/database/repository/customer_repository_mock.go:14-22 | the call is logged; on success the entity gets the fresh identifier and is appended; on failure the error is returned and nothing is stored or renumbered |
| Repository.CustomerRepository.FindCustomerByName | pkg/infra/database/repository/customer_repository_mock.go:25-37 | the call is logged with its name and answers what `Find` specifies |
| Repository.CustomerRepository.FindAllCustomers | pkg/infra/database/repository/customer_repository_mock.go:40-52 | answers what `All` specifies |
| Bigcache.Fetch | pkg/infra/cache/cache.go:45 | a read hits exactly when the key is held and was written within the life window, and a hit gives the stored bytes |
| Bigcache.Written | pkg/infra/cache/cache.go:59 | a write replaces the key's entry and restarts its life; a full store changes nothing; every other key keeps its entry |
| Bigcache.WrittenIsFetched | pkg/infra/cache/cache.go:14 | a value written is read back unchanged for the whole ten-minute window |
| Bigcache.WrittenExpires | pkg/infra/cache/cache.go:14 | once the window has passed the written key reads as missing |
| Bigcache.WrittenIsolated | pkg/infra/cache/cache.go:59 | a write to one key leaves what every other key reads unchanged |
| Bigcache.BigCache.NewBigCache | pkg/infra/cache/cache.go:14 | a new store is empty, not full, and has the configured life window |
| Bigcache.BigCache.Get | pkg/infra/cache/cache.go:45-49 | a get succeeds exactly on a live entry and returns its bytes; otherwise it reports "Entry not found" |
| Bigcache.BigCache.Set | pkg/infra/cache/cache.go:59-61 | a set reports an error exactly when the store is full, and the entries become `Written` of the old entries |
| Bigcache.BigCache.Advance | pkg/infra/cache/cache.go:33 | the clock moves forward by the given seconds |
| Cache.ConfigureBigCache | pkg/infra/cache/cache.go:13-28 | the process-wide store is fresh, empty, and keeps entries for 600 seconds |
| Cache.PullInLocalCache | pkg/infra/cache/cache.go:44-53 | a pull gives bytes exactly when the key holds a live entry, and then exactly its stored bytes; any store error becomes nil |
| Cache.PutInLocalCache | pkg/infra/cache/cache.go:56-62 | a put leaves the store as `Written`: the key is written unless the store is full, and a refused write is swallowed |
| Base.Digits | pkg/infra/cache/cache.go:33 | the decimal digits of a natural number stand for exactly that number, with no leading zero |
| Base.Decimal | pkg/infra/cache/cache.go:33 | `%v` of an integer is a minus sign exactly for a negative number, followed by digits that stand for its magnitude, with no leading zero |
| Cache.InitKey | pkg/infra/cache/cache.go:33 | the smoke-test key is "init-" followed by the decimal Unix time, and is all ASCII |
| Cache.InitLocalCache | pkg/infra/cache/cache.go:31-41 | the smoke test writes its key with the key's own bytes; it reports failure exactly when the read-back misses, and it succeeds whenever the store accepts writes |
| Cache.PutThenPull | pkg/infra/cache/cache_test.go:12-24 | in a store that accepts writes, a value put is pulled back unchanged |
| LocalCache.ConfigureLocalCache | pkg/infra/cache/local_cache.go:12-20 | the store is fresh, empty, and keeps entries for 600 seconds |
| LocalCache.PullInLocalCache | pkg/infra/cache/local_cache.go:23-33 | a pull gives bytes exactly when the key holds a live entry, and then exactly its stored bytes |
| LocalCache.PutInLocalCache | pkg/infra/cache/local_cache.go:36-40 | a put writes the key unless the store is full; a refused write is only logged |
| LocalCache.PutThenPull | pkg/infra/cache/local_cache.go:23-40 | a value put is pulled back unchanged when the pull comes within 600 seconds, and is missing after that |
| CustomerCache.MakeCacheKey | pkg/infra/cache/cachestore/customer_cache.go:53-55 | the key is "customer-" followed by the name, nine characters longer than the name |
| CustomerCache.MakeCacheKeyInjective | pkg/infra/cache/cachestore/customer_cache.go:12 | two names share a key if and only if they are equal |
| CustomerCache.InitKeyIsNoCustomerKey | pkg/infra/cache/cache.go:33 | the start-up smoke-test key never collides with a customer key |
| CustomerCache.CachedIn | pkg/infra/cache/cachestore/customer_cache.go:25-39 | a retrieve misses when the store misses the name's key; otherwise it gives whatever the stored bytes decode to, which is a miss when they do not decode |
| CustomerCache.PersistedIn | pkg/infra/cache/cachestore/customer_cache.go:42-51 | a persist leaves the store alone when encoding fails; otherwise it writes the encoding under the key of the entity's own name |
| CustomerCache.PersistThenRetrieve | pkg/infra/cache/cachestore/customer_cache.go:25-51 | with a codec that round-trips, retrieving an entity's name within the life window after persisting it gives the entity back |
| CustomerCache.PersistIsolated | pkg/infra/cache/cachestore/customer_cache.go:50 | persisting one entity leaves what is cached for every other name unchanged |
| CustomerCache.CacheStore.constructor | pkg/infra/cache/cachestore/customer_cache.go:20-22 | the adapter wraps the given store and codec, and nothing has been persisted yet |
| CustomerCache.CacheStore.RetriveCustomerEntity | pkg/infra/cache/cachestore/customer_cache.go:25-39 | a retrieve never fails: nil on a store miss or on bytes that do not decode, the decoded entity otherwise; the store is not changed |
| CustomerCache.CacheStore.PersistCustomerEntity | pkg/infra/cache/cachestore/customer_cache.go:42-51 | the call is logged, and the store becomes `PersistedIn`: an encoding failure writes nothing, otherwise only the entity's key is written |
| CustomerCacheLegacy.LegacyPersistedIn | pkg/infra/cache/cachestore/customer_repository.go:33-42 | as written, a successful encoding is dropped, and a failed one stores an empty value under the entity's key |
| CustomerCacheLegacy.RetriveCustomerEntityInCache | pkg/infra/cache/cachestore/customer_repository.go:16-30 | nil on a store miss or on bytes that do not decode, the decoded entity otherwise |
| CustomerCacheLegacy.PersistCustomerEntityInCache | pkg/infra/cache/cachestore/customer_repository.go:33-42 | the store becomes `LegacyPersistedIn` of its old state |
| CustomerCacheLegacy.LegacyPersistNeverCaches | pkg/infra/cache/cachestore/customer_repository.go:35-38 | with a working codec and an uncached name, a retrieve after the legacy persist still misses, while after the current adapter's persist it gives the entity |
| CustomerCacheLegacy.LegacyPersistStoresEmpty | pkg/infra/cache/cachestore/customer_repository.go:35-41 | when encoding fails, the legacy persist leaves an empty value under the key, and a decoder that refuses empty input turns it into a miss |
| Domain.Validate | pkg/domain/customer.go:26-37 | the error is the name error exactly when the name is blank, the city error exactly when the name is not blank and the city is, and none exactly when both have content |
| Domain.ToEntity | pkg/domain/customer.go:18-24 | the entity copies name and city and has the zero identifier |
| Domain.MakeCustomerByEntity | pkg/domain/customer.go:98-100 | the customer copies name and city, and its ID is the 24-digit rendering of the entity's identifier, so it is never empty |
| Domain.MakeCustomerByEntityInjective | pkg/domain/customer.go:98-100 | two entities give equal customers if and only if they are equal |
| Domain.CustomerAggregate.constructor | pkg/domain/customer.go:39-43 | the aggregate holds the given repository and cache store |
| Domain.CustomerAggregate.CreateCustomer | pkg/domain/customer.go:46-58 | an invalid customer gets its validation error and the repository is not called; a valid one is inserted once; on an outage the result is "could not complete customer registration" and nothing is stored; otherwise it gets the customer with the fresh identifier, and that entity is appended |
| Domain.CustomerAggregate.Customers | pkg/domain/customer.go:61-74 | a repository error becomes "could not find customers" plus its text; otherwise the list has exactly one customer per stored entity, in order, each the mirror of its entity |
| Domain.CustomerAggregate.CustomerByName | pkg/domain/customer.go:77-96 | on a hit, the cached customer is returned and the repository is not called and nothing is written; on a miss, the repository is called once; its error becomes "could not find customer" plus its text; nil stays nil; only a found entity is persisted and returned; the error and nil cases leave the cache unchanged |
| Service.CustomerAggregate.constructor | pkg/service/customer_service.go:11-15 | the aggregate holds the given repository and cache store |
| Service.CustomerAggregate.CreateNewCustomer | pkg/service/customer_service.go:18-30 | the same contract as the domain's `CreateCustomer` |
| Service.CustomerAggregate.FindCustomerByName | pkg/service/customer_service.go:33-52 | the same read-through contract as the domain's `CustomerByName` |
| Service.CustomerAggregate.FindAllCustomers | pkg/service/customer_service.go:55-68 | an error carries the repository's text; otherwise one customer per stored entity, in order |
| Database.NextClient | pkg/infra/database/mongodb.go:85-92 | a held client that answers its ping is kept; a missing or silent client is replaced by a client exactly when reconnection succeeds, and then by the new one |
| Database.NoConnectionNoClient | pkg/infra/database/mongodb.go:82-96 | if the first tick finds the client broken and no reconnection attempt succeeds, no client is held at the end of the run |
| Database.MongoConnection.constructor | pkg/infra/database/mongodb.go:15-18 | the package starts with no client and the flag at 0 |
| Database.MongoConnection.IsMongoClientAlive | pkg/infra/database/mongodb.go:27-29 | while the flag is consistent, the database reports alive exactly when a client is held |
| Database.MongoConnection.RetrieveMongoClient | pkg/infra/database/mongodb.go:32-40 | the held client is returned, nil when none is held; while the flag is consistent, a client is returned exactly when the database reports alive |
| Database.MongoConnection.SetMongoDBStatusUp | pkg/infra/database/mongodb.go:98-100 | the flag becomes 1 |
| Database.MongoConnection.SetMongoDBStatusDown | pkg/infra/database/mongodb.go:102-104 | the flag becomes 0 |
| Database.MongoConnection.CreateMongoClient | pkg/infra/database/mongodb.go:53-80 | a failure to create or to connect gives nil and leaves the flag; a connection gives the client and raises the flag |
| Database.MongoConnection.InitializeMongoClient | pkg/infra/database/mongodb.go:21-24 | the package holds the created client or nil, and the flag agrees with it |
| Database.MongoConnection.MonitorTick | pkg/infra/database/mongodb.go:85-92 | the client becomes `NextClient`; a live client raises the flag; a failed reconnection leaves it at 0; afterwards the flag is 1 exactly when a client is held |
| Database.MongoConnection.MonitorMongoClient | pkg/infra/database/mongodb.go:82-96 | after a run of ticks the client is `ClientAfter` of the run, and after at least one tick the flag agrees with the client |
| Scenarios.LookupTwice | pkg/domain/customer_test.go:93-148 | with a working codec and a store that accepts writes, two lookups of a name the cache misses and the repository holds give the same customer; the repository is called once and the entity is persisted once |
| Scenarios.CreateThenLookup | pkg/domain/customer_test.go:14-33 | creating a valid customer under a new, uncached name makes the next lookup return exactly the created customer |
| Scenarios.MissThenCreateThenLookup | pkg/domain/customer_test.go:150-170 | there is no negative caching: a lookup that finds nothing, then a create, then a lookup gives nil, the created customer, then that customer |

## Left out

- HTTP handlers, routing, JSON request and response bodies, logging and application properties: outside the lookup core.
- The MongoDB implementation of the repository (pkg/infra/database/repository/customer_repository.go:45 onwards): the repository is modelled by its interface and the behaviour of its test double. The real find reports an error, not nil, when no document matches. The real store's unique index on name is not modelled.
- `json.Marshal` and `json.Unmarshal`: the codec is abstract, a pair of arbitrary functions. Whether the real codec round-trips is an assumption (`RoundTrips`).
- `objectid.New()`: the fresh identifier is a parameter. Its uniqueness is not modelled.
- `bigcache` internals: shards, hashing, hash collisions, statistics, the byte-size limit, and eviction running on a timer rather than when a key is read. An entry is treated as gone as soon as its window has passed. Whether the store is full is a flag, not derived from sizes.
- A failure to create the byte cache: `cache.go` logs it and goes on with a nil handle; `local_cache.go` stops the process. The model starts from a created store.
- UTF-8: strings are sequences of characters. `InitLocalCache` uses only ASCII, where characters and bytes agree.
- Pointer aliasing: Go's `InsertCustomer` sets the identifier through the caller's pointer. The model returns the updated entity instead.
- `CloseMongoDBSession`, `client.Disconnect`, `ListDatabases` and the connection settings read from properties: not part of the lookup core.
- The monitor's goroutine, its endless loop, `time.Sleep(30 * time.Second)` and the atomic loads and stores: modelled as a finite, sequential run of ticks.
- Database.MongoConnection.MonitorMongoClient: states the flag's consistency only after at least one tick, because before the first tick the flag is whatever it was.
- Cache.PutThenPull: does not model the integration test's time-derived key and value or `InitializeLocalCache`, which cache.go does not define; any key and value are allowed.

## Findings

| source | as written | input that shows it | evidently intended | confidence | as-written member | corrected member |
|---|---|---|---|---|---|---|
| pkg/infra/cache/cachestore/customer_repository.go:36 | `if err == nil` logs and returns, so a successful encoding is never stored, and a failed one stores a nil value | any entity whose encoding succeeds, with its name not yet cached: the retrieve after the persist still misses | `if err != nil`, as at customer_cache.go:45, so a successful encoding is written under `customer-<name>` | not executed | CustomerCacheLegacy.LegacyPersistNeverCaches | CustomerCache.PersistThenRetrieve |
