/** The older customer cache functions of
    pkg/infra/cache/cachestore/customer_repository.go, as written. The key
    rule and the retrieve path are those of the current adapter; the
    persist path tests the encoder's error the wrong way round, so it
    returns early on a successful encoding and writes the failed (nil)
    encoding instead. */
module CustomerCacheLegacy {
  import opened Base
  import opened Bigcache
  import opened Repository
  import opened CustomerCache
  import Cache

  /** The entries after `PersistCustomerEntityInCache(entity)` as written:
      a successful encoding is dropped, a failed one stores nil, which the
      store keeps as an empty value. */
  function LegacyPersistedIn(entries: map<string, Entry>, clock: int, full: bool, codec: Codec, entity: CustomerEntity): (r: map<string, Entry>)
    ensures codec.encode(entity).Some? ==> r == entries
    ensures codec.encode(entity).None? ==> r == Written(entries, MakeCacheKey(entity.name), [], clock, full)
  {
    match codec.encode(entity)
    case Some(_) => entries
    case None => Written(entries, MakeCacheKey(entity.name), [], clock, full)
  }

  /** `RetriveCustomerEntityInCache`: absent on a store miss and on bytes
      that do not decode, the decoded entity otherwise. */
  method RetriveCustomerEntityInCache(localCache: BigCache, codec: Codec, customerName: string) returns (r: Option<CustomerEntity>)
    ensures localCache.Peek(MakeCacheKey(customerName)).None? ==> r.None?
    ensures localCache.Peek(MakeCacheKey(customerName)).Some? ==>
              r == codec.decode(localCache.Peek(MakeCacheKey(customerName)).value)
  {
    var customerInBytes := Cache.PullInLocalCache(localCache, MakeCacheKey(customerName));
    if customerInBytes.None? {
      return None;
    }
    var decoded := codec.decode(customerInBytes.value);
    if decoded.None? {
      return None;
    }
    r := decoded;
  }

  /** `PersistCustomerEntityInCache`, with its inverted error check. */
  method PersistCustomerEntityInCache(localCache: BigCache, codec: Codec, customerEntity: CustomerEntity)
    modifies localCache`entries
    ensures localCache.entries == LegacyPersistedIn(old(localCache.entries), localCache.clock, localCache.full, codec, customerEntity)
  {
    var encoded := codec.encode(customerEntity);
    if encoded.Some? {
      // the error is nil here, but this branch logs it and returns
      return;
    }
    Cache.PutInLocalCache(localCache, MakeCacheKey(customerEntity.name), []);
  }

  /** With an encoder that works, the legacy persist never changes the
      store, so a following retrieve still misses where the current
      adapter's persist makes it hit. */
  lemma LegacyPersistNeverCaches(entries: map<string, Entry>, clock: int, lifeWindow: nat, codec: Codec, entity: CustomerEntity)
    requires RoundTrips(codec) && codec.encode(entity).Some?
    requires MakeCacheKey(entity.name) !in entries
    ensures CachedIn(LegacyPersistedIn(entries, clock, false, codec, entity), clock, lifeWindow, codec, entity.name) == None
    ensures CachedIn(PersistedIn(entries, clock, false, codec, entity), clock, lifeWindow, codec, entity.name) == Some(entity)
  {
    PersistThenRetrieve(entries, clock, clock, lifeWindow, codec, entity);
  }

  /** When encoding fails, the legacy persist writes an empty value under
      the entity's key; a decoder that rejects empty input (as JSON does)
      turns that entry into a miss. */
  lemma LegacyPersistStoresEmpty(entries: map<string, Entry>, clock: int, lifeWindow: nat, codec: Codec, entity: CustomerEntity)
    requires codec.encode(entity).None? && codec.decode([]) == None
    ensures Fetch(LegacyPersistedIn(entries, clock, false, codec, entity), clock, lifeWindow, MakeCacheKey(entity.name)) == Some([])
    ensures CachedIn(LegacyPersistedIn(entries, clock, false, codec, entity), clock, lifeWindow, codec, entity.name) == None
  {
  }
}
