/** The customer cache adapter of pkg/infra/cache/cachestore/customer_cache.go:
    customer entities kept in the local cache under "customer-<name>", as
    the bytes of their JSON form. The JSON codec is abstract: an encoder
    that may fail and a decoder that may reject its input. Every failure of
    the cache degrades to a miss or to a write that does not happen. */
module CustomerCache {
  import opened Base
  import opened Bigcache
  import opened Repository
  import Cache

  const PrefixKey := "customer"

  /** `makeCacheKey`: `fmt.Sprintf("%s-%s", prefixKey, name)`. */
  function MakeCacheKey(name: string): (key: string)
    ensures |key| == |name| + 9
    ensures key[..9] == "customer-" && key[9..] == name
  {
    PrefixKey + "-" + name
  }

  /** One name, one key; distinct names never share a key. */
  lemma MakeCacheKeyInjective(a: string, b: string)
    ensures MakeCacheKey(a) == MakeCacheKey(b) <==> a == b
  {
    if MakeCacheKey(a) == MakeCacheKey(b) {
      assert a == MakeCacheKey(a)[9..];
    }
  }

  /** The start-up smoke test's key never collides with a customer key. */
  lemma InitKeyIsNoCustomerKey(unixTime: int, name: string)
    ensures Cache.InitKey(unixTime) != MakeCacheKey(name)
  {
    assert Cache.InitKey(unixTime)[0] == 'i';
    assert MakeCacheKey(name)[0] == 'c';
  }

  /** `json.Marshal` and `json.Unmarshal` for entities: `None` is an error. */
  datatype Codec = Codec(encode: CustomerEntity -> Option<Bytes>, decode: Bytes -> Option<CustomerEntity>)

  /** Whatever the encoder produces decodes to the entity it came from. */
  ghost predicate RoundTrips(codec: Codec) {
    forall e :: codec.encode(e).Some? ==> codec.decode(codec.encode(e).value) == Some(e)
  }

  /** What `RetriveCustomerEntity(name)` yields in a store state: absent
      when the store has nothing live under the key or the bytes do not
      decode, the decoded entity otherwise. */
  function CachedIn(entries: map<string, Entry>, clock: int, lifeWindow: nat, codec: Codec, name: string): (r: Option<CustomerEntity>)
    ensures Fetch(entries, clock, lifeWindow, MakeCacheKey(name)).None? ==> r.None?
    ensures Fetch(entries, clock, lifeWindow, MakeCacheKey(name)).Some? ==>
              r == codec.decode(Fetch(entries, clock, lifeWindow, MakeCacheKey(name)).value)
  {
    match Fetch(entries, clock, lifeWindow, MakeCacheKey(name))
    case None => None
    case Some(bytes) => codec.decode(bytes)
  }

  /** The entries after `PersistCustomerEntity(entity)`: unchanged when
      encoding fails, otherwise the encoding written under the key of the
      entity's own name. */
  function PersistedIn(entries: map<string, Entry>, clock: int, full: bool, codec: Codec, entity: CustomerEntity): (r: map<string, Entry>)
    ensures codec.encode(entity).None? ==> r == entries
    ensures codec.encode(entity).Some? ==>
              r == Written(entries, MakeCacheKey(entity.name), codec.encode(entity).value, clock, full)
  {
    match codec.encode(entity)
    case None => entries
    case Some(bytes) => Written(entries, MakeCacheKey(entity.name), bytes, clock, full)
  }

  /** Persisting an entity and then retrieving its name, within the life
      window and with a codec that round-trips, gives the entity back. */
  lemma PersistThenRetrieve(entries: map<string, Entry>, clock: int, later: int, lifeWindow: nat, codec: Codec, entity: CustomerEntity)
    requires RoundTrips(codec) && codec.encode(entity).Some?
    requires clock <= later <= clock + lifeWindow
    ensures CachedIn(PersistedIn(entries, clock, false, codec, entity), later, lifeWindow, codec, entity.name) == Some(entity)
  {
    WrittenIsFetched(entries, MakeCacheKey(entity.name), codec.encode(entity).value, clock, later, lifeWindow);
  }

  /** Persisting one entity leaves what is cached for every other name as
      it was. */
  lemma PersistIsolated(entries: map<string, Entry>, clock: int, full: bool, lifeWindow: nat, codec: Codec, entity: CustomerEntity, other: string)
    requires other != entity.name
    ensures CachedIn(PersistedIn(entries, clock, full, codec, entity), clock, lifeWindow, codec, other)
            == CachedIn(entries, clock, lifeWindow, codec, other)
  {
    MakeCacheKeyInjective(entity.name, other);
    if codec.encode(entity).Some? {
      WrittenIsolated(entries, MakeCacheKey(entity.name), MakeCacheKey(other), codec.encode(entity).value, clock, clock, lifeWindow, full);
    }
  }

  /** `CacheStore`, the adapter over the process-wide local cache. */
  class CacheStore {
    const localCache: BigCache
    const codec: Codec
    /** The entities passed to PersistCustomerEntity, in call order. */
    ghost var persisted: seq<CustomerEntity>

    constructor (localCache: BigCache, codec: Codec)
      ensures this.localCache == localCache && this.codec == codec && persisted == []
    {
      this.localCache := localCache;
      this.codec := codec;
      persisted := [];
    }

    /** What a retrieve of `name` yields now. */
    function Cached(name: string): (r: Option<CustomerEntity>)
      reads this, localCache
    {
      CachedIn(localCache.entries, localCache.clock, localCache.lifeWindow, codec, name)
    }

    /** `RetriveCustomerEntity`: never an error, only a hit or a miss. */
    method RetriveCustomerEntity(customerName: string) returns (r: Option<CustomerEntity>)
      ensures localCache.Peek(MakeCacheKey(customerName)).None? ==> r.None?
      ensures localCache.Peek(MakeCacheKey(customerName)).Some? ==>
                r == codec.decode(localCache.Peek(MakeCacheKey(customerName)).value)
      ensures r == Cached(customerName)
    {
      var customerInBytes := Cache.PullInLocalCache(localCache, MakeCacheKey(customerName));
      if customerInBytes.None? {
        return None;
      }
      var decoded := codec.decode(customerInBytes.value);
      if decoded.None? {
        // logged as a warning
        return None;
      }
      r := decoded;
    }

    /** `PersistCustomerEntity`: an encoding failure is logged and the store
        is left alone; otherwise only the entity's own key is written. */
    method PersistCustomerEntity(customerEntity: CustomerEntity)
      modifies this`persisted, localCache`entries
      ensures persisted == old(persisted) + [customerEntity]
      ensures localCache.entries == PersistedIn(old(localCache.entries), localCache.clock, localCache.full, codec, customerEntity)
    {
      persisted := persisted + [customerEntity];
      var customerInBytes := codec.encode(customerEntity);
      if customerInBytes.None? {
        // logged as a warning
        return;
      }
      Cache.PutInLocalCache(localCache, MakeCacheKey(customerEntity.name), customerInBytes.value);
    }
  }
}
