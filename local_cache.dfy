/** The local cache of pkg/infra/cache/local_cache.go, the revision without
    logging of values and without the start-up smoke test. A store that
    cannot be created stops the process there; the model starts from a
    created store. */
module LocalCache {
  import opened Base
  import opened Bigcache

  /** `10 * time.Minute`, in seconds. */
  const LifeWindow: nat := 600

  /** `configureLocalCache`: a store whose entries all live ten minutes. */
  method ConfigureLocalCache(now: int) returns (localCache: BigCache)
    ensures fresh(localCache)
    ensures localCache.lifeWindow == LifeWindow && localCache.clock == now
    ensures localCache.entries == map[] && !localCache.full
  {
    localCache := new BigCache.NewBigCache(LifeWindow, now);
  }

  /** `PullInLocalCache`: the stored bytes, or nil on any error from the
      store. */
  method PullInLocalCache(localCache: BigCache, key: string) returns (value: Option<Bytes>)
    ensures value.Some? <==> key in localCache.entries && Live(localCache.entries[key], localCache.clock, localCache.lifeWindow)
    ensures value.Some? ==> value.value == localCache.entries[key].value
  {
    var got := localCache.Get(key);
    if got.Fail? {
      return None;
    }
    value := Some(got.value);
  }

  /** `PutInLocalCache`: a refused write is swallowed after logging. */
  method PutInLocalCache(localCache: BigCache, key: string, value: Bytes)
    modifies localCache`entries
    ensures localCache.entries == Written(old(localCache.entries), key, value, localCache.clock, localCache.full)
  {
    var err := localCache.Set(key, value);
    if err.Some? {
      // logged only
    }
  }

  /** A put followed by a pull of the same key, within the life window,
      returns the bytes put; later the key reads as missing. */
  method PutThenPull(localCache: BigCache, key: string, value: Bytes, wait: nat) returns (pulled: Option<Bytes>)
    requires !localCache.full
    modifies localCache`entries, localCache`clock
    ensures pulled == (if wait <= localCache.lifeWindow then Some(value) else None)
  {
    PutInLocalCache(localCache, key, value);
    localCache.Advance(wait);
    pulled := PullInLocalCache(localCache, key);
  }
}
