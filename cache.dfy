/** The local cache of pkg/infra/cache/cache.go: best-effort put and pull
    over the one process-wide store, which the model passes explicitly. */
module Cache {
  import opened Base
  import opened Bigcache

  /** `10 * time.Minute`, in seconds. */
  const LifeWindow: nat := 600

  /** `configureBigCache`: a store whose entries all live ten minutes. */
  method ConfigureBigCache(now: int) returns (localCache: BigCache)
    ensures fresh(localCache)
    ensures localCache.lifeWindow == LifeWindow && localCache.clock == now
    ensures localCache.entries == map[] && !localCache.full
  {
    localCache := new BigCache.NewBigCache(LifeWindow, now);
  }

  /** `PullInLocalCache`: the bytes under `key`, or nil when the store
      reports an error; the error itself never reaches the caller. */
  method PullInLocalCache(localCache: BigCache, key: string) returns (value: Option<Bytes>)
    ensures value.Some? <==> key in localCache.entries && Live(localCache.entries[key], localCache.clock, localCache.lifeWindow)
    ensures value.Some? ==> value.value == localCache.entries[key].value
  {
    var got := localCache.Get(key);
    match got {
      case Fail(_) => value := None;
      case Ok(bytes) => value := Some(bytes);
    }
  }

  /** `PutInLocalCache`: writes `value` under `key`; a refused write is
      only logged, so the caller learns nothing and the store is as before. */
  method PutInLocalCache(localCache: BigCache, key: string, value: Bytes)
    modifies localCache`entries
    ensures localCache.entries == Written(old(localCache.entries), key, value, localCache.clock, localCache.full)
  {
    var _ := localCache.Set(key, value);
  }

  /** The key of the start-up smoke test: "init-" and the Unix time. */
  function InitKey(unixTime: int): (key: string)
    ensures |key| > 5 && key[..5] == "init-" && key[5..] == Decimal(unixTime)
    ensures forall i :: 0 <= i < |key| ==> key[i] as int < 128
  {
    "init-" + Decimal(unixTime)
  }

  /** `InitLocalCache`: writes the key "init-<unix time>" with the key's own
      bytes as value and reads it back; `ok` is false exactly when it logs
      "Failed init local cache", that is when the read returns nil. Only the
      presence of an entry is checked, not its value. */
  method InitLocalCache(localCache: BigCache) returns (ok: bool)
    modifies localCache`entries
    ensures var key := InitKey(localCache.clock);
      && localCache.entries == Written(old(localCache.entries), key, AsciiBytes(key), localCache.clock, localCache.full)
      && (ok <==> localCache.Peek(key).Some?)
    ensures !localCache.full ==> ok
  {
    var initValue := InitKey(localCache.clock);
    PutInLocalCache(localCache, initValue, AsciiBytes(initValue));
    var pull := PullInLocalCache(localCache, initValue);
    ok := pull.Some?;
  }

  /** The put-then-pull test of cache_test.go: a value put is pulled back
      unchanged by the next read. */
  method PutThenPull(localCache: BigCache, key: string, value: Bytes) returns (pulled: Option<Bytes>)
    requires !localCache.full
    modifies localCache`entries
    ensures pulled == Some(value)
  {
    PutInLocalCache(localCache, key, value);
    pulled := PullInLocalCache(localCache, key);
  }
}
