/** The in-process byte cache the local cache is built on (the `BigCache`
    handle), seen from outside: a map from key to the bytes and the time
    they were written, one life window for every key, and a clock in Unix
    seconds. Its shards, hashing, statistics and eviction schedule are not
    modelled; an entry counts as gone once its life window has passed. */
module Bigcache {
  import opened Base

  datatype Entry = Entry(value: Bytes, written: int)

  /** The error `Get` reports for a key it does not hold. */
  const EntryNotFound := Error("Entry not found")

  /** The error `Set` reports when the store refuses a write. */
  const QueueFull := Error("Full queue. Maximum size limit reached.")

  /** An entry written at `written` is still served at `clock`: the store
      drops an entry once it is more than `lifeWindow` seconds old. */
  predicate Live(e: Entry, clock: int, lifeWindow: nat) {
    clock - e.written <= lifeWindow
  }

  /** What a read of `key` sees. */
  function Fetch(entries: map<string, Entry>, clock: int, lifeWindow: nat, key: string): (r: Option<Bytes>)
    ensures r.Some? <==> key in entries && Live(entries[key], clock, lifeWindow)
    ensures r.Some? ==> r.value == entries[key].value
  {
    if key in entries && Live(entries[key], clock, lifeWindow) then Some(entries[key].value) else None
  }

  /** The entries after a write of `value` under `key` at `clock`: the
      entry is replaced and its life window restarts, unless the store is
      full, in which case nothing changes. */
  function Written(entries: map<string, Entry>, key: string, value: Bytes, clock: int, full: bool): (r: map<string, Entry>)
    ensures full ==> r == entries
    ensures !full ==> key in r && r[key] == Entry(value, clock)
    ensures forall k :: k != key ==> (k in r <==> k in entries) && (k in r ==> r[k] == entries[k])
  {
    if full then entries else entries[key := Entry(value, clock)]
  }

  /** A value written is read back, unchanged, for the whole life window. */
  lemma WrittenIsFetched(entries: map<string, Entry>, key: string, value: Bytes, clock: int, later: int, lifeWindow: nat)
    requires clock <= later <= clock + lifeWindow
    ensures Fetch(Written(entries, key, value, clock, false), later, lifeWindow, key) == Some(value)
  {
  }

  /** Once the life window has passed, the entry is reported missing. */
  lemma WrittenExpires(entries: map<string, Entry>, key: string, value: Bytes, clock: int, later: int, lifeWindow: nat)
    requires later > clock + lifeWindow
    ensures Fetch(Written(entries, key, value, clock, false), later, lifeWindow, key) == None
  {
  }

  /** A write to one key leaves what every other key reads unchanged. */
  lemma WrittenIsolated(entries: map<string, Entry>, key: string, other: string, value: Bytes, clock: int, later: int, lifeWindow: nat, full: bool)
    requires other != key
    ensures Fetch(Written(entries, key, value, clock, full), later, lifeWindow, other) == Fetch(entries, later, lifeWindow, other)
  {
  }

  class BigCache {
    var entries: map<string, Entry>
    /** The current Unix time in seconds. */
    var clock: int
    /** While true, the store refuses every write. */
    var full: bool
    /** How long, in seconds, an entry lives; fixed at construction and the
        same for every key. */
    const lifeWindow: nat

    /** `bigcache.NewBigCache(bigcache.DefaultConfig(lifeWindow))`. */
    constructor NewBigCache(lifeWindow: nat, now: int)
      ensures this.lifeWindow == lifeWindow && clock == now
      ensures entries == map[] && !full
    {
      this.lifeWindow := lifeWindow;
      clock := now;
      entries := map[];
      full := false;
    }

    /** What a read of `key` sees now. */
    function Peek(key: string): (r: Option<Bytes>)
      reads this
    {
      Fetch(entries, clock, lifeWindow, key)
    }

    method Get(key: string) returns (r: Result<Bytes>)
      ensures r.Ok? <==> Peek(key).Some?
      ensures r.Ok? ==> r.value == Peek(key).value
      ensures r.Fail? ==> r.error == EntryNotFound
    {
      if key in entries && Live(entries[key], clock, lifeWindow) {
        r := Ok(entries[key].value);
      } else {
        r := Fail(EntryNotFound);
      }
    }

    method Set(key: string, value: Bytes) returns (err: Option<Error>)
      modifies this`entries
      ensures err == (if full then Some(QueueFull) else None)
      ensures entries == Written(old(entries), key, value, clock, full)
    {
      if full {
        err := Some(QueueFull);
      } else {
        entries := entries[key := Entry(value, clock)];
        err := None;
      }
    }

    /** The passing of time. */
    method Advance(seconds: nat)
      modifies this`clock
      ensures clock == old(clock) + seconds
    {
      clock := clock + seconds;
    }
  }
}
