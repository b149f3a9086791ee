/** The Redis store that caches resolutions: string keys with a value and an
    absolute expiry time, `get` and `setex`, with the clock passed in. */
module Cache {
  import opened Wrappers

  datatype Entry = Entry(value: string, expiry: int)

  type Store = map<string, Entry>

  /** `get key` at time `now`: an entry is visible strictly before its expiry. */
  function Lookup(store: Store, key: string, now: int): Option<string>
  {
    if key in store && now < store[key].expiry then Some(store[key].value) else None
  }

  /** `setex key ttl value` at time `now`: overwrites any previous entry. */
  function Put(store: Store, key: string, value: string, ttl: nat, now: int): Store
  {
    store[key := Entry(value, now + ttl)]
  }

  /** A value written with `setex` is read back unchanged until its time to live
      has elapsed, and is a miss from then on. */
  lemma LookupAfterPut(store: Store, key: string, value: string, ttl: nat, now: int, later: int)
    requires now <= later
    ensures Lookup(Put(store, key, value, ttl, now), key, later) == if later < now + ttl then Some(value) else None
  {
  }

  /** Writing one key leaves every other key as it was. */
  lemma LookupOtherKey(store: Store, key: string, value: string, ttl: nat, now: int, other: string, later: int)
    requires other != key
    ensures Lookup(Put(store, key, value, ttl, now), other, later) == Lookup(store, other, later)
  {
  }

  /** The Redis client: one mutable store. */
  class ResolutionCache {
    var store: Store

    constructor ()
      ensures store == map[]
    {
      store := map[];
    }

    method Get(key: string, now: int) returns (r: Option<string>)
      ensures r == Lookup(store, key, now)
    {
      if key in store && now < store[key].expiry {
        r := Some(store[key].value);
      } else {
        r := None;
      }
    }

    method SetEx(key: string, ttl: nat, value: string, now: int)
      modifies this
      ensures store == Put(old(store), key, value, ttl, now)
    {
      store := store[key := Entry(value, now + ttl)];
    }
  }
}
