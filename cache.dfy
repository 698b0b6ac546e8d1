/**
 * `RequestCache`: an in-memory TTL map from cache key to response data.
 * Entries are never swept; an expired entry is dropped when it is read.
 * The clock (`Date.now`) is the `now` argument of each operation.
 */
module Cache {
  import opened Common
  import opened JsValue

  datatype Entry = Entry(expiry: int, data: Value)

  /** An entry still answers reads at `now` up to and including its expiry instant. */
  predicate Live(e: Entry, now: int) {
    e.expiry >= now
  }

  class RequestCache {
    var store: map<string, Entry>

    constructor ()
      ensures store == map[]
    {
      store := map[];
    }

    /** `get(key)`: the stored data while the entry is live; an expired entry is deleted. */
    method Get(key: string, now: int) returns (r: Value)
      modifies this
      ensures r == ReadAt(old(store), key, now)
      ensures store == AfterRead(old(store), key, now)
      ensures key !in old(store) ==> r == Undefined && store == old(store)
      ensures key in old(store) && Live(old(store)[key], now) ==> r == old(store)[key].data && store == old(store)
      ensures key in old(store) && !Live(old(store)[key], now) ==> r == Undefined && store == old(store) - {key}
    {
      if key !in store {
        return Undefined;
      }
      var hit := store[key];
      if hit.expiry >= now {
        return hit.data;
      }
      store := store - {key};
      r := Undefined;
    }

    /** `set(key, data, ttlMs)`: overwrites any entry, expiring `ttlMs` after `now`. */
    method Set(key: string, data: Value, ttlMs: int, now: int)
      modifies this
      ensures store == old(store)[key := Entry(now + ttlMs, data)]
    {
      store := store[key := Entry(now + ttlMs, data)];
    }

    /** `clear(key?)`: a non-empty key removes only that entry; no key (or `''`) empties the cache. */
    method Clear(key: Option<string>)
      modifies this
      ensures key.Some? && key.value != "" ==> store == old(store) - {key.value}
      ensures key.None? || key.value == "" ==> store == map[]
    {
      if key.Some? && key.value != "" {
        store := store - {key.value};
      } else {
        store := map[];
      }
    }
  }

  /** What a read at `now` returns from a given store. */
  function ReadAt(store: map<string, Entry>, key: string, now: int): (r: Value)
    ensures key !in store ==> r == Undefined
    ensures key in store && !Live(store[key], now) ==> r == Undefined
  {
    if key in store && Live(store[key], now) then store[key].data else Undefined
  }

  /** The store after a read at `now`: only an expired entry under `key` is gone. */
  function AfterRead(store: map<string, Entry>, key: string, now: int): map<string, Entry> {
    if key in store && !Live(store[key], now) then store - {key} else store
  }

  /** A write with a non-negative TTL is read back at any instant up to `now + ttl`, and no later. */
  lemma SetThenRead(store: map<string, Entry>, key: string, v: Value, ttl: int, now: int, later: int)
    requires now <= later
    ensures ttl >= later - now ==> ReadAt(store[key := Entry(now + ttl, v)], key, later) == v
    ensures ttl < later - now ==> ReadAt(store[key := Entry(now + ttl, v)], key, later) == Undefined
  {
  }

  /** A write leaves every other key's reads as they were. */
  lemma SetKeepsOthers(store: map<string, Entry>, key: string, v: Value, ttl: int, now: int, other: string, t: int)
    requires other != key
    ensures ReadAt(store[key := Entry(now + ttl, v)], other, t) == ReadAt(store, other, t)
  {
  }
}
