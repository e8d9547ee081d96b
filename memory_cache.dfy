/**
 * The in-memory store the output cache writes to, reduced to what the filter
 * uses: a map from key to (value, absolute expiry time) read against an
 * explicit integer clock (seconds). An entry is live while the clock is
 * strictly before its expiry time; an entry whose expiry time has been
 * reached reads as absent. Eviction, size limits and the other store
 * options are not part of this model.
 */
module MemoryCacheStore {
  import opened Wrappers

  /** A stored value with the absolute time at which it stops being served. */
  datatype StoredEntry<V> = StoredEntry(value: V, expiresAt: int)

  type Entries<V> = map<string, StoredEntry<V>>

  /** The value a read at time `now` sees for `key`: present and not yet expired. */
  function Lookup<V>(entries: Entries<V>, key: string, now: int): Option<V>
  {
    if key in entries && now < entries[key].expiresAt then Some(entries[key].value) else None
  }

  /** The store after writing `value` under `key` at time `now` with a relative expiry of `relative` seconds. */
  function Stored<V>(entries: Entries<V>, key: string, value: V, now: int, relative: int): Entries<V>
  {
    entries[key := StoredEntry(value, now + relative)]
  }

  /**
   * A write is read back unchanged until `relative` seconds have passed and is
   * a miss from then on; every other key reads as before.
   */
  lemma StoredThenLookup<V>(entries: Entries<V>, key: string, value: V, now: int, relative: int, other: string, t: int)
    ensures Lookup(Stored(entries, key, value, now, relative), key, t) == (if t < now + relative then Some(value) else None)
    ensures other != key ==> Lookup(Stored(entries, key, value, now, relative), other, t) == Lookup(entries, other, t)
  {
  }

  /** The shared store object: its entries and its clock. */
  class MemoryCache<V> {
    var entries: Entries<V>
    var now: int

    /** An empty store whose clock reads `start`. */
    constructor (start: int)
      ensures entries == map[] && now == start
    {
      entries := map[];
      now := start;
    }

    /** Read `key`: its value when present and live, otherwise None. */
    method Get(key: string) returns (r: Option<V>)
      ensures r.Some? <==> key in entries && now < entries[key].expiresAt
      ensures r.Some? ==> r.value == entries[key].value
      ensures r == Lookup(entries, key, now)
    {
      if key in entries && now < entries[key].expiresAt {
        r := Some(entries[key].value);
      } else {
        r := None;
      }
    }

    /**
     * Write `value` under `key`, replacing any entry, to expire `relative`
     * seconds from now. A non-positive relative expiry is rejected by the
     * store, so callers must pass a positive one.
     */
    method Set(key: string, value: V, relative: int)
      requires relative > 0
      modifies this
      ensures now == old(now)
      ensures entries == Stored(old(entries), key, value, old(now), relative)
    {
      entries := entries[key := StoredEntry(value, now + relative)];
    }

    /** The clock moves forward to `t`; nothing stored changes. Time never goes back. */
    method SetClock(t: int)
      requires now <= t
      modifies this
      ensures now == t && entries == old(entries)
    {
      now := t;
    }
  }
}
