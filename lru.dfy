/**
 * The per-location response cache: an LRU container (`hi::cache::lru_cache`,
 * lib/lrucache.hpp, which is not part of this model) seen through the four
 * operations the handler uses. Which entry an overflowing `put` evicts is
 * left open: only that it is some other entry.
 */
module Lru {

  /** `cache_ele_t` (lines 54-58): a stored response and the time it was stored. */
  datatype CacheEntry = CacheEntry(status: int, t: int, contentType: string, content: string)

  /**
   * What a `put` of `e` under `key` may leave behind: the new entry (always,
   * unless the capacity is zero), no key that was not there before, the other
   * survivors unchanged, at most one entry evicted, and the capacity respected.
   */
  ghost predicate PutOutcome(before: map<string, CacheEntry>, after: map<string, CacheEntry>,
                             key: string, e: CacheEntry, capacity: nat)
  {
    && (capacity > 0 ==> key in after)
    && (key in after ==> after[key] == e)
    && after.Keys <= before.Keys + {key}
    && (forall k :: k in after && k != key ==> after[k] == before[k])
    && |after| <= capacity
    && |before.Keys + {key}| <= |after| + 1
  }

  /** What a put leaves does not depend on the entry the key held before it. */
  lemma PutIgnoresPrior(before: map<string, CacheEntry>, after: map<string, CacheEntry>,
                        key: string, e: CacheEntry, capacity: nat)
    ensures PutOutcome(before - {key}, after, key, e, capacity) <==> PutOutcome(before, after, key, e, capacity)
  {
    assert (before - {key}).Keys + {key} == before.Keys + {key};
  }

  class LruCache {
    const capacity: nat
    var entries: map<string, CacheEntry>

    ghost predicate Valid()
      reads this
    {
      |entries| <= capacity
    }

    constructor (capacity: nat)
      ensures Valid() && this.capacity == capacity && entries == map[]
    {
      this.capacity := capacity;
      entries := map[];
    }

    /** Membership test; does not touch recency. */
    method Exists(key: string) returns (b: bool)
      ensures b <==> key in entries
    {
      b := key in entries;
    }

    /** The stored entry (the container also marks it most recently used). */
    method Get(key: string) returns (e: CacheEntry)
      requires key in entries
      ensures e == entries[key]
    {
      e := entries[key];
    }

    method Put(key: string, e: CacheEntry)
      requires Valid()
      modifies this
      ensures Valid() && PutOutcome(old(entries), entries, key, e, capacity)
    {
      var grown := entries[key := e];
      assert grown.Keys == entries.Keys + {key};
      if |grown| > capacity {
        var victim: string;
        if grown.Keys - {key} != {} {
          victim :| victim in grown.Keys - {key};
        } else {
          victim := key;
        }
        assert (grown - {victim}).Keys == grown.Keys - {victim};
        entries := grown - {victim};
      } else {
        entries := grown;
      }
    }

    method Erase(key: string)
      requires Valid()
      modifies this
      ensures Valid() && entries == old(entries) - {key}
    {
      assert (entries - {key}).Keys <= entries.Keys;
      entries := entries - {key};
    }
  }
}
