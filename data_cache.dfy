/** The "seen" cache that ConnectionManager keeps twice, once for message IDs and
    once for receipts. Its implementation (data_cache.js) is not part of this model:
    only the three operations ConnectionManager calls are modelled, over an abstract
    set of entries. Which entries an eviction pass drops depends on the cache's
    retention time, capacity and the clock; it is therefore a parameter of
    CleanCache rather than a rule invented here. */
module DataCache {

  class Cache<K(==)> {
    /** The two construction arguments, in the order ConnectionManager passes them. */
    const retentionTime: int
    const maxCount: int

    /** The keys currently remembered. */
    var entries: set<K>

    constructor (retentionTime: int, maxCount: int)
      ensures this.retentionTime == retentionTime && this.maxCount == maxCount
      ensures entries == {}
    {
      this.retentionTime := retentionTime;
      this.maxCount := maxCount;
      entries := {};
    }

    /** `isCached(key)`: whether the key is remembered. */
    method IsCached(key: K) returns (cached: bool)
      ensures cached <==> key in entries
    {
      cached := key in entries;
    }

    /** `cache(key)`: remember the key; everything already remembered stays. */
    method Cache(key: K)
      modifies this
      ensures entries == old(entries) + {key}
    {
      entries := entries + {key};
    }

    /** `cleanCache()`: forget the entries that have expired at this moment. */
    method CleanCache(expired: set<K>)
      modifies this
      ensures entries == old(entries) - expired
    {
      entries := entries - expired;
    }
  }
}
