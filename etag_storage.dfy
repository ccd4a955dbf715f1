/** TrackerBlockingMVP/Networking/Caching/EtagStorage.swift: entity tags kept in
    UserDefaults, one per URL string. */
module EtagStorage {
  import opened Wrappers
  import opened UserDefaultsStore

  class EtagStorage {
    const cache: UserDefaults

    constructor (cache: UserDefaults)
      ensures this.cache == cache
    {
      this.cache := cache;
    }

    /** `retrieveETag(for:)`: the string stored under `key`; nil when the key is
        absent or holds anything but a string. */
    function RetrieveETag(key: string): (r: Option<string>)
      reads cache
      ensures r.Some? <==> key in cache.entries && cache.entries[key].Text?
      ensures r.Some? ==> cache.entries[key] == Text(r.value)
    {
      match cache.Object(key)
      case Some(Text(t)) => Some(t)
      case _ => None
    }

    /** `store(etag:for:)`: afterwards `key` yields `etag` and every other key
        yields what it yielded before. */
    method Store(etag: string, key: string)
      modifies cache
      ensures cache.entries == old(cache.entries)[key := Text(etag)]
      ensures RetrieveETag(key) == Some(etag)
      ensures forall k :: k != key ==> RetrieveETag(k) == old(RetrieveETag(k))
    {
      cache.Set(key, Text(etag));
    }
  }

  /** Last write wins: of two stores under one key into any store, retrieval sees
      the second, the first leaves no trace, and every other key reads as before. */
  method LastWriteWins(storage: EtagStorage, first: string, second: string, key: string)
    modifies storage.cache
    ensures storage.cache.entries == old(storage.cache.entries)[key := Text(second)]
    ensures storage.RetrieveETag(key) == Some(second)
    ensures forall k :: k != key ==> storage.RetrieveETag(k) == old(storage.RetrieveETag(k))
  {
    storage.Store(first, key);
    storage.Store(second, key);
  }
}
