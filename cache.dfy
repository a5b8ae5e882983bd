/**
 * `TwitterCache`: a namespaced adapter over the memcache service. Every caller
 * key is stored under `twitter_` + key, and every value is stored together with
 * the time it was written.
 */
module Cache {
  import opened Wrappers

  /** The namespace prefix of every store key this adapter writes. */
  const Prefix: string := "twitter_"

  /** `_GetCacheKey`: the store key is the prefix followed by the caller's key. */
  function CacheKey(key: string): (k: string)
    ensures |k| == |Prefix| + |key|
    ensures k[..|Prefix|] == Prefix && k[|Prefix|..] == key
  {
    Prefix + key
  }

  /** Different caller keys never share a store key. */
  lemma CacheKeyInjective(a: string, b: string)
    ensures CacheKey(a) == CacheKey(b) <==> a == b
  {
  }

  /** What `Get(key)` yields on a store: the data half of the stored pair, or None. */
  function CachedData<D>(store: map<string, (D, int)>, key: string): Option<D>
  {
    if CacheKey(key) in store then Some(store[CacheKey(key)].0) else None
  }

  /** What `GetCachedTime(key)` yields on a store: the time half of the stored pair, or None. */
  function CachedTime<D>(store: map<string, (D, int)>, key: string): Option<int>
  {
    if CacheKey(key) in store then Some(store[CacheKey(key)].1) else None
  }

  /** The memcache service seen through one adapter: a map from store keys to (data, time). */
  class TwitterCache<D> {
    var store: map<string, (D, int)>

    constructor ()
      ensures store == map[]
    {
      store := map[];
    }

    method Get(key: string) returns (r: Option<D>)
      ensures r == CachedData(store, key)
      ensures r.Some? <==> CacheKey(key) in store
    {
      var k := CacheKey(key);
      if k in store {
        r := Some(store[k].0);
      } else {
        r := None;
      }
    }

    /** `now` stands for `time.time()` at the moment of the call. */
    method Set(key: string, data: D, now: int)
      modifies this
      ensures store == old(store)[CacheKey(key) := (data, now)]
    {
      store := store[CacheKey(key) := (data, now)];
    }

    method Remove(key: string)
      modifies this
      ensures store == old(store) - {CacheKey(key)}
    {
      store := store - {CacheKey(key)};
    }

    method GetCachedTime(key: string) returns (r: Option<int>)
      ensures r == CachedTime(store, key)
      ensures r.Some? <==> CacheKey(key) in store
    {
      var k := CacheKey(key);
      if k in store {
        r := Some(store[k].1);
      } else {
        r := None;
      }
    }
  }

  /** After `Set(key, data)` at time `now`, `Get(key)` is `data` and `GetCachedTime(key)` is `now`. */
  lemma SetThenGet<D>(store: map<string, (D, int)>, key: string, data: D, now: int)
    ensures CachedData(store[CacheKey(key) := (data, now)], key) == Some(data)
    ensures CachedTime(store[CacheKey(key) := (data, now)], key) == Some(now)
  {
  }

  /** After `Remove(key)`, both `Get(key)` and `GetCachedTime(key)` are None. */
  lemma RemoveThenGet<D>(store: map<string, (D, int)>, key: string)
    ensures CachedData(store - {CacheKey(key)}, key) == None
    ensures CachedTime(store - {CacheKey(key)}, key) == None
  {
  }

  /** `Set(key, …)` leaves what every other caller key reads untouched. */
  lemma SetLeavesOtherKeys<D>(store: map<string, (D, int)>, key: string, data: D, now: int, other: string)
    requires other != key
    ensures CachedData(store[CacheKey(key) := (data, now)], other) == CachedData(store, other)
    ensures CachedTime(store[CacheKey(key) := (data, now)], other) == CachedTime(store, other)
  {
  }

  /** `Remove(key)` leaves what every other caller key reads untouched. */
  lemma RemoveLeavesOtherKeys<D>(store: map<string, (D, int)>, key: string, other: string)
    requires other != key
    ensures CachedData(store - {CacheKey(key)}, other) == CachedData(store, other)
    ensures CachedTime(store - {CacheKey(key)}, other) == CachedTime(store, other)
  {
  }
}
