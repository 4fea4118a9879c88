/** The in-memory cache of src/services/cache.service.ts: a map from keys
    to values with an expiry time, expired entries dropped lazily when read
    and in bulk by `cleanup`.  The clock is a parameter (`now`, in
    milliseconds) and the periodic sweep is a call to `Cleanup`. */
module Cache {
  import opened Wrappers
  import opened Json

  datatype Entry = Entry(value: Json, expiresAt: int)

  /** `ttl || this.defaultTTL`: a missing or zero ttl gives the default. */
  function Ttl(ttl: Option<int>, defaultTTL: int): int {
    if ttl.Some? && ttl.value != 0 then ttl.value else defaultTTL
  }

  /** An entry is live up to and including its expiry instant. */
  predicate Live(e: Entry, now: int) {
    now <= e.expiresAt
  }

  /** What a read at `now` sees: the value of a live entry, nothing else. */
  function ValueAt(cache: map<string, Entry>, key: string, now: int): Option<Json> {
    if key in cache && Live(cache[key], now) then Some(cache[key].value) else None
  }

  /** The entries a sweep at `now` keeps. */
  function LiveEntries(cache: map<string, Entry>, now: int): (r: map<string, Entry>)
    ensures r.Keys <= cache.Keys
    ensures forall k :: k in r ==> r[k] == cache[k] && Live(r[k], now)
    ensures forall k :: k in cache && Live(cache[k], now) ==> k in r
  {
    map k | k in cache && Live(cache[k], now) :: cache[k]
  }

  /** Sweeping changes no read at the same instant, and a second sweep
      changes nothing. */
  lemma SweepKeepsReads(cache: map<string, Entry>, key: string, now: int)
    ensures ValueAt(LiveEntries(cache, now), key, now) == ValueAt(cache, key, now)
    ensures LiveEntries(LiveEntries(cache, now), now) == LiveEntries(cache, now)
  {
  }

  /** A stored value is read back until its expiry instant and not after,
      and storing one key leaves every other key's reads alone. */
  lemma StoredValueReadBack(cache: map<string, Entry>, key: string, value: Json, expiresAt: int,
                            other: string, now: int)
    ensures ValueAt(cache[key := Entry(value, expiresAt)], key, now) == (if now <= expiresAt then Some(value) else None)
    ensures other != key ==> ValueAt(cache[key := Entry(value, expiresAt)], other, now) == ValueAt(cache, other, now)
  {
  }

  class CacheService {
    var cache: map<string, Entry>
    const enabled: bool
    const defaultTTL: int

    /** `env.CACHE_ENABLED` and `env.CACHE_TTL` (seconds); an empty map. */
    constructor(enabled: bool, defaultTTL: int)
      ensures cache == map[] && this.enabled == enabled && this.defaultTTL == defaultTTL
    {
      cache := map[];
      this.enabled := enabled;
      this.defaultTTL := defaultTTL;
    }

    /** `get`: disabled, always nothing; otherwise the live value, and an
        expired entry is deleted on the way. */
    method Get(key: string, now: int) returns (r: Option<Json>)
      modifies this
      ensures r == if enabled then ValueAt(old(cache), key, now) else None
      ensures cache == if enabled && key in old(cache) && !Live(old(cache)[key], now)
                       then old(cache) - {key} else old(cache)
    {
      if !enabled {
        return None;
      }
      if key !in cache {
        return None;
      }
      var entry := cache[key];
      if now > entry.expiresAt {
        cache := cache - {key};
        return None;
      }
      return Some(entry.value);
    }

    /** `set`: a no-op when disabled; otherwise the entry is replaced whole,
        expiring `ttl || defaultTTL` seconds from now. */
    method Set(key: string, value: Json, ttl: Option<int>, now: int)
      modifies this
      ensures cache == if enabled then old(cache)[key := Entry(value, now + Ttl(ttl, defaultTTL) * 1000)]
                       else old(cache)
    {
      if !enabled {
        return;
      }
      var expiresAt := now + Ttl(ttl, defaultTTL) * 1000;
      cache := cache[key := Entry(value, expiresAt)];
    }

    /** `delete`: true iff the key was present; only that key goes, enabled
        or not. */
    method Delete(key: string) returns (deleted: bool)
      modifies this
      ensures deleted == (key in old(cache))
      ensures cache == old(cache) - {key}
    {
      deleted := key in cache;
      cache := cache - {key};
    }

    /** `clear`: empties the map, enabled or not; answers how many entries
        went. */
    method Clear() returns (size: nat)
      modifies this
      ensures size == |old(cache)| && cache == map[]
    {
      size := |cache|;
      cache := map[];
    }

    /** `cleanup`: one pass over the entries, deleting each that has
        expired; answers how many it removed. */
    method Cleanup(now: int) returns (removedCount: nat)
      modifies this
      ensures cache == LiveEntries(old(cache), now)
      ensures removedCount + |cache| == |old(cache)|
    {
      var pending := cache.Keys;
      removedCount := 0;
      while pending != {}
        invariant pending <= cache.Keys <= old(cache).Keys
        invariant forall k :: k in cache ==> cache[k] == old(cache)[k]
        invariant forall k :: k in old(cache) && k !in pending ==> (k in cache <==> Live(old(cache)[k], now))
        invariant forall k :: k in pending ==> k in cache
        invariant removedCount + |cache| == |old(cache)|
        decreases pending
      {
        var key :| key in pending;
        if now > cache[key].expiresAt {
          assert (cache - {key}).Keys == cache.Keys - {key};
          cache := cache - {key};
          removedCount := removedCount + 1;
        }
        pending := pending - {key};
      }
      assert cache == LiveEntries(old(cache), now);
    }

    /** `getStats`: the number of stored entries, expired ones not yet
        swept included, and whether caching is on. */
    method Stats() returns (size: nat, isEnabled: bool)
      ensures size == |cache| && isEnabled == enabled
    {
      size := |cache|;
      isEnabled := enabled;
    }
  }

  /** A value set at `now` is read back at any instant up to `ttl || default`
      seconds later and not after, when caching is on. */
  method SetThenGet(c: CacheService, key: string, value: Json, ttl: Option<int>, now: int, later: int)
    returns (r: Option<Json>)
    requires c.enabled
    modifies c
    ensures r == if later <= now + Ttl(ttl, c.defaultTTL) * 1000 then Some(value) else None
  {
    c.Set(key, value, ttl, now);
    r := c.Get(key, later);
  }
}
