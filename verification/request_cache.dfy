/**
 * The in-memory request cache (client/src/utils/requestCache.ts): a map
 * from request keys to responses, each stamped with the instant it was
 * stored and the instant it expires.
 *
 * The module-level `Map` is the object `Cache`; its methods receive the
 * current instant `now` (milliseconds since the epoch) instead of reading
 * the clock. The functions `Lookup`, `Evicted`, `Stored` and `Invalidated`
 * say what each operation returns and what it leaves in the map; the
 * methods are proved against them.
 */
module RequestCache {
  import opened Wrappers
  import opened Text

  /** `CACHE_DURATION`: five minutes, the default lifetime of an entry. */
  const CacheDuration: int := 5 * 60 * 1000

  datatype CacheEntry<T> = CacheEntry(data: T, timestamp: int, expiresAt: int)

  type Entries<T> = map<string, CacheEntry<T>>

  // ---------------------------------------------------------------------
  // The operations as values

  /** What `getCached(key)` returns at `now`: the data of an entry that has not expired. */
  function Lookup<T>(m: Entries<T>, key: string, now: int): Option<T> {
    if key !in m then None
    else if now > m[key].expiresAt then None
    else Some(m[key].data)
  }

  /** What `getCached(key)` leaves in the map: an expired entry is deleted. */
  function Evicted<T>(m: Entries<T>, key: string, now: int): Entries<T> {
    if key in m && now > m[key].expiresAt then m - {key} else m
  }

  /** `setCached(key, data, duration)` at `now`. */
  function Stored<T>(m: Entries<T>, key: string, data: T, now: int, duration: int): Entries<T> {
    m[key := CacheEntry(data, now, now + duration)]
  }

  /** `invalidateCache(keyPattern)`: no pattern clears all; otherwise the keys containing it go. */
  function Invalidated<T>(m: Entries<T>, pattern: string): Entries<T> {
    if pattern == "" then map[]
    else map k | k in m && !Contains(k, pattern) :: m[k]
  }

  // ---------------------------------------------------------------------
  // The cache object

  class Cache<T> {
    var entries: Entries<T>

    constructor()
      ensures entries == map[]
    {
      entries := map[];
    }

    /** `getCached(key)` at the instant `now`. */
    method GetCached(key: string, now: int) returns (r: Option<T>)
      modifies this
      ensures r == Lookup(old(entries), key, now)
      ensures entries == Evicted(old(entries), key, now)
    {
      if key !in entries {
        return None;
      }
      var entry := entries[key];
      if now > entry.expiresAt {
        entries := entries - {key};
        return None;
      }
      return Some(entry.data);
    }

    /** `setCached(key, data, duration)` at the instant `now`; the duration defaults to `CacheDuration`. */
    method SetCached(key: string, data: T, now: int, duration: int := CacheDuration)
      modifies this
      ensures entries == Stored(old(entries), key, data, now, duration)
    {
      entries := entries[key := CacheEntry(data, now, now + duration)];
    }

    /** `clearCache()` */
    method ClearCache()
      modifies this
      ensures entries == map[]
    {
      entries := map[];
    }

    /** `invalidateCache(keyPattern)`, `""` standing for an absent pattern: deletes key by key. */
    method InvalidateCache(pattern: string)
      modifies this
      ensures entries == Invalidated(old(entries), pattern)
    {
      if pattern == "" {
        entries := map[];
        return;
      }
      var keys := entries.Keys;
      while keys != {}
        invariant keys <= old(entries).Keys
        invariant forall k :: k in entries <==> k in old(entries) && (k in keys || !Contains(k, pattern))
        invariant forall k :: k in entries ==> entries[k] == old(entries)[k]
        decreases keys
      {
        var k :| k in keys;
        if Contains(k, pattern) {
          entries := entries - {k};
        }
        keys := keys - {k};
      }
      assert entries == Invalidated(old(entries), pattern);
    }
  }

  // ---------------------------------------------------------------------
  // Properties

  /** A key never stored is a miss. */
  lemma MissingKeyMisses<T>(m: Entries<T>, key: string, now: int)
    requires key !in m
    ensures Lookup(m, key, now) == None && Evicted(m, key, now) == m
  {
  }

  /** Past its expiry an entry is a miss and is deleted; at the expiry instant itself it is still served. */
  lemma ExpiryBoundary<T>(m: Entries<T>, key: string, now: int)
    requires key in m
    ensures now > m[key].expiresAt ==> Lookup(m, key, now) == None && key !in Evicted(m, key, now)
    ensures now == m[key].expiresAt ==> Lookup(m, key, now) == Some(m[key].data) && Evicted(m, key, now) == m
  {
  }

  /** A read never changes any other entry. */
  lemma LookupTouchesOnlyItsKey<T>(m: Entries<T>, key: string, now: int, other: string)
    requires other != key && other in m
    ensures other in Evicted(m, key, now) && Evicted(m, key, now)[other] == m[other]
  {
  }

  /** After a store, every read up to `duration` later returns the stored data, whatever was there before. */
  lemma GetAfterSet<T>(m: Entries<T>, key: string, data: T, setAt: int, duration: int, now: int)
    requires now <= setAt + duration
    ensures Lookup(Stored(m, key, data, setAt, duration), key, now) == Some(data)
    ensures Evicted(Stored(m, key, data, setAt, duration), key, now) == Stored(m, key, data, setAt, duration)
  {
  }

  /** A store changes no other key. */
  lemma SetKeepsOthers<T>(m: Entries<T>, key: string, data: T, now: int, duration: int, other: string)
    requires other != key
    ensures other in Stored(m, key, data, now, duration) <==> other in m
    ensures other in m ==> Stored(m, key, data, now, duration)[other] == m[other]
  {
  }

  /** `invalidateCache(p)` removes exactly the keys that contain `p` and keeps every other entry as it was. */
  lemma InvalidateExactly<T>(m: Entries<T>, pattern: string, k: string)
    requires pattern != ""
    ensures k in Invalidated(m, pattern) <==> k in m && !Contains(k, pattern)
    ensures k in Invalidated(m, pattern) ==> Invalidated(m, pattern)[k] == m[k]
  {
  }

  /** Every key contains the empty string, so deleting by it would also clear the map. */
  lemma EmptyPatternMatchesEveryKey(k: string)
    ensures Contains(k, "")
  {
    assert OccursAt(k, "", 0);
  }

  /** Invalidating twice with the same pattern is invalidating once. */
  lemma InvalidateIdempotent<T>(m: Entries<T>, pattern: string)
    ensures Invalidated(Invalidated(m, pattern), pattern) == Invalidated(m, pattern)
  {
  }
}
