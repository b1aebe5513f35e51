/** The name system's resolution cache, as the value held in its `cache` field.

    The cache's own methods (cacheGet and cacheSet) are defined outside namesys.go; the model
    gives the calls the name system makes expiry semantics:
    an entry carries an absolute expiry, a lookup serves it only strictly before that expiry
    and forgets it after, a write with a non-positive TTL is ignored, and a cache built with
    a non-positive size is absent and never holds anything. Capacity-driven eviction is not
    modelled. Times are nanoseconds. */
module ResolverCache {
  import opened Types

  datatype Entry = Entry(val: string, eol: int)

  /** Disabled is Go's nil *lru.Cache. */
  datatype Cache = Disabled | Enabled(entries: map<string, Entry>)

  /** The cache NewNameSystem builds for a given size. */
  function New(cachesize: int): (c: Cache)
    ensures c.Enabled? <==> cachesize > 0
    ensures c.Enabled? ==> c.entries == map[]
  {
    if cachesize > 0 then Enabled(map[]) else Disabled
  }

  /** An entry for `key` that may still be served at time `now`. */
  predicate Fresh(c: Cache, key: string, now: int) {
    c.Enabled? && key in c.entries && now < c.entries[key].eol
  }

  /** cacheGet(key): the cached path if it is fresh, with the cache after the lookup
      (a stale entry found by the lookup is removed). */
  function Get(c: Cache, key: string, now: int): (r: (Option<string>, Cache))
    ensures r.0.Some? <==> Fresh(c, key, now)
    ensures r.0.Some? ==> r.0.value == c.entries[key].val && r.1 == c
    ensures r.1.Enabled? <==> c.Enabled?
    ensures r.1.Enabled? ==> key !in r.1.entries || Fresh(r.1, key, now)
    ensures r.1.Enabled? ==> forall k :: k in r.1.entries <==> k in c.entries && (k != key || Fresh(c, key, now))
    ensures r.1.Enabled? ==> forall k :: k in r.1.entries ==> r.1.entries[k] == c.entries[k]
  {
    if Fresh(c, key, now) then (Some(c.entries[key].val), c)
    else if c.Enabled? && key in c.entries then (None, Enabled(c.entries - {key}))
    else (None, c)
  }

  /** cacheSet(key, val, ttl): remember `val` until now + ttl, unless the TTL is not positive
      or the cache is absent. */
  function Set(c: Cache, key: string, val: string, ttl: int, now: int): (r: Cache)
    ensures r.Enabled? <==> c.Enabled?
    ensures ttl <= 0 ==> r == c
    ensures c.Enabled? && ttl > 0 ==> r.entries == c.entries[key := Entry(val, now + ttl)]
  {
    if c.Disabled? || ttl <= 0 then c else Enabled(c.entries[key := Entry(val, now + ttl)])
  }

  /** A value written with a positive TTL is served for exactly that long, and never after. */
  lemma SetThenGet(c: Cache, key: string, val: string, ttl: int, now: int, later: int)
    requires c.Enabled? && ttl > 0
    ensures Get(Set(c, key, val, ttl, now), key, later).0 == if later < now + ttl then Some(val) else None
  {
  }

  /** A write under one key leaves every other key's lookup as it was. */
  lemma SetKeepsOtherKeys(c: Cache, key: string, val: string, ttl: int, now: int, other: string, later: int)
    requires other != key
    ensures Get(Set(c, key, val, ttl, now), other, later).0 == Get(c, other, later).0
  {
  }
}
