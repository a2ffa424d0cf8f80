/** The response cache shared in shape by `api/flight-times.js` (two minutes) and
    `api/fr24-flight.js` (one minute): a `Map` from key to `{ data, ts }`, read back
    while younger than the TTL, and trimmed by its earliest-inserted key once it
    holds more than 200 entries. */
module TtlCache {
  import opened Common
  import opened OrderedMaps

  /** `cache.size > 200` triggers an eviction before the next insertion. */
  const EvictAbove := 200

  datatype Entry<V> = Entry(data: V, ts: int)

  type Cache<V> = OrderedMap<string, Entry<V>>

  datatype Got<V> = Got(data: Option<V>, cache: Cache<V>)

  /** `getCached(key)` at time `now`: an entry stored at `ts` is returned while
      `now - ts <= ttl`; an older one is deleted. A hit changes nothing. */
  function Lookup<V>(c: Cache<V>, key: string, now: int, ttl: int): (r: Got<V>)
    requires c.Valid()
    ensures r.cache.Valid() && r.cache.Size() <= c.Size()
    ensures r.data.Some? <==> key in c.entries && now - c.entries[key].ts <= ttl
    ensures r.data.Some? ==> r.data.value == c.entries[key].data && r.cache == c
    ensures r.data.None? ==> r.cache.entries == c.entries - {key}
  {
    if key !in c.entries then Got(None, c)
    else if now - c.entries[key].ts > ttl then Got(None, Delete(c, key))
    else Got(Some(c.entries[key].data), c)
  }

  /** `setCache(key, data)` at time `now`. Because the guard is `> 200`, the cache
      reaches 201 entries before anything is evicted, and never more. */
  function Store<V>(c: Cache<V>, key: string, data: V, now: int): (r: Cache<V>)
    requires c.Valid()
    ensures r.Valid()
    ensures key in r.entries && r.entries[key] == Entry(data, now)
    ensures c.Size() <= EvictAbove + 1 ==> r.Size() <= EvictAbove + 1
    ensures c.Size() <= EvictAbove ==>
              forall k :: k in c.entries && k != key ==> k in r.entries && r.entries[k] == c.entries[k]
    ensures forall k :: k in r.entries && k != key ==> k in c.entries && r.entries[k] == c.entries[k]
  {
    var room := if c.Size() > EvictAbove then DeleteOldest(c) else c;
    Set(room, key, Entry(data, now))
  }

  /** What was stored is read back exactly while it is at most `ttl` old. */
  lemma StoreThenLookup<V>(c: Cache<V>, key: string, data: V, now: int, later: int, ttl: int)
    requires c.Valid()
    ensures Lookup(Store(c, key, data, now), key, later, ttl).data
              == if later - now <= ttl then Some(data) else None
  {
  }

  /** The bound is reached: a cache of 200 entries grows to 201 with a new key, and
      storing one more key into those 201 evicts the oldest and keeps 201. */
  lemma BoundIsReached<V>(c: Cache<V>, key: string, data: V, now: int)
    requires c.Valid() && key !in c.entries
    ensures c.Size() == EvictAbove ==> Store(c, key, data, now).Size() == EvictAbove + 1
    ensures c.Size() == EvictAbove + 1 ==>
              var r := Store(c, key, data, now);
              r.Size() == EvictAbove + 1 && r.order == c.order[1..] + [key]
  {
  }
}
