/** The process-wide TTL cache of lib/cache.ts: a key-to-entry map with lazy
    eviction on read. The clock is the explicit parameter `now` (milliseconds). */
module CacheLib {
  import opened Wrappers
  import opened Json

  /** The class-wide time to live, 5 minutes. */
  const TTL: int := 5 * 60 * 1000

  datatype Entry = Entry(data: Json, timestamp: int)

  /** An entry is still served while at most TTL milliseconds have passed. */
  predicate Live(e: Entry, now: int) {
    now - e.timestamp <= TTL
  }

  /** What `get(key)` returns at time `now`: the payload of a live entry, else nothing. */
  function Read(entries: map<string, Entry>, key: string, now: int): (r: Option<Json>)
    ensures r.Some? <==> key in entries && Live(entries[key], now)
    ensures r.Some? ==> r.value == entries[key].data
  {
    if key !in entries then None
    else if !Live(entries[key], now) then None
    else Some(entries[key].data)
  }

  /** The map after `get(key)` at time `now`: an expired entry for `key` is
      deleted; nothing else changes. */
  function AfterRead(entries: map<string, Entry>, key: string, now: int): (r: map<string, Entry>)
    ensures r.Keys == if key in entries && !Live(entries[key], now) then entries.Keys - {key} else entries.Keys
    ensures forall k :: k in r ==> r[k] == entries[k]
  {
    if key in entries && !Live(entries[key], now) then entries - {key} else entries
  }

  /** The map after `set(key, data, ttl)` at time `now`; `ttl` plays no part. */
  function Stored(entries: map<string, Entry>, key: string, data: Json, ttl: int, now: int): (r: map<string, Entry>)
    ensures key in r && r[key] == Entry(data, now)
    ensures forall k :: k != key ==> (k in r <==> k in entries) && (k in entries ==> r[k] == entries[k])
  {
    entries[key := Entry(data, now)]
  }

  class Cache {
    var entries: map<string, Entry>

    constructor ()
      ensures entries == map[]
    {
      entries := map[];
    }

    method Get(key: string, now: int) returns (r: Option<Json>)
      modifies this
      ensures r == Read(old(entries), key, now)
      ensures entries == AfterRead(old(entries), key, now)
    {
      if key !in entries {
        return None;
      }
      var item := entries[key];
      if now - item.timestamp > TTL {
        entries := entries - {key};
        return None;
      }
      return Some(item.data);
    }

    method Set(key: string, data: Json, now: int, ttl: int := TTL)
      modifies this
      ensures entries == Stored(old(entries), key, data, ttl, now)
    {
      entries := entries[key := Entry(data, now)];
    }

    method Clear()
      modifies this
      ensures entries == map[]
    {
      entries := map[];
    }
  }

  /** A read of a missing key returns nothing and leaves the map as it was. */
  lemma ReadMissing(entries: map<string, Entry>, key: string, now: int)
    requires key !in entries
    ensures Read(entries, key, now) == None && AfterRead(entries, key, now) == entries
  {
  }

  /** The entry is served at exactly TTL milliseconds after it was written and
      is gone one millisecond later, when the read also evicts it. */
  lemma ExpiryBoundary(entries: map<string, Entry>, key: string, data: Json, written: int)
    requires key in entries && entries[key] == Entry(data, written)
    ensures Read(entries, key, written + TTL) == Some(data)
    ensures Read(entries, key, written + TTL + 1) == None
    ensures key !in AfterRead(entries, key, written + TTL + 1)
  {
  }

  /** An expired read deletes only its own key. */
  lemma EvictionIsLocal(entries: map<string, Entry>, key: string, other: string, now: int)
    requires other != key && other in entries
    ensures other in AfterRead(entries, key, now) && AfterRead(entries, key, now)[other] == entries[other]
  {
  }

  /** `set` followed at once by `get` of the same key returns the value just stored. */
  lemma ReadAfterStore(entries: map<string, Entry>, key: string, data: Json, ttl: int, now: int)
    ensures Read(Stored(entries, key, data, ttl, now), key, now) == Some(data)
    ensures AfterRead(Stored(entries, key, data, ttl, now), key, now) == Stored(entries, key, data, ttl, now)
  {
  }

  /** The `ttl` argument never changes what `set` stores; expiry is always TTL. */
  lemma TtlArgumentIgnored(entries: map<string, Entry>, key: string, data: Json, ttl1: int, ttl2: int, now: int, later: int)
    ensures Stored(entries, key, data, ttl1, now) == Stored(entries, key, data, ttl2, now)
    ensures Read(Stored(entries, key, data, ttl1, now), key, later).Some? <==> later - now <= TTL
  {
  }

  /** After `clear()` every key reads as missing until something is stored again. */
  lemma ClearedReadsNothing(key: string, now: int)
    ensures Read(map[], key, now) == None
  {
  }

  /** A short-TTL write such as the 30-second one for active builds is still
      served after 30 seconds have passed. */
  lemma ShortTtlHasNoEffect(entries: map<string, Entry>, key: string, data: Json, now: int)
    ensures Read(Stored(entries, key, data, 30000, now), key, now + 30001) == Some(data)
  {
  }
}
