/** The keyed time-to-live cache of the trend service: a dictionary from a
    cache key to the stored payload, the time it was written and its TTL in
    milliseconds. Reads never delete; writes overwrite unconditionally. */
module TtlCache {
  import opened Wrappers

  const MillisPerMinute: int := 60 * 1000

  datatype Entry<T> = Entry(data: T, timestamp: int, ttl: int)

  /** The entry a write at time `now` stores. */
  function Written<T>(data: T, now: int, ttlMinutes: int): Entry<T>
  {
    Entry(data, now, ttlMinutes * MillisPerMinute)
  }

  /** A read at `now` hits an entry only while its age is below its TTL. */
  function Lookup<T>(entries: map<string, Entry<T>>, key: string, now: int): (r: Option<T>)
    ensures r.Some? <==> key in entries && now - entries[key].timestamp < entries[key].ttl
    ensures r.Some? ==> r.value == entries[key].data
  {
    if key in entries && now - entries[key].timestamp < entries[key].ttl then Some(entries[key].data) else None
  }

  /** A write followed by a read of the same key returns the written data
      exactly while the read is less than `ttlMinutes` minutes later. */
  lemma LookupAfterWrite<T>(entries: map<string, Entry<T>>, key: string, data: T, t: int, ttlMinutes: int, t': int)
    ensures Lookup(entries[key := Written(data, t, ttlMinutes)], key, t')
            == if t' - t < ttlMinutes * MillisPerMinute then Some(data) else None
  {
  }

  /** A write leaves the reads of every other key as they were. */
  lemma LookupOtherKey<T>(entries: map<string, Entry<T>>, key: string, e: Entry<T>, other: string, now: int)
    requires other != key
    ensures Lookup(entries[key := e], other, now) == Lookup(entries, other, now)
  {
  }

  /** The process-wide cache object. */
  class Cache<T> {
    var entries: map<string, Entry<T>>

    constructor ()
      ensures entries == map[]
    {
      entries := map[];
    }

    /** `getCachedData`: a pure read at time `now`. */
    function Get(key: string, now: int): (r: Option<T>)
      reads this
      ensures r.Some? <==> key in entries && now - entries[key].timestamp < entries[key].ttl
      ensures r.Some? ==> r.value == entries[key].data
    {
      Lookup(entries, key, now)
    }

    /** `setCachedData`: overwrites the entry of `key`, stamped with `now`;
        every other key keeps its entry. */
    method Set(key: string, data: T, ttlMinutes: int, now: int)
      modifies this
      ensures entries == old(entries)[key := Written(data, now, ttlMinutes)]
      ensures forall k :: k != key ==> (k in entries <==> k in old(entries))
      ensures forall k :: k != key && k in entries ==> entries[k] == old(entries)[k]
    {
      entries := entries[key := Written(data, now, ttlMinutes)];
    }
  }
}
