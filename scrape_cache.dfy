/** The scrape cache of `server/brightdata.js`: a table from request key to the last
    successful payload and the time it was stored. Entries live for 30 minutes and are
    evicted lazily, when a read finds them expired; nothing else removes them. The clock
    (`Date.now()`) is an argument of each operation. */
module ScrapeCache {
  import opened Wrappers

  /** 30 minutes, in milliseconds. */
  const TtlMs: int := 30 * 60 * 1000

  datatype Entry<T> = Entry(data: T, time: int)

  /** An entry is served while strictly less than `TtlMs` has passed since it was stored. */
  predicate Live<T>(e: Entry<T>, now: int) {
    now - e.time < TtlMs
  }

  /** What a read of `key` at `now` returns. */
  function Lookup<T>(m: map<string, Entry<T>>, key: string, now: int): (r: Option<T>)
    ensures r.Some? <==> key in m && Live(m[key], now)
    ensures r.Some? ==> r.value == m[key].data
  {
    if key in m && Live(m[key], now) then Some(m[key].data) else None
  }

  /** What a read of `key` at `now` leaves in the table: the key is deleted unless it
      held a live entry; every other key keeps its entry. */
  function AfterRead<T>(m: map<string, Entry<T>>, key: string, now: int): (m': map<string, Entry<T>>)
    ensures Lookup(m, key, now).Some? ==> m' == m
    ensures Lookup(m, key, now).None? ==> key !in m'
    ensures forall k :: k != key ==> (k in m' <==> k in m) && (k in m ==> m'[k] == m[k])
  {
    if key in m && Live(m[key], now) then m else m - {key}
  }

  class Cache<T> {
    var entries: map<string, Entry<T>>

    constructor ()
      ensures entries == map[]
    {
      entries := map[];
    }

    /** `getCached(key)`. */
    method Get(key: string, now: int) returns (r: Option<T>)
      modifies this
      ensures r == Lookup(old(entries), key, now)
      ensures entries == AfterRead(old(entries), key, now)
    {
      if key in entries && now - entries[key].time < TtlMs {
        r := Some(entries[key].data);
      } else {
        entries := entries - {key};
        r := None;
      }
    }

    /** `setCache(key, data)`: stores or replaces the entry, stamped with `now`. */
    method Set(key: string, data: T, now: int)
      modifies this
      ensures entries == old(entries)[key := Entry(data, now)]
    {
      entries := entries[key := Entry(data, now)];
    }
  }

  /** A value stored at `t` is served by a read at `t'` exactly while `t' - t < TtlMs`;
      afterwards the read misses and deletes the key, and no other key is affected. */
  lemma ReadAfterWrite<T>(m: map<string, Entry<T>>, key: string, data: T, t: int, t': int)
    ensures Lookup(m[key := Entry(data, t)], key, t') == if t' - t < TtlMs then Some(data) else None
    ensures t' - t >= TtlMs ==> AfterRead(m[key := Entry(data, t)], key, t') == m - {key}
  {
  }

  /** The same story told through the class: set, then get. */
  method SetThenGet<T>(c: Cache<T>, key: string, data: T, t: int, t': int) returns (r: Option<T>)
    modifies c
    ensures r == (if t' - t < TtlMs then Some(data) else None)
    ensures t' - t < TtlMs ==> c.entries == old(c.entries)[key := Entry(data, t)]
    ensures t' - t >= TtlMs ==> c.entries == old(c.entries) - {key}
  {
    c.Set(key, data, t);
    r := c.Get(key, t');
    ReadAfterWrite(old(c.entries), key, data, t, t');
  }
}
