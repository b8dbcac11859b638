/**
 * The process-wide `memory-cache` instance every router shares: string keys,
 * JavaScript values, a time-to-live per entry. Time is a logical clock in
 * milliseconds that only Advance moves.
 */
module Cache {
  import opened Js

  datatype Entry = Entry(value: Value, expire: int)

  /**
   * `memCache.get(key)`: the stored value while the clock has not passed its
   * expiry, otherwise null (a missing or expired entry reads as a miss).
   */
  function Lookup(entries: map<string, Entry>, now: int, key: string): (v: Value)
    ensures key !in entries ==> v == Null
    ensures key in entries && now > entries[key].expire ==> v == Null
  {
    if key in entries && now <= entries[key].expire then entries[key].value else Null
  }

  /** The entries after an optional `memCache.put(key, value, ttl)` at time `now`. */
  function Stored(entries: map<string, Entry>, key: string, value: Option<Value>, now: int, ttl: int): map<string, Entry> {
    if value.Some? then entries[key := Entry(value.value, now + ttl)] else entries
  }

  /**
   * A value put with a non-negative ttl is read back unchanged for exactly
   * ttl milliseconds, and is a miss afterwards; other keys are unaffected.
   */
  lemma PutThenGet(entries: map<string, Entry>, now: int, key: string, value: Value, ttl: nat, elapsed: nat, other: string)
    requires other != key
    ensures elapsed <= ttl ==> Lookup(Stored(entries, key, Some(value), now, ttl), now + elapsed, key) == value
    ensures elapsed > ttl ==> Lookup(Stored(entries, key, Some(value), now, ttl), now + elapsed, key) == Null
    ensures Lookup(Stored(entries, key, Some(value), now, ttl), now + elapsed, other) == Lookup(entries, now + elapsed, other)
  {
  }

  class MemCache {
    var entries: map<string, Entry>
    var now: int

    constructor ()
      ensures entries == map[] && now == 0
    {
      entries := map[];
      now := 0;
    }

    function Get(key: string): Value
      reads this
    {
      Lookup(entries, now, key)
    }

    method Put(key: string, value: Value, ttl: int)
      modifies this
      ensures entries == old(entries)[key := Entry(value, old(now) + ttl)]
      ensures now == old(now)
      ensures ttl >= 0 ==> Get(key) == value
    {
      entries := entries[key := Entry(value, now + ttl)];
    }

    /** The passing of time. */
    method Advance(ms: nat)
      modifies this
      ensures now == old(now) + ms && entries == old(entries)
      ensures forall k :: k in entries && entries[k].expire < now ==> Get(k) == Null
    {
      now := now + ms;
    }
  }
}
