/**
 * The Redis string store used for conversation context (`opsForValue().get` and
 * `set` with a time-to-live). Every key maps to a value and the instant it
 * expires; a read at or after that instant sees nothing. Times are milliseconds.
 */
module ContextCache {
  import opened Wrappers

  datatype CacheEntry = CacheEntry(value: string, expiresAt: int)

  /** What a GET of `key` at time `now` returns (None: Redis answers nil). */
  function LiveValue(entries: map<string, CacheEntry>, key: string, now: int): Option<string> {
    if key in entries && now < entries[key].expiresAt then Some(entries[key].value) else None
  }

  /** A value written with a positive TTL is read back until the TTL runs out and
      is gone from then on; every other key reads as before. */
  lemma SetThenGet(entries: map<string, CacheEntry>, key: string, value: string, ttl: nat, now: int,
                   other: string, later: int)
    requires ttl > 0
    ensures var after := entries[key := CacheEntry(value, now + ttl)];
            && LiveValue(after, key, later) == (if later < now + ttl then Some(value) else None)
            && (other != key ==> LiveValue(after, other, later) == LiveValue(entries, other, later))
  {
  }

  class ContextStore {
    var entries: map<string, CacheEntry>

    constructor ()
      ensures entries == map[]
    {
      entries := map[];
    }

    /** `get(key)` */
    method Get(key: string, now: int) returns (v: Option<string>)
      ensures v == LiveValue(entries, key, now)
    {
      if key in entries && now < entries[key].expiresAt {
        v := Some(entries[key].value);
      } else {
        v := None;
      }
    }

    /** `set(key, value, ttl, unit)`: overwrite the entry and restart its TTL. */
    method Set(key: string, value: string, ttl: nat, now: int)
      requires ttl > 0
      modifies this
      ensures entries == old(entries)[key := CacheEntry(value, now + ttl)]
    {
      entries := entries[key := CacheEntry(value, now + ttl)];
    }
  }
}
