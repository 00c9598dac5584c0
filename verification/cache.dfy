/**
 * The fail-soft cache wrapper over the Redis client: get, set with a time to
 * live, and delete. Every client error is swallowed: a read answers "absent"
 * and a write or delete answers false, and none of them raises.
 *
 * Time is a clock in milliseconds passed in by the caller; a time to live is
 * in seconds, as Redis SETEX takes it. A client error is an input flag
 * (`fails`), since it depends on the network and the server.
 */
module Cache {
  import opened Wrappers

  /** Time to live of an item whose writer names none: 24 hours, in seconds. */
  const DefaultExpiration: int := 24 * 60 * 60

  /** One stored item: the value and the last clock time (ms) at which it is still live. */
  datatype Entry<V> = Entry(value: V, expiresAt: int)

  /**
   * What a read at time `now` sees. Redis expires a key only once its clock is
   * past the expiry time, so an item is still readable at that very millisecond.
   */
  function Lookup<K(==), V>(entries: map<K, Entry<V>>, key: K, now: int): (r: Option<V>)
    ensures r.Some? <==> key in entries && now <= entries[key].expiresAt
    ensures r.Some? ==> r.value == entries[key].value
  {
    if key in entries && now <= entries[key].expiresAt then Some(entries[key].value) else None
  }

  /** SETEX succeeds unless the client errors; Redis refuses a time to live that is not positive. */
  predicate SetSucceeds(fails: bool, expiration: int)
  {
    !fails && expiration > 0
  }

  /** The store after `setEx(key, expiration, value)` at time `now`. */
  function Put<K(==), V>(entries: map<K, Entry<V>>, key: K, value: V, now: int, expiration: int, fails: bool)
    : (r: map<K, Entry<V>>)
    ensures !SetSucceeds(fails, expiration) ==> r == entries
    ensures SetSucceeds(fails, expiration) ==>
      r.Keys == entries.Keys + {key} && r[key] == Entry(value, now + expiration * 1000)
    ensures forall k :: k in entries && k != key ==> k in r && r[k] == entries[k]
  {
    if SetSucceeds(fails, expiration) then entries[key := Entry(value, now + expiration * 1000)] else entries
  }

  /** The store after `del(key)`. */
  function Remove<K(==), V>(entries: map<K, Entry<V>>, key: K, fails: bool): (r: map<K, Entry<V>>)
    ensures fails ==> r == entries
    ensures !fails ==> r.Keys == entries.Keys - {key}
    ensures forall k :: k in entries && k != key ==> k in r && r[k] == entries[k]
  {
    if fails then entries else entries - {key}
  }

  /** A value written with a positive time to live reads back unchanged until it expires. */
  lemma SetThenGet<K, V>(entries: map<K, Entry<V>>, key: K, value: V, now: int, expiration: int, t: int)
    requires expiration > 0
    requires t <= now + expiration * 1000
    ensures Lookup(Put(entries, key, value, now, expiration, false), key, t) == Some(value)
  {
  }

  /** Once its time to live has run out, a written value reads as absent. */
  lemma SetThenExpire<K, V>(entries: map<K, Entry<V>>, key: K, value: V, now: int, expiration: int, t: int)
    requires t > now + expiration * 1000
    requires expiration > 0
    ensures Lookup(Put(entries, key, value, now, expiration, false), key, t) == None
  {
  }

  /** With the default time to live an item lives exactly one day, its last millisecond included. */
  lemma DefaultItemLivesOneDay<K, V>(entries: map<K, Entry<V>>, key: K, value: V, now: int)
    ensures Lookup(Put(entries, key, value, now, DefaultExpiration, false), key, now + 86400000) == Some(value)
    ensures Lookup(Put(entries, key, value, now, DefaultExpiration, false), key, now + 86400001) == None
  {
  }

  /** A write, failed or not, leaves what every other key reads unchanged. */
  lemma SetKeepsOtherKeys<K, V>(entries: map<K, Entry<V>>, key: K, value: V, now: int, expiration: int,
                                fails: bool, other: K, t: int)
    requires other != key
    ensures Lookup(Put(entries, key, value, now, expiration, fails), other, t) == Lookup(entries, other, t)
  {
  }

  /** After a delete that succeeds the key reads as absent, and other keys read as before. */
  lemma DeleteThenGet<K, V>(entries: map<K, Entry<V>>, key: K, other: K, t: int)
    requires other != key
    ensures Lookup(Remove(entries, key, false), key, t) == None
    ensures Lookup(Remove(entries, key, false), other, t) == Lookup(entries, other, t)
  {
  }

  /** The Redis store behind the wrapper, with its per-key expiry times. */
  class KeyValueCache<K(==), V> {
    var entries: map<K, Entry<V>>

    constructor ()
      ensures entries == map[]
    {
      entries := map[];
    }

    /** `getFromCache`: the stored value, or None when it is absent, expired or the client errors. */
    method Get(key: K, now: int, fails: bool) returns (r: Option<V>)
      ensures fails ==> r == None
      ensures !fails ==> r == Lookup(entries, key, now)
    {
      if fails {
        r := None;
      } else if key in entries && now <= entries[key].expiresAt {
        r := Some(entries[key].value);
      } else {
        r := None;
      }
    }

    /** `setInCache`: true and the value stored with its expiry, or false and nothing changed. */
    method Set(key: K, value: V, now: int, fails: bool, expiration: int := DefaultExpiration) returns (ok: bool)
      modifies this
      ensures ok == SetSucceeds(fails, expiration)
      ensures entries == Put(old(entries), key, value, now, expiration, fails)
    {
      if fails || expiration <= 0 {
        ok := false;
      } else {
        entries := entries[key := Entry(value, now + expiration * 1000)];
        ok := true;
      }
    }

    /** `deleteFromCache`: true and the key gone, or false and nothing changed. */
    method Delete(key: K, fails: bool) returns (ok: bool)
      modifies this
      ensures ok == !fails
      ensures entries == Remove(old(entries), key, fails)
    {
      if fails {
        ok := false;
      } else {
        entries := entries - {key};
        ok := true;
      }
    }
  }
}
