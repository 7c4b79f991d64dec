/**
 * The time-boxed store the interactive generation endpoint memoises its
 * results in: `new CacheService({ defaultTtl: 24 h, maxSize: 500 })`.
 * The service's own source is not part of this model; it is modelled by the
 * contract the endpoint relies on: a lookup never returns an entry whose age
 * has reached the time-to-live, and an insertion never lets the store grow
 * past its capacity (the oldest insertion is evicted first).
 */
module ContentCache {
  import opened Wrappers
  import opened Collections

  /** 24 hours, in milliseconds. */
  const DefaultTtl: nat := 1000 * 60 * 60 * 24
  /** Up to 500 generations are kept. */
  const MaxSize: nat := 500

  datatype Entry<V> = Entry(value: V, insertedAt: int)

  /**
   * The entries after storing `e` under `key` in a store holding `entries`
   * with insertion order `order` and capacity `maxSize`: a stored key or a
   * store with room just takes the entry; otherwise the oldest insertion
   * makes way for it.
   */
  function AfterSet<K, V>(entries: map<K, Entry<V>>, order: seq<K>, maxSize: nat, key: K, e: Entry<V>): map<K, Entry<V>> {
    if key in entries || |entries| < maxSize || order == [] then entries[key := e]
    else (entries - {order[0]})[key := e]
  }

  /**
   * The insertion order after storing under `key`, in the store `AfterSet`
   * describes: the key becomes the newest, and on an eviction the oldest
   * insertion leaves the front.
   */
  function OrderAfterSet<K(==,!new), V>(entries: map<K, Entry<V>>, order: seq<K>, maxSize: nat, key: K): seq<K> {
    if key in entries || |entries| < maxSize || order == [] then Without(order, key) + [key]
    else order[1..] + [key]
  }

  /**
   * Storing a key right after its expired entry was purged is storing over
   * that entry, and leaves the same insertion order.
   */
  lemma PurgeThenSet<K(!new), V>(entries: map<K, Entry<V>>, order: seq<K>, maxSize: nat, key: K, e: Entry<V>)
    requires key in entries && |entries| <= maxSize
    ensures AfterSet(entries - {key}, Without(order, key), maxSize, key, e) == entries[key := e]
    ensures OrderAfterSet(entries - {key}, Without(order, key), maxSize, key) == OrderAfterSet(entries, order, maxSize, key)
  {
    EvictionShrinks(entries, key);
    assert (entries - {key})[key := e] == entries[key := e];
    WithoutAbsent(Without(order, key), key);
  }

  class Cache<K(==,!new), V> {
    const ttl: nat
    const maxSize: nat
    /** The stored values with the time they were stored. */
    var entries: map<K, Entry<V>>
    /** The stored keys, oldest insertion first. */
    var order: seq<K>

    ghost predicate Valid()
      reads this
    {
      && 0 < maxSize
      && |entries| <= maxSize
      && (forall k :: k in entries <==> k in order)
      && Distinct(order)
    }

    constructor (defaultTtl: nat, capacity: nat)
      requires 0 < capacity
      ensures Valid()
      ensures ttl == defaultTtl && maxSize == capacity && entries == map[] && order == []
    {
      ttl, maxSize := defaultTtl, capacity;
      entries, order := map[], [];
    }

    /** True when `key` is stored and has not reached the time-to-live at `now`. */
    predicate Live(key: K, now: int)
      reads this
    {
      key in entries && now - entries[key].insertedAt < ttl
    }

    /**
     * `get(key)`: absent when the key is missing or its entry has expired
     * (age at least the time-to-live), in which case the entry is purged;
     * otherwise the stored value, and nothing changes.
     */
    method Get(key: K, now: int) returns (r: Option<V>)
      requires Valid()
      modifies this
      ensures Valid()
      ensures r.Some? <==> old(Live(key, now))
      ensures r.Some? ==> r.value == old(entries)[key].value
      ensures old(Live(key, now)) || key !in old(entries) ==> entries == old(entries) && order == old(order)
      ensures key in old(entries) && !old(Live(key, now)) ==>
        entries == old(entries) - {key} && order == Without(old(order), key)
    {
      if key !in entries {
        return None;
      }
      var entry := entries[key];
      if now - entry.insertedAt >= ttl {
        EvictionShrinks(entries, key);
        WithoutDistinct(order, key);
        entries := entries - {key};
        order := Without(order, key);
        return None;
      }
      r := Some(entry.value);
    }

    /**
     * `set(key, value)`: the entry is stored with the current time and
     * becomes the newest. When the key is new and the store is full, the
     * oldest entry is evicted first, so the size bound is kept.
     */
    method Set(key: K, value: V, now: int)
      requires Valid()
      modifies this
      ensures Valid()
      ensures entries == AfterSet(old(entries), old(order), maxSize, key, Entry(value, now))
      ensures order == OrderAfterSet(old(entries), old(order), maxSize, key)
      ensures key in old(entries) || |old(entries)| < maxSize ==>
        && entries == old(entries)[key := Entry(value, now)]
        && order == Without(old(order), key) + [key]
      ensures key !in old(entries) && |old(entries)| >= maxSize ==>
        && |old(order)| > 0
        && entries == (old(entries) - {old(order)[0]})[key := Entry(value, now)]
        && order == old(order)[1..] + [key]
    {
      if key !in entries && |entries| >= maxSize {
        NonemptyOrder();
        var oldest := order[0];
        EvictionShrinks(entries, oldest);
        DistinctTail(order);
        entries := entries - {oldest};
        order := order[1..];
        WithoutAbsent(order, key);
      }
      MoveToBackDistinct(order, key);
      entries := entries[key := Entry(value, now)];
      order := Without(order, key) + [key];
    }

    /** A non-empty store has a non-empty insertion order. */
    lemma NonemptyOrder()
      requires Valid() && |entries| > 0
      ensures |order| > 0
    {
      if order == [] {
        assert false;
      }
    }
  }

  /** Removing a stored key makes the map one smaller. */
  lemma EvictionShrinks<K, V>(m: map<K, V>, k: K)
    requires k in m
    ensures |m - {k}| == |m| - 1
  {
    assert (m - {k}).Keys == m.Keys - {k};
    assert |m.Keys - {k}| == |m.Keys| - 1;
  }

  /** `set(k, v)` followed at once by `get(k)` returns `v`. */
  method SetThenGet<K(==,!new), V>(c: Cache<K, V>, k: K, v: V, now: int) returns (r: Option<V>)
    requires c.Valid() && c.ttl > 0
    modifies c
    ensures c.Valid() && r == Some(v)
  {
    c.Set(k, v, now);
    r := c.Get(k, now);
  }

  /** Once the time-to-live has elapsed the same lookup is a miss, and the entry is gone. */
  method ExpiresAfterTtl<K(==,!new), V>(c: Cache<K, V>, k: K, v: V, now: int, later: int) returns (r: Option<V>)
    requires c.Valid() && later >= now + c.ttl
    modifies c
    ensures c.Valid() && r == None && k !in c.entries
  {
    c.Set(k, v, now);
    r := c.Get(k, later);
  }
}
