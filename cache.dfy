/**
 * The `cache` memoiser: values produced for a key are kept in a key-value
 * store under `"ec2pricing:" + key`, stamped with the time they were
 * written, and served again while younger than the time to live.
 * `clear` deletes cache entries (all of them, or those a filter picks) and
 * `prune` deletes the expired ones. The store's other keys are never
 * touched. The clock is a parameter: `now` is the time of the lookup and
 * `doneAt` the time the producer's result arrives.
 */
module TtlCache {
  import opened Wrappers
  import opened Text

  /** The namespace of the cache's keys in the shared store. */
  const Prefix: string := "ec2pricing:"

  /** The time to live of an entry, in milliseconds: 30 minutes. */
  const Ttl: int := 1800000

  /** What a cache key holds: `{time, value}`. */
  datatype Entry<V> = Entry(time: int, value: V)

  type Store<V> = map<string, Entry<V>>

  /** `value && value.time || 0`: a missing entry, like one written at time 0, counts as written at 0. */
  function WrittenAt<V>(store: Store<V>, cacheKey: string): (t: int)
    ensures cacheKey !in store ==> t == 0
    ensures cacheKey in store ==> t == store[cacheKey].time
  {
    if cacheKey in store then store[cacheKey].time else 0
  }

  /** The entry under `cacheKey` is younger than the time to live; a missing one never is once the clock has passed `Ttl`. */
  function Fresh<V>(store: Store<V>, cacheKey: string, now: int): (b: bool)
    ensures cacheKey !in store ==> (b <==> now < Ttl)
    ensures cacheKey in store ==> (b <==> now - store[cacheKey].time < Ttl)
  {
    now - WrittenAt(store, cacheKey) < Ttl
  }

  /**
   * The TypeError `value.value` raises when a missing entry counts as fresh,
   * which happens only while the clock has not yet passed `Ttl`.
   */
  datatype CacheFailure = MissingEntry(cacheKey: string)

  /** The store after a lookup: unchanged on a hit and on a failed production; otherwise the produced value stamped with `doneAt`. */
  function AfterGet<V>(store: Store<V>, key: string, now: int, doneAt: int, produced: Option<V>): (s: Store<V>)
    ensures Fresh(store, Prefix + key, now) ==> s == store
    ensures !Fresh(store, Prefix + key, now) && produced.None? ==> s == store
    ensures !Fresh(store, Prefix + key, now) && produced.Some? ==>
      Prefix + key in s && s[Prefix + key] == Entry(doneAt, produced.value)
    ensures s.Keys <= store.Keys + {Prefix + key}
    ensures forall k :: k in store && k != Prefix + key ==> k in s && s[k] == store[k]
  {
    if Fresh(store, Prefix + key, now) || produced.None? then store
    else store[Prefix + key := Entry(doneAt, produced.value)]
  }

  /**
   * What a lookup answers: the cached value on a hit, the producer's outcome
   * (`None` when it fails) otherwise, and a TypeError for a missing entry
   * that counts as fresh. Once the clock has passed `Ttl` nothing throws.
   */
  function Answer<V>(store: Store<V>, key: string, now: int, produced: Option<V>): (r: Result<Option<V>, CacheFailure>)
    ensures Fresh(store, Prefix + key, now) && Prefix + key in store ==> r == Ok(Some(store[Prefix + key].value))
    ensures Fresh(store, Prefix + key, now) && Prefix + key !in store ==> r == Err(MissingEntry(Prefix + key))
    ensures !Fresh(store, Prefix + key, now) ==> r == Ok(produced)
    ensures now >= Ttl ==> r.Ok?
  {
    if !Fresh(store, Prefix + key, now) then Ok(produced)
    else if Prefix + key in store then Ok(Some(store[Prefix + key].value))
    else Err(MissingEntry(Prefix + key))
  }

  /** Whether `clear(filter)` deletes the key `k` holding `e`: a cache key the filter accepts, or any cache key when there is no filter. */
  function Doomed<V>(k: string, e: Entry<V>, filter: Option<(string, V, int) -> bool>): (b: bool)
    ensures !StartsWith(k, Prefix) ==> !b
    ensures StartsWith(k, Prefix) && filter.None? ==> b
    ensures StartsWith(k, Prefix) && filter.Some? ==> (b <==> filter.value(k[|Prefix|..], e.value, e.time))
  {
    StartsWith(k, Prefix) && (filter.None? || filter.value(k[|Prefix|..], e.value, e.time))
  }

  /**
   * The store after `clear(filter)`. Keys outside the namespace are kept
   * with their entries; without a filter no cache key is left; with one, a
   * cache key stays exactly when the filter rejects its unprefixed key,
   * value and time.
   */
  function Cleared<V>(store: Store<V>, filter: Option<(string, V, int) -> bool>): (s: Store<V>)
    ensures forall k :: k in s ==> k in store && s[k] == store[k]
    ensures forall k :: k in store && !StartsWith(k, Prefix) ==> k in s
    ensures filter.None? ==> forall k :: k in s ==> !StartsWith(k, Prefix)
    ensures filter.Some? ==> forall k :: k in store && StartsWith(k, Prefix) ==>
      (k in s <==> !filter.value(k[|Prefix|..], store[k].value, store[k].time))
  {
    map k | k in store && !Doomed(k, store[k], filter) :: store[k]
  }

  /** `prune`'s filter: the entry is at least `Ttl` old at `now`. */
  function StaleAt<V>(now: int): (string, V, int) -> bool
  {
    (key: string, value: V, writeTime: int) => now - writeTime >= Ttl
  }

  /** `prune`'s filter accepts an entry exactly when its age at `now` has reached `Ttl`, whatever its key and value. */
  lemma StaleAtAge<V>(now: int, key: string, value: V, writeTime: int)
    ensures StaleAt(now)(key, value, writeTime) <==> now - writeTime >= Ttl
  {
  }

  /** The store after `prune`: exactly the cache entries at least `Ttl` old are gone. */
  function Pruned<V>(store: Store<V>, now: int): (s: Store<V>)
    ensures forall k :: k in s <==> k in store && !(StartsWith(k, Prefix) && now - store[k].time >= Ttl)
    ensures forall k :: k in s ==> s[k] == store[k]
  {
    Cleared(store, Some(StaleAt(now)))
  }

  /** A value stored by a lookup is served by every later lookup of the same key within the time to live, without the producer. */
  lemma GetThenHit<V>(store: Store<V>, key: string, now: int, doneAt: int, v: V, later: int, produced: Option<V>)
    requires !Fresh(store, Prefix + key, now)
    requires later - doneAt < Ttl
    ensures var s := AfterGet(store, key, now, doneAt, Some(v));
      && Fresh(s, Prefix + key, later)
      && Answer(s, key, later, produced) == Ok(Some(v))
      && AfterGet(s, key, later, later, produced) == s
  {
    var s := AfterGet(store, key, now, doneAt, Some(v));
    assert WrittenAt(s, Prefix + key) == doneAt;
  }

  /** Once the time to live has passed since the write, the next lookup misses and stores the producer's new value. */
  lemma ExpiredRefreshes<V>(store: Store<V>, key: string, now: int, doneAt: int, v: V)
    requires Prefix + key in store && now - store[Prefix + key].time >= Ttl
    ensures !Fresh(store, Prefix + key, now)
    ensures AfterGet(store, key, now, doneAt, Some(v))[Prefix + key] == Entry(doneAt, v)
  {
  }

  /** Once the clock has passed `Ttl`, pruning never changes what a lookup at the same time answers, nor whether it calls the producer. */
  lemma PruneKeepsLookups<V>(store: Store<V>, key: string, now: int, produced: Option<V>)
    requires now >= Ttl
    ensures Fresh(Pruned(store, now), Prefix + key, now) <==> Fresh(store, Prefix + key, now)
    ensures Answer(Pruned(store, now), key, now, produced) == Answer(store, key, now, produced)
  {
    var k := Prefix + key;
    assert StartsWith(k, Prefix) by {
      assert k[..|Prefix|] == Prefix;
    }
    assert k[|Prefix|..] == key;
  }

  /** After `prune` every cache entry left is fresh. */
  lemma PrunedAllFresh<V>(store: Store<V>, now: int, key: string)
    requires Prefix + key in Pruned(store, now)
    ensures Fresh(Pruned(store, now), Prefix + key, now)
  {
    var k := Prefix + key;
    assert StartsWith(k, Prefix) by {
      assert k[..|Prefix|] == Prefix;
    }
  }

  /** The shared key-value store, as the cache sees it. */
  class Cache<V> {
    var store: Store<V>

    constructor(initial: Store<V>)
      ensures store == initial
    {
      store := initial;
    }

    /**
     * `cache(key, producer)`: a fresh entry answers without the producer;
     * otherwise the producer runs, and its value, when it delivers one, is
     * stored under the prefixed key with the time it arrived. A missing entry
     * counts as written at time 0, so before the clock passes `Ttl` it is
     * "fresh" and reading its value throws.
     */
    method Get(key: string, now: int, doneAt: int, produced: Option<V>) returns (r: Result<Option<V>, CacheFailure>, invoked: bool)
      modifies this
      ensures invoked <==> !Fresh(old(store), Prefix + key, now)
      ensures r == Answer(old(store), key, now, produced)
      ensures store == AfterGet(old(store), key, now, doneAt, produced)
    {
      var cacheKey := Prefix + key;
      var age := now - WrittenAt(store, cacheKey);
      if age < Ttl {
        invoked := false;
        if cacheKey in store {
          r := Ok(Some(store[cacheKey].value));
        } else {
          r := Err(MissingEntry(cacheKey));
        }
      } else {
        invoked := true;
        r := Ok(produced);
        if produced.Some? {
          store := store[cacheKey := Entry(doneAt, produced.value)];
        }
      }
    }

    /** `cache.clear(filter)`: walks the store and deletes each cache key the filter accepts (all of them without a filter). */
    method Clear(filter: Option<(string, V, int) -> bool>)
      modifies this
      ensures store == Cleared(old(store), filter)
    {
      var before := store;
      var pending := store.Keys;
      while pending != {}
        invariant pending <= before.Keys
        invariant store == map k | k in before && !(k !in pending && Doomed(k, before[k], filter)) :: before[k]
        decreases pending
      {
        var key :| key in pending;
        if StartsWith(key, Prefix) {
          var unprefixedKey := key[|Prefix|..];
          var entry := store[key];
          if filter.None? || filter.value(unprefixedKey, entry.value, entry.time) {
            store := map k | k in store && k != key :: store[k];
          }
        }
        pending := pending - {key};
      }
    }

    /** `cache.prune()`: clears the entries at least `Ttl` old at `now`. */
    method Prune(now: int)
      modifies this
      ensures store == Pruned(old(store), now)
    {
      Clear(Some(StaleAt(now)));
    }
  }
}
