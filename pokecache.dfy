/**
  The time-stamped key/value cache of internal/pokecache/cache.go.

  Wall-clock time is an explicit integer `now` handed to Add and Reap; the
  mutex and the ticker goroutine are not modelled, so Reap is an ordinary
  method that may be called at any time.
 */
module PokeCache {

  type byte = bv8

  /** One cached payload and the time it was stored. */
  datatype CacheEntry = CacheEntry(createdAt: int, val: seq<byte>)

  /** A sweep at time `now` deletes `e` exactly when its age is strictly
      greater than `interval`. */
  predicate Expired(e: CacheEntry, now: int, interval: int)
  {
    now - e.createdAt > interval
  }

  /** The entries a sweep at time `now` leaves in place. */
  function Survivors(entries: map<string, CacheEntry>, now: int, interval: int): (kept: map<string, CacheEntry>)
  {
    map k | k in entries && !Expired(entries[k], now, interval) :: entries[k]
  }

  class Cache {
    var entries: map<string, CacheEntry>
    const interval: int

    /** NewCache: an empty cache that remembers its sweep interval. */
    constructor (interval: int)
      ensures entries == map[]
      ensures this.interval == interval
    {
      entries := map[];
      this.interval := interval;
    }

    /** Inserts or overwrites the entry for `key`, stamped with `now`. */
    method Add(key: string, val: seq<byte>, now: int)
      modifies this
      ensures entries == old(entries)[key := CacheEntry(now, val)]
      ensures key in entries && entries[key].val == val && entries[key].createdAt == now
      ensures forall k :: k in old(entries) && k != key ==> k in entries && entries[k] == old(entries)[k]
      ensures forall k :: k in entries && k != key ==> k in old(entries)
    {
      entries := entries[key := CacheEntry(now, val)];
    }

    /** Looks `key` up whatever the age of its entry; an absent key gives the
        empty (nil) payload and false. Reads only. */
    method Get(key: string) returns (val: seq<byte>, found: bool)
      ensures found <==> key in entries
      ensures found ==> val == entries[key].val
      ensures !found ==> val == []
    {
      if key in entries {
        val, found := entries[key].val, true;
      } else {
        val, found := [], false;
      }
    }

    /** Deletes every entry older than `interval` at time `now`, visiting the
        keys in an arbitrary order as Go's map iteration does. */
    method Reap(now: int)
      modifies this
      ensures entries == Survivors(old(entries), now, interval)
    {
      ghost var before := entries;
      var pending := entries.Keys;
      while pending != {}
        invariant pending <= before.Keys
        invariant entries == map k | k in before && (k in pending || !Expired(before[k], now, interval)) :: before[k]
        decreases pending
      {
        var key :| key in pending;
        if Expired(entries[key], now, interval) {
          entries := entries - {key};
        }
        pending := pending - {key};
      }
    }
  }

  /** A sweep keeps exactly the entries whose age is at most `interval`,
      and does not touch the ones it keeps. */
  lemma ReapKeepsExactlyFresh(entries: map<string, CacheEntry>, now: int, interval: int, k: string)
    ensures k in Survivors(entries, now, interval) <==> k in entries && now - entries[k].createdAt <= interval
    ensures k in Survivors(entries, now, interval) ==> Survivors(entries, now, interval)[k] == entries[k]
  {
  }

  /** Sweeping twice at the same time removes nothing more. */
  lemma ReapIdempotent(entries: map<string, CacheEntry>, now: int, interval: int)
    ensures Survivors(Survivors(entries, now, interval), now, interval) == Survivors(entries, now, interval)
  {
  }

  /** A later sweep never keeps a key an earlier one removed. */
  lemma ReapMonotoneInTime(entries: map<string, CacheEntry>, now1: int, now2: int, interval: int)
    requires now1 <= now2
    ensures Survivors(entries, now2, interval).Keys <= Survivors(entries, now1, interval).Keys
  {
  }

  /** An entry stored at `t` is gone after any sweep later than `t + interval`. */
  lemma ReapRemovesStale(entries: map<string, CacheEntry>, k: string, now: int, interval: int)
    requires k in entries && now > entries[k].createdAt + interval
    ensures k !in Survivors(entries, now, interval)
  {
  }

  /** The ticker of reapLoop, started at time `start`, fires at
      `start + j * interval` for j = 1, 2, ...; taking each sweep's `now` to
      be its tick time, this is the first tick at which an entry stored at
      `t` is old enough to be removed. (reap reads the clock after the tick
      and the lock, so its `now` is at or after the tick; by
      ReapMonotoneInTime a later `now` only removes more.) */
  function FirstExpiringTick(start: int, t: int, interval: int): (j: int)
    requires interval > 0 && start <= t
  {
    (t - start) / interval + 2
  }

  /** Lifetime bound, with each sweep judged at its tick time: an entry
      stored at `t` (not overwritten meanwhile) survives every tick up to
      `t + interval` and is removed by the first tick after it, which comes
      no later than `t + 2 * interval`. */
  lemma {:induction false} SweepBound(start: int, t: int, interval: int)
    requires interval > 0 && start <= t
    ensures var j := FirstExpiringTick(start, t, interval);
      && j >= 2
      && t + interval < start + j * interval <= t + 2 * interval
      && start + (j - 1) * interval <= t + interval
  {
    var d := t - start;
    var q, r := d / interval, d % interval;
    assert d == q * interval + r && 0 <= r < interval;
    var j := q + 2;
    assert j * interval == q * interval + 2 * interval;
    assert (j - 1) * interval == q * interval + interval;
  }

  /** What the tick bound means for the cache, with each sweep judged at
      its tick time: the sweep at the first expiring tick removes the
      entry, and the one before it keeps it. */
  lemma {:induction false} SweepRemovesByTwoIntervals(entries: map<string, CacheEntry>, k: string, start: int, interval: int)
    requires interval > 0 && k in entries && start <= entries[k].createdAt
    ensures var t := entries[k].createdAt;
      var j := FirstExpiringTick(start, t, interval);
      && k !in Survivors(entries, start + j * interval, interval)
      && k in Survivors(entries, start + (j - 1) * interval, interval)
      && start + j * interval <= t + 2 * interval
  {
    SweepBound(start, entries[k].createdAt, interval);
  }
}
