/**
 * The process-wide read cache of src/lib/data-cache.ts (`DataCache`): entries
 * with a five-minute lifetime, at most one hundred of them, evicting the one
 * with the oldest timestamp, plus a table of in-flight fetches shared by
 * concurrent readers of the same key. The clock is a parameter `now`.
 */
module Cache {
  import opened Wrappers
  import opened Json
  import opened Text

  /** `CACHE_DURATION`: five minutes, in milliseconds. */
  const CACHE_DURATION: int := 5 * 60 * 1000

  /** `MAX_CACHE_SIZE`. */
  const MAX_CACHE_SIZE: nat := 100

  /** `Number.MAX_SAFE_INTEGER`, where the eviction scan starts. */
  const MAX_SAFE_INTEGER: int := 9007199254740991

  datatype Entry = Entry(data: Value, timestamp: int, expiry: int)

  /** The identity of an in-flight fetch: the Promise object in the source. */
  type Token = nat

  predicate Distinct(s: seq<string>) {
    forall i, j :: 0 <= i < j < |s| ==> s[i] != s[j]
  }

  /** The keys of `s` in the same order, with `k` taken out. */
  function Without(s: seq<string>, k: string): seq<string> {
    if s == [] then []
    else if s[0] == k then Without(s[1..], k)
    else [s[0]] + Without(s[1..], k)
  }

  lemma {:induction false} WithoutFacts(s: seq<string>, k: string)
    ensures forall x :: x in Without(s, k) <==> x in s && x != k
    ensures k !in s ==> Without(s, k) == s
    ensures Distinct(s) ==> Distinct(Without(s, k))
    ensures Distinct(s) && k in s ==> |Without(s, k)| == |s| - 1
  {
    if s != [] {
      WithoutFacts(s[1..], k);
      var rest := Without(s[1..], k);
      assert Distinct(s) ==> Distinct(s[1..]) && s[0] !in rest;
      assert Distinct(s) ==> forall i, j :: 0 < i < j < |s| ==> s[i] != s[j];
    }
  }

  lemma {:induction false} WithoutSplit(a: seq<string>, x: string, b: seq<string>)
    requires x !in a && x !in b
    ensures Without(a + [x] + b, x) == a + b
  {
    if a == [] {
      WithoutFacts(b, x);
      assert a + [x] + b == [x] + b;
      assert ([x] + b)[1..] == b;
    } else {
      assert (a + [x] + b)[1..] == a[1..] + [x] + b;
      WithoutSplit(a[1..], x, b);
      assert a + b == [a[0]] + (a[1..] + b);
    }
  }

  /**
   * The index the eviction scan settles on: the first key, in insertion
   * order, whose entry has the smallest timestamp (the scan compares with a
   * strict `<`).
   */
  function FirstMinIndex(order: seq<string>, entries: map<string, Entry>): (i: nat)
    requires |order| > 0
    requires forall k :: k in order ==> k in entries
    ensures i < |order|
    ensures forall j :: 0 <= j < |order| ==> entries[order[i]].timestamp <= entries[order[j]].timestamp
    ensures forall j :: 0 <= j < i ==> entries[order[j]].timestamp > entries[order[i]].timestamp
  {
    if |order| == 1 then 0
    else
      var prefix := order[..|order| - 1];
      assert forall k :: k in prefix ==> k in order;
      var best := FirstMinIndex(prefix, entries);
      assert order[best] == prefix[best];
      if entries[order[|order| - 1]].timestamp < entries[order[best]].timestamp then |order| - 1 else best
  }

  /** One more key in the scan: it wins only with a strictly smaller timestamp. */
  lemma FirstMinStep(order: seq<string>, entries: map<string, Entry>, i: nat)
    requires 0 < i < |order|
    requires forall k :: k in order ==> k in entries
    ensures forall k :: k in order[..i] ==> k in entries
    ensures FirstMinIndex(order[..i + 1], entries) ==
      var best := FirstMinIndex(order[..i], entries);
      if entries[order[i]].timestamp < entries[order[best]].timestamp then i else best
  {
    assert order[..i + 1][..i] == order[..i];
    assert forall k :: k in order[..i] ==> k in order;
  }

  /** The key `set` evicts before inserting: none unless the cache is full. */
  ghost function Victim(entries: map<string, Entry>, order: seq<string>): Option<string>
    requires forall k :: k in order ==> k in entries
  {
    if |entries| >= MAX_CACHE_SIZE && |order| > 0 then Some(order[FirstMinIndex(order, entries)]) else None
  }

  ghost function Evicted(entries: map<string, Entry>, order: seq<string>): map<string, Entry>
    requires forall k :: k in order ==> k in entries
  {
    var v := Victim(entries, order);
    if v.Some? then entries - {v.value} else entries
  }

  ghost function EvictedOrder(entries: map<string, Entry>, order: seq<string>): seq<string>
    requires forall k :: k in order ==> k in entries
  {
    var v := Victim(entries, order);
    if v.Some? then Without(order, v.value) else order
  }

  /** A JavaScript `Map` keeps a re-set key where it was and appends a new one. */
  function Appended(order: seq<string>, key: string): seq<string> {
    if key in order then order else order + [key]
  }

  /**
   * The eviction step as the source writes it: `if (oldestKey)` treats the
   * empty-string key as "nothing found", so that key is never evicted.
   */
  ghost function EvictedAsWritten(entries: map<string, Entry>, order: seq<string>): map<string, Entry>
    requires forall k :: k in order ==> k in entries
  {
    var v := Victim(entries, order);
    if v.Some? && v.value != "" then entries - {v.value} else entries
  }

  /**
   * As written, a full cache whose oldest entry has the empty key grows past
   * MAX_CACHE_SIZE when a new key is set.
   */
  lemma AsWrittenSetOverflows(entries: map<string, Entry>, order: seq<string>, key: string, e: Entry)
    requires forall k :: k in entries <==> k in order
    requires |order| == |entries| == MAX_CACHE_SIZE
    requires order[FirstMinIndex(order, entries)] == ""
    requires key !in entries
    ensures |EvictedAsWritten(entries, order)[key := e]| == MAX_CACHE_SIZE + 1
  {
    assert EvictedAsWritten(entries, order) == entries;
    assert entries[key := e].Keys == entries.Keys + {key};
  }

  class DataCache {
    /** `cache`: the entries by key. */
    var entries: map<string, Entry>
    /** The iteration order of the `cache` Map: keys in insertion order. */
    var order: seq<string>
    /** `pendingRequests`: the in-flight fetch of each key. */
    var pending: map<string, Token>

    ghost predicate Valid()
      reads this
    {
      && Distinct(order)
      && (forall k :: k in entries <==> k in order)
      && |order| == |entries|
      && |entries| <= MAX_CACHE_SIZE
      && (forall k :: k in entries ==> entries[k].timestamp < MAX_SAFE_INTEGER)
    }

    constructor ()
      ensures Valid()
      ensures entries == map[] && order == [] && pending == map[]
    {
      entries := map[];
      order := [];
      pending := map[];
    }

    /** `clear(key)`. */
    method Clear(key: string)
      requires Valid()
      modifies this`entries, this`order
      ensures Valid()
      ensures entries == old(entries) - {key}
      ensures order == Without(old(order), key)
    {
      WithoutFacts(order, key);
      if key in entries {
        assert (entries - {key}).Keys == entries.Keys - {key};
      }
      entries := entries - {key};
      order := Without(order, key);
    }

    /** `get(key)`: the data of a live entry; an expired entry is deleted. */
    method Get(key: string, now: int) returns (r: Option<Value>)
      requires Valid()
      modifies this`entries, this`order
      ensures Valid()
      ensures r.Some? <==> key in old(entries) && now <= old(entries)[key].expiry
      ensures r.Some? ==> r.value == old(entries)[key].data
      ensures key in old(entries) && now > old(entries)[key].expiry ==>
                entries == old(entries) - {key} && order == Without(old(order), key)
      ensures !(key in old(entries) && now > old(entries)[key].expiry) ==>
                entries == old(entries) && order == old(order)
    {
      if key !in entries {
        return None;
      }
      var entry := entries[key];
      if now > entry.expiry {
        Clear(key);
        return None;
      }
      return Some(entry.data);
    }

    /** `isExpired(key)`: absent or past its expiry. */
    predicate IsExpired(key: string, now: int): (expired: bool)
      reads this
      ensures !expired ==> key in entries && now <= entries[key].expiry
      ensures key in entries && now > entries[key].expiry ==> expired
      ensures key in entries && now <= entries[key].expiry ==> !expired
    {
      key !in entries || now > entries[key].expiry
    }

    /** An entry that has expired stays expired as the clock moves on. */
    lemma ExpiryIsFinal(key: string, now: int, later: int)
      requires now <= later && IsExpired(key, now)
      ensures IsExpired(key, later)
    {
    }

    /** `clearAll()`. */
    method ClearAll()
      modifies this
      ensures Valid()
      ensures entries == map[] && order == [] && pending == map[]
    {
      entries := map[];
      order := [];
      pending := map[];
    }

    /** `isFetching(key)`. */
    predicate IsFetching(key: string)
      reads this
    {
      key in pending
    }

    /** `getPending(key)`. */
    function GetPending(key: string): (r: Option<Token>)
      reads this
      ensures r.Some? <==> IsFetching(key)
    {
      if key in pending then Some(pending[key]) else None
    }

    /** `setPending(key, promise)`. */
    method SetPending(key: string, t: Token)
      modifies this`pending
      ensures pending == old(pending)[key := t]
    {
      pending := pending[key := t];
    }

    /** `clearPending(key)`: what the `.finally` of a settled fetch runs. */
    method ClearPending(key: string)
      modifies this`pending
      ensures pending == old(pending) - {key}
    {
      pending := pending - {key};
    }

    /**
     * `getOrCreatePendingRequest(key, createPromise)`: while a fetch for `key`
     * is in flight it is shared and the factory is not called (`created` is
     * false); otherwise the factory's promise `promise` is recorded.
     */
    method GetOrCreatePendingRequest(key: string, promise: Token) returns (t: Token, created: bool)
      modifies this`pending
      ensures created <==> key !in old(pending)
      ensures !created ==> t == old(pending)[key] && pending == old(pending)
      ensures created ==> t == promise && pending == old(pending)[key := promise]
    {
      var existing := GetPending(key);
      if existing.Some? {
        return existing.value, false;
      }
      SetPending(key, promise);
      return promise, true;
    }

    /** `getCacheKeys()`: every cached key once, in insertion order. */
    function GetCacheKeys(): (keys: seq<string>)
      reads this
      requires Valid()
      ensures Distinct(keys)
      ensures forall k :: k in keys <==> k in entries
    {
      order
    }

    /**
     * The scan of `set` for the entry to evict, as the source runs it: from
     * `MAX_SAFE_INTEGER` down, keeping a key only when its timestamp is
     * strictly smaller than the best so far.
     */
    method OldestKey() returns (oldest: Option<string>)
      requires Valid()
      ensures oldest.None? <==> order == []
      ensures oldest.Some? ==> oldest.value == order[FirstMinIndex(order, entries)]
    {
      oldest := None;
      var oldestTime := MAX_SAFE_INTEGER;
      for i := 0 to |order|
        invariant forall k :: k in order[..i] ==> k in entries
        invariant i == 0 ==> oldest == None && oldestTime == MAX_SAFE_INTEGER
        invariant i > 0 ==> oldest == Some(order[FirstMinIndex(order[..i], entries)])
        invariant i > 0 ==> oldestTime == entries[oldest.value].timestamp
      {
        var key := order[i];
        var entry := entries[key];
        if i > 0 {
          FirstMinStep(order, entries, i);
        }
        if entry.timestamp < oldestTime {
          oldestTime := entry.timestamp;
          oldest := Some(key);
        }
      }
      assert order[..|order|] == order;
    }

    /** The first half of `set`: when the cache is full, drop the oldest entry. */
    method EvictIfFull()
      requires Valid()
      modifies this`entries, this`order
      ensures Valid()
      ensures |entries| < MAX_CACHE_SIZE
      ensures entries == Evicted(old(entries), old(order))
      ensures order == EvictedOrder(old(entries), old(order))
    {
      if |entries| >= MAX_CACHE_SIZE {
        var oldest := OldestKey();
        Clear(oldest.value);
      }
    }

    /**
     * `set(key, data)`: when the cache is full the entry with the smallest
     * timestamp goes first; the new entry is stamped `now` and expires
     * CACHE_DURATION later, and the cache never holds more than
     * MAX_CACHE_SIZE entries.
     */
    method Set(key: string, data: Value, now: int)
      requires Valid()
      requires now < MAX_SAFE_INTEGER
      modifies this`entries, this`order
      ensures Valid()
      ensures entries == Evicted(old(entries), old(order))[key := Entry(data, now, now + CACHE_DURATION)]
      ensures order == Appended(EvictedOrder(old(entries), old(order)), key)
      ensures forall t :: now <= t <= now + CACHE_DURATION ==> !IsExpired(key, t)
      ensures IsExpired(key, now + CACHE_DURATION + 1)
    {
      EvictIfFull();
      Insert(key, Entry(data, now, now + CACHE_DURATION));
    }

    /** The second half of `set`: `this.cache.set(key, entry)` on a cache with room. */
    method Insert(key: string, entry: Entry)
      requires Valid()
      requires |entries| < MAX_CACHE_SIZE
      requires entry.timestamp < MAX_SAFE_INTEGER
      modifies this`entries, this`order
      ensures Valid()
      ensures entries == old(entries)[key := entry]
      ensures order == Appended(old(order), key)
    {
      if key !in entries {
        assert entries[key := entry].Keys == entries.Keys + {key};
        assert forall i :: 0 <= i < |order| ==> order[i] in entries;
        order := order + [key];
      }
      entries := entries[key := entry];
    }
  }
}
