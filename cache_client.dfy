/**
 * How src/lib/data-cache.ts uses its cache: the cache keys, the
 * cache-or-fetch decision of the `fetch*` functions, and the invalidation
 * helpers `invalidateCache`, `invalidateUserCache` and `clearUserCache`.
 */
module CacheClient {
  import opened Wrappers
  import opened Json
  import opened Text
  import opened Cache

  function UserKey(uid: string): string { "user:" + uid }
  function WalletKey(uid: string): string { "wallet:" + uid }
  function TransactionsKey(uid: string): string { "transactions:" + uid }
  function WorksKey(uid: string): string { "works:" + uid }
  function WorkKey(uid: string, campaignId: string): string { "works:" + uid + ":" + campaignId }
  function CampaignKey(campaignId: string): string { "campaign:" + campaignId }
  const CampaignsAllKey: string := "campaigns:all"
  const AdminDataKey: string := "admin:data"

  /** The outcome of the first half of a `fetch*` call. */
  datatype FetchStep =
    | Hit(data: Value)        // served from the cache
    | Joined(token: Token)    // shares a fetch already in flight
    | Started(token: Token)   // the factory ran and its fetch is now in flight

  /**
   * `cached && !dataCache.isExpired(cacheKey)`: the cache serves only a
   * truthy value of a live entry.
   */
  predicate IsCacheHit(cached: Option<Value>, expired: bool) {
    cached.Some? && Truthy(cached.value) && !expired
  }

  /**
   * The first half of every `fetch*` function: a live truthy entry is served;
   * otherwise the caller joins the fetch in flight for the key, or starts
   * `promise` when there is none. An expired entry is dropped on the way.
   */
  method FetchThrough(c: DataCache, key: string, now: int, promise: Token) returns (r: FetchStep)
    requires c.Valid()
    modifies c`entries, c`order, c`pending
    ensures c.Valid()
    ensures r.Hit? <==> key in old(c.entries) && now <= old(c.entries)[key].expiry && Truthy(old(c.entries)[key].data)
    ensures r.Hit? ==> r.data == old(c.entries)[key].data && c.pending == old(c.pending)
    ensures r.Joined? <==> !r.Hit? && key in old(c.pending)
    ensures r.Joined? ==> r.token == old(c.pending)[key] && c.pending == old(c.pending)
    ensures r.Started? ==> r.token == promise && c.pending == old(c.pending)[key := promise]
    ensures key in old(c.entries) && now > old(c.entries)[key].expiry ==>
              c.entries == old(c.entries) - {key} && c.order == Without(old(c.order), key)
    ensures !(key in old(c.entries) && now > old(c.entries)[key].expiry) ==>
              c.entries == old(c.entries) && c.order == old(c.order)
  {
    var cached := c.Get(key, now);
    var expired := c.IsExpired(key, now);
    if IsCacheHit(cached, expired) {
      return Hit(cached.value);
    }
    var t, created := c.GetOrCreatePendingRequest(key, promise);
    if created {
      return Started(t);
    }
    return Joined(t);
  }

  /** The four per-user reads: `fetchUserData`, `fetchWalletData`, `fetchTransactions`, `fetchWorks`. */
  datatype UserRead = UserData | WalletData | TransactionsData | WorksData

  function UserReadKey(read: UserRead, uid: string): string {
    match read
    case UserData => UserKey(uid)
    case WalletData => WalletKey(uid)
    case TransactionsData => TransactionsKey(uid)
    case WorksData => WorksKey(uid)
  }

  const InvalidUserId := "Invalid user ID provided"

  /**
   * The per-user `fetch*` functions: an empty uid is refused before the
   * cache is looked at; any other goes through FetchThrough under its key.
   */
  method FetchForUser(c: DataCache, read: UserRead, uid: string, now: int, promise: Token) returns (r: Result<FetchStep>)
    requires c.Valid()
    modifies c`entries, c`order, c`pending
    ensures c.Valid()
    ensures r.Err? <==> uid == ""
    ensures r.Err? ==>
      r.message == InvalidUserId && c.entries == old(c.entries) && c.order == old(c.order) && c.pending == old(c.pending)
    ensures r.Ok? ==> var key := UserReadKey(read, uid);
      && (r.value.Hit? <==> key in old(c.entries) && now <= old(c.entries)[key].expiry && Truthy(old(c.entries)[key].data))
      && (r.value.Hit? ==> r.value.data == old(c.entries)[key].data && c.pending == old(c.pending))
      && (r.value.Joined? <==> !r.value.Hit? && key in old(c.pending))
      && (r.value.Joined? ==> r.value.token == old(c.pending)[key] && c.pending == old(c.pending))
      && (r.value.Started? ==> r.value.token == promise && c.pending == old(c.pending)[key := promise])
      && (key in old(c.entries) && now > old(c.entries)[key].expiry ==>
            c.entries == old(c.entries) - {key} && c.order == Without(old(c.order), key))
      && (!(key in old(c.entries) && now > old(c.entries)[key].expiry) ==>
            c.entries == old(c.entries) && c.order == old(c.order))
  {
    if uid == "" {
      return Err(InvalidUserId);
    }
    var step := FetchThrough(c, UserReadKey(read, uid), now, promise);
    return Ok(step);
  }

  /**
   * The settling of a fetch started by FetchThrough: a store value that
   * exists and is truthy is cached and returned, anything else yields
   * `fallback` uncached; then the in-flight record is removed (`.finally`).
   */
  method SettleFetch(c: DataCache, key: string, fetched: Option<Value>, fallback: Value, now: int) returns (v: Value)
    requires c.Valid()
    requires now < MAX_SAFE_INTEGER
    modifies c`entries, c`order, c`pending
    ensures c.Valid()
    ensures v == if fetched.Some? && Truthy(fetched.value) then fetched.value else fallback
    ensures fetched.Some? && Truthy(fetched.value) ==>
              && c.entries == Evicted(old(c.entries), old(c.order))[key := Entry(v, now, now + CACHE_DURATION)]
              && c.order == Appended(EvictedOrder(old(c.entries), old(c.order)), key)
    ensures !(fetched.Some? && Truthy(fetched.value)) ==> c.entries == old(c.entries) && c.order == old(c.order)
    ensures c.pending == old(c.pending) - {key}
  {
    if fetched.Some? && Truthy(fetched.value) {
      c.Set(key, fetched.value, now);
      v := fetched.value;
    } else {
      v := fallback;
    }
    c.ClearPending(key);
  }

  /** Two reads of the same uncached key, before the first settles, make one fetch. */
  method TwoReadersOneFetch(c: DataCache, key: string, now: int, first: Token, second: Token)
    returns (r1: FetchStep, r2: FetchStep)
    requires c.Valid()
    requires key !in c.entries && key !in c.pending
    modifies c`entries, c`order, c`pending
    ensures r1 == Started(first)
    ensures r2 == Joined(first)
  {
    r1 := FetchThrough(c, key, now, first);
    r2 := FetchThrough(c, key, now, second);
  }

  /** The keys of `s`, in order, that do not contain `pattern`. */
  function KeepUnmatched(s: seq<string>, pattern: string): (r: seq<string>)
    ensures forall k :: k in r <==> k in s && !Contains(k, pattern)
    ensures Distinct(s) ==> Distinct(r)
  {
    if s == [] then []
    else
      var rest := KeepUnmatched(s[..|s| - 1], pattern);
      var last := s[|s| - 1];
      assert forall k :: k in s[..|s| - 1] ==> k in s;
      assert Distinct(s) ==> Distinct(s[..|s| - 1]) && last !in s[..|s| - 1];
      if Contains(last, pattern) then rest else rest + [last]
  }

  /** The entries whose key does not contain `pattern`. */
  function Unmatched(entries: map<string, Entry>, pattern: string): (r: map<string, Entry>)
  {
    map k | k in entries && !Contains(k, pattern) :: entries[k]
  }

  lemma KeepUnmatchedStep(keys: seq<string>, i: nat, pattern: string)
    requires i < |keys|
    ensures KeepUnmatched(keys[..i + 1], pattern) ==
      KeepUnmatched(keys[..i], pattern) + (if Contains(keys[i], pattern) then [] else [keys[i]])
  {
    assert keys[..i + 1][..i] == keys[..i];
  }

  /** In a list without repeats, the `i`-th key occurs neither before nor after `i`. */
  lemma DistinctAt(keys: seq<string>, i: nat)
    requires i < |keys| && Distinct(keys)
    ensures keys[i] !in keys[..i] && keys[i] !in keys[i + 1..]
  {
    var after := keys[i + 1..];
    forall j | 0 <= j < |after| ensures after[j] != keys[i] {
      assert after[j] == keys[i + 1 + j];
    }
  }

  /** An iteration of the invalidation loop that clears the `i`-th key takes it out of the cache's order. */
  lemma InvalidateStepClears(keys: seq<string>, i: nat, pattern: string)
    requires i < |keys| && Distinct(keys) && Contains(keys[i], pattern)
    ensures Without(KeepUnmatched(keys[..i], pattern) + keys[i..], keys[i]) == KeepUnmatched(keys[..i + 1], pattern) + keys[i + 1..]
  {
    var done := KeepUnmatched(keys[..i], pattern);
    var rest := keys[i + 1..];
    KeepUnmatchedStep(keys, i, pattern);
    assert KeepUnmatched(keys[..i + 1], pattern) == done;
    DistinctAt(keys, i);
    assert keys[i] !in done;
    WithoutSplit(done, keys[i], rest);
    assert done + keys[i..] == done + [keys[i]] + rest;
  }

  /** An iteration of the invalidation loop that keeps the `i`-th key leaves the cache's order as it is. */
  lemma InvalidateStepKeeps(keys: seq<string>, i: nat, pattern: string)
    requires i < |keys| && !Contains(keys[i], pattern)
    ensures KeepUnmatched(keys[..i], pattern) + keys[i..] == KeepUnmatched(keys[..i + 1], pattern) + keys[i + 1..]
  {
    var done := KeepUnmatched(keys[..i], pattern);
    KeepUnmatchedStep(keys, i, pattern);
    assert KeepUnmatched(keys[..i + 1], pattern) == done + [keys[i]];
    assert keys[i..] == [keys[i]] + keys[i + 1..];
    assert done + keys[i..] == (done + [keys[i]]) + keys[i + 1..];
  }

  /** The body of the invalidation loop for the `i`-th key of the snapshot `keys`. */
  method ClearIfMatches(c: DataCache, keys: seq<string>, i: nat, pattern: string, ghost e0: map<string, Entry>)
    requires i < |keys| && Distinct(keys)
    requires c.Valid()
    requires c.order == KeepUnmatched(keys[..i], pattern) + keys[i..]
    requires forall k :: k in c.entries ==> k in e0 && c.entries[k] == e0[k]
    modifies c`entries, c`order
    ensures c.Valid()
    ensures c.order == KeepUnmatched(keys[..i + 1], pattern) + keys[i + 1..]
    ensures forall k :: k in c.entries ==> k in e0 && c.entries[k] == e0[k]
  {
    if Contains(keys[i], pattern) {
      InvalidateStepClears(keys, i, pattern);
      c.Clear(keys[i]);
    } else {
      InvalidateStepKeeps(keys, i, pattern);
    }
  }

  lemma LoopDone(keys: seq<string>, pattern: string)
    ensures KeepUnmatched(keys[..|keys|], pattern) + keys[|keys|..] == KeepUnmatched(keys, pattern)
  {
    assert keys[..|keys|] == keys;
  }

  /** `invalidateCache(keyPattern)`: clears every cached key that includes the pattern. */
  method InvalidateCache(c: DataCache, pattern: string)
    requires c.Valid()
    modifies c`entries, c`order
    ensures c.Valid()
    ensures c.entries == Unmatched(old(c.entries), pattern)
    ensures c.order == KeepUnmatched(old(c.order), pattern)
  {
    var keys := c.GetCacheKeys();
    ghost var e0 := c.entries;
    for i := 0 to |keys|
      invariant c.Valid()
      invariant c.order == KeepUnmatched(keys[..i], pattern) + keys[i..]
      invariant forall k :: k in c.entries ==> k in e0 && c.entries[k] == e0[k]
    {
      ClearIfMatches(c, keys, i, pattern, e0);
    }
    LoopDone(keys, pattern);
    SurvivorsAreUnmatched(c.entries, e0, keys, pattern);
  }

  lemma SurvivorsAreUnmatched(e: map<string, Entry>, e0: map<string, Entry>, keys: seq<string>, pattern: string)
    requires forall k :: k in keys <==> k in e0
    requires forall k :: k in e <==> k in KeepUnmatched(keys, pattern)
    requires forall k :: k in e ==> e[k] == e0[k]
    ensures e == Unmatched(e0, pattern)
  {
  }

  /** `invalidateUserCache(uid)`: the four user prefixes, each as a substring pattern. */
  method InvalidateUserCache(c: DataCache, uid: string)
    requires c.Valid()
    modifies c`entries, c`order
    ensures c.Valid()
    ensures c.entries == Unmatched(Unmatched(Unmatched(Unmatched(old(c.entries),
                UserKey(uid)), WalletKey(uid)), TransactionsKey(uid)), WorksKey(uid))
    ensures c.order == KeepUnmatched(KeepUnmatched(KeepUnmatched(KeepUnmatched(old(c.order),
                UserKey(uid)), WalletKey(uid)), TransactionsKey(uid)), WorksKey(uid))
  {
    InvalidateCache(c, UserKey(uid));
    InvalidateCache(c, WalletKey(uid));
    InvalidateCache(c, TransactionsKey(uid));
    InvalidateCache(c, WorksKey(uid));
  }

  lemma RemoveFour(m: map<string, Entry>, a: string, b: string, d: string, e: string)
    ensures (((m - {a}) - {b}) - {d}) - {e} == m - {a, b, d, e}
  {
    var l := (((m - {a}) - {b}) - {d}) - {e};
    assert l.Keys == (m - {a, b, d, e}).Keys;
  }

  /** `clearUserCache(uid)`: the four exact user keys. */
  method ClearUserCache(c: DataCache, uid: string)
    requires c.Valid()
    modifies c`entries, c`order
    ensures c.Valid()
    ensures c.entries == old(c.entries) - {UserKey(uid), WalletKey(uid), TransactionsKey(uid), WorksKey(uid)}
    ensures c.order == Without(Without(Without(Without(old(c.order),
                UserKey(uid)), WalletKey(uid)), TransactionsKey(uid)), WorksKey(uid))
  {
    ghost var before := c.entries;
    c.Clear(UserKey(uid));
    c.Clear(WalletKey(uid));
    c.Clear(TransactionsKey(uid));
    c.Clear(WorksKey(uid));
    RemoveFour(before, UserKey(uid), WalletKey(uid), TransactionsKey(uid), WorksKey(uid));
  }

  /** Invalidating by a key's full text removes that key, whatever else it removes. */
  lemma InvalidationRemovesKey(entries: map<string, Entry>, key: string)
    ensures key !in Unmatched(entries, key)
  {
    ContainsItself(key);
  }

  /** The empty pattern is included in every key, so it empties the cache. */
  lemma EmptyPatternClearsAll(entries: map<string, Entry>)
    ensures Unmatched(entries, "") == map[]
  {
    forall k | k in entries ensures Contains(k, "") {
      ContainsEmpty(k);
    }
  }
}
