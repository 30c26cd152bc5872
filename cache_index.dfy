/** Request deduplication and the cached-fetch decision of the cache
    package: the module-level in-flight table (`deduplicatedFetch`,
    `clearInFlightRequests`), `cachedFetch` on top of a memory cache, and
    `createCache`.

    Promises are abstract: registering a key hands out a numbered handle
    standing for the promise stored under that key, and whether the fetcher
    was started is reported instead of running it. The value a promise
    settles with is an oracle parameter (`outcome`). `Date.now()` is the
    parameter `now`. */
module CacheIndex {
  import opened Wrappers
  import opened GitHubErrors
  import opened CacheMemory

  // ---------------------------------------------------------------------
  // The in-flight table

  /** The in-flight map from key to the handle of its pending promise, and
      the next unused handle. */
  datatype InFlight = InFlight(pending: map<string, nat>, nextId: nat)

  /** Every registered handle was issued before `nextId`. */
  ghost predicate Fresh(t: InFlight) {
    forall k :: k in t.pending ==> t.pending[k] < t.nextId
  }

  /** What a caller of `deduplicatedFetch` gets: the promise it awaits, and
      whether its own fetcher was started. */
  datatype Joined = Joined(handle: nat, started: bool)

  /** `deduplicatedFetch`: join the promise in flight under the key, or
      start the fetcher and register its promise. */
  function Register(t: InFlight, key: string): (InFlight, Joined) {
    if key in t.pending then (t, Joined(t.pending[key], false))
    else (InFlight(t.pending[key := t.nextId], t.nextId + 1), Joined(t.nextId, true))
  }

  /** The `finally` of a registered promise: it runs on success and on
      failure alike and removes the key. */
  function Settle(t: InFlight, key: string): InFlight {
    t.(pending := t.pending - {key})
  }

  /** `clearInFlightRequests`. */
  function ClearAll(t: InFlight): InFlight {
    t.(pending := map[])
  }

  /** While a key is in flight, a caller joins the registered promise and
      does not start its fetcher; the table is unchanged. */
  lemma JoinWhileInFlight(t: InFlight, key: string)
    requires key in t.pending
    ensures Register(t, key) == (t, Joined(t.pending[key], false))
  {
  }

  /** For a key not in flight the fetcher is started, and its promise gets
      a handle distinct from every promise still in flight. */
  lemma StartWhenIdle(t: InFlight, key: string)
    requires Fresh(t) && key !in t.pending
    ensures var (t1, j) := Register(t, key);
      && j.started && t1.pending[key] == j.handle
      && (forall k :: k in t.pending ==> t.pending[k] != j.handle)
      && Fresh(t1)
  {
  }

  /** `n` callers in a row. */
  function RegisterMany(t: InFlight, key: string, n: nat): (InFlight, seq<Joined>)
    decreases n
  {
    if n == 0 then (t, [])
    else
      var (t1, j) := Register(t, key);
      var (t2, js) := RegisterMany(t1, key, n - 1);
      (t2, [j] + js)
  }

  lemma {:induction false} RegisterManyJoins(t: InFlight, key: string, n: nat)
    requires key in t.pending
    ensures var (t1, js) := RegisterMany(t, key, n);
      && t1 == t && |js| == n
      && forall i :: 0 <= i < n ==> js[i] == Joined(t.pending[key], false)
  {
    if n > 0 {
      RegisterManyJoins(t, key, n - 1);
    }
  }

  /** Any number of callers for a key that is not in flight start exactly
      one fetch (the first caller's) and all await the same promise. */
  lemma ConcurrentCallersShareOneFetch(t: InFlight, key: string, n: nat)
    requires key !in t.pending && n >= 1
    ensures var (t1, js) := RegisterMany(t, key, n);
      && |js| == n
      && js[0].started
      && (forall i :: 1 <= i < n ==> !js[i].started)
      && (forall i :: 0 <= i < n ==> js[i].handle == t.nextId)
      && t1.pending == t.pending[key := t.nextId]
  {
    var (t1, j) := Register(t, key);
    RegisterManyJoins(t1, key, n - 1);
  }

  /** Once the promise settles, whether it succeeded or failed, the next
      caller starts a new fetch. */
  lemma SettledKeyFetchesAgain(t: InFlight, key: string)
    requires Fresh(t)
    ensures var (t1, j1) := Register(t, key);
      var (t2, j2) := Register(Settle(t1, key), key);
      && j2.started && j2.handle != j1.handle
  {
  }

  lemma ClearAllEmpties(t: InFlight)
    ensures ClearAll(t).pending == map[] && Fresh(ClearAll(t))
  {
  }

  /** The module-level `inFlightRequests` map. */
  class InFlightRequests {
    var pending: map<string, nat>
    var nextId: nat

    function State(): InFlight
      reads this
    {
      InFlight(pending, nextId)
    }

    /** Every handle in the table was issued by this table. */
    ghost predicate Valid()
      reads this
    {
      Fresh(State())
    }

    constructor ()
      ensures State() == InFlight(map[], 0) && Valid()
    {
      pending := map[];
      nextId := 0;
    }

    method DeduplicatedFetch(key: string) returns (j: Joined)
      requires Valid()
      modifies this
      ensures Valid()
      ensures (State(), j) == Register(old(State()), key)
    {
      if key in pending {
        return Joined(pending[key], false);
      }
      j := Joined(nextId, true);
      pending := pending[key := nextId];
      nextId := nextId + 1;
    }

    /** The registered promise settled; its `finally` removes the key. */
    method Settled(key: string)
      requires Valid()
      modifies this
      ensures Valid()
      ensures State() == Settle(old(State()), key)
    {
      pending := pending - {key};
    }

    method Clear()
      requires Valid()
      modifies this
      ensures Valid()
      ensures State() == ClearAll(old(State()))
    {
      pending := map[];
    }
  }

  // ---------------------------------------------------------------------
  // cachedFetch

  datatype FetchOptions = FetchOptions(
    ttl: Option<int>,
    staleWhileRevalidate: Option<int>,
    skipCache: bool,
    forceRevalidate: bool)

  datatype FetchResult<D> = FetchResult(data: D, fromCache: bool, stale: bool)

  /** A number option used as a condition: `undefined` and 0 are false. */
  predicate Truthy(n: Option<int>) {
    n.Some? && n.value != 0
  }

  function TtlOf(o: FetchOptions): int {
    o.ttl.GetOr(DefaultTtl)
  }

  /** The suffix of the key a background revalidation is registered under. */
  const RevalidateSuffix := ":revalidate"

  /** The four ways `cachedFetch` can go. */
  datatype Plan = Bypass | ServeFresh | ServeStale | Refetch

  /** The decision, given what `cache.get` returned (ignored with skipCache,
      which does not read the cache). Freshness here is `now <= expiresAt`. */
  function Decide<D>(o: FetchOptions, cached: Option<CacheEntry<D>>, now: int): (p: Plan)
    ensures p == Bypass <==> o.skipCache
    ensures p == ServeFresh <==> !o.skipCache && cached.Some? && now <= cached.value.expiresAt && !o.forceRevalidate
    ensures p == ServeStale <==> !o.skipCache && cached.Some? && now > cached.value.expiresAt && Truthy(o.staleWhileRevalidate)
    ensures p == Refetch <==>
      && !o.skipCache
      && (|| cached.None?
          || (now <= cached.value.expiresAt && o.forceRevalidate)
          || (now > cached.value.expiresAt && !Truthy(o.staleWhileRevalidate)))
  {
    if o.skipCache then Bypass
    else if cached.None? then Refetch
    else if now <= cached.value.expiresAt && !o.forceRevalidate then ServeFresh
    else if now > cached.value.expiresAt && Truthy(o.staleWhileRevalidate) then ServeStale
    else Refetch
  }

  /** The cache state and the in-flight table together. */
  datatype World<D> = World(cache: CacheState<D>, inFlight: InFlight)

  /** What a call leaves behind: the new world, the caller's result, and
      whether the caller's fetcher was started. */
  datatype Outcome<D> = Outcome(world: World<D>, result: Result<FetchResult<D>, Thrown>, started: bool)

  /** Await a deduplicated fetch of `key`; once the promise settles the key
      is no longer in flight. */
  function AwaitFetch(t: InFlight, key: string): (InFlight, bool) {
    var (t1, j) := Register(t, key);
    (Settle(t1, key), j.started)
  }

  /** A fetched value as the caller sees it: not from the cache, not stale. */
  function Fetched<D>(outcome: Result<D, Thrown>): Result<FetchResult<D>, Thrown> {
    match outcome
    case Success(d) => Success(FetchResult(d, false, false))
    case Failure(e) => Failure(e)
  }

  /** `cachedFetch` over a memory cache with options `co`. */
  function CachedFetchSpec<D>(w: World<D>, co: CacheOptions, key: string, o: FetchOptions, now: int, outcome: Result<D, Thrown>): Outcome<D> {
    if o.skipCache then
      var (t1, started) := AwaitFetch(w.inFlight, key);
      Outcome(World(w.cache, t1), Fetched(outcome), started)
    else
      var (c1, cached) := GetSpec(w.cache, co, key, now);
      AfterLookup(World(c1, w.inFlight), co, key, o, now, outcome, cached)
  }

  /** The part of `cachedFetch` after `cache.get` returned `cached`. */
  function AfterLookup<D>(w: World<D>, co: CacheOptions, key: string, o: FetchOptions, now: int, outcome: Result<D, Thrown>, cached: Option<CacheEntry<D>>): Outcome<D>
    requires !o.skipCache
  {
    match Decide(o, cached, now)
    case ServeFresh =>
      Outcome(w, Success(FetchResult(cached.value.data, true, false)), false)
    case ServeStale =>
      var (t1, j) := Register(w.inFlight, key + RevalidateSuffix);
      Outcome(w.(inFlight := t1), Success(FetchResult(cached.value.data, true, true)), j.started)
    case _ => RefetchSpec(w, co, key, o, now, outcome)
  }

  /** Fetch through the in-flight table and, on success, store the data
      under a fresh entry. */
  function RefetchSpec<D>(w: World<D>, co: CacheOptions, key: string, o: FetchOptions, now: int, outcome: Result<D, Thrown>): Outcome<D> {
    var (t1, started) := AwaitFetch(w.inFlight, key);
    Outcome(World(StoreSpec(w.cache, co, key, o, now, outcome), t1), Fetched(outcome), started)
  }

  /** On success the fetched data is stored under a fresh entry stamped
      `now`, with no etag; a failure writes nothing. */
  function StoreSpec<D>(c: CacheState<D>, co: CacheOptions, key: string, o: FetchOptions, now: int, outcome: Result<D, Thrown>): CacheState<D> {
    if outcome.Success? then SetSpec(c, co, key, CacheEntry(outcome.value, now, None, now + TtlOf(o))) else c
  }

  /** The background revalidation completing: on success the fresh data is
      stored; a failure is swallowed. Either way its registration settles. */
  function RevalidateSpec<D>(w: World<D>, co: CacheOptions, key: string, o: FetchOptions, now: int, outcome: Result<D, Thrown>): World<D> {
    World(StoreSpec(w.cache, co, key, o, now, outcome), Settle(w.inFlight, key + RevalidateSuffix))
  }

  /** With skipCache the store is neither read nor written, and a result is
      never from the cache. */
  lemma SkipCacheLeavesStoreAlone<D>(w: World<D>, co: CacheOptions, key: string, o: FetchOptions, now: int, outcome: Result<D, Thrown>)
    requires o.skipCache
    ensures var out := CachedFetchSpec(w, co, key, o, now, outcome);
      && out.world.cache == w.cache
      && key !in out.world.inFlight.pending
      && (out.result.Success? <==> outcome.Success?)
      && (out.result.Success? ==> out.result.value == FetchResult(outcome.value, false, false))
  {
  }

  /** A fresh entry is served from the cache with no fetch and no write:
      only `get`'s own bookkeeping changes the cache. */
  lemma FreshEntryServedWithoutFetch<D>(w: World<D>, co: CacheOptions, key: string, o: FetchOptions, now: int, outcome: Result<D, Thrown>)
    requires Inv(w.cache, co) && !o.skipCache && !o.forceRevalidate
    requires key in w.cache.store && now <= w.cache.store[key].expiresAt
    requires co.staleWhileRevalidate >= 0
    ensures var out := CachedFetchSpec(w, co, key, o, now, outcome);
      && out.result == Success(FetchResult(w.cache.store[key].data, true, false))
      && !out.started
      && out.world.inFlight == w.inFlight
      && out.world.cache.store == w.cache.store
  {
    GetReturnsLiveEntries(w.cache, co, key, now);
  }

  /** An entry past `expiresAt` that the cache still returns is served
      marked stale when staleWhileRevalidate is truthy; a revalidation is
      registered under the suffixed key, and the caller's result does not
      depend on how that revalidation ends. The caller's fetcher is started
      (by the revalidation) exactly when no revalidation of the key was
      already in flight. */
  lemma StaleEntryServedWhileRevalidating<D>(w: World<D>, co: CacheOptions, key: string, o: FetchOptions, now: int, outcome: Result<D, Thrown>, other: Result<D, Thrown>)
    requires Inv(w.cache, co) && !o.skipCache && Truthy(o.staleWhileRevalidate)
    requires key in w.cache.store && w.cache.store[key].expiresAt < now <= w.cache.store[key].expiresAt + co.staleWhileRevalidate
    ensures var out := CachedFetchSpec(w, co, key, o, now, outcome);
      && out.result == Success(FetchResult(w.cache.store[key].data, true, true))
      && out.result == CachedFetchSpec(w, co, key, o, now, other).result
      && key + RevalidateSuffix in out.world.inFlight.pending
      && out.world.cache.store == w.cache.store
      && (out.started <==> key + RevalidateSuffix !in w.inFlight.pending)
  {
    GetReturnsLiveEntries(w.cache, co, key, now);
  }

  /** In every other case the data is fetched; on success it is stored as
      `{data, timestamp: now, expiresAt: now + ttl}` with no etag and
      returned as not from the cache; a failure reaches the caller and
      writes nothing. */
  lemma RefetchStoresFreshEntry<D>(w: World<D>, co: CacheOptions, key: string, o: FetchOptions, now: int, outcome: Result<D, Thrown>)
    requires Inv(w.cache, co) && !o.skipCache
    requires Decide(o, GetSpec(w.cache, co, key, now).1, now) == Refetch
    ensures var out := CachedFetchSpec(w, co, key, o, now, outcome);
      && key !in out.world.inFlight.pending
      && (outcome.Success? ==>
            && out.result == Success(FetchResult(outcome.value, false, false))
            && out.world.cache.store[key] == CacheEntry(outcome.value, now, None, now + TtlOf(o))
            && (o.ttl.None? ==> out.world.cache.store[key].expiresAt == now + 300000))
      && (outcome.Failure? ==>
            && out.result == Failure(outcome.error)
            && out.world.cache == GetSpec(w.cache, co, key, now).0)
  {
  }

  /** A memory cache without its own stale window never hands `cachedFetch`
      an entry past `expiresAt`, so no result is ever marked stale. */
  lemma NoStaleResultWithoutCacheWindow<D>(w: World<D>, co: CacheOptions, key: string, o: FetchOptions, now: int, outcome: Result<D, Thrown>)
    requires co.staleWhileRevalidate <= 0
    ensures var out := CachedFetchSpec(w, co, key, o, now, outcome);
      out.result.Success? ==> !out.result.value.stale
  {
    GetReturnsLiveEntries(w.cache, co, key, now);
  }

  /** The cache invariant survives `cachedFetch` and the revalidation. */
  lemma CachedFetchPreservesInv<D>(w: World<D>, co: CacheOptions, key: string, o: FetchOptions, now: int, outcome: Result<D, Thrown>)
    requires Inv(w.cache, co)
    ensures Inv(CachedFetchSpec(w, co, key, o, now, outcome).world.cache, co)
    ensures Inv(RevalidateSpec(w, co, key, o, now, outcome).cache, co)
  {
    if !o.skipCache {
      var (c1, cached) := GetSpec(w.cache, co, key, now);
      GetPreservesInv(w.cache, co, key, now);
      AfterLookupPreservesInv(World(c1, w.inFlight), co, key, o, now, outcome, cached);
    }
    if outcome.Success? {
      SetPreservesInv(w.cache, co, key, CacheEntry(outcome.value, now, None, now + TtlOf(o)));
    }
  }

  lemma AfterLookupPreservesInv<D>(w: World<D>, co: CacheOptions, key: string, o: FetchOptions, now: int, outcome: Result<D, Thrown>, cached: Option<CacheEntry<D>>)
    requires !o.skipCache && Inv(w.cache, co)
    ensures Inv(AfterLookup(w, co, key, o, now, outcome, cached).world.cache, co)
  {
    if outcome.Success? {
      SetPreservesInv(w.cache, co, key, CacheEntry(outcome.value, now, None, now + TtlOf(o)));
    }
  }

  /** A failed revalidation leaves the cache as it was. */
  lemma FailedRevalidationIsSilent<D>(w: World<D>, co: CacheOptions, key: string, o: FetchOptions, now: int, e: Thrown)
    ensures var w1 := RevalidateSpec(w, co, key, o, now, Failure(e));
      && w1.cache == w.cache
      && key + RevalidateSuffix !in w1.inFlight.pending
  {
  }

  /** `cachedFetch` on a memory cache and the in-flight table. */
  method CachedFetch<D>(cache: MemoryCache<D>, inFlight: InFlightRequests, key: string, o: FetchOptions, now: int, outcome: Result<D, Thrown>)
    returns (r: Result<FetchResult<D>, Thrown>, started: bool)
    requires cache.Valid()
    requires inFlight.Valid()
    modifies cache, inFlight
    ensures inFlight.Valid()
    ensures cache.Valid()
    ensures Outcome(World(cache.State(), inFlight.State()), r, started)
      == CachedFetchSpec(World(old(cache.State()), old(inFlight.State())), cache.options, key, o, now, outcome)
  {
    if o.skipCache {
      var j := inFlight.DeduplicatedFetch(key);
      inFlight.Settled(key);
      return Fetched(outcome), j.started;
    }
    var cached := cache.Get(key, now);
    r, started := ActOnLookup(cache, inFlight, key, o, now, outcome, cached);
  }

  /** The part of `cachedFetch` after the cache lookup. */
  method ActOnLookup<D>(cache: MemoryCache<D>, inFlight: InFlightRequests, key: string, o: FetchOptions, now: int,
                        outcome: Result<D, Thrown>, cached: Option<CacheEntry<D>>)
    returns (r: Result<FetchResult<D>, Thrown>, started: bool)
    requires cache.Valid() && !o.skipCache
    requires inFlight.Valid()
    modifies cache, inFlight
    ensures inFlight.Valid()
    ensures cache.Valid()
    ensures Outcome(World(cache.State(), inFlight.State()), r, started)
      == AfterLookup(World(old(cache.State()), old(inFlight.State())), cache.options, key, o, now, outcome, cached)
  {
    ghost var w0 := World(cache.State(), inFlight.State());
    var plan := Decide(o, cached, now);
    if plan == ServeFresh {
      return Success(FetchResult(cached.value.data, true, false)), false;
    }
    if plan == ServeStale {
      var j := inFlight.DeduplicatedFetch(key + RevalidateSuffix);
      return Success(FetchResult(cached.value.data, true, true)), j.started;
    }
    r, started := FetchAndStore(cache, inFlight, key, o, now, outcome);
    assert AfterLookup(w0, cache.options, key, o, now, outcome, cached) == RefetchSpec(w0, cache.options, key, o, now, outcome);
  }

  /** The fetching branch: await the deduplicated fetch, then store the
      data on success. */
  method FetchAndStore<D>(cache: MemoryCache<D>, inFlight: InFlightRequests, key: string, o: FetchOptions, now: int, outcome: Result<D, Thrown>)
    returns (r: Result<FetchResult<D>, Thrown>, started: bool)
    requires cache.Valid()
    requires inFlight.Valid()
    modifies cache, inFlight
    ensures inFlight.Valid()
    ensures cache.Valid()
    ensures Outcome(World(cache.State(), inFlight.State()), r, started)
      == RefetchSpec(World(old(cache.State()), old(inFlight.State())), cache.options, key, o, now, outcome)
  {
    started := AwaitInFlight(inFlight, key);
    StoreOnSuccess(cache, key, o, now, outcome);
    r := Fetched(outcome);
  }

  /** `await deduplicatedFetch(key, fetcher)`: register, then settle. */
  method AwaitInFlight(inFlight: InFlightRequests, key: string) returns (started: bool)
    requires inFlight.Valid()
    modifies inFlight
    ensures inFlight.Valid()
    ensures (inFlight.State(), started) == AwaitFetch(old(inFlight.State()), key)
  {
    var j := inFlight.DeduplicatedFetch(key);
    inFlight.Settled(key);
    started := j.started;
  }

  /** `if (data) cache.set(key, createEntry(data, ttl))`, for a fetch
      that resolved. */
  method StoreOnSuccess<D>(cache: MemoryCache<D>, key: string, o: FetchOptions, now: int, outcome: Result<D, Thrown>)
    requires cache.Valid()
    modifies cache
    ensures cache.Valid()
    ensures cache.State() == StoreSpec(old(cache.State()), cache.options, key, o, now, outcome)
  {
    ghost var before := cache.State();
    if outcome.Success? {
      var entry := CacheEntry(outcome.value, now, None, now + TtlOf(o));
      assert StoreSpec(before, cache.options, key, o, now, outcome) == SetSpec(before, cache.options, key, entry);
      cache.Set(key, entry);
    } else {
      assert StoreSpec(before, cache.options, key, o, now, outcome) == before;
    }
  }

  /** The background revalidation registered by a stale serve completes. */
  method FinishRevalidation<D>(cache: MemoryCache<D>, inFlight: InFlightRequests, key: string, o: FetchOptions, now: int, outcome: Result<D, Thrown>)
    requires cache.Valid()
    requires inFlight.Valid()
    modifies cache, inFlight
    ensures inFlight.Valid()
    ensures cache.Valid()
    ensures World(cache.State(), inFlight.State())
      == RevalidateSpec(World(old(cache.State()), old(inFlight.State())), cache.options, key, o, now, outcome)
  {
    StoreOnSuccess(cache, key, o, now, outcome);
    inFlight.Settled(key + RevalidateSuffix);
  }

  // ---------------------------------------------------------------------
  // createCache

  datatype CacheType = Memory | Disk

  /** `options.type ?? 'memory'`. */
  function ChosenType(t: Option<CacheType>): CacheType {
    t.GetOr(Memory)
  }

  /** `createCache`: a memory cache unless the disk kind is asked for. The
      disk cache is not part of this model, so that case yields null. */
  method CreateCache<D>(t: Option<CacheType>, ttl: Option<int>, staleWhileRevalidate: Option<int>, maxEntries: Option<int>)
    returns (c: MemoryCache?<D>)
    ensures c == null <==> t == Some(Disk)
    ensures c != null ==>
      && fresh(c) && c.Valid() && c.State() == EmptyState()
      && c.options == ResolveOptions(ttl, staleWhileRevalidate, maxEntries)
  {
    if ChosenType(t) == Disk {
      return null;
    }
    c := new MemoryCache(ttl, staleWhileRevalidate, maxEntries);
  }
}
