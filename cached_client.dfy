/** The cached GitHub client: `githubFetchCached` with its cache reads,
    ETag conditional requests and 304 handling; `batchProcess`;
    `withRetry`; the page loops of the `get*Cached` functions; and
    `clearGitHubCache`.

    The cache is a memory cache and the module-level ETag map is the class
    `EtagStore`. The network is the oracle `respond` (or, for the page
    loops, the list of page outcomes); the clock is `now`; the random
    jitter of the retry delay is the integer parameter `jitter`. */
module CachedClient {
  import opened Wrappers
  import opened Text
  import opened GitHubErrors
  import opened CacheMemory
  import opened CacheIndex
  import opened GitHubClient

  // ---------------------------------------------------------------------
  // githubFetchCached

  /** The options of `githubFetchCached`; None is an omitted option. */
  datatype CachedOptions = CachedOptions(
    verb: Option<string>,
    body: Option<string>,
    params: Params,
    ttl: Option<int>,
    skipCache: bool,
    useEtag: Option<bool>)

  datatype CachedResponse<D> = CachedResponse(data: D, etag: Option<string>, fromCache: bool, notModified: bool)

  /** The cache state and the ETag map. */
  datatype ClientState<D> = ClientState(cache: CacheState<D>, etags: map<string, string>)

  function Verb(o: CachedOptions): string {
    o.verb.GetOr("GET")
  }

  predicate IsGet(o: CachedOptions) {
    Verb(o) == "GET"
  }

  function CachedTtl(o: CachedOptions): int {
    o.ttl.GetOr(DefaultTtl)
  }

  /** The cache key of a request: "github:" and the URL. */
  function CacheKey(endpoint: string, params: Params): string {
    "github:" + BuildUrl(endpoint, params)
  }

  /** The ETag remembered for the key, looked up only when `useEtag`
      (default true). */
  function StoredEtag(etags: map<string, string>, key: string, o: CachedOptions): Option<string> {
    if o.useEtag.GetOr(true) && key in etags then Some(etags[key]) else None
  }

  function ConditionalRequest(token: string, endpoint: string, o: CachedOptions, stored: Option<string>): Request {
    var headers := RequestHeaders(token, o.body) + (if Present(stored) && IsGet(o) then [("If-None-Match", stored.value)] else []);
    Request(Verb(o), BuildUrl(endpoint, o.params), headers, o.body)
  }

  predicate HasHeader(r: Request, name: string) {
    exists i :: 0 <= i < |r.headers| && r.headers[i].0 == name
  }

  /** What a call leaves behind, the caller's result, and the request sent
      to the network, if any. */
  datatype CachedOutcome<D> = CachedOutcome(state: ClientState<D>, result: Result<CachedResponse<D>, Error>, sent: Option<Request>)

  /** `githubFetchCached` with memory-cache options `co`. */
  function FetchCachedSpec<D>(s: ClientState<D>, co: CacheOptions, token: Result<string, Error>, endpoint: string, o: CachedOptions, now: int,
                              respond: Request -> HttpResponse<D>): CachedOutcome<D>
  {
    match token
    case Failure(e) => CachedOutcome(s, Failure(e), None)
    case Success(t) =>
      var key := CacheKey(endpoint, o.params);
      if IsGet(o) && !o.skipCache then
        var (c1, cached) := GetSpec(s.cache, co, key, now);
        if cached.Some? && now < cached.value.expiresAt then
          CachedOutcome(ClientState(c1, s.etags), Success(CachedResponse(cached.value.data, cached.value.etag, true, false)), None)
        else
          Send(ClientState(c1, s.etags), co, t, endpoint, key, o, now, respond)
      else
        Send(s, co, t, endpoint, key, o, now, respond)
  }

  /** From building the headers on: send, then handle a 304 from the cache. */
  function Send<D>(s: ClientState<D>, co: CacheOptions, t: string, endpoint: string, key: string, o: CachedOptions, now: int,
                   respond: Request -> HttpResponse<D>): CachedOutcome<D>
  {
    var stored := StoredEtag(s.etags, key, o);
    var req := ConditionalRequest(t, endpoint, o, stored);
    var resp := respond(req);
    if resp.status == 304 then
      var (c2, cached) := GetSpec(s.cache, co, key, now);
      if cached.Some? then
        var refreshed := cached.value.(expiresAt := now + CachedTtl(o));
        CachedOutcome(ClientState(SetSpec(c2, co, key, refreshed), s.etags), Success(CachedResponse(cached.value.data, stored, true, true)), Some(req))
      else
        Received(ClientState(c2, s.etags), co, key, o, now, req, resp)
    else
      Received(s, co, key, o, now, req, resp)
  }

  /** A response that was not answered from the cache: an error, or data
      whose ETag and entry a GET remembers. */
  function Received<D>(s: ClientState<D>, co: CacheOptions, key: string, o: CachedOptions, now: int, req: Request, resp: HttpResponse<D>): CachedOutcome<D> {
    if !resp.Ok() then
      CachedOutcome(s, Failure(FailedResponse(resp)), Some(req))
    else
      var etag := resp.Header("etag");
      var etags := if Present(etag) && IsGet(o) then s.etags[key := etag.value] else s.etags;
      var cache := if IsGet(o) then SetSpec(s.cache, co, key, CacheEntry(resp.json, now, etag, now + CachedTtl(o))) else s.cache;
      CachedOutcome(ClientState(cache, etags), Success(CachedResponse(resp.json, etag, false, false)), Some(req))
  }

  /** The cache key depends only on the defined parameters. */
  lemma CacheKeyUsesDefinedParams(endpoint: string, params: Params)
    requires DistinctKeys(params)
    ensures CacheKey(endpoint, params) == "github:" + BaseUrl + endpoint + QueryString(DefinedParams(params))
  {
    ApplyParamsKeepsDefined([], params);
    assert [] + DefinedParams(params) == DefinedParams(params);
  }

  /** A GET that may read the cache is answered from it, with no request,
      exactly when the entry `get` returns is strictly before its expiry
      (at `now == expiresAt` the request is sent). */
  lemma CacheHitIsStrict<D>(s: ClientState<D>, co: CacheOptions, t: string, endpoint: string, o: CachedOptions, now: int, respond: Request -> HttpResponse<D>)
    requires IsGet(o) && !o.skipCache && co.staleWhileRevalidate >= 0
    requires CacheKey(endpoint, o.params) in s.cache.store
    ensures var e := s.cache.store[CacheKey(endpoint, o.params)];
      var out := FetchCachedSpec(s, co, Success(t), endpoint, o, now, respond);
      && (out.sent.None? <==> now < e.expiresAt)
      && (now < e.expiresAt ==> out.result == Success(CachedResponse(e.data, e.etag, true, false)))
  {
    GetReturnsLiveEntries(s.cache, co, CacheKey(endpoint, o.params), now);
  }

  /** The request carries If-None-Match exactly for a GET with ETags in use
      and a non-empty ETag remembered for the key, and then carries that
      ETag. */
  lemma IfNoneMatchOnlyForKnownGet(etags: map<string, string>, key: string, t: string, endpoint: string, o: CachedOptions)
    ensures var req := ConditionalRequest(t, endpoint, o, StoredEtag(etags, key, o));
      && (HasHeader(req, "If-None-Match") <==> IsGet(o) && o.useEtag.GetOr(true) && key in etags && etags[key] != "")
      && (HasHeader(req, "If-None-Match") ==> req.headers[|req.headers| - 1] == ("If-None-Match", etags[key]))
  {
    var req := ConditionalRequest(t, endpoint, o, StoredEtag(etags, key, o));
    var base := RequestHeaders(t, o.body);
    forall i | 0 <= i < |base| ensures base[i].0 != "If-None-Match" {
    }
    if Present(StoredEtag(etags, key, o)) && IsGet(o) {
      assert req.headers[|req.headers| - 1].0 == "If-None-Match";
    }
  }

  /** A 304, for any method: with an entry still in the cache its data is
      returned as not modified, with the ETag that was sent, and only its
      expiry is rewritten to `now + ttl`; without one the 304 falls
      through to the error path and becomes `GitHubError(304)`. */
  lemma NotModifiedServesCachedData<D>(s: ClientState<D>, co: CacheOptions, t: string, endpoint: string, key: string, o: CachedOptions, now: int,
                                       respond: Request -> HttpResponse<D>)
    requires Inv(s.cache, co)
    requires respond(ConditionalRequest(t, endpoint, o, StoredEtag(s.etags, key, o))).status == 304
    ensures var out := Send(s, co, t, endpoint, key, o, now, respond);
      var cached := GetSpec(s.cache, co, key, now).1;
      var resp := respond(ConditionalRequest(t, endpoint, o, StoredEtag(s.etags, key, o)));
      && out.state.etags == s.etags
      && (cached.Some? ==>
            && out.result == Success(CachedResponse(cached.value.data, StoredEtag(s.etags, key, o), true, true))
            && out.state.cache.store[key] == cached.value.(expiresAt := now + CachedTtl(o)))
      && (cached.None? ==> out.result == Failure(GitHubError(304, resp.statusText, resp.text)))
  {
  }

  /** Any other non-ok response is an error carrying its status, and
      writes neither the cache nor the ETag map. */
  lemma ErrorResponsesWriteNothing<D>(s: ClientState<D>, co: CacheOptions, t: string, endpoint: string, key: string, o: CachedOptions, now: int,
                                      respond: Request -> HttpResponse<D>)
    requires var resp := respond(ConditionalRequest(t, endpoint, o, StoredEtag(s.etags, key, o)));
      !resp.Ok() && resp.status != 304
    ensures var out := Send(s, co, t, endpoint, key, o, now, respond);
      var resp := respond(ConditionalRequest(t, endpoint, o, StoredEtag(s.etags, key, o)));
      && out.state == s
      && out.result.Failure? && out.result.error.Status() == resp.status
      && (out.result.error.RateLimitError? <==> resp.status == 403 && Present(resp.Header("x-ratelimit-reset")))
  {
  }

  /** A successful GET remembers the response's ETag when it has a
      non-empty one and stores an entry expiring at `now + ttl`. */
  lemma SuccessfulGetStores<D>(s: ClientState<D>, co: CacheOptions, t: string, endpoint: string, key: string, o: CachedOptions, now: int,
                               respond: Request -> HttpResponse<D>)
    requires IsGet(o)
    requires respond(ConditionalRequest(t, endpoint, o, StoredEtag(s.etags, key, o))).Ok()
    ensures var out := Send(s, co, t, endpoint, key, o, now, respond);
      var resp := respond(ConditionalRequest(t, endpoint, o, StoredEtag(s.etags, key, o)));
      && out.result == Success(CachedResponse(resp.json, resp.Header("etag"), false, false))
      && key in out.state.cache.store
      && out.state.cache.store[key] == CacheEntry(resp.json, now, resp.Header("etag"), now + CachedTtl(o))
      && (Present(resp.Header("etag")) ==> out.state.etags == s.etags[key := resp.Header("etag").value])
      && (!Present(resp.Header("etag")) ==> out.state.etags == s.etags)
  {
  }

  /** A method other than GET, answered with anything but 304, touches
      neither the cache nor the ETag map. */
  lemma NonGetWritesNothing<D>(s: ClientState<D>, co: CacheOptions, t: string, endpoint: string, o: CachedOptions, now: int,
                               respond: Request -> HttpResponse<D>)
    requires !IsGet(o)
    requires respond(ConditionalRequest(t, endpoint, o, StoredEtag(s.etags, CacheKey(endpoint, o.params), o))).status != 304
    ensures FetchCachedSpec(s, co, Success(t), endpoint, o, now, respond).state == s
  {
  }

  /** skipCache only skips the cache read: a successful GET still stores
      its entry (so the page loops, which pass skipCache, fill the cache
      with one entry per page). */
  lemma SkipCacheStillStores<D>(s: ClientState<D>, co: CacheOptions, t: string, endpoint: string, o: CachedOptions, now: int,
                                respond: Request -> HttpResponse<D>)
    requires IsGet(o) && o.skipCache
    requires respond(ConditionalRequest(t, endpoint, o, StoredEtag(s.etags, CacheKey(endpoint, o.params), o))).Ok()
    ensures CacheKey(endpoint, o.params) in FetchCachedSpec(s, co, Success(t), endpoint, o, now, respond).state.cache.store
  {
  }

  /** The cache invariant survives a call. */
  lemma FetchCachedPreservesInv<D>(s: ClientState<D>, co: CacheOptions, token: Result<string, Error>, endpoint: string, o: CachedOptions, now: int,
                                   respond: Request -> HttpResponse<D>)
    requires Inv(s.cache, co)
    ensures Inv(FetchCachedSpec(s, co, token, endpoint, o, now, respond).state.cache, co)
  {
    if token.Success? {
      var key := CacheKey(endpoint, o.params);
      var s1 := if IsGet(o) && !o.skipCache then ClientState(GetSpec(s.cache, co, key, now).0, s.etags) else s;
      GetPreservesInv(s.cache, co, key, now);
      SendPreservesInv(s1, co, token.value, endpoint, key, o, now, respond);
    }
  }

  lemma SendPreservesInv<D>(s: ClientState<D>, co: CacheOptions, t: string, endpoint: string, key: string, o: CachedOptions, now: int,
                            respond: Request -> HttpResponse<D>)
    requires Inv(s.cache, co)
    ensures Inv(Send(s, co, t, endpoint, key, o, now, respond).state.cache, co)
  {
    var resp := respond(ConditionalRequest(t, endpoint, o, StoredEtag(s.etags, key, o)));
    GetPreservesInv(s.cache, co, key, now);
    var (c2, cached) := GetSpec(s.cache, co, key, now);
    if resp.status == 304 && cached.Some? {
      SetPreservesInv(c2, co, key, cached.value.(expiresAt := now + CachedTtl(o)));
    } else if resp.Ok() {
      var c := if resp.status == 304 then c2 else s.cache;
      SetPreservesInv(c, co, key, CacheEntry(resp.json, now, resp.Header("etag"), now + CachedTtl(o)));
    }
  }

  /** The module-level ETag map. */
  class EtagStore {
    var tags: map<string, string>

    constructor ()
      ensures tags == map[]
    {
      tags := map[];
    }
  }

  method GithubFetchCached<D>(cache: MemoryCache<D>, etags: EtagStore, token: Result<string, Error>, endpoint: string, o: CachedOptions, now: int,
                              respond: Request -> HttpResponse<D>)
    returns (r: Result<CachedResponse<D>, Error>, sent: Option<Request>)
    requires cache.Valid()
    modifies cache, etags
    ensures cache.Valid()
    ensures CachedOutcome(ClientState(cache.State(), etags.tags), r, sent)
      == FetchCachedSpec(ClientState(old(cache.State()), old(etags.tags)), cache.options, token, endpoint, o, now, respond)
  {
    if token.Failure? {
      return Failure(token.error), None;
    }
    var key := CacheKey(endpoint, o.params);
    if IsGet(o) && !o.skipCache {
      var cached := cache.Get(key, now);
      if cached.Some? && now < cached.value.expiresAt {
        return Success(CachedResponse(cached.value.data, cached.value.etag, true, false)), None;
      }
    }
    r, sent := SendRequest(cache, etags, token.value, endpoint, key, o, now, respond);
  }

  /** The part of `githubFetchCached` from building the headers on. */
  method SendRequest<D>(cache: MemoryCache<D>, etags: EtagStore, t: string, endpoint: string, key: string, o: CachedOptions, now: int,
                        respond: Request -> HttpResponse<D>)
    returns (r: Result<CachedResponse<D>, Error>, sent: Option<Request>)
    requires cache.Valid()
    modifies cache, etags
    ensures cache.Valid()
    ensures CachedOutcome(ClientState(cache.State(), etags.tags), r, sent)
      == Send(ClientState(old(cache.State()), old(etags.tags)), cache.options, t, endpoint, key, o, now, respond)
  {
    var stored := StoredEtag(etags.tags, key, o);
    var req := ConditionalRequest(t, endpoint, o, stored);
    sent := Some(req);
    var resp := respond(req);
    ghost var s0 := ClientState(cache.State(), etags.tags);
    ghost var expected := Send(s0, cache.options, t, endpoint, key, o, now, respond);
    if resp.status == 304 {
      var cached := cache.Get(key, now);
      if cached.Some? {
        var refreshed := cached.value.(expiresAt := now + CachedTtl(o));
        r := Success(CachedResponse(cached.value.data, stored, true, true));
        assert expected == CachedOutcome(ClientState(SetSpec(cache.State(), cache.options, key, refreshed), s0.etags), r, sent);
        cache.Set(key, refreshed);
        return;
      }
      assert expected == Received(ClientState(cache.State(), etags.tags), cache.options, key, o, now, req, resp);
    } else {
      assert expected == Received(s0, cache.options, key, o, now, req, resp);
    }
    r := ReceiveResponse(cache, etags, key, o, now, req, resp);
  }

  /** The response was not answered from the cache. */
  method ReceiveResponse<D>(cache: MemoryCache<D>, etags: EtagStore, key: string, o: CachedOptions, now: int, req: Request, resp: HttpResponse<D>)
    returns (r: Result<CachedResponse<D>, Error>)
    requires cache.Valid()
    modifies cache, etags
    ensures cache.Valid()
    ensures CachedOutcome(ClientState(cache.State(), etags.tags), r, Some(req))
      == Received(ClientState(old(cache.State()), old(etags.tags)), cache.options, key, o, now, req, resp)
  {
    ghost var s0 := ClientState(cache.State(), etags.tags);
    ghost var expected := Received(s0, cache.options, key, o, now, req, resp);
    if !resp.Ok() {
      return Failure(FailedResponse(resp));
    }
    var etag := resp.Header("etag");
    r := Success(CachedResponse(resp.json, etag, false, false));
    if IsGet(o) {
      // A GET remembers a non-empty ETag and stores the data.
      var entry := CacheEntry(resp.json, now, etag, now + CachedTtl(o));
      ghost var tags := if Present(etag) then s0.etags[key := etag.value] else s0.etags;
      assert expected == CachedOutcome(ClientState(SetSpec(s0.cache, cache.options, key, entry), tags), r, Some(req));
      if Present(etag) {
        etags.tags := etags.tags[key := etag.value];
      }
      cache.Set(key, entry);
    } else {
      assert expected == CachedOutcome(s0, r, Some(req));
    }
  }

  /** `clearGitHubCache`: forget every ETag and empty the cache. */
  method ClearGitHubCache<D>(cache: MemoryCache<D>, etags: EtagStore)
    requires cache.Valid()
    modifies cache, etags
    ensures cache.Valid() && cache.State() == EmptyState() && etags.tags == map[]
  {
    etags.tags := map[];
    cache.Clear();
  }

  // ---------------------------------------------------------------------
  // batchProcess

  const DefaultConcurrency := 10
  const AbortMessage := "Batch processing aborted"

  function Min(a: int, b: int): int {
    if a < b then a else b
  }

  /** The first failing outcome in `[lo, hi)`. */
  function FirstFailure<R>(outcomes: seq<Result<R, Thrown>>, lo: nat, hi: nat): (k: Option<nat>)
    requires lo <= hi <= |outcomes|
    ensures k.None? <==> forall i :: lo <= i < hi ==> outcomes[i].Success?
    ensures k.Some? ==> lo <= k.value < hi && outcomes[k.value].Failure? && forall i :: lo <= i < k.value ==> outcomes[i].Success?
    decreases hi - lo
  {
    if lo == hi then None else if outcomes[lo].Failure? then Some(lo) else FirstFailure(outcomes, lo + 1, hi)
  }

  lemma {:induction false} FirstFailureStep<R>(outcomes: seq<Result<R, Thrown>>, lo: nat, j: nat)
    requires lo <= j < |outcomes|
    ensures FirstFailure(outcomes, lo, j + 1) ==
      if FirstFailure(outcomes, lo, j).Some? then FirstFailure(outcomes, lo, j)
      else if outcomes[j].Failure? then Some(j) else None
    decreases j - lo
  {
    if lo < j && outcomes[lo].Success? {
      FirstFailureStep(outcomes, lo + 1, j);
    }
  }

  /** How many of the outcomes succeeded. */
  function Successes<R>(outcomes: seq<Result<R, Thrown>>): (n: nat)
    ensures n <= |outcomes|
  {
    if outcomes == [] then 0 else Successes(outcomes[..|outcomes| - 1]) + (if outcomes[|outcomes| - 1].Success? then 1 else 0)
  }

  lemma AllSucceededCount<R>(outcomes: seq<Result<R, Thrown>>)
    requires forall i :: 0 <= i < |outcomes| ==> outcomes[i].Success?
    ensures Successes(outcomes) == |outcomes|
  {
    if outcomes != [] {
      AllSucceededCount(outcomes[..|outcomes| - 1]);
    }
  }

  /** Item `i` starts a chunk of `size` items: it is 0, `size`,
      `2 * size`, ... */
  ghost predicate ChunkStart(i: nat, size: nat)
    decreases i
  {
    i == 0 || (size >= 1 && i >= size && ChunkStart(i - size, size))
  }

  /** Chunk starts lie at least `size` apart. */
  lemma {:induction false} ChunkStartsApart(i: nat, c: nat, size: nat)
    requires ChunkStart(i, size) && ChunkStart(c, size) && i < c
    ensures i + size <= c
    decreases i + c
  {
    var p := c - size;
    if p > i {
      ChunkStartsApart(i, p, size);
    } else if p < i {
      ChunkStartsApart(p, i, size);
    }
  }

  /** No chunk starts strictly inside another. */
  lemma NoChunkStartInside(i: nat, c: nat, size: nat)
    requires ChunkStart(i, size) && i < c < i + size
    ensures !ChunkStart(c, size)
  {
    if ChunkStart(c, size) {
      ChunkStartsApart(i, c, size);
    }
  }

  /** The chunk starting at item `c` is reached: every earlier item
      succeeded and the signal was not aborted before an earlier chunk. */
  ghost predicate ChunkReached<R>(outcomes: seq<Result<R, Thrown>>, aborted: int -> bool, size: nat, c: nat)
  {
    && c <= |outcomes|
    && (forall i :: 0 <= i < c ==> outcomes[i].Success?)
    && (forall c' :: 0 <= c' < c && ChunkStart(c', size) ==> !aborted(c'))
  }

  /** The run stopped at the chunk starting at item `c`: the signal was
      aborted there and nothing of the chunk started, or the chunk ran and
      `error` is its first failing item's error. */
  ghost predicate StoppedAt<R>(outcomes: seq<Result<R, Thrown>>, aborted: int -> bool, size: nat, c: nat, started: nat, error: Thrown)
  {
    && c < |outcomes| && ChunkStart(c, size) && ChunkReached(outcomes, aborted, size, c)
    && if aborted(c) then error == Err(PlainError(AbortMessage)) && started == c
       else
         && started == Min(c + size, |outcomes|)
         && FirstFailure(outcomes, c, started).Some?
         && error == outcomes[FirstFailure(outcomes, c, started).value].error
  }

  /** One chunk: every item of `[lo, hi)` is started; each success bumps
      the completed count and reports it with the total. */
  method RunChunk<R>(outcomes: seq<Result<R, Thrown>>, lo: nat, hi: nat, total: nat, progressBefore: seq<(nat, nat)>)
    returns (batch: seq<R>, firstError: Option<Thrown>, progress: seq<(nat, nat)>)
    requires lo <= hi <= |outcomes|
    requires |progressBefore| == Successes(outcomes[..lo])
    requires forall k :: 0 <= k < |progressBefore| ==> progressBefore[k] == (k + 1, total)
    ensures |progress| == Successes(outcomes[..hi])
    ensures forall k :: 0 <= k < |progress| ==> progress[k] == (k + 1, total)
    ensures firstError.None? <==> FirstFailure(outcomes, lo, hi).None?
    ensures firstError.Some? ==> firstError.value == outcomes[FirstFailure(outcomes, lo, hi).value].error
    ensures firstError.None? ==> |batch| == hi - lo && forall k :: lo <= k < hi ==> outcomes[k] == Success(batch[k - lo])
  {
    batch := [];
    firstError := None;
    progress := progressBefore;
    var completed := |progress|;
    var j := lo;
    while j < hi
      invariant lo <= j <= hi
      invariant |progress| == completed == Successes(outcomes[..j])
      invariant forall k :: 0 <= k < |progress| ==> progress[k] == (k + 1, total)
      invariant firstError.None? <==> FirstFailure(outcomes, lo, j).None?
      invariant firstError.Some? ==> firstError.value == outcomes[FirstFailure(outcomes, lo, j).value].error
      invariant firstError.None? ==> |batch| == j - lo && forall k :: lo <= k < j ==> outcomes[k] == Success(batch[k - lo])
      decreases hi - j
    {
      assert outcomes[..j + 1][..j] == outcomes[..j];
      FirstFailureStep(outcomes, lo, j);
      match outcomes[j] {
        case Success(v) =>
          completed := completed + 1;
          progress := progress + [(completed, total)];
          batch := batch + [v];
        case Failure(e) =>
          if firstError.None? {
            firstError := Some(e);
          }
      }
      j := j + 1;
    }
  }

  /** `batchProcess` run sequentially, chunk after chunk. `outcomes[i]` is
      what the processor yields for `items[i]` and `aborted(i)` is the state
      of the signal when the chunk starting at item `i` is about to start.
      A chunk's items are all started; when some of them fail, the call
      fails with the first failing item's error in item order (the source
      rejects with whichever rejection comes first). */
  method BatchProcess<T, R>(items: seq<T>, outcomes: seq<Result<R, Thrown>>, concurrency: Option<int>, aborted: int -> bool)
    returns (r: Result<seq<R>, Thrown>, started: nat, progress: seq<(nat, nat)>)
    requires |outcomes| == |items|
    requires concurrency.GetOr(DefaultConcurrency) >= 1
    ensures var n := |items|; var size := concurrency.GetOr(DefaultConcurrency);
      && (r.Success? <==> ChunkReached(outcomes, aborted, size, n))
      && (r.Success? ==> started == n && |r.value| == n && forall i :: 0 <= i < n ==> outcomes[i] == Success(r.value[i]))
      && (r.Failure? ==> exists c :: StoppedAt(outcomes, aborted, size, c, started, r.error))
      && started <= n
      && |progress| == Successes(outcomes[..started])
      && (forall k :: 0 <= k < |progress| ==> progress[k] == (k + 1, n))
  {
    var n := |items|;
    var size := concurrency.GetOr(DefaultConcurrency);
    var results: seq<R> := [];
    progress := [];
    started := 0;
    var i := 0;
    while i < n
      invariant ChunkStart(i, size) && started == Min(i, n)
      invariant ChunkReached(outcomes, aborted, size, started)
      invariant |results| == started && forall j :: 0 <= j < started ==> outcomes[j] == Success(results[j])
      invariant |progress| == Successes(outcomes[..started])
      invariant forall k :: 0 <= k < |progress| ==> progress[k] == (k + 1, n)
      decreases n - i
    {
      if aborted(i) {
        r := Failure(Err(PlainError(AbortMessage)));
        assert StoppedAt(outcomes, aborted, size, i, started, r.error);
        return;
      }
      var end := Min(i + size, n);
      forall c | i < c < i + size
        ensures !ChunkStart(c, size)
      {
        NoChunkStartInside(i, c, size);
      }
      var batch, firstError;
      batch, firstError, progress := RunChunk(outcomes, i, end, n, progress);
      started := end;
      if firstError.Some? {
        r := Failure(firstError.value);
        assert StoppedAt(outcomes, aborted, size, i, started, r.error);
        return;
      }
      results := results + batch;
      i := i + size;
    }
    AllSucceededCount(outcomes);
    assert outcomes[..started] == outcomes;
    r := Success(results);
  }

  // ---------------------------------------------------------------------
  // withRetry

  const DefaultMaxRetries := 3
  const DefaultBaseDelay := 1000
  const DefaultMaxDelay := 30000

  /** A thrown value is retried unless it is a `GitHubError` (rate-limit
      errors included) with a status below 500 other than 429. */
  predicate Retryable(e: Thrown) {
    !(e.Err? && e.error.IsGitHubError() && e.error.Status() < 500 && e.error.Status() != 429)
  }

  function Pow2(a: nat): (p: nat)
    ensures p >= 1
  {
    if a == 0 then 1 else 2 * Pow2(a - 1)
  }

  /** The wait before attempt `a + 1`: exponential in `a`, plus jitter,
      capped at `maxDelay`. */
  function Backoff(baseDelay: int, maxDelay: int, a: nat, jitter: int): (d: int)
    ensures d <= maxDelay
    ensures d == maxDelay || d == baseDelay * Pow2(a) + jitter
  {
    Min(baseDelay * Pow2(a) + jitter, maxDelay)
  }

  /** The index of the attempt at which the loop stops, counting from
      attempt `a`: the first that succeeds, fails without being retryable,
      or is the last one allowed (`maxRetries`). */
  function StopAttempt<T>(call: nat -> Result<T, Thrown>, maxRetries: int, a: nat): nat
    decreases maxRetries - a
  {
    if call(a).Success? || !Retryable(call(a).error) || a >= maxRetries then a
    else StopAttempt(call, maxRetries, a + 1)
  }

  /** The loop stops within the attempt bound; every attempt before the
      stopping one failed with a retryable error; and it stops before the
      bound only on a success or a non-retryable error. */
  lemma {:induction false} StopAttemptShape<T>(call: nat -> Result<T, Thrown>, maxRetries: int, a: nat)
    requires a <= maxRetries
    ensures var s := StopAttempt(call, maxRetries, a);
      && a <= s <= maxRetries
      && (forall b :: a <= b < s ==> call(b).Failure? && Retryable(call(b).error))
      && (s < maxRetries ==> call(s).Success? || !Retryable(call(s).error))
    decreases maxRetries - a
  {
    if call(a).Success? || !Retryable(call(a).error) || a >= maxRetries {
    } else {
      StopAttemptShape(call, maxRetries, a + 1);
    }
  }

  /** A rate-limit error, whatever its reset time, is thrown at once. */
  lemma RateLimitIsNeverRetried<T>(call: nat -> Result<T, Thrown>, maxRetries: int, a: nat)
    requires call(a).Failure? && call(a).error.Err? && call(a).error.error.RateLimitError?
    ensures StopAttempt(call, maxRetries, a) == a
  {
  }

  /** One `onRetry` notification: the error and the number of the attempt
      about to follow, with the delay waited before it. */
  datatype RetryNote = RetryNote(error: Thrown, attempt: nat, delay: int)

  /** `withRetry`. `call(a)` is the outcome of the `a`-th call of `fn` and
      `jitter(a)` the random part of the delay after it. The result is the
      last call's outcome; with a negative `maxRetries` nothing is called
      and `undefined` is thrown. */
  method WithRetry<T>(call: nat -> Result<T, Thrown>, maxRetries: Option<int>, baseDelay: Option<int>, maxDelay: Option<int>, jitter: nat -> int)
    returns (r: Result<T, Thrown>, calls: nat, notes: seq<RetryNote>)
    ensures var m := maxRetries.GetOr(DefaultMaxRetries);
      && (m < 0 ==> calls == 0 && notes == [] && r == Failure(NonError("undefined")))
      && (m >= 0 ==> calls == StopAttempt(call, m, 0) + 1 && r == call(calls - 1) && |notes| == calls - 1)
    ensures forall a :: 0 <= a < |notes| ==> call(a).Failure? && notes[a] == RetryNote(call(a).error, a + 1,
      Backoff(baseDelay.GetOr(DefaultBaseDelay), maxDelay.GetOr(DefaultMaxDelay), a, jitter(a)))
  {
    var m := maxRetries.GetOr(DefaultMaxRetries);
    var base := baseDelay.GetOr(DefaultBaseDelay);
    var cap := maxDelay.GetOr(DefaultMaxDelay);
    notes := [];
    calls := 0;
    var attempt := 0;
    var lastError := NonError("undefined");
    while attempt <= m
      invariant attempt == calls == |notes| && (m >= 0 ==> attempt <= m)
      invariant attempt == 0 ==> lastError == NonError("undefined")
      invariant m < 0 ==> attempt == 0
      invariant forall a :: 0 <= a < attempt ==> call(a).Failure? && Retryable(call(a).error) && a < m
      invariant forall a :: 0 <= a < |notes| ==> notes[a] == RetryNote(call(a).error, a + 1, Backoff(base, cap, a, jitter(a)))
      invariant m >= 0 ==> StopAttempt(call, m, 0) == StopAttempt(call, m, attempt)
      decreases m + 1 - attempt
    {
      var outcome := call(attempt);
      calls := calls + 1;
      if outcome.Success? {
        return outcome, calls, notes;
      }
      lastError := outcome.error;
      if !Retryable(lastError) {
        return Failure(lastError), calls, notes;
      }
      if attempt < m {
        var delay := Backoff(base, cap, attempt, jitter(attempt));
        notes := notes + [RetryNote(lastError, attempt + 1, delay)];
      } else {
        return Failure(lastError), calls, notes;
      }
      attempt := attempt + 1;
    }
    r := Failure(lastError);
  }

  // ---------------------------------------------------------------------
  // The page loops of getOrgReposCached, getOrgMembersCached,
  // getOrgTeamsCached and getCommitsForReposCached

  const PageSize := 100

  /** The parameters of the request for page `page`: the loop's own
      parameters, then `page` and `per_page`. */
  function PageQuery(base: Params, page: int): Params {
    base + [("page", Some(Num(page))), ("per_page", Some(Num(PageSize)))]
  }

  /** The commit loop ends a repository quietly on 409 (empty repository)
      and 404. */
  predicate EndsRepoQuietly(e: Error) {
    e.IsGitHubError() && (e.Status() == 409 || e.Status() == 404)
  }

  /** What a page loop returns for a run of pages: the items, or the error
      that ended it, unless `skipMissing` lets a 404/409 end it with the
      items read so far. */
  function Collected<T>(run: PageRun<T>, skipMissing: bool): Result<seq<T>, Error> {
    if run.err.None? || (skipMissing && EndsRepoQuietly(run.err.value)) then Success(run.items)
    else Failure(run.err.value)
  }

  /** The loop's result is the pages read in order; a quietly ended
      repository keeps the pages before the one that failed; any other
      error is the failing page's. */
  lemma PageLoopResult<T>(pages: seq<Result<seq<T>, Error>>, maxPages: Option<int>, skipMissing: bool)
    ensures var run := PaginateFrom(pages, PageSize, maxPages, 1);
      var r := Collected(run, skipMissing);
      && (r.Success? <==> run.err.None? || (skipMissing && EndsRepoQuietly(run.err.value)))
      && (run.err.None? ==> r == Success(ConcatPages(pages, 1, run.requested)))
      && (run.err.Some? && r.Success? ==> r.value == ConcatPages(pages, 1, run.requested - 1))
      && (r.Failure? ==> FetchPage(pages, run.requested) == Failure(r.error) && !(skipMissing && EndsRepoQuietly(r.error)))
  {
    PaginateShape(pages, PageSize, maxPages, 1);
  }

  /** With a cap, a page loop requests at most `maxPages` pages, and every
      page but the last it requested was full. */
  lemma PageLoopBounds<T>(pages: seq<Result<seq<T>, Error>>, maxPages: Option<int>)
    ensures var run := PaginateFrom(pages, PageSize, maxPages, 1);
      && (Capped(maxPages) && maxPages.value >= 0 ==> run.requested <= maxPages.value)
      && (forall p :: 1 <= p < run.requested ==> |PageData(pages, p)| >= PageSize)
  {
    PaginateShape(pages, PageSize, maxPages, 1);
  }

  /** A page loop: pages 1, 2, ... until one is shorter than a full page,
      the cap `maxPages` (when truthy) is passed, or a request fails.
      `requests` are the parameters of the requests sent. */
  method CollectPages<T>(pages: seq<Result<seq<T>, Error>>, base: Params, maxPages: Option<int>, skipMissing: bool)
    returns (r: Result<seq<T>, Error>, requests: seq<Params>)
    ensures var run := PaginateFrom(pages, PageSize, maxPages, 1);
      && r == Collected(run, skipMissing)
      && |requests| == run.requested
    ensures forall i :: 0 <= i < |requests| ==> requests[i] == PageQuery(base, i + 1)
  {
    var collected: seq<T> := [];
    var page := 1;
    requests := [];
    while true
      invariant page >= 1 && |requests| == page - 1
      invariant forall i :: 0 <= i < |requests| ==> requests[i] == PageQuery(base, i + 1)
      invariant PaginateFrom(pages, PageSize, maxPages, 1) == PaginateFrom(pages, PageSize, maxPages, page).(items := collected + PaginateFrom(pages, PageSize, maxPages, page).items)
      decreases |pages| + 1 - page
    {
      if Capped(maxPages) && page > maxPages.value {
        assert collected + [] == collected;
        break;
      }
      requests := requests + [PageQuery(base, page)];
      var result := FetchPage(pages, page);
      if result.Failure? {
        assert PaginateFrom(pages, PageSize, maxPages, page).items == [];
        assert collected + [] == collected;
        if skipMissing && EndsRepoQuietly(result.error) {
          return Success(collected), requests;
        }
        return Failure(result.error), requests;
      }
      if |result.value| < PageSize {
        assert PaginateFrom(pages, PageSize, maxPages, page).items == result.value;
        collected := collected + result.value;
        return Success(collected), requests;
      }
      collected := collected + result.value;
      page := page + 1;
    }
    r := Success(collected);
  }

  /** The lists fetched page by page under one cache key. */
  datatype ListKind = Repos | Members | Teams

  function KeyPrefix(kind: ListKind): string {
    match kind
    case Repos => "repos:"
    case Members => "members:"
    case Teams => "teams:"
  }

  /** Repositories are kept five minutes by default, members and teams
      ten. */
  function ListTtl(kind: ListKind): int {
    if kind == Repos then 5 * 60 * 1000 else 10 * 60 * 1000
  }

  function ListEndpoint(kind: ListKind, org: string): string {
    match kind
    case Repos => "/orgs/" + org + "/repos"
    case Members => "/orgs/" + org + "/members"
    case Teams => "/orgs/" + org + "/teams"
  }

  /** The fixed parameters of each list's page requests: all repositories,
      most recently pushed first. */
  function ListParams(kind: ListKind): Params {
    if kind == Repos then [("type", Some(Str("all"))), ("sort", Some(Str("pushed")))] else []
  }

  /** `CachedClientOptions` without the cache object. */
  datatype ClientOptions = ClientOptions(ttl: Option<int>, skipCache: bool)

  /** The `cachedFetch` options a list call passes on. */
  function ListFetchOptions(ttl: int, o: ClientOptions): FetchOptions {
    FetchOptions(Some(o.ttl.GetOr(ttl)), None, o.skipCache, false)
  }

  /** A page loop's result as the fetcher of `cachedFetch` reports it. */
  function AsThrown<T>(r: Result<T, Error>): Result<T, Thrown> {
    match r
    case Success(v) => Success(v)
    case Failure(e) => Failure(Err(e))
  }

  /** `getOrgReposCached` (with `maxPages`), `getOrgMembersCached` and
      `getOrgTeamsCached`: `cachedFetch` under "{kind}:{org}" whose fetcher
      is the page loop. `requests` are the page requests the fetcher sent,
      none when it did not run. */
  method GetListCached<T>(cache: MemoryCache<seq<T>>, inFlight: InFlightRequests, kind: ListKind, org: string,
                          o: ClientOptions, maxPages: Option<int>, now: int, pages: seq<Result<seq<T>, Error>>)
    returns (r: Result<FetchResult<seq<T>>, Thrown>, requests: seq<Params>)
    requires cache.Valid()
    requires inFlight.Valid()
    modifies cache, inFlight
    ensures inFlight.Valid()
    ensures cache.Valid()
    ensures var fetched := AsThrown(Collected(PaginateFrom(pages, PageSize, if kind == Repos then maxPages else None, 1), false));
      var out := CachedFetchSpec(World(old(cache.State()), old(inFlight.State())), cache.options, KeyPrefix(kind) + org,
                                 ListFetchOptions(ListTtl(kind), o), now, fetched);
      && World(cache.State(), inFlight.State()) == out.world && r == out.result
      && (out.started ==> |requests| == PaginateFrom(pages, PageSize, if kind == Repos then maxPages else None, 1).requested)
      && (!out.started ==> requests == [])
    ensures forall i :: 0 <= i < |requests| ==> requests[i] == PageQuery(ListParams(kind), i + 1)
  {
    var list, sent := CollectPages(pages, ListParams(kind), if kind == Repos then maxPages else None, false);
    var started;
    r, started := CachedFetch(cache, inFlight, KeyPrefix(kind) + org, ListFetchOptions(ListTtl(kind), o), now, AsThrown(list));
    requests := if started then sent else [];
  }

  /** `getOrganizationCached`: `cachedFetch` under "org:{org}", kept ten
      minutes by default; `fetched` is what the fetcher's request for
      "/orgs/{org}" yields. */
  method GetOrganizationCached<D>(cache: MemoryCache<D>, inFlight: InFlightRequests, org: string, o: ClientOptions, now: int, fetched: Result<D, Error>)
    returns (r: Result<FetchResult<D>, Thrown>, started: bool)
    requires cache.Valid()
    requires inFlight.Valid()
    modifies cache, inFlight
    ensures inFlight.Valid()
    ensures cache.Valid()
    ensures Outcome(World(cache.State(), inFlight.State()), r, started)
      == CachedFetchSpec(World(old(cache.State()), old(inFlight.State())), cache.options, "org:" + org,
                         ListFetchOptions(10 * 60 * 1000, o), now, AsThrown(fetched))
  {
    r, started := CachedFetch(cache, inFlight, "org:" + org, ListFetchOptions(10 * 60 * 1000, o), now, AsThrown(fetched));
  }

  // ---------------------------------------------------------------------
  // getCommitsForReposCached

  /** The cache key of a repository's commits over a date range; an open
      start reads "all" and an open end "now". */
  function CommitCacheKey(fullName: string, since: Option<string>, until: Option<string>): string {
    "commits:" + fullName + ":" + since.GetOr("all") + ":" + until.GetOr("now")
  }

  /** An optional string parameter; an undefined one is left out of the
      query. */
  function OptionalParam(v: Option<string>): Option<ParamValue> {
    match v
    case Some(t) => Some(Str(t))
    case None => None
  }

  /** The fixed parameters of the commit page requests. */
  function CommitParams(since: Option<string>, until: Option<string>): Params {
    [("since", OptionalParam(since)), ("until", OptionalParam(until))]
  }

  /** The data of a `cachedFetch` result. */
  function DataOf<D>(r: Result<FetchResult<D>, Thrown>): (d: Result<D, Thrown>)
    ensures d.Success? <==> r.Success?
    ensures r.Success? ==> d.value == r.value.data
    ensures r.Failure? ==> d.error == r.error
  {
    match r
    case Success(f) => Success(f.data)
    case Failure(e) => Failure(e)
  }

  /** One repository: `cachedFetch` under its commit key, whose fetcher is
      the commit page loop (404 and 409 end it quietly); `pages` are the
      repository's commit pages for the range. */
  ghost function RepoStep<C>(w: World<seq<C>>, co: CacheOptions, name: string, since: Option<string>, until: Option<string>,
                             o: ClientOptions, now: int, pages: seq<Result<seq<C>, Error>>): (World<seq<C>>, Result<seq<C>, Thrown>)
  {
    var out := CachedFetchSpec(w, co, CommitCacheKey(name, since, until), ListFetchOptions(5 * 60 * 1000, o), now,
                               AsThrown(Collected(PaginateFrom(pages, PageSize, None, 1), true)));
    (out.world, DataOf(out.result))
  }

  /** `worlds` and `outs` replay the first `|outs|` repositories one after
      the other: repository `j` takes world `worlds[j]` to `worlds[j + 1]`
      with outcome `outs[j]`. */
  ghost predicate Replays<C>(worlds: seq<World<seq<C>>>, outs: seq<Result<seq<C>, Thrown>>, co: CacheOptions, names: seq<string>,
                             since: Option<string>, until: Option<string>, o: ClientOptions, now: int,
                             pagesOf: string -> seq<Result<seq<C>, Error>>)
  {
    && |worlds| == |outs| + 1 && |outs| <= |names|
    && forall j :: 0 <= j < |outs| ==>
         (worlds[j + 1], outs[j]) == RepoStep(worlds[j], co, names[j], since, until, o, now, pagesOf(names[j]))
  }

  /** The result map after the outcomes `outs` of the first repositories:
      each one that succeeded under its full name; a later repository of
      the same name replaces an earlier one. */
  function ResultMap<C>(names: seq<string>, outs: seq<Result<seq<C>, Thrown>>): map<string, seq<C>>
    requires |outs| <= |names|
  {
    if outs == [] then map[]
    else
      var k := |outs| - 1;
      var m := ResultMap(names, outs[..k]);
      if outs[k].Success? then m[names[k] := outs[k].value] else m
  }

  /** When every repository succeeded, the map has exactly their names as
      keys, and with distinct names each holds its own repository's
      commits. */
  lemma {:induction false} ResultMapHoldsEveryRepo<C>(names: seq<string>, outs: seq<Result<seq<C>, Thrown>>)
    requires |outs| <= |names|
    requires forall j :: 0 <= j < |outs| ==> outs[j].Success?
    ensures ResultMap(names, outs).Keys == set j | 0 <= j < |outs| :: names[j]
    ensures (forall j, k :: 0 <= j < k < |outs| ==> names[j] != names[k]) ==>
      forall j :: 0 <= j < |outs| ==> ResultMap(names, outs)[names[j]] == outs[j].value
  {
    if outs != [] {
      var n := |outs| - 1;
      ResultMapHoldsEveryRepo(names, outs[..n]);
      assert (set j | 0 <= j < |outs| :: names[j]) == (set j | 0 <= j < n :: names[j]) + {names[n]};
    }
  }

  /** The run stopped after the chunk starting at item `c`, in which some
      repository failed; `error` is the first such failure in item order. */
  ghost predicate ChunkFailed<C>(outs: seq<Result<seq<C>, Thrown>>, n: nat, size: nat, c: nat, error: Thrown)
  {
    && c < n && ChunkStart(c, size) && |outs| == Min(c + size, n)
    && (forall j :: 0 <= j < c ==> outs[j].Success?)
    && FirstFailure(outs, c, |outs|).Some?
    && error == outs[FirstFailure(outs, c, |outs|).value].error
  }

  /** After a chunk that followed successful ones: either it failed, and
      the run stops there, or every repository so far succeeded. */
  lemma ChunkOutcome<C>(outs: seq<Result<seq<C>, Thrown>>, n: nat, size: nat, i: nat)
    requires i < n && ChunkStart(i, size) && |outs| == Min(i + size, n)
    requires forall j :: 0 <= j < i ==> outs[j].Success?
    ensures FirstFailure(outs, i, |outs|).Some? ==> ChunkFailed(outs, n, size, i, outs[FirstFailure(outs, i, |outs|).value].error)
    ensures FirstFailure(outs, i, |outs|).None? ==> forall j :: 0 <= j < |outs| ==> outs[j].Success?
  {
  }

  /** One repository of `getCommitsForReposCached`. */
  method RepoCommits<C>(cache: MemoryCache<seq<C>>, inFlight: InFlightRequests, name: string, since: Option<string>, until: Option<string>,
                        o: ClientOptions, now: int, pages: seq<Result<seq<C>, Error>>)
    returns (r: Result<seq<C>, Thrown>)
    requires cache.Valid()
    requires inFlight.Valid()
    modifies cache, inFlight
    ensures inFlight.Valid()
    ensures cache.Valid()
    ensures (World(cache.State(), inFlight.State()), r)
      == RepoStep(World(old(cache.State()), old(inFlight.State())), cache.options, name, since, until, o, now, pages)
  {
    var commits, _ := CollectPages(pages, CommitParams(since, until), None, true);
    var fetched, _ := CachedFetch(cache, inFlight, CommitCacheKey(name, since, until), ListFetchOptions(5 * 60 * 1000, o), now, AsThrown(commits));
    r := DataOf(fetched);
  }

  /** The next repository of the run. */
  method NextRepo<C>(cache: MemoryCache<seq<C>>, inFlight: InFlightRequests, names: seq<string>,
                     since: Option<string>, until: Option<string>, o: ClientOptions, now: int,
                     pagesOf: string -> seq<Result<seq<C>, Error>>,
                     ghost worldsBefore: seq<World<seq<C>>>, outsBefore: seq<Result<seq<C>, Thrown>>, resultsBefore: map<string, seq<C>>)
    returns (ghost worlds: seq<World<seq<C>>>, outs: seq<Result<seq<C>, Thrown>>, results: map<string, seq<C>>)
    requires cache.Valid() && |outsBefore| < |names|
    requires Replays(worldsBefore, outsBefore, cache.options, names, since, until, o, now, pagesOf)
    requires worldsBefore[|outsBefore|] == World(cache.State(), inFlight.State())
    requires resultsBefore == ResultMap(names, outsBefore)
    requires inFlight.Valid()
    modifies cache, inFlight
    ensures inFlight.Valid()
    ensures cache.Valid()
    ensures Replays(worlds, outs, cache.options, names, since, until, o, now, pagesOf)
    ensures |outs| == |outsBefore| + 1 && |worlds| == |worldsBefore| + 1
    ensures worlds[0] == worldsBefore[0] && forall j :: 0 <= j < |outsBefore| ==> outs[j] == outsBefore[j]
    ensures worlds[|outs|] == World(cache.State(), inFlight.State())
    ensures results == ResultMap(names, outs)
  {
    var j := |outsBefore|;
    var out := RepoCommits(cache, inFlight, names[j], since, until, o, now, pagesOf(names[j]));
    outs := outsBefore + [out];
    worlds := worldsBefore + [World(cache.State(), inFlight.State())];
    results := if out.Success? then resultsBefore[names[j] := out.value] else resultsBefore;
    ReplaysSnoc(worldsBefore, outsBefore, World(cache.State(), inFlight.State()), out, cache.options, names, since, until, o, now, pagesOf);
    assert outs[..j] == outsBefore;
  }

  lemma ReplaysSnoc<C>(worlds: seq<World<seq<C>>>, outs: seq<Result<seq<C>, Thrown>>, w: World<seq<C>>, out: Result<seq<C>, Thrown>,
                       co: CacheOptions, names: seq<string>, since: Option<string>, until: Option<string>, o: ClientOptions, now: int,
                       pagesOf: string -> seq<Result<seq<C>, Error>>)
    requires Replays(worlds, outs, co, names, since, until, o, now, pagesOf) && |outs| < |names|
    requires (w, out) == RepoStep(worlds[|outs|], co, names[|outs|], since, until, o, now, pagesOf(names[|outs|]))
    ensures Replays(worlds + [w], outs + [out], co, names, since, until, o, now, pagesOf)
  {
    var ws, os := worlds + [w], outs + [out];
    forall j | 0 <= j < |os|
      ensures (ws[j + 1], os[j]) == RepoStep(ws[j], co, names[j], since, until, o, now, pagesOf(names[j]))
    {
      if j < |outs| {
        assert ws[j + 1] == worlds[j + 1] && ws[j] == worlds[j] && os[j] == outs[j];
      }
    }
  }

  /** One chunk of repositories, `[lo, hi)`, all of them processed, after
      repositories that all succeeded; `failure` is the first failure of
      the chunk in item order. */
  method CommitChunk<C>(cache: MemoryCache<seq<C>>, inFlight: InFlightRequests, names: seq<string>, size: nat, hi: nat,
                        since: Option<string>, until: Option<string>, o: ClientOptions, now: int,
                        pagesOf: string -> seq<Result<seq<C>, Error>>,
                        ghost worldsBefore: seq<World<seq<C>>>, outsBefore: seq<Result<seq<C>, Thrown>>, resultsBefore: map<string, seq<C>>)
    returns (ghost worlds: seq<World<seq<C>>>, outs: seq<Result<seq<C>, Thrown>>, results: map<string, seq<C>>, failure: Option<Thrown>)
    requires cache.Valid() && |outsBefore| < |names| && ChunkStart(|outsBefore|, size) && hi == Min(|outsBefore| + size, |names|)
    requires forall j :: 0 <= j < |outsBefore| ==> outsBefore[j].Success?
    requires Replays(worldsBefore, outsBefore, cache.options, names, since, until, o, now, pagesOf)
    requires worldsBefore[|outsBefore|] == World(cache.State(), inFlight.State())
    requires resultsBefore == ResultMap(names, outsBefore)
    requires inFlight.Valid()
    modifies cache, inFlight
    ensures inFlight.Valid()
    ensures cache.Valid() && |outs| == hi
    ensures Replays(worlds, outs, cache.options, names, since, until, o, now, pagesOf)
    ensures worlds[0] == worldsBefore[0] && worlds[hi] == World(cache.State(), inFlight.State())
    ensures results == ResultMap(names, outs)
    ensures failure.Some? ==> ChunkFailed(outs, |names|, size, |outsBefore|, failure.value)
    ensures failure.None? ==> forall j :: 0 <= j < hi ==> outs[j].Success?
    ensures hi < |names| ==> ChunkStart(hi, size)
  {
    var lo := |outsBefore|;
    worlds, outs, results := worldsBefore, outsBefore, resultsBefore;
    ghost var w0 := worldsBefore[0];
    while |outs| < hi
      invariant lo <= |outs| <= hi && |worlds| > 0 && worlds[0] == w0
      invariant forall j :: 0 <= j < lo ==> outs[j].Success?
      invariant cache.Valid() && inFlight.Valid()
      invariant Replays(worlds, outs, cache.options, names, since, until, o, now, pagesOf)
      invariant worlds[|outs|] == World(cache.State(), inFlight.State())
      invariant results == ResultMap(names, outs)
      decreases hi - |outs|
    {
      ghost var prevWorlds := worlds;
      worlds, outs, results := NextRepo(cache, inFlight, names, since, until, o, now, pagesOf, worlds, outs, results);
      assert worlds[0] == prevWorlds[0];
    }
    ChunkOutcome(outs, |names|, size, lo);
    var first := FirstFailure(outs, lo, hi);
    failure := if first.Some? then Some(outs[first.value].error) else None;
    if hi < |names| {
      assert hi - size == lo;
    }
  }

  /** `getCommitsForReposCached`: the repositories in chunks of
      `concurrency` (default 10), each chunk run to the end; a failure ends
      the call after its chunk with the first failing repository's error.
      `pagesOf(name)` are the commit pages of repository `name` for the
      range; `outs` are the outcomes of the repositories started and
      `worlds` the cache and in-flight states between them. */
  method CommitsForRepos<C>(cache: MemoryCache<seq<C>>, inFlight: InFlightRequests, names: seq<string>,
                            since: Option<string>, until: Option<string>, o: ClientOptions, concurrency: Option<int>, now: int,
                            pagesOf: string -> seq<Result<seq<C>, Error>>)
    returns (r: Result<map<string, seq<C>>, Thrown>, outs: seq<Result<seq<C>, Thrown>>, ghost worlds: seq<World<seq<C>>>)
    requires cache.Valid()
    requires concurrency.GetOr(DefaultConcurrency) >= 1
    requires inFlight.Valid()
    modifies cache, inFlight
    ensures inFlight.Valid()
    ensures cache.Valid()
    ensures Replays(worlds, outs, cache.options, names, since, until, o, now, pagesOf)
    ensures worlds[0] == World(old(cache.State()), old(inFlight.State())) && worlds[|outs|] == World(cache.State(), inFlight.State())
    ensures r.Success? ==> |outs| == |names| && (forall j :: 0 <= j < |outs| ==> outs[j].Success?) && r.value == ResultMap(names, outs)
    ensures r.Failure? ==> exists c :: ChunkFailed(outs, |names|, concurrency.GetOr(DefaultConcurrency), c, r.error)
  {
    var n := |names|;
    var size: nat := concurrency.GetOr(DefaultConcurrency);
    worlds := [World(cache.State(), inFlight.State())];
    var results: map<string, seq<C>> := map[];
    outs := [];
    while |outs| < n
      invariant |outs| <= n && |worlds| == |outs| + 1 && (|outs| < n ==> ChunkStart(|outs|, size))
      invariant cache.Valid() && inFlight.Valid()
      invariant Replays(worlds, outs, cache.options, names, since, until, o, now, pagesOf)
      invariant worlds[0] == World(old(cache.State()), old(inFlight.State())) && worlds[|outs|] == World(cache.State(), inFlight.State())
      invariant forall j :: 0 <= j < |outs| ==> outs[j].Success?
      invariant results == ResultMap(names, outs)
      decreases n - |outs|
    {
      var i := |outs|;
      var failure;
      worlds, outs, results, failure := CommitChunk(cache, inFlight, names, size, Min(i + size, n), since, until, o, now, pagesOf, worlds, outs, results);
      if failure.Some? {
        return Failure(failure.value), outs, worlds;
      }
    }
    r := Success(results);
  }
}
