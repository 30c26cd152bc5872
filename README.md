# pondus GitHub data layer in Dafny

pondus reads GitHub organisation data (members, teams, repositories,
commits) and turns it into statistics for a CLI, a desktop app and a web
leaderboard. This project models the data-access layer behind all three,
together with the pure logic around it. Each module below matches one source
file:

- `CacheMemory` (`memory_cache.dfy`): the in-memory LRU cache with TTL
  expiry and hit/miss counters. It is a class proved against a state-level
  specification.
- `CacheIndex` (`cache_index.dfy`):
  - the in-flight request table that deduplicates concurrent fetches;
  - `cachedFetch`'s decision between serving fresh, serving stale while
    revalidating, and fetching and storing;
  - `createCache`.
- `CachedClient` (`cached_client.dfy`): the cached GitHub client.
  - The cache key and its strict freshness rule.
  - ETag and 304 handling.
  - Error mapping.
  - `batchProcess`, `withRetry` and the page loops.
  - The per-repository commit loop.
  - `clearGitHubCache`.
- `GitHubErrors` (`errors.dfy`) and `GitHubClient` (`github_client.dfy`):
  the error classes and their messages, query parameters, `paginate` and
  `collectPaginated`.
- `CommitStats` (`commit_stats.dfy`): the CLI's commit statistics.
  - Batching.
  - Filtering commits by author login, bot type and membership.
  - Counting per author.
  - Ranking.
  - The report with its total and top-N cut.
- `DesktopStore` (`desktop_store.dfy`): the desktop app's organisation store.
  - Its loading/error state transitions.
  - Its top-ten commit aggregation.
- `Leaderboard` (`leaderboard.dfy`): the web leaderboard.
  - Chunked fetching.
  - Organisation details and star sums.
  - Fallback lists and ranking.
- `Ranking` (`ranking.dfy`): the stable descending sort shared by the
  rankings.
- `Table` (`table.dfy`): the CLI's text output.
  - `stripAnsi` and `padString`.
  - Column widths.
  - CSV and table rendering.
  - Key/value listings.
- `ErrorFormat` (`error_format.dfy`): the CLI's `formatError`.
- `Auth` (`auth.dfy`): token detection, `getToken`, `getAuthStatus` and
  scope parsing.
- `Dates` (`dates.dfy`): the default year range, quarter ranges and month
  ranges.
- `StatsCommand` (`stats_command.dfy`): the `stats commits` flag handling.
- `Text` and `Wrappers`: decimal rendering and `parseInt`, `split`/`join`,
  and `Option`/`Result`.

The world outside the program is passed in as parameters:

- The clock is an integer `now` in milliseconds.
- HTTP responses, command output and the environment are parameters.
- Pages are finite sequences of page outcomes.
- A promise is an abstract handle. Chunks that the source runs with
  `Promise.all` run one after another here.

Stateful code is modelled as Dafny classes whose methods are proved equal to
specification functions. Those functions carry the lemmas.

## Model

| member | source | states |
|---|---|---|
| CacheMemory.MemoryCache.constructor | packages/core/src/cache/memory.ts:15-21 | Omitted options take the defaults: ttl 300000 ms, staleWhileRevalidate 0, maxEntries 1000. The cache starts empty with zeroed counters. |
| CacheMemory.MemoryCache.Get | packages/core/src/cache/memory.ts:23-46 | The map, access list, counters and returned entry are exactly those of `GetSpec`, and the cache invariant is kept. |
| CacheMemory.MemoryCache.Set | packages/core/src/cache/memory.ts:48-57 | The new state is `SetSpec` of the old one: evict when a new key meets a full cache, store, move the key to the most recent end, recount. The invariant is kept. |
| CacheMemory.MemoryCache.Delete | packages/core/src/cache/memory.ts:59-63 | The key leaves the map and the access list, and the entry count is the new map size. |
| CacheMemory.MemoryCache.Clear | packages/core/src/cache/memory.ts:65-69 | The map and access list are empty and all three counters are zero. |
| CacheMemory.MemoryCache.Has | packages/core/src/cache/memory.ts:71-74 | `has` holds exactly when `get` returns an entry, and it has all of `get`'s effects on the state. |
| CacheMemory.MemoryCache.Stats | packages/core/src/cache/memory.ts:76-78 | Returns a copy of the counters, whose entry count is the map size. |
| CacheMemory.MemoryCache.UpdateAccessOrder | packages/core/src/cache/memory.ts:100-103 | The access list becomes `Touch`: the key's first occurrence is removed and the key is appended. |
| CacheMemory.MemoryCache.RemoveFromAccessOrder | packages/core/src/cache/memory.ts:105-110 | The access list loses the first occurrence of the key, if any. |
| CacheMemory.MemoryCache.EvictLRU | packages/core/src/cache/memory.ts:112-117 | The front key is shifted off the access list and deleted from the map (`EvictSpec`). |
| CacheMemory.IndexOf | packages/core/src/cache/memory.ts:106 | `indexOf`: -1 exactly when the key is absent, otherwise the first position holding it. |
| CacheMemory.RemoveFirstElems | packages/core/src/cache/memory.ts:105-110 | Removing a key from a duplicate-free list keeps it duplicate-free. It leaves exactly the other elements and shortens the list by one when the key was there. |
| CacheMemory.RemoveFirstAt | packages/core/src/cache/memory.ts:106-108 | Removing at the first index of the key is `splice(index, 1)`. |
| CacheMemory.RemoveFirstAbsent | packages/core/src/cache/memory.ts:107 | An absent key leaves the list unchanged. |
| CacheMemory.TouchElems | packages/core/src/cache/memory.ts:100-103 | Touching keeps the list duplicate-free. It adds the key and grows the list only for a new key. |
| CacheMemory.NoDupCard | packages/core/src/cache/memory.ts:11 | A duplicate-free access list has as many distinct keys as elements. |
| CacheMemory.SizeIsOrderLength | packages/core/src/cache/memory.ts:38-62 | Under the invariant the map size equals the access-list length. |
| CacheMemory.GetReturnsLiveEntries | packages/core/src/cache/memory.ts:26-45 | `get` returns the stored entry exactly when the key is present and `now <= expiresAt + staleWhileRevalidate`. |
| CacheMemory.GetAbsentCountsMissOnly | packages/core/src/cache/memory.ts:24-29 | A get on an absent key returns null, adds one miss and changes nothing else. |
| CacheMemory.GetDropsExpired | packages/core/src/cache/memory.ts:32-40 | An entry past the stale window is removed from both the map and the access list. It counts one miss and the entry count becomes the new size. |
| CacheMemory.GetHitTouchesKey | packages/core/src/cache/memory.ts:42-45 | A hit keeps the map, counts one hit and moves the key to the most recent end. |
| CacheMemory.GetPreservesInv | packages/core/src/cache/memory.ts:23-46 | `get` keeps the invariant: a duplicate-free access list of exactly the map's keys, the entry count equal to the map size, and the size bounded. |
| CacheMemory.EvictLRUDropsFront | packages/core/src/cache/memory.ts:112-117 | Eviction removes exactly the least recently used key and keeps the structures coherent. |
| CacheMemory.InsertKeepsCoherent | packages/core/src/cache/memory.ts:54-56 | Storing and touching a key keeps the structures coherent and the entry count right. |
| CacheMemory.SetPreservesInv | packages/core/src/cache/memory.ts:48-57 | `set` keeps the invariant. |
| CacheMemory.SizeNeverExceedsMaxEntries | packages/core/src/cache/memory.ts:49-52 | With maxEntries at least 1, the map never holds more than maxEntries entries after `set`. |
| CacheMemory.SetEvictsLeastRecentlyUsed | packages/core/src/cache/memory.ts:49-117 | A new key set into a full cache evicts exactly the front of the access list. |
| CacheMemory.SetOverwriteNeverEvicts | packages/core/src/cache/memory.ts:50 | Overwriting a present key keeps the key set unchanged. |
| CacheMemory.DeletePreservesInv | packages/core/src/cache/memory.ts:59-63 | `delete` keeps the invariant and removes the key. |
| CacheMemory.ClearPreservesInv | packages/core/src/cache/memory.ts:65-69 | `clear` empties both structures, zeroes every counter and keeps the invariant. |
| CacheMemory.StaleEntriesServedInWindow | packages/core/src/cache/memory.ts:33-85 | A present entry is served exactly while `now <= expiresAt + staleWhileRevalidate`. The boundary itself is still served. |
| CacheMemory.CreatedEntryLifetime | packages/core/src/cache/memory.ts:90-98 | `createEntry` stamps `now` and expires at `now + ttl`. The entry is stale (`isStale`) exactly at instants after that. |
| CacheMemory.FillInOrder | packages/core/src/cache/memory.ts:48-57 | Setting up to maxEntries distinct keys into an empty cache keeps them all, in insertion order. |
| CacheMemory.FillStep | packages/core/src/cache/memory.ts:48-57 | One new key into a cache that is not full is appended without eviction. |
| CacheMemory.OverflowEvictsFirstKey | packages/core/src/cache/memory.ts:49-117 | After maxEntries+1 distinct keys, only the first inserted key has been evicted. |
| CacheMemory.SetIntoFull | packages/core/src/cache/memory.ts:49-52 | One key into a full cache evicts the oldest key and keeps the rest. |
| CacheMemory.EvictionKeepsTheRest | packages/core/src/cache/memory.ts:112-117 | Dropping the front key and adding a new one keeps every other key. |
| CacheMemory.EmptyKeyEscapesEviction | packages/core/src/cache/memory.ts:112-117 | As written, with one slot, setting "" and then "a" keeps both keys: the size goes over maxEntries and "" leaves the access list. |
| CacheIndex.InFlightRequests.constructor | packages/core/src/cache/index.ts:34 | The in-flight table starts empty, and every handle in it is one the table issued (`Valid`). |
| CacheIndex.InFlightRequests.DeduplicatedFetch | packages/core/src/cache/index.ts:40-59 | The table and the caller's handle are exactly `Register`'s: join the pending promise, or start the fetcher and register it. Every handle in the table stays below the next one to be issued. |
| CacheIndex.InFlightRequests.Settled | packages/core/src/cache/index.ts:52-55 | When the promise settles, the key leaves the table, and the handle invariant is kept. |
| CacheIndex.InFlightRequests.Clear | packages/core/src/cache/index.ts:64-66 | The table is emptied, and the handle invariant is kept. |
| CacheIndex.JoinWhileInFlight | packages/core/src/cache/index.ts:45-48 | While a key is in flight, a caller gets the registered promise, does not start its fetcher, and the table is unchanged. |
| CacheIndex.StartWhenIdle | packages/core/src/cache/index.ts:51-58 | For an idle key the fetcher starts. Its promise is registered under a handle distinct from every pending one. |
| CacheIndex.RegisterManyJoins | packages/core/src/cache/index.ts:45-48 | Any number of callers for an in-flight key all join the same promise and leave the table unchanged. |
| CacheIndex.ConcurrentCallersShareOneFetch | packages/core/src/cache/index.ts:40-59 | n callers for an idle key start exactly one fetch, the first, and all await the same promise. |
| CacheIndex.SettledKeyFetchesAgain | packages/core/src/cache/index.ts:52-55 | After the promise settles, on success or failure, the next caller starts a new fetch with a new promise. |
| CacheIndex.ClearAllEmpties | packages/core/src/cache/index.ts:64-66 | `clearInFlightRequests` leaves the table empty. |
| CacheIndex.Decide | packages/core/src/cache/index.ts:84-131 | The four cases: bypass iff skipCache; serve fresh iff an entry exists, `now <= expiresAt` and not forceRevalidate; serve stale iff an entry exists, `now > expiresAt` and staleWhileRevalidate is truthy; fetch otherwise. |
| CacheIndex.SkipCacheLeavesStoreAlone | packages/core/src/cache/index.ts:84-88 | With skipCache the store is neither read nor written, and the result has fromCache and stale both false. |
| CacheIndex.FreshEntryServedWithoutFetch | packages/core/src/cache/index.ts:93-99 | A fresh entry is returned with fromCache true and stale false. Nothing is fetched and the store's entries are unchanged. |
| CacheIndex.StaleEntryServedWhileRevalidating | packages/core/src/cache/index.ts:102-118 | An entry past expiresAt is returned with stale true. A revalidation is registered under key + ":revalidate", and the caller's result does not depend on its outcome. The caller's fetcher is started, by that revalidation, iff no revalidation of the key was already in flight. |
| CacheIndex.RefetchStoresFreshEntry | packages/core/src/cache/index.ts:97-131 | Any other case fetches through the table. On success it stores {data, now, no etag, now + ttl (default 300000)} and returns fromCache false and stale false. A failure reaches the caller and writes nothing. |
| CacheIndex.NoStaleResultWithoutCacheWindow | packages/core/src/cache/index.ts:91-102 | A memory cache without a stale window never returns an expired entry, so no result is ever marked stale. |
| CacheIndex.CachedFetchPreservesInv | packages/core/src/cache/index.ts:71-132 | The cache invariant survives `cachedFetch` and the background revalidation. |
| CacheIndex.AfterLookupPreservesInv | packages/core/src/cache/index.ts:93-131 | The cache invariant survives every branch after the lookup. |
| CacheIndex.FailedRevalidationIsSilent | packages/core/src/cache/index.ts:104-116 | A failed revalidation leaves the cache as it was and releases its registration. |
| CacheIndex.CachedFetch | packages/core/src/cache/index.ts:71-132 | Result, started flag, cache and table are exactly `CachedFetchSpec` of the old state. |
| CacheIndex.ActOnLookup | packages/core/src/cache/index.ts:93-131 | The branches after `cache.get` follow `AfterLookup`. |
| CacheIndex.FetchAndStore | packages/core/src/cache/index.ts:123-131 | The fetch branch follows `RefetchSpec`. |
| CacheIndex.AwaitInFlight | packages/core/src/cache/index.ts:51-58 | Awaiting a deduplicated fetch registers it, then settles it. |
| CacheIndex.StoreOnSuccess | packages/core/src/cache/index.ts:124-129 | Only a fetch that resolved writes the cache, and it writes the fresh entry. |
| CacheIndex.FinishRevalidation | packages/core/src/cache/index.ts:104-116 | The background revalidation stores fresh data on success, swallows a failure and settles its key. |
| CacheIndex.CreateCache | packages/core/src/cache/index.ts:19-29 | A memory cache with the resolved options unless the disk kind is asked for. The disk cache is null here. |
| GitHubErrors.ApiErrorMessageParts | src/lib/github/client.ts:24 | The message starts with "GitHub API error: " followed by the status, and `parseInt` reads that status back. |
| GitHubErrors.MessageCarriesStatusAndBody | src/lib/github/client.ts:18-37 | Every `GitHubError`, a `RateLimitError` included (status 403, "Rate Limit Exceeded"), has a message that carries its status. " - body" is appended exactly when the body is non-empty. |
| GitHubErrors.ResponseError | src/lib/github/client.ts:69-76 | A non-ok response always becomes a `GitHubError`. It is a `RateLimitError` iff the status is 403 and the reset header is non-empty. Status and body are the response's. |
| GitHubErrors.ResetHeaderInSeconds | src/lib/github/client.ts:72 | A reset header of n seconds gives the instant n * 1000 ms. |
| GitHubClient.SetParamAppends | src/lib/github/client.ts:53 | `searchParams.set` with a new key appends the pair. |
| GitHubClient.ApplyParamsKeepsDefined | src/lib/github/client.ts:50-56 | With distinct keys, applying the parameters appends exactly the defined ones, in order, rendered with `String`. Undefined ones are skipped. |
| GitHubClient.SpreadSets | src/lib/github/client.ts:92 | `{ ...params, key: value }` keeps keys distinct, holds the new pair and keeps every other pair. Every pair other than the new key comes from `params`. |
| GitHubClient.PageParamsCarryPage | src/lib/github/client.ts:92 | Each page request carries `page` and `per_page` with the loop's values, once each, plus every other caller parameter. |
| GitHubClient.BuildRequest | src/lib/github/client.ts:45-67 | The verb defaults to GET. The first header is the bearer token. Content-Type JSON is present iff there is a body. |
| GitHubClient.GithubFetch | src/lib/github/client.ts:45-79 | Without a token the token's error is thrown and nothing is sent. Otherwise the call succeeds iff the response is ok, returning its JSON. A failure is a `GitHubError` with the response's status and body, and a `RateLimitError` iff it was a 403 with a reset header. |
| GitHubClient.FetchPage | src/lib/github/client.ts:91-93 | A page past the listed ones is empty. |
| GitHubClient.PaginateShape | src/lib/github/client.ts:81-104 | The pages requested are consecutive and none lies past a truthy `maxPages`. Every page before the last was full and succeeded. The items are those pages' items in order. An error ends the loop at the failing page. |
| GitHubClient.PaginateStopsForAReason | src/lib/github/client.ts:89-101 | Without an error the loop ends only at the cap, at an empty page or at a short page. |
| GitHubClient.Paginate | src/lib/github/client.ts:81-104 | Items yielded, the number of requests and the ending error are those of `PaginateFrom`. Request i carries page i + 1 and `per_page` (default 100). |
| GitHubClient.CollectPaginated | src/lib/github/client.ts:106-115 | Success iff no page failed, with every item of the pages read, in order. Otherwise the failing page's error, with the items read so far lost. |
| CachedClient.CacheKeyUsesDefinedParams | packages/core/src/github/cached-client.ts:48-57 | The cache key is "github:" + the URL whose query holds exactly the defined parameters. |
| CachedClient.CacheHitIsStrict | packages/core/src/github/cached-client.ts:60-65 | A GET that reads the cache sends no request iff the entry `get` returns is strictly before its expiry. It then returns the entry's data and ETag with fromCache true. |
| CachedClient.IfNoneMatchOnlyForKnownGet | packages/core/src/github/cached-client.ts:79-82 | If-None-Match is sent iff the request is a GET, useEtag is on (default true) and a non-empty ETag is stored for the key. It then carries that ETag. |
| CachedClient.NotModifiedServesCachedData | packages/core/src/github/cached-client.ts:87-107 | A 304 with an entry still cached returns its data with notModified and the ETag sent, and rewrites only the expiry, to now + ttl. A 304 without one becomes `GitHubError(304)`. The ETag map is untouched. |
| CachedClient.ErrorResponsesWriteNothing | packages/core/src/github/cached-client.ts:100-107 | Any other non-ok response leaves cache and ETag map unchanged. It throws an error with the response's status, a `RateLimitError` iff it was a 403 with a reset header. |
| CachedClient.SuccessfulGetStores | packages/core/src/github/cached-client.ts:109-127 | An ok GET returns the JSON with fromCache false. It stores {data, now, etag, now + ttl}, and remembers the ETag iff it is non-empty. |
| CachedClient.NonGetWritesNothing | packages/core/src/github/cached-client.ts:113-118 | A non-GET request that is not answered with 304 writes neither the cache nor the ETag map. |
| CachedClient.SkipCacheStillStores | packages/core/src/github/cached-client.ts:60-125 | skipCache only skips the read: an ok GET still stores its entry. |
| CachedClient.FetchCachedPreservesInv | packages/core/src/github/cached-client.ts:33-128 | The memory cache's invariant survives a call. |
| CachedClient.SendPreservesInv | packages/core/src/github/cached-client.ts:84-127 | The memory cache's invariant survives everything after the cache read. |
| CachedClient.EtagStore.constructor | packages/core/src/github/cached-client.ts:11 | The ETag map starts empty. |
| CachedClient.GithubFetchCached | packages/core/src/github/cached-client.ts:33-128 | Result, request sent, cache and ETag map are exactly `FetchCachedSpec` of the old state. |
| CachedClient.SendRequest | packages/core/src/github/cached-client.ts:68-97 | Follows `Send`: the conditional request and the 304 branch. |
| CachedClient.ReceiveResponse | packages/core/src/github/cached-client.ts:99-127 | Follows `Received`: the error mapping, then the ETag and cache writes of a GET. |
| CachedClient.ClearGitHubCache | packages/core/src/github/cached-client.ts:397-400 | The ETag map and the cache are both emptied. |
| CachedClient.FirstFailure | packages/core/src/github/cached-client.ts:153-160 | None iff every outcome in the range succeeded. Otherwise the lowest failing index. |
| CachedClient.FirstFailureStep | packages/core/src/github/cached-client.ts:153-160 | Extending the range by one item finds a new failure only if there was none before. |
| CachedClient.AllSucceededCount | packages/core/src/github/cached-client.ts:156-157 | With no failure every item is counted as completed. |
| CachedClient.ChunkStartsApart | packages/core/src/github/cached-client.ts:147 | Chunk starts 0, size, 2 * size, ... lie at least `size` apart. |
| CachedClient.NoChunkStartInside | packages/core/src/github/cached-client.ts:147-152 | No chunk starts strictly inside another, so chunks do not overlap. |
| CachedClient.RunChunk | packages/core/src/github/cached-client.ts:152-161 | Every item of the chunk runs. Each success reports (completed, total) with the count rising by one. Without a failure the results are the chunk's values in order; with one, the first failure in item order is reported. |
| CachedClient.BatchProcess | packages/core/src/github/cached-client.ts:133-165 | Success iff every item succeeds and no chunk start saw the abort signal. The results are then in item order. Otherwise the run stopped at one chunk, with "Batch processing aborted" before it started or with its first failure after running all of it. Progress reports count 1, 2, ... with the item total. |
| CachedClient.Backoff | packages/core/src/github/cached-client.ts:195 | The delay is baseDelay * 2^attempt + jitter, capped at maxDelay. |
| CachedClient.StopAttemptShape | packages/core/src/github/cached-client.ts:182-200 | The loop stops within maxRetries. Every earlier attempt failed retryably. It stops early only on a success or a non-retryable error. |
| CachedClient.RateLimitIsNeverRetried | packages/core/src/github/cached-client.ts:189-191 | A `RateLimitError` (status 403 below 500) is thrown at once. |
| CachedClient.WithRetry | packages/core/src/github/cached-client.ts:170-203 | With maxRetries (default 3) below 0, nothing is called and `undefined` is thrown. Otherwise the number of calls is one past the stopping attempt and the result is the last call's. One onRetry note follows each retried failure, carrying the attempt number that follows and its delay. |
| CachedClient.PageLoopResult | packages/core/src/github/cached-client.ts:244-383 | A page loop returns the pages read in order. A 404/409 in the commit loop ends it with the earlier pages. Any other error is the failing page's. |
| CachedClient.PageLoopBounds | packages/core/src/github/cached-client.ts:245-255 | With a cap at most maxPages pages are requested. Every page but the last was full. |
| CachedClient.CollectPages | packages/core/src/github/cached-client.ts:240-259 | The result and the number of requests are those of the page loop. Request i carries the loop's parameters with page i + 1 and per_page 100. |
| CachedClient.GetListCached | packages/core/src/github/cached-client.ts:233-323 | `cachedFetch` under "repos:/members:/teams:" + org, with the default ttl (5 minutes for repositories, 10 for the others). The page loop (capped by maxPages for repositories) is its fetcher. Page requests are sent only when the fetcher started. |
| CachedClient.GetOrganizationCached | packages/core/src/github/cached-client.ts:218-228 | `cachedFetch` under "org:" + org with a default ttl of 10 minutes. |
| CachedClient.DataOf | packages/core/src/github/cached-client.ts:354 | The data of a result, with the failure kept. |
| CachedClient.ResultMapHoldsEveryRepo | packages/core/src/github/cached-client.ts:347-386 | When every repository succeeded, the map's keys are exactly their full names. With distinct names each key holds its own repository's commits. |
| CachedClient.ChunkOutcome | packages/core/src/github/cached-client.ts:349-389 | After a chunk either some repository failed, and the run stops there, or every repository so far succeeded. |
| CachedClient.RepoCommits | packages/core/src/github/cached-client.ts:351-387 | One repository is `cachedFetch` under "commits:{name}:{since or all}:{until or now}", whose fetcher is the commit page loop. |
| CachedClient.ReplaysSnoc | packages/core/src/github/cached-client.ts:349-389 | Replaying one more repository extends the recorded run. |
| CachedClient.NextRepo | packages/core/src/github/cached-client.ts:351-387 | The next repository steps the cache and table as `RepoStep` does, and the result map stays `ResultMap` of the outcomes. |
| CachedClient.CommitChunk | packages/core/src/github/cached-client.ts:351-387 | A chunk runs every repository in it. Any failure is the chunk's first failure in item order. |
| CachedClient.CommitsForRepos | packages/core/src/github/cached-client.ts:328-392 | The repositories run in chunks of concurrency (default 10). Success iff all succeeded, with the map of full name to commits. Otherwise the first failure of the failing chunk is thrown after that chunk has run. |
| CommitStats.ProcessInBatches | src/commands/stats/commits.ts:20-34 | The results are the processor's values for every item, in item order. The batches cover the items in order, each of `concurrency` items except a shorter last one. |
| CommitStats.Logins | src/commands/stats/commits.ts:69-80 | At most one login per commit. |
| CommitStats.ScanRepo | src/commands/stats/commits.ts:66-89 | A repository contributes the logins of its qualifying commits, in order: a non-empty login, not a bot unless bots are included, a member when filtering. It contributes nothing when iterating its pages threw. |
| CommitStats.CountLogins | src/commands/stats/commits.ts:83-86 | Each author's count rises by the number of its occurrences. Counts stay positive and the insertion order lists each key once. |
| CommitStats.Rank | src/commands/stats/commits.ts:100-102 | The entries are sorted by count, descending, one per author with a positive count. Each carries that author's count. |
| CommitStats.EntriesOfCounts | src/commands/stats/commits.ts:100-101 | `Array.from(map.entries())` gives one entry per key, with its count. |
| CommitStats.SameEntries | src/commands/stats/commits.ts:102 | Sorting keeps the entries and their counts. |
| CommitStats.Scans | src/commands/stats/commits.ts:63-95 | One scan per repository, in order. |
| CommitStats.GetCommitStats | src/commands/stats/commits.ts:36-105 | A failed member list (only with membersOnly) or repository list is thrown before any repository is read. Otherwise every repository is processed. There is one ranked entry per author whose total over the readable repositories is positive, carrying that total. |
| CommitStats.RunCommitStats | src/commands/stats/commits.ts:117-155 | No stats gives only the no-commits message. Otherwise the total is the sum and the contributors the number of entries. A falsy top shows all rows. A positive top shows the first top rows, with "Showing top" iff rows were cut. A negative top drops that many rows from the back and still prints the "Showing top" line with its value. |
| CommitStats.TotalCoversShownRows | src/commands/stats/commits.ts:122-123 | The total is at least the sum of the rows shown. |
| Ranking.Insert | src/commands/stats/commits.ts:102 | Inserting into a descending list keeps it descending and adds exactly the element. |
| Ranking.InsertKeepsDistinct | src/commands/stats/commits.ts:102 | Inserting a new element keeps the entries distinct. |
| Ranking.SortDesc | src/commands/stats/commits.ts:102 | The result is sorted by key, descending, and is a permutation of the input. |
| Ranking.SortKeepsDistinct | src/commands/stats/commits.ts:102 | Sorting distinct entries keeps them distinct. |
| Ranking.InsertWithKey | apps/web/lib/github.ts:204 | Inserting into a ranking places the element in front of those sharing its key and keeps their order. |
| Ranking.SortIsStable | apps/web/lib/github.ts:204 | For every key, the elements with that key keep their input order, as the stable `Array.prototype.sort` does. |
| Ranking.TopOfRanking | apps/desktop/src/stores/github.ts:189-192 | A prefix of a ranking is sorted, and every entry in it ranks at least as high as every entry after it. |
| DesktopStore.StoreFetch | apps/desktop/src/stores/github.ts:39-55 | A missing or empty token throws "Not authenticated". A non-ok response throws "GitHub API error: " + status. Success iff both checks pass, with the JSON. |
| DesktopStore.DesktopScans | apps/desktop/src/stores/github.ts:165-186 | Only the first ten repositories are read. A failed one contributes nothing; the others contribute the logins of their commits. |
| DesktopStore.DesktopCountsEveryLogin | apps/desktop/src/stores/github.ts:178 | The store counts a commit exactly when it has a non-empty author login. |
| DesktopStore.TopCommitAuthors | apps/desktop/src/stores/github.ts:165-192 | At most ten authors, ranked by count, one each, each with its total over the readable repositories. Anyone left out has no more commits than everyone shown, and then ten are shown. |
| DesktopStore.TopOfCounts | apps/desktop/src/stores/github.ts:189-192 | Ranking the counts and cutting at ten gives the top ten. |
| DesktopStore.CutRankingIsTopTen | apps/desktop/src/stores/github.ts:191-192 | The first ten of a complete ranking are the top ten. |
| DesktopStore.LeftOutRanksBelow | apps/desktop/src/stores/github.ts:191-192 | A counted author cut from the ranking comes after a full ten, each with at least its count. |
| DesktopStore.GitHubStore.constructor | apps/desktop/src/stores/github.ts:57-73 | No organization, empty data, no error, and no loading flag raised. |
| DesktopStore.GitHubStore.SetOrg | apps/desktop/src/stores/github.ts:75-81 | Sets the organization, clears data and error, and leaves the loading flags alone. |
| DesktopStore.GitHubStore.BeginFetch | apps/desktop/src/stores/github.ts:84-154 | Without a truthy organization nothing changes. Otherwise the section's flag goes up, and only the info fetch clears the error. |
| DesktopStore.GitHubStore.FinishFetchOrgInfo | apps/desktop/src/stores/github.ts:88-99 | The info flag goes down. Success stores the info. A failure keeps the data and sets the error to its message, or to "Failed to fetch org info" for a non-Error. |
| DesktopStore.GitHubStore.FinishFetchMembers | apps/desktop/src/stores/github.ts:107-115 | The members flag goes down and a success stores the members. A failure is silent. |
| DesktopStore.GitHubStore.FinishFetchTeams | apps/desktop/src/stores/github.ts:123-131 | The teams flag goes down and a success stores the teams. A failure is silent. |
| DesktopStore.GitHubStore.FinishFetchRepos | apps/desktop/src/stores/github.ts:139-147 | The repos flag goes down and a success stores the repositories. A failure is silent. |
| DesktopStore.GitHubStore.FinishFetchCommitStats | apps/desktop/src/stores/github.ts:156-200 | The repositories already loaded are used; if there are none they are fetched and stored first, and a failure there changes only the flag. Otherwise the top ten authors are stored. The error is never touched. |
| DesktopStore.GitHubStore.FetchAll | apps/desktop/src/stores/github.ts:203-211 | Without an organization nothing changes. Otherwise the four flags end down. Info, members and teams are stored on success. The error is the info request's or none. With no repositories loaded, a successful repository request is stored, and a failed one leaves the commit stats unchanged. Otherwise the commit stats are the top ten of the repositories used. |
| Leaderboard.CategoriesHaveTenDistinctOrgs | apps/web/lib/github.ts:31-80 | Every category lists ten distinct organizations. |
| Leaderboard.FavoritesAreTenDistinct | apps/web/lib/github.ts:32-43 | The developer favourites are ten distinct organizations. |
| Leaderboard.FrameworksAreTenDistinct | apps/web/lib/github.ts:44-55 | The frameworks are ten distinct organizations. |
| Leaderboard.DatabasesAreTenDistinct | apps/web/lib/github.ts:56-67 | The databases are ten distinct organizations. |
| Leaderboard.RisingStarsAreTenDistinct | apps/web/lib/github.ts:68-79 | The rising stars are ten distinct organizations. |
| Leaderboard.WebHeaders | apps/web/lib/github.ts:85-94 | Accept and User-Agent are always sent. Authorization with the bearer token is added iff the token is non-empty. |
| Leaderboard.StarSumAppend | apps/web/lib/github.ts:149-150 | The star total of two lists is the sum of their totals. |
| Leaderboard.StarSumCoversEachRepo | apps/web/lib/github.ts:149-150 | With non-negative counts, the total is at least each repository's stars, a missing count being 0. |
| Leaderboard.StarSumNonNegative | apps/web/lib/github.ts:149-150 | With non-negative counts the total is non-negative. |
| Leaderboard.FetchOrgDetails | apps/web/lib/github.ts:115-167 | null iff a request threw, or the organization answered 403, 429 or any other non-ok status. Otherwise the organization's login, avatar URL and description, with missing counts as 0 and score 0. The stars are the repository list's total, or 0 when that request was not ok or returned no array. |
| Leaderboard.ParallelFetch | apps/web/lib/github.ts:99-113 | One result per item, in item order, for any concurrency (default 5). |
| Leaderboard.Present | apps/web/lib/github.ts:195 | The non-null results, and nothing else. |
| Leaderboard.NoneValidIffAllFailed | apps/web/lib/github.ts:195-197 | The fallback is taken iff every organization came back null. |
| Leaderboard.FetchLeaderboardData | apps/web/lib/github.ts:189-209 | The fallback list when no organization came back. Otherwise the valid ones, scored and stably sorted by score, descending. |
| Leaderboard.FetchEach | apps/web/lib/github.ts:191-194 | One `fetchOrgDetails` result per organization of the category, in order. |
| Leaderboard.FavoritesFallbackRanked | apps/web/lib/github.ts:227-233 | The developer favourites fallback has five entries ranked by score, the first with 100. |
| Leaderboard.FrameworksFallbackRanked | apps/web/lib/github.ts:234-240 | The frameworks fallback has five entries ranked by score, the first with 100. |
| Leaderboard.DatabasesFallbackRanked | apps/web/lib/github.ts:241-247 | The databases fallback has five entries ranked by score, the first with 100. |
| Leaderboard.RisingStarsFallbackRanked | apps/web/lib/github.ts:248-254 | The rising stars fallback has five entries ranked by score, the first with 100. |
| Leaderboard.ScoresRanked | apps/web/lib/github.ts:225-256 | Five entries with non-increasing scores are ranked. |
| Table.StripAnsiPlainPrefix | apps/cli/src/lib/ui/table.ts:39-41 | A prefix without an escape character passes through `stripAnsi` untouched. |
| Table.StripAnsiKeepsPlainChar | apps/cli/src/lib/ui/table.ts:40 | A leading character other than ESC is kept, and the scan goes on after it. |
| Table.StripAnsiPlain | apps/cli/src/lib/ui/table.ts:39-41 | Text without an escape character is unchanged. |
| Table.ParamRunBarrier | apps/cli/src/lib/ui/table.ts:40 | The greedy `[0-9;]*` run does not reach past a barrier. |
| Table.EscapeLengthBarrier | apps/cli/src/lib/ui/table.ts:40 | A match at the front does not change when a barrier is appended. |
| Table.StripAnsiConcat | apps/cli/src/lib/ui/table.ts:39-41 | Stripping distributes over a concatenation whose right part starts with a barrier. |
| Table.StripAnsiNotIdempotent | apps/cli/src/lib/ui/table.ts:40 | Removing a sequence can join its neighbours into a new one: "ESC ESC [ m [ m" strips to "ESC [ m", which strips again to "". |
| Table.ParamRunOfDigits | apps/cli/src/lib/ui/table.ts:40 | The parameter run over a decimal code stops at its end. |
| Table.SgrMatches | apps/cli/src/lib/ui/table.ts:40 | A colour code "ESC [ n m" is one whole match, whatever follows it. |
| Table.StripAnsiDropsSgr | apps/cli/src/lib/ui/table.ts:40 | A leading colour code is removed. |
| Table.StripAnsiUndoesPaint | apps/cli/src/lib/ui/table.ts:39-79 | Stripping a styled string gives the stripped string, with colours on or off. |
| Table.LeftPadding | apps/cli/src/lib/ui/table.ts:28-36 | The padding placed before the text never exceeds the total padding. |
| Table.PadString | apps/cli/src/lib/ui/table.ts:24-37 | The text is kept whole, plus `max(0, width - visible length)` spaces. |
| Table.PadStringLayout | apps/cli/src/lib/ui/table.ts:28-36 | Right puts all the spaces before the text, left all after it. Center puts `floor(p / 2)` before and the rest after. |
| Table.PaddedLayout | apps/cli/src/lib/ui/table.ts:28-36 | The same layout, for a given padding. |
| Table.PadStringVisible | apps/cli/src/lib/ui/table.ts:24-37 | The visible result is the visible text with the padding split around it. Its visible length is `max(width, visible length)`. |
| Table.PaddedVisible | apps/cli/src/lib/ui/table.ts:28-36 | Stripping keeps the padding spaces on both sides. |
| Table.StripAnsiBetweenPlain | apps/cli/src/lib/ui/table.ts:39-41 | Plain text on either side of a string survives stripping. |
| Table.Display | apps/cli/src/lib/ui/table.ts:19-22 | `null`/`undefined` shows as "". A number shows as its decimal text, which `parseInt` reads back. |
| Table.MaxVisible | apps/cli/src/lib/ui/table.ts:59 | The largest visible cell length, or 0. |
| Table.ColumnWidth | apps/cli/src/lib/ui/table.ts:57-61 | The explicit width if given. Otherwise the smallest width that fits the header and every visible cell. |
| Table.Widths | apps/cli/src/lib/ui/table.ts:57-61 | One width per column. |
| Table.CsvLines | apps/cli/src/lib/ui/table.ts:50-54 | The header line, then one line per row. |
| Table.CsvReadsBack | apps/cli/src/lib/ui/table.ts:50-54 | Without commas or line breaks in headers and values, the CSV splits back into its lines, the header line into the headers and each row line into the quoted values. |
| Table.RowLines | apps/cli/src/lib/ui/table.ts:83-90 | One line per row. |
| Table.RowLinesSnoc | apps/cli/src/lib/ui/table.ts:83-90 | One more row adds its line at the end. |
| Table.RenderTable | apps/cli/src/lib/ui/table.ts:43-94 | JSON gives `JSON.stringify(rows, null, 2)` and CSV the CSV lines joined by newlines. The table form gives title, header, separator, one line per row and a final empty line. |
| Table.BuildTableLines | apps/cli/src/lib/ui/table.ts:56-92 | The table form's lines, as `TableLines` lists them. |
| Table.AppendRowLines | apps/cli/src/lib/ui/table.ts:83-90 | The row loop appends one line per row, in order. |
| Table.VisibleJoin | apps/cli/src/lib/ui/table.ts:75-89 | Pieces of known visible widths, joined by two spaces, show their widths plus two per gap. |
| Table.TableIsAligned | apps/cli/src/lib/ui/table.ts:56-90 | Without explicit widths, and with colour functions that keep the visible text, the header, separator and every row show the same width, so the columns line up. |
| Table.PadEnd | apps/cli/src/lib/ui/table.ts:104 | `padEnd` keeps the key and pads it with spaces to at least n characters. |
| Table.MaxKeyLength | apps/cli/src/lib/ui/table.ts:101 | The length of the longest key. |
| Table.KeyValueLines | apps/cli/src/lib/ui/table.ts:100-108 | One line per item. |
| Table.KeyValueLineVisible | apps/cli/src/lib/ui/table.ts:104-106 | A line shows as the padded key, two spaces and the visible value. |
| Table.StripAnsiJoinedPair | apps/cli/src/lib/ui/table.ts:39-41 | Stripping two parts around a plain gap strips each part. |
| Table.KeyValuesAligned | apps/cli/src/lib/ui/table.ts:100-108 | Every key is padded to the longest key, so the values start in the same column. `null` shows as N/A. |
| ErrorFormat.Classify | apps/cli/src/lib/utils/errors.ts:4-32 | Exactly one branch applies to each thrown value, fixed by its class and status. A `RateLimitError`, although its status is 403, is never reported as access denied. |
| ErrorFormat.Heading | apps/cli/src/lib/utils/errors.ts:6-31 | Each heading is a single plain line and reads back to its branch, so no two branches share one. |
| ErrorFormat.Detail | apps/cli/src/lib/utils/errors.ts:4-32 | Authentication, plain and other API errors show their own message. A rate-limit error shows "... Resets at " and the reset time in yellow, with "Invalid Date" for an unparsable header. A GitHub error with status 404, 403 or 401 shows the fixed not-found, access-denied or unauthorized text. A non-Error shows its string form. |
| ErrorFormat.RedHeadlineVisible | apps/cli/src/lib/utils/errors.ts:4-32 | A red heading, a blank line and a detail show as the heading, the blank line and the visible detail. |
| ErrorFormat.FirstLine | apps/cli/src/lib/utils/errors.ts:4-32 | The first line of the output is the heading. |
| ErrorFormat.FormatErrorHeadline | apps/cli/src/lib/utils/errors.ts:4-32 | With the colours stripped, `formatError` shows the heading, a blank line and the visible detail. Its first line reads back to the branch taken. |
| Auth.FirstTruthy | packages/core/src/github/auth.ts:57-68 | The first non-empty candidate. None iff there is none. |
| Auth.GhCliToken | packages/core/src/github/auth.ts:37-44 | The trimmed output of a successful `gh auth token` if it is non-empty. Otherwise none. |
| Auth.DetectAuth | packages/core/src/github/auth.ts:55-69 | Method `none` iff there is no token, and any token is non-empty. |
| Auth.DetectAuthPriority | packages/core/src/github/auth.ts:55-69 | The token is the first non-empty one of GITHUB_TOKEN, GH_TOKEN and the gh CLI. The method is `token` iff an environment variable supplied it, and `gh-cli` iff only the CLI did. With an environment token the CLI's outcome is irrelevant. |
| Auth.GetToken | packages/core/src/github/auth.ts:71-81 | Succeeds iff some source has a non-empty token, and returns the detected one. Otherwise throws `AuthError` with the two-step hint. |
| Auth.Scopes | packages/core/src/github/auth.ts:124-125 | Only non-empty scopes. A missing or empty header gives none. |
| Auth.GetAuthStatus | packages/core/src/github/auth.ts:98-136 | The method is the detected one. Valid iff there is a token and `/user` answered ok with a parsable body. Only a valid status carries the login and the scopes. |
| Auth.NonEmptyKeepsNonEmpty | packages/core/src/github/auth.ts:125 | `filter(Boolean)` keeps a list without empty strings unchanged. |
| Auth.ScopesReadBack | packages/core/src/github/auth.ts:124-125 | Scopes joined by ", ", none empty and none with a comma, are read back exactly and in order. |
| Dates.DefaultDateRange | packages/core/src/utils/date.ts:1-9 | Both bounds start with the year, which `parseInt` reads back. They end in "-01-01T00:00:00Z" and "-12-31T23:59:59Z" and carry a time part. |
| Dates.StampReadsBack | packages/core/src/utils/date.ts:5-8 | A year followed by a text starting with a non-digit reads back as that year, and the text stays at the end. |
| Dates.DaysInMonth | packages/core/src/utils/date.ts:73 | Between 28 and 31 days. February has 29 iff the year is a leap year. |
| Dates.QuarterDates | packages/core/src/utils/date.ts:41-66 | Success iff the quarter is 1-4, otherwise "Invalid quarter: q". The quarter runs from 00:00:00 on the first day of its first month to 23:59:59 on the last day of its third month. The start is before the end. |
| Dates.MonthDates | packages/core/src/utils/date.ts:68-79 | Success iff the month is 1-12, otherwise "Invalid month: m". The month runs from 00:00:00 on day 1 to 23:59:59 on its last day: February's is the 29th iff the year is a leap year, April, June, September and November end on the 30th, the rest on the 31st. |
| Dates.QuarterSpansItsMonths | packages/core/src/utils/date.ts:41-79 | A quarter starts where its first month starts and ends where its third month ends. |
| StatsCommand.Bound | apps/cli/src/commands/stats/index.ts:33-39 | A missing or empty flag gives the default. A given flag is kept as the prefix of the bound. The bound has a time part when the time of day and the default do. |
| StatsCommand.BoundIdempotent | apps/cli/src/commands/stats/index.ts:34-39 | Normalising a normalised bound again changes nothing. |
| StatsCommand.BareDatesSpanTheDay | apps/cli/src/commands/stats/index.ts:35-38 | A bare date becomes the start of its day as `--since` and the end of its day as `--until`. |
| StatsCommand.TimesOfDayHaveMarker | apps/cli/src/commands/stats/index.ts:35-38 | Both appended times of day carry the time marker. |
| StatsCommand.CommitsAction | apps/cli/src/commands/stats/index.ts:28-49 | A missing or empty organization is an error with the usage message. Otherwise both bounds default to the current year's range and carry a time part. Bounds that already have one are kept. A bare `--since` date gets "T00:00:00Z" and a bare `--until` date "T23:59:59Z". includeBots is on only when the flag is set to true, and the other options pass through. |

## Left out

- Network and processes: `fetch`, response bodies and `execCommand` are inputs. They arrive as `HttpResponse` values, page outcomes, `CommandOutcome` values and functions from names to outcomes. JSON parsing and `JSON.stringify` are likewise given by the caller (a parsed body, a `stringify` function).
- `execCommand`'s accumulation and trimming of standard output, `isGhCliAvailable` and `validateToken` (packages/core/src/github/auth.ts:10-53, 83-96): process spawning only. The trimmed result is the `CommandOutcome` input.
- The thin endpoint wrappers of src/lib/github/client.ts:118-209 (`getOrganization`, `getOrgMembers`, `getOrgRepos`, `getRepoCommits`, `getOrgWebhooks`, `getAuditLog`, `getUserOrgs` and the rest). Each is one `GithubFetch` or `Paginate` call with a fixed endpoint and fixed parameters, and both of those are modelled.
- Real concurrency. Chunks that the source runs with `Promise.all` run one after another here. A failing chunk reports the first failure in item order. The background revalidation of a stale entry is recorded as pending work that settles later. Completion order is not modelled, so ties among equal counts are only known to be sorted descending, not in a particular order.
- `onProgress` callbacks, spinners and every `console` line. Progress is kept only where it is a counter the source returns or reports (`processed`, `batchProcess`'s completed count).
- Floating point and randomness. `calculateScores` (apps/web/lib/github.ts:172-184) is a `score` function supplied by the caller. Percentage shares via `toFixed` in the commit table are not modelled. `withRetry`'s `Math.random` jitter is an integer parameter per attempt.
- `BatchProcess`, `CommitsForRepos`, `CommitStats.ProcessInBatches` and `Leaderboard.ParallelFetch` require a concurrency of at least 1. With 0 or a negative value the source loops forever or never advances, so those inputs are outside the model.
- `DiskCache` and the disk branch of `createCache`. DiskCache is not part of this model, and `CacheIndex.CreateCache` returns null for it. The module-level singletons `getMemoryCache`/`resetMemoryCache` are also left out: each operation takes its cache as an argument.
- Next.js `unstable_cache`, ISR revalidation and the `next: { revalidate }` fetch option of the web leaderboard (apps/web/lib/github.ts:85-94, 211-222). These are framework caching with no observable logic.
- picocolors' detection of colour support. Colour is a boolean input, and styling is the `Paint` wrapper that `StripAnsi` undoes.
- `toLocaleTimeString` in the rate-limit message. It is a `localTime` function supplied by the caller.
- The clock is read once per call. The source reads `Date.now()` again after each await: when `cachedFetch` stores the fetched data, when a 304 refreshes the expiry, and when `githubFetchCached` stores a response. In the source a stored entry therefore lives `ttl` from the end of the fetch. The model stamps it with the time of the call, and it cannot represent a fetch that outlasts an entry's window, such as the 304 branch's second lookup finding the entry gone.
- Time zones and `toISOString`. `Dates` keeps the local calendar fields a `Date` is built from, and the default range is built from the year as text. `parseDate`, `formatDateISO`, `formatDateHuman`, `formatDateRange` and `ensureISOFormat` (packages/core/src/utils/date.ts:11-39) only convert through `Date` and are left out.
- `Dates.QuarterDates`: the quarter is an integer. A non-integer number, which JavaScript would also reject, is not modelled.
- `parseInt`'s handling of leading whitespace and hexadecimal prefixes. `Text.ParseInt` reads an optional `+` or `-` sign and the leading decimal digits, which covers every text the model feeds it.
- URL percent-encoding of query values. Parameters are rendered as `key=value` text.
- `Table.PadString`: widths count Unicode scalar values (Dafny's `|s|` on a string), while `stripped.length` counts UTF-16 code units. A character outside the Basic Multilingual Plane counts 2 in the source and 1 here, so the model pads it one space more.
- `Table.MaxVisible`: the same scalar-value count of visible cells, where the source counts UTF-16 code units.
- `Table.ColumnWidth`: `col.header.length` and the cell lengths are scalar-value counts here and UTF-16 lengths in the source.
- `Table.PadEnd`: `padEnd` pads to a UTF-16 length; the model pads to a scalar-value count.
- `Table.MaxKeyLength`: `key.length` counts UTF-16 code units in the source and scalar values here.
- `Table.Column` widths are `Option<nat>`. A negative explicit width, which the source would accept as a number, is not modelled.
- `CachedClient.GetOrganizationCached`: in the source its fetcher is a `githubFetchCached` call for `/orgs/{org}`, which also stores its own "github:" cache entry and ETag. Here the fetcher's outcome is given and only the "org:" entry is modelled.
- `CachedClient.GetListCached` and `CachedClient.RepoCommits`: in the source each page request is a `githubFetchCached` call with `skipCache`, which still stores that page under its own URL key and ETag (see `CachedClient.SkipCacheStillStores`). Here the page loop takes page outcomes and does not make those per-page writes. Only the list-level cache entry is modelled.
- `DesktopStore`: the desktop app fetches one page of 100 per request and the commit scan's `since` parameter is folded into `commitsOf`. Both are as in the source, which never paginates there.
- `Table.CsvReadsBack` requires headers and cells without commas or line breaks. Cells are wrapped in quotes without escaping the quotes they contain, as in the source, so a cell holding a comma does not split back and no round trip is claimed for it.
- `StatsCommand.CommitsAction`: the `--members-only` default belongs to the command-line parser and arrives already applied. The missing-organisation exit (`process.exit(1)`) is the `Failure` result.
- `stripAnsi` is not idempotent on crafted input: removing one escape sequence can join the pieces of another. `Table.StripAnsiNotIdempotent` exhibits this, so no idempotence lemma is claimed.
- `printSection`, `printSuccess`, `printError`, `printWarning`, `printInfo` (apps/cli/src/lib/ui/table.ts:110-132), `handleError` and `wrapCommand`: console writes and `process.exit`. The text they would print is modelled by `Paint`, `KeyValueLines` and `FormatError`.

## Findings

| source | as written | input that shows it | evidently intended | confidence | as-written member | corrected member |
|---|---|---|---|---|---|---|
| packages/core/src/cache/memory.ts:112-117 | `evictLRU` deletes the front key only `if (lruKey)`, so the key `""` is shifted out of the access order but stays in the cache | `maxEntries` 1: set `""`, then set `"a"` | evict the least recently used key whatever its text, so the cache never holds more than `maxEntries` entries | not executed | CacheMemory.EmptyKeyEscapesEviction | CacheMemory.SizeNeverExceedsMaxEntries |
