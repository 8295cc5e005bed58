# PoliceStopSearch caching and aggregation, in Dafny

This project models the caching and aggregation core of the PoliceStopSearch
site. The site is a client store written in TypeScript (`useStopSearchStore`)
plus a handful of PHP and Nitro endpoints in front of the UK police data API.
The model and its proofs cover these parts of the system:

- **Client store** (`stores/stopsearch.ts`):
  - the two-tier cache: a table per search mode plus a timestamp per key;
  - the cache key built from the request parameters;
  - the ninety-day validity test;
  - eviction on read, the expired-entry sweep and the per-mode bound;
  - the planner, which splits forces into fully cached and uncached;
  - the batched driver `getForcesDataAggregated`;
  - the aggregation engine `aggregateStopSearchData`;
  - the bounded error log;
  - the rate-limit, retry and circuit-breaker arithmetic of the fetch wrapper.

  It is a `class Store` whose fields are the cache, `cacheTimes`, `errors`,
  `lastApiCall` and `consecutiveFailures`. Its methods are proved against
  functions on values.
- **Durable snapshot store** (`php-api/cache.php`): the whole key/value
  snapshot is loaded, changed and written back by the `get`, `set`, `stats`
  and `getForceData` actions.
- **Force endpoint** (`php-api/force-data.php`): a read-through cache over that
  same snapshot, in front of the arrest count and the arrest percentage.
- **Statistics** (`php-api/statistics-cache.php`):
  - per-force statistics;
  - the overall merge, which adds the per-force breakdown tables label by label;
  - the hour-long file cache.
- **Sample statistics** (`server/api/statistics.ts`): the most-common-object
  selection and the stale-on-error fallback.
- **Cache analytics**:
  - `php-api/transparency-analysis.php` and `server/api/transparency-analysis.ts`
    parse `aggregated:{force}:{month}` keys, count months and incidents per
    force, and flag forces whose data is sparse;
  - `php-api/homepage-map.php` classifies forces as active, limited or without
    data, sorts them by that status and formats `YYYY-MM` months.

## How time, I/O and the network are modelled

- Every clock reading is an integer parameter. The TypeScript code works in
  milliseconds and the PHP code in seconds.
- Every network answer is an input value. `NetResult` is a 2xx body, an HTTP
  status other than 2xx, a "Failed to fetch" rejection, any other rejection
  or an unusable body. Per-force answers are
  functions from a force id to an optional decoded body.
- Files and `localStorage` are maps.
- The random jitter of the back-off is an input bounded to [0, 2000).

Where the PHP and TypeScript copies of the same logic differ, each is modelled
as written:

- **Ethnicity precedence.** The client store prefers the officer-defined
  ethnicity and uses JavaScript `||`. `statistics-cache.php` prefers the
  self-defined one and uses `??`. See `Aggregation.Ethnicity` and
  `StatsAggregate.EthnicityLabel`.
- **Case of outcome matching.** Matching is case-sensitive in the store and in
  `statistics.ts`, and case-insensitive (`stripos`) in `statistics-cache.php`.
- **Units in cache.php.** The `get` action compares an age in seconds with a
  timestamp stored in milliseconds, so as written an entry never expires there.
  `getForceData` uses milliseconds on both sides. `DurableCache.GetIgnoresExpiry`
  and `DurableCache.ExpiryTestsDisagree` state this.
- **Missing `await`.** When the server cache is off, `getForcesDataAggregated`
  stores the un-awaited promise of `getCachedData`, which is always truthy. So
  every requested pair is filled with a promise cell and nothing is fetched.
  The model keeps that cell as `BatchFetch.Promised`.
- **Dead stale fallback.** The stale fallback of `getStopsByForce` reads the
  entry only after `getCachedData` has deleted it as expired. So after a client
  lookup it never finds one (`StopSearchStore.NoStaleAfterClientMiss`). It is
  reached only when the server cache answers a hit with falsy data.
- **Double failure count.** A non-2xx response counts two consecutive failures:
  one before the `switch` and one in the `catch`.
- **Summary month.** The summary month of `homepage-map.php` compares a raw
  `YYYY-MM` with the already formatted value. The result is the first force's
  formatted month, not the latest one (`HomepageMap.SummaryIsFirstMonth`).
- **Dead overall error branch.** The overall record of `statistics-cache.php`
  is always a non-empty array, so its "No data available" branch cannot be
  taken.

## Model

| member | source | states |
|---|---|---|
| CacheKeys.SortByName | stores/stopsearch.ts:257 | sorting the parameters by name keeps exactly the same entries (a permutation) |
| CacheKeys.SortSorted | stores/stopsearch.ts:257 | parameters with distinct names come out with strictly increasing names |
| CacheKeys.Render | stores/stopsearch.ts:258 | each entry is rendered as `name=value`, one string per entry, in order |
| CacheKeys.SortedUnique | stores/stopsearch.ts:255-260 | two strictly sorted lists with the same entries are equal, so the sorted order is unique |
| CacheKeys.CacheKeyOrderIndependent | stores/stopsearch.ts:255-260 | the cache key does not depend on the order in which the parameters were given |
| CacheKeys.ForceMonthKey | stores/stopsearch.ts:794-795 | the key for `{force, date}` is `date=<month>&force=<force>` |
| CacheKeys.ForceOnlyKey | stores/stopsearch.ts:1180-1185 | the key for a force-only query is `force=<force>` |
| ClientCache.TimeOr0 | stores/stopsearch.ts:191-192 | `cacheTimes[key] \|\| 0`: the timestamp when there is one, 0 otherwise |
| ClientCache.ExpiredKeys | stores/stopsearch.ts:1259-1262 | a key is expired exactly when it has a timestamp whose age has reached the timeout |
| ClientCache.DropKeys | stores/stopsearch.ts:1264-1266 | the given keys are deleted from every mode and nothing else changes |
| ClientCache.DropKeysUnion | stores/stopsearch.ts:1260-1270 | deleting two sets of keys one after the other is deleting their union |
| ClientCache.ExpiryKeepsValidity | stores/stopsearch.ts:263-276 | removing the expired timestamps changes no key's validity at the same moment |
| ClientCache.ClientGet | stores/stopsearch.ts:377-382 | the client tier returns only an entry that is present in the mode's table, unchanged |
| ClientCache.Evict | stores/stopsearch.ts:377-390 | after a client lookup the key is not stale, every lookup gives what it gave before, and the timestamps of other keys are kept |
| ClientCache.Written | stores/stopsearch.ts:413-417 | the write creates the mode's table if it is missing and stores the data under the key |
| ClientCache.WriteAfterEvict | stores/stopsearch.ts:385-417 | writing a key after its eviction gives the same tables as writing it straight away |
| ClientCache.WriteThenRead | stores/stopsearch.ts:377-417 | reading back a key just written returns the data iff the data is truthy and its stamp is non-zero and younger than the timeout |
| ClientCache.WriteKeepsOthers | stores/stopsearch.ts:413-417 | a write changes the lookup of no other key |
| ClientCache.ForceKeyIsCacheKey | stores/stopsearch.ts:794-795 | the planner's key for a force and month is the cache key of `{force, date}` |
| ClientCache.SplitKeepsAll | stores/stopsearch.ts:786-811 | the cached and uncached lists together hold every input force exactly once (multisets) |
| ClientCache.SplitKeepsOrder | stores/stopsearch.ts:786-811 | both lists keep the input order |
| ClientCache.SplitMembers | stores/stopsearch.ts:786-811 | a force is listed as cached iff it passes the test, and uncached iff it fails it |
| ClientCache.Harvest | stores/stopsearch.ts:822-826 | a key contributes incidents only when its force entry is present, valid and an array |
| ClientCache.HarvestAllFrom | stores/stopsearch.ts:814-832 | every collected incident comes from a usable entry of a requested force and month |
| ClientCache.HarvestFullyCached | stores/stopsearch.ts:814-832 | a fully cached force contributes all the incidents of its array entries |
| ClientCache.OldestKey | stores/stopsearch.ts:190-194 | the key returned has the smallest `cacheTimes[key] \|\| 0` in the mode |
| ClientCache.CapEntries | stores/stopsearch.ts:186-202 | a mode over 1200 entries keeps 1200 of them and drops only entries no newer than every kept one; a mode within the bound is unchanged; dropped keys lose their timestamps |
| ClientCache.CapAll | stores/stopsearch.ts:186-202 | the same modes; a mode over 1200 entries keeps exactly 1200 of them, and none it drops is newer than one it keeps; a mode within the bound is unchanged; exactly the dropped keys lose their timestamps |
| ClientCache.CapWithinBoundChangesNothing | stores/stopsearch.ts:186-202 | when no mode exceeds the bound, the first pass changes nothing |
| ClientCache.ClearExpired | stores/stopsearch.ts:1254-1270 | exactly the expired keys are deleted from the timestamps and from every mode; `hasChanges` is true iff there was one |
| ClientCache.ClearedStaysClear | stores/stopsearch.ts:1272-1277 | the save that follows a sweep brings no expired key back |
| ClientCache.ClearAndCap | stores/stopsearch.ts:1254-1278 | the state the whole sweep leaves: nothing changes when nothing expired; otherwise the cleared tables capped as `CapAll` promises, with no expired key left |
| AggKeys.AggKey | stores/stopsearch.ts:444 | the key of an aggregated record starts with `aggregated:` |
| AggKeys.AggKeySplits | stores/stopsearch.ts:452 | a key built from a colon-free force and month splits on ':' back into its three parts |
| BatchFetch.KeyRequest | stores/stopsearch.ts:452 | the force and month read back from a key contain no colon |
| BatchFetch.KeyRequestOfAggKey | stores/stopsearch.ts:444-452 | reading a key back gives the force and month it was built from |
| BatchFetch.EmptyGrid | stores/stopsearch.ts:430-432 | the result has one empty entry per requested force |
| BatchFetch.MarkHitsKeeps | stores/stopsearch.ts:451-456 | a cell that no cached entry names is left as it was |
| BatchFetch.MarkHitsLastWins | stores/stopsearch.ts:451-456 | a cell named by cached entries holds the data of the last such entry, when its force was requested |
| BatchFetch.Pairs | stores/stopsearch.ts:466-470 | there are `\|forces\| * \|months\|` requested pairs |
| BatchFetch.PairsHold | stores/stopsearch.ts:466-470 | every force and month given forms a requested pair |
| BatchFetch.PairsInRange | stores/stopsearch.ts:466-470 | every pair names a requested force and a requested month |
| BatchFetch.BatchesCover | stores/stopsearch.ts:492-494 | the batches are consecutive slices of at most 3, all but the last exactly 3, that together give back the missing list, and there are ceil(n/3) of them |
| BatchFetch.FillAllCovers | stores/stopsearch.ts:496-509 | the fill succeeds iff every request names a requested force; each such cell then holds the fetched record |
| BatchFetch.FillAllFailsLater | stores/stopsearch.ts:496-509 | once a request names a force outside the result, the whole call fails |
| BatchFetch.AllMissingFetchesAll | stores/stopsearch.ts:464-509 | when the server cache fails, every (force, month) pair is fetched and filled |
| BatchFetch.FillAllOnly | stores/stopsearch.ts:496-509 | a successful fill writes only cells that some request names |
| BatchFetch.FillBatch | stores/stopsearch.ts:494-509 | one batch extends the fill to the end of the batch, and a failure fails the whole call |
| BatchFetch.FetchInBatches | stores/stopsearch.ts:488-515 | the batched loop gives the same grid as filling request by request, visits exactly the batches, and pauses 200 ms between two batches |
| AggregatedLookup.MissingKeysArePairs | stores/stopsearch.ts:441-462 | when every key is missing, the requests read back from the keys are exactly the requested pairs |
| AggregatedLookup.EvictAllRemoves | stores/stopsearch.ts:474-484 | looking the keys up one after another deletes exactly the stale ones among them |
| AggregatedLookup.EvictAllKeepsReads | stores/stopsearch.ts:474-484 | those lookups change no read at the same moment |
| AggregatedLookup.ClientCellsCover | stores/stopsearch.ts:474-484 | every requested pair gets the promise cell, because the promise is never awaited |
| AggregatedLookup.ClientCellsOnly | stores/stopsearch.ts:474-484 | no cell other than a requested pair is written |
| AggregatedLookup.ClientGridHolds | stores/stopsearch.ts:474-484 | with the server cache off, every requested pair ends up as a pending cell and nothing is missing |
| AggregatedLookup.LookupPairs | stores/stopsearch.ts:474-484 | the lookup loop builds that grid and leaves the tables that the lookups in turn leave |
| Aggregation.EmptyAggregated | stores/stopsearch.ts:631-651 | the zero record: nothing counted, no clusters, empty force and month |
| Aggregation.Classify | stores/stopsearch.ts:565-574 | the outcome is counted as an arrest iff it contains 'Arrest', as no further action iff it does not but contains 'no further action', and so on; the match is case-sensitive |
| Aggregation.Ethnicity | stores/stopsearch.ts:577 | officer-defined ethnicity first, then self-defined, then 'Unknown', with empty strings falling through |
| Aggregation.FindCluster | stores/stopsearch.ts:615-617 | the first cluster whose rounded coordinates equal these (the source's `< 0.001` test on exact thousandths), or none when there is none |
| Aggregation.MonthOf | stores/stopsearch.ts:560 | the month is at most the first 7 characters of the datetime |
| Aggregation.AddClusterKeeps | stores/stopsearch.ts:615-623 | counting a located incident adds one to the cluster total and keeps clusters distinct and non-empty |
| Aggregation.TalliesOutcomes | stores/stopsearch.ts:563-574 | arrests, no-action, warnings and other add up to the number of incidents |
| Aggregation.TalliesBreakdowns | stores/stopsearch.ts:576-598 | the ethnicity, gender, age, legislation, object and type tables each sum to the number of incidents |
| Aggregation.TalliesTimes | stores/stopsearch.ts:600-608 | the hour and weekday tables both sum to the number of incidents with a truthy datetime |
| Aggregation.TalliesClusters | stores/stopsearch.ts:610-624 | the clusters are distinct and non-empty, and sum to the number of incidents with both coordinates |
| Aggregation.AggregateConsistent | stores/stopsearch.ts:533-628 | the finished record: total = number of incidents, outcomes partition it, each table sums to it, and the time and cluster sums are at most it |
| Aggregation.AddPoint | stores/stopsearch.ts:615-623 | the `find` then in-place increment, or a pushed cluster of count 1 |
| Aggregation.AggregateStopSearchData | stores/stopsearch.ts:533-628 | the loop computes the specified record; no incidents gives exactly the zero record |
| Aggregation.CountIncident | stores/stopsearch.ts:563-625 | the loop body updates every counter by one incident |
| Aggregation.ExpandLength | stores/stopsearch.ts:654-671 | the map points number exactly the sum of the cluster counts |
| Aggregation.ExpandFromClusters | stores/stopsearch.ts:658-667 | every point sits at some cluster's coordinates with outcome 'Aggregated' and that cluster's count |
| Aggregation.GetLocationDataFromAggregated | stores/stopsearch.ts:654-671 | no record gives no points; otherwise `count` points per cluster, in order |
| Governor.PushError | stores/stopsearch.ts:909-915 | the new error is first; the log grows below the bound and otherwise drops its last entry |
| Governor.PushAllKeepsNewest | stores/stopsearch.ts:909-915 | however many errors are logged, the log is the newest ones first and never longer than 10 |
| Governor.RateDelay | stores/stopsearch.ts:922-932 | the wait is `minApiInterval - elapsed` when positive and 0 otherwise, so the next call is at least 500 ms after the last |
| Governor.BreakerDelay | stores/stopsearch.ts:938-944 | no wait up to 5 failures; beyond that `min(failures * 2000, 30000)` |
| Governor.Backoff | stores/stopsearch.ts:961 | the 429 back-off is `3^(retry+1)` seconds plus a jitter below 2 s: 3-5 s, then 9-11 s |
| Governor.SentAt | stores/stopsearch.ts:938-947 | a request goes out after the breaker's wait and at least 500 ms after the last call |
| Governor.Settle | stores/stopsearch.ts:949-999 | a 2xx resets the failures and returns the body; a non-2xx status counts two failures and logs an API error; a 'Failed to fetch' rejection counts one and logs a network error; any other rejection counts one and logs an unexpected error; an unusable body resets then counts one; every error is logged once |
| Governor.AttemptRetried | stores/stopsearch.ts:958-966 | a 429 before the last retry counts a failure, waits the back-off and ends as the retry |
| Governor.AttemptSettled | stores/stopsearch.ts:949-999 | any other answer ends the call as that answer settles |
| Governor.AttemptsOnly429 | stores/stopsearch.ts:958-968 | only 429 answers on attempts before the third are retried |
| Governor.AttemptCalls | stores/stopsearch.ts:935-1000 | a call makes one request per attempt; `lastApiCall` ends as the last request's time; it returns a body iff the last answer was a 2xx |
| Governor.AttemptSpacing | stores/stopsearch.ts:922-966 | consecutive requests of a call are at least 500 ms apart |
| Governor.AttemptSuccessResets | stores/stopsearch.ts:976-979 | a call that returns a body leaves zero consecutive failures and logs nothing |
| Governor.AttemptFailureLogsOnce | stores/stopsearch.ts:980-999 | a call that throws logs exactly the error it throws, once |
| Governor.ThreeRateLimits | stores/stopsearch.ts:958-968 | three 429s in a row: two back-offs, three requests, and the third 429 is thrown |
| StopSearchStore.ForceName | stores/stopsearch.ts:1194 | the name of the first force with that id, or the id itself |
| StopSearchStore.Repair | stores/stopsearch.ts:1191-1195 | cached rows keep a truthy force id and name, and get the given ones otherwise |
| StopSearchStore.Enrich | stores/stopsearch.ts:1216-1220 | fetched rows all get the force's id and name |
| StopSearchStore.RepairAfterEnrich | stores/stopsearch.ts:1191-1220 | rows tagged when fetched come back from the cache unchanged |
| StopSearchStore.Found | stores/stopsearch.ts:355-391 | a server hit is returned as it is; otherwise only a truthy, valid client entry is returned |
| StopSearchStore.Looked | stores/stopsearch.ts:355-391 | a server hit changes nothing; otherwise a stale client entry is deleted from the mode and from the timestamps |
| StopSearchStore.Served | stores/stopsearch.ts:1189-1196 | a cached array is returned repaired, and anything else throws the force-search error |
| StopSearchStore.NoStaleAfterClientMiss | stores/stopsearch.ts:1198-1200 | after a client lookup that found nothing, no stale entry is left to fall back on |
| StopSearchStore.FetchError | stores/stopsearch.ts:1211-1213 | a fetch that does not give an array throws its own error, or an API error 500 |
| StopSearchStore.ServerGrid | stores/stopsearch.ts:448-456 | the server branch fills only cells of requested forces |
| StopSearchStore.ServerMissing | stores/stopsearch.ts:459-470 | the missing keys are read back as requests, and every pair is missing when the server call fails |
| StopSearchStore.ForceQueryKey | stores/stopsearch.ts:1180-1185 | the force query's key is the cache key of its parameters |
| StopSearchStore.DateAvailable | stores/stopsearch.ts:1048-1052 | true iff some dataset has exactly that date and a non-empty stop-and-search list |
| StopSearchStore.CheckForce | stores/stopsearch.ts:793-801 | the inner loop: true iff every month's entry is present, truthy and valid |
| StopSearchStore.PlanForces | stores/stopsearch.ts:790-808 | the outer loop splits the forces by that test, in input order |
| StopSearchStore.CollectMonths | stores/stopsearch.ts:818-828 | the inner loop collects one force's usable array entries |
| StopSearchStore.CollectForces | stores/stopsearch.ts:817-829 | the outer loop collects every requested force's entries |
| StopSearchStore.Store.constructor | stores/stopsearch.ts:83-111 | four empty modes, no timestamps, no errors, no last call, no failures |
| StopSearchStore.Store.GetCachedData | stores/stopsearch.ts:355-391 | returns what `Found` specifies and leaves the tables as `Looked` specifies; nothing else changes |
| StopSearchStore.Store.SaveCachedData | stores/stopsearch.ts:412-417 | writes the client tier and stamps the key with `now` |
| StopSearchStore.Store.SaveToStorage | stores/stopsearch.ts:179-202 | each mode over the bound keeps exactly its 1200 newest entries, the dropped keys lose their timestamps, the other fields are unchanged |
| StopSearchStore.Store.SetCacheData | stores/stopsearch.ts:279-283 | writes and stamps the entry, then applies the per-mode bound |
| StopSearchStore.Store.ClearExpiredCache | stores/stopsearch.ts:1254-1278 | leaves the state the sweep promises, with the other fields untouched |
| StopSearchStore.Store.AddError | stores/stopsearch.ts:909-915 | the log becomes `PushError` of the old log and nothing else changes |
| StopSearchStore.Store.RateLimit | stores/stopsearch.ts:922-932 | wakes after `RateDelay` and records that time as the last call |
| StopSearchStore.Store.FetchWithErrorHandling | stores/stopsearch.ts:935-1000 | the outcome and the governor fields are those of `Attempt`; the cache is untouched |
| StopSearchStore.Store.AwaitTurn | stores/stopsearch.ts:938-947 | the request goes out at `SentAt` and `lastApiCall` becomes that time |
| StopSearchStore.Store.SettleResponse | stores/stopsearch.ts:949-999 | the outcome and the governor fields are those of `Settle` |
| StopSearchStore.Store.GetStopsByForce | stores/stopsearch.ts:1178-1251 | a truthy cached entry is returned repaired, or throws when it is not an array; otherwise the fetch result is enriched, saved and returned, and a failed fetch throws because no stale entry is left |
| StopSearchStore.Store.FetchForce | stores/stopsearch.ts:1207-1244 | the fetch and save after a cache miss, with its error paths |
| StopSearchStore.Store.GetForcesDataAggregated | stores/stopsearch.ts:425-530 | with the server cache on: the server grid, then the batched fetch of what is missing; with it off: every pair becomes a promise cell |
| StopSearchStore.Store.GetCachedForces | stores/stopsearch.ts:786-811 | the forces split into fully cached and uncached, each in input order |
| StopSearchStore.Store.GetCachedDataForForces | stores/stopsearch.ts:814-832 | the incidents of every usable array entry of the requested forces and months |
| DurableCache.Load | php-api/cache.php:21-28 | a missing or undecodable file loads as the empty snapshot; otherwise as its content |
| DurableCache.LoadAfterSave | php-api/cache.php:21-34 | a saved snapshot loads back unchanged |
| DurableCache.Stamp | php-api/cache.php:95-99 | `set` stamps the entry in milliseconds with the given ttl |
| DurableCache.GetAction | php-api/cache.php:60-81 | a hit returns the entry's data; an expired entry is deleted and the snapshot saved; a missing key is a 400 |
| DurableCache.SetAction | php-api/cache.php:83-103 | a missing or falsy key or data is a 400 that saves nothing; otherwise the key is added and the size reported |
| DurableCache.SetTouchesOnlyKey | php-api/cache.php:94-101 | `set` changes no other key's entry |
| DurableCache.SetThenGet | php-api/cache.php:60-103 | `set` then `get` of the same key answers `cached: true` with the decoded data |
| DurableCache.GetIgnoresExpiry | php-api/cache.php:71 | as written, an entry stamped in milliseconds never fails the seconds-based test of `get` |
| DurableCache.ExpiryTestsDisagree | php-api/cache.php:71-131 | an entry expired for `getForceData` is still fresh for `get` |
| DurableCache.ExpiredOf | php-api/cache.php:129-137 | only present, expired keys of the requested months are deleted |
| DurableCache.ScanMonths | php-api/cache.php:127-141 | the missing months are the non-hits in order; cachedCount + missing = number of months; the found data are the hits' data; exactly the expired keys are removed |
| DurableCache.CacheFileStore.constructor | php-api/cache.php:8 | the store starts with the given file |
| DurableCache.CacheFileStore.Save | php-api/cache.php:31-34 | the whole snapshot is written |
| DurableCache.CacheFileStore.Get | php-api/cache.php:60-81 | answers as `GetAction` and saves only when an entry was deleted |
| DurableCache.CacheFileStore.Set | php-api/cache.php:83-103 | answers as `SetAction` and saves only on success |
| DurableCache.CacheFileStore.Stats | php-api/cache.php:38-58 | size, keys and maxSize 2000; oldest and newest are absent exactly when the snapshot is empty |
| DurableCache.CacheFileStore.GetForceData | php-api/cache.php:105-154 | missing parameters are a 400; otherwise the month scan, saved only when some month is missing |
| DurableCache.CacheFileStore.Handle | php-api/cache.php:37-160 | `get`, `set`, `stats` and `getForceData` answer and leave the file exactly as those actions do; any other action is a 400 that leaves the file unchanged |
| ForceData.Total | php-api/force-data.php:93-104 | a decoded body that is not an array counts as no incidents |
| ForceData.Arrests | php-api/force-data.php:122-130 | the arrests never exceed the total |
| ForceData.CountListArrests | php-api/force-data.php:122-130 | the loop counts the incidents whose outcome contains 'Arrest', case-sensitively, and stops iff some outcome is an array, where `strpos` throws |
| ForceData.CountObjectArrests | php-api/force-data.php:122-130 | the same count and the same stop over the values of a decoded object |
| ForceData.Percentage | php-api/force-data.php:132-134 | 0 without incidents, otherwise arrests/total * 100, and so within [0, 100] |
| ForceData.PercentageJson | php-api/force-data.php:132-134 | the number written is that percentage, as an integer or a fraction |
| ForceData.Summary | php-api/force-data.php:100-119 | the summary carries the force, the total and the arrests |
| ForceData.ServeForceData | php-api/force-data.php:13-146 | a missing force is a 400 and saves nothing; a stored entry with data is returned without a TTL check; an array outcome stops the script with nothing stored; otherwise the summary is computed and stored under this key only, with ttl 7776000000 and source 'force-api' |
| ForceData.StoredSummaryIsServed | php-api/force-data.php:43-48 | once a summary is stored, the next request for that force and date returns it |
| StatsCache.CacheKey | php-api/statistics-cache.php:34-39 | the key starts with `statistics_`: the force key with a truthy force, the overall key otherwise |
| StatsCache.ForceKeyIsNotOverall | php-api/statistics-cache.php:34-39 | a force key never equals an overall key |
| StatsCache.ForceKeyInjective | php-api/statistics-cache.php:36 | for force ids without '_' the key determines the force and the month |
| StatsCache.UnderscoreKeysCollide | php-api/statistics-cache.php:36 | with an underscore in the force id, two different requests share a key |
| StatsCache.Cached | php-api/statistics-cache.php:42-53 | a file is served iff it exists, is younger than 3600 s and decodes to something truthy |
| StatsCache.SavedIsServedForAnHour | php-api/statistics-cache.php:42-60 | a written record is served for the next hour and not after |
| StatsCache.SaveTouchesOnlyKey | php-api/statistics-cache.php:56-60 | a write changes no other key's lookup |
| StatsCache.StatsCacheDir.constructor | php-api/statistics-cache.php:42-60 | the directory starts with the given files |
| StatsCache.StatsCacheDir.SaveCache | php-api/statistics-cache.php:56-60 | the file of the key is (over)written with the current time |
| StatsCache.StatsCacheDir.Get | php-api/statistics-cache.php:268-302 | a hit is answered as cached; a force miss is recomputed, written and answered, or answered with an error; the overall record is always written and answered, with the analysed forces, `forcesAnalyzed` their number, the three totals as their sums and the tables summing to those totals (`OverallOf`) |
| StatsCache.StatsCacheDir.Clear | php-api/statistics-cache.php:304-311 | every cache file is deleted |
| StatsCache.StatsCacheDir.Handle | php-api/statistics-cache.php:267-316 | `get` by default, with the reply and files `Get` gives on a hit or a miss, including the complete overall record; `clear`; any other action answered with an error that changes nothing |
| StatsCache.SecondGetIsCached | php-api/statistics-cache.php:268-284 | a second `get` within the hour is answered from the cache with the written record |
| StatsAggregate.DateStrKeepsYearMonth | php-api/statistics-cache.php:70-76 | a `YYYY-MM` month is requested as itself |
| StatsAggregate.IncidentList | php-api/statistics-cache.php:82-89 | a failed request, an empty list or object, or a body that is neither gives no incidents; a non-empty list gives its elements and a non-empty object (an array in PHP) its values |
| StatsAggregate.EthnicityLabel | php-api/statistics-cache.php:123 | self-defined first, then officer-defined, then 'Not Recorded', with only null falling through |
| StatsAggregate.FindSpot | php-api/statistics-cache.php:155-169 | the cluster at these coordinates, or none when there is none |
| StatsAggregate.ForceStatistics | php-api/statistics-cache.php:63-176 | a record exactly when the list or object body has elements, with the force, the requested month and total = their number > 0 |
| StatsAggregate.TalliedAdds | php-api/statistics-cache.php:111-170 | six tables sum to the incidents, hour and day to the dated ones, clusters to the located ones, and arrests + no action to at most the total |
| StatsAggregate.TalliedSpotsFaithful | php-api/statistics-cache.php:155-173 | one cluster per distinct key, none empty, each named after the first incident at that key |
| StatsAggregate.ForceStatisticsConsistent | php-api/statistics-cache.php:63-176 | every record returned satisfies all the sums above |
| StatsAggregate.Visit | php-api/statistics-cache.php:111-170 | the loop body updates the tallies by one incident |
| StatsAggregate.VisitTables | php-api/statistics-cache.php:113-152 | one label in each always-filled table; hour and day for a dated incident |
| StatsAggregate.VisitLocation | php-api/statistics-cache.php:155-169 | the cluster of a located incident is created, named after it, or incremented |
| StatsAggregate.FetchForceStatistics | php-api/statistics-cache.php:86-175 | the loop computes the specified record, which is consistent |
| StatsAggregate.TallyIncidents | php-api/statistics-cache.php:109-172 | the `foreach` over the incidents computes the tallies, whose sums and bounds `TalliedAdds` states |
| StatsAggregate.Analysed | php-api/statistics-cache.php:211-214 | only forces with incidents are listed, at most one per force |
| StatsAggregate.MergeTables | php-api/statistics-cache.php:220-259 | each overall table becomes the label-by-label sum of itself and the force's table |
| Tally.MergeCounts | php-api/statistics-cache.php:221-224 | one merge loop adds every count into the accumulator |
| StatsAggregate.MergedStep | php-api/statistics-cache.php:211-261 | adding one more record keeps each overall table the pointwise sum over the records |
| StatsAggregate.SumsStep | php-api/statistics-cache.php:211-261 | adding a consistent record keeps each overall table summing to the overall totals |
| StatsAggregate.AddForce | php-api/statistics-cache.php:213-259 | a force with incidents is listed and its counts added |
| StatsAggregate.GetOverallStatistics | php-api/statistics-cache.php:179-264 | the forces analysed are exactly those with incidents, in order; forces_analyzed is their number; totals are sums; each table is the pointwise sum and sums to the totals |
| StatisticsApi.Kept | server/api/statistics.ts:206-208 | the filter keeps at most every dataset |
| StatisticsApi.KeptExactly | server/api/statistics.ts:206-208 | a dataset is kept iff it has a date and a non-empty stop-and-search list |
| StatisticsApi.KeptFirst | server/api/statistics.ts:206-215 | the first usable dataset is the first kept one and gives `latestMonth` |
| StatisticsApi.KeptNone | server/api/statistics.ts:206-212 | no kept dataset iff none is usable |
| StatisticsApi.AvailableMonths | server/api/statistics.ts:328 | the first min(12, n) kept dates, in order |
| StatisticsApi.Sample | server/api/statistics.ts:314 | the first min(5, n) forces |
| StatisticsApi.CountAllAdds | server/api/statistics.ts:341-369 | one search per incident, every table sums to the searches, arrests and no-further-action are disjoint, and objects are listed once each |
| StatisticsApi.MostCommonIndex | server/api/statistics.ts:380-385 | the last entry of maximal count |
| StatisticsApi.MostCommon | server/api/statistics.ts:380-385 | 'None' with 0 when there are no objects |
| StatisticsApi.MostCommonIsMaximal | server/api/statistics.ts:380-385 | the chosen object is in the table with its count, and no object has a higher count |
| StatisticsApi.Compute | server/api/statistics.ts:313-331 | latestMonth is the first kept date; availableMonths, forcesAnalyzed = min(5, n) and totalForces as stated |
| StatisticsApi.Attempt | server/api/statistics.ts:20-311 | statistics are computed only from OK answers with a usable dataset |
| StatisticsApi.FreshIffRecent | server/api/statistics.ts:12-18 | a fresh cached answer iff there is data and it is less than an hour old |
| StatisticsApi.ComputedIsServedForAnHour | server/api/statistics.ts:387-401 | a computed or fallback answer is served from the cache for the next hour |
| StatisticsApi.FailureKeepsState | server/api/statistics.ts:402-419 | a failure leaves the state unchanged and answers the old data marked stale, or the 500 error |
| StatisticsApi.CountSample | server/api/statistics.ts:334-377 | the loop over the sample counts exactly the stops of the forces whose request succeeds |
| StatisticsApi.CountRows | server/api/statistics.ts:341-369 | the loop over one force's stops extends the counts by those stops |
| StatisticsApi.Visit | server/api/statistics.ts:342-368 | the loop body counts one incident |
| StatisticsApi.StatisticsEndpoint.constructor | server/api/statistics.ts:4-5 | no cached data and `lastFetch` 0 |
| StatisticsApi.StatisticsEndpoint.Handle | server/api/statistics.ts:8-421 | the reply and the new state are those of `Respond` |
| StatisticsApi.StatisticsEndpoint.UseFallbackData | server/api/statistics.ts:24-198 | the fallback answer is cached and stamped with `now` |
| StatisticsApi.StatisticsEndpoint.Fail | server/api/statistics.ts:402-419 | the cached data marked stale, or the 500 error |
| Transparency.ParseKey | php-api/transparency-analysis.php:34-38 | only keys starting with `aggregated:` that split into at least 3 parts give a force and a month |
| Transparency.ParseAggKey | php-api/transparency-analysis.php:34-38 | a key built from a colon-free force and month parses back to them |
| Transparency.TwoPartsIgnored | php-api/transparency-analysis.php:36-38 | a key `aggregated:<force>` with only two parts is ignored |
| Transparency.AddMonth | php-api/transparency-analysis.php:49-54 | one more month; a month with data adds its total |
| Transparency.Analyse | php-api/transparency-analysis.php:33-57 | every analysed force has counters |
| Transparency.CountsOf | php-api/transparency-analysis.php:41-55 | a force's counters computed on their own: monthsWithData <= totalMonths |
| Transparency.AnalyseCounts | php-api/transparency-analysis.php:33-57 | each force that a key names is listed once, in the order first seen, with the counters of exactly the keys naming it |
| Transparency.RatioRule | php-api/transparency-analysis.php:62 | the ratio monthsWithData/totalMonths is below 0.1 iff 10 * monthsWithData < totalMonths |
| Transparency.IssueIsSparseData | php-api/transparency-analysis.php:60-64 | a flagged force has no incidents or data in under a tenth of its months |
| Transparency.Flagged | php-api/transparency-analysis.php:60-64 | a force is flagged iff it is analysed and meets the issue rule |
| Transparency.FlaggedOnce | php-api/transparency-analysis.php:60-64 | the flagged list has no duplicates |
| Transparency.FlaggedForces | server/api/transparency-analysis.ts:46-53 | the flagged forces are exactly the analysed ones that meet the rule |
| Transparency.CountEntry | server/api/transparency-analysis.ts:23-43 | the loop body for one key |
| Transparency.CountEntries | php-api/transparency-analysis.php:33-57 | the loop computes the specified analysis |
| Transparency.FlagForces | php-api/transparency-analysis.php:60-64 | the loop computes the flagged list |
| Transparency.PhpAnalysis | php-api/transparency-analysis.php:16-67 | a missing or falsy file gives no issues and an empty analysis; otherwise the flagged forces and the analysis |
| Transparency.TsAnalysis | server/api/transparency-analysis.ts:8-62 | a missing or unreadable file gives no issues and no analysis; otherwise the flagged forces with the analysis |
| HomepageMap.FormatMonth | php-api/homepage-map.php:70-92 | null and 'latest' give 'Latest'; `YYYY-MM` with month 1-12 gives 'Mon YYYY'; anything else is unchanged |
| HomepageMap.FormatMonthInjective | php-api/homepage-map.php:70-92 | two `YYYY-MM` months with a valid month number that format the same are the same month |
| HomepageMap.TrailingNewlineAccepted | php-api/homepage-map.php:76 | the pattern's `$` also accepts a month followed by a newline, which formats like the month itself |
| HomepageMap.MapCountsAgree | php-api/homepage-map.php:186-218 | the homepage analysis counts like the transparency analysis |
| HomepageMap.LatestIsGreatest | php-api/homepage-map.php:203-214 | when every month is truthy, a force's latest month is the greatest of its months with data other than 'latest', or none |
| HomepageMap.FalsyMonthBreaksMaximum | php-api/homepage-map.php:209-214 | a falsy latest month such as "0" is replaced by any later month, even a smaller one, so without truthy months the result need not be the greatest |
| HomepageMap.StatusRule | php-api/homepage-map.php:240-261 | a flagged force shows no data and total 0; otherwise active iff >= 11 months with data and > 100 incidents, limited iff some incidents, none otherwise |
| HomepageMap.Rows | php-api/homepage-map.php:234-279 | one row per force of the forces file, in order |
| HomepageMap.SummaryIsFirstMonth | php-api/homepage-map.php:263-268 | as written, the summary month is the first force's formatted month |
| HomepageMap.SummaryMonthExample | php-api/homepage-map.php:263-268 | forces with months 2024-01 and 2024-06 give the summary 'Jan 2024' |
| HomepageMap.SortedByStatus | php-api/homepage-map.php:282-285 | the sorted rows are ordered active, limited, none |
| HomepageMap.SortIsPermutation | php-api/homepage-map.php:282-285 | the sorted rows are a permutation of the rows |
| HomepageMap.SortIsStable | php-api/homepage-map.php:282-285 | rows of equal status keep their order |
| HomepageMap.TallyEntries | php-api/homepage-map.php:186-218 | the loop computes the specified analysis with latest months |
| HomepageMap.BuildRows | php-api/homepage-map.php:234-279 | the loop builds the rows and the three status counts |
| HomepageMap.HomepageMapReply | php-api/homepage-map.php:30-295 | the failures in order (no cache file, invalid cache, no forces file); otherwise the sorted rows and the summary |
| HomepageMap.StatusesAddUp | php-api/homepage-map.php:288-295 | active + limited + none = number of forces |

## Left out

- Network calls, `fetch`, `$fetch` and `file_get_contents` on URLs are inputs,
  not behaviour. The HTTP response plumbing and headers are not modelled.
- `Promise.all` is modelled sequentially, and `setTimeout` waits are returned
  as delay values. This includes the 200 ms batch pause and the 100 ms pause
  of `statistics.ts`.
- saveToStorage's byte-size loop (stores/stopsearch.ts:209-223) and its
  quota-exceeded branch (stores/stopsearch.ts:229-246) are not modelled: they
  depend on JSON string lengths and `localStorage` errors.
- JSON encoding and decoding are not modelled, nor the MD5 file names of the
  statistics cache. Files are maps keyed by the cache key.
- Floating point:
  - coordinates are integers in thousandths of a degree (map centres in
    ten-thousandths);
  - `Math.round` and PHP `round` are not modelled.
- Dates and locale functions are an abstract partial parse into an hour and a
  weekday. The month `statistics-cache.php` computes for 'latest' is an input.
- `localeCompare` is modelled as code-point order. That order agrees with
  `localeCompare` for the ASCII parameter names the store uses.
- PHP compares numeric strings numerically; the model compares them as strings.
  PHP's `in_array` is treated as strict.
- PHP array key order and numeric-key conversion, and the integer-key order of
  `Object.entries`, are not modelled. Tables are maps. The only order modelled
  is the first-seen order of the object-of-search labels, which is the order
  `Object.entries` gives only when no label is integer-like (such labels come
  first in JavaScript).
- Json.TotalOf: non-numeric totals count 0. A non-integral number, a numeric
  string such as `"5"` or a boolean `true` in a cached record's `total` is
  counted as 0, while PHP's `> 0` and `+=` count 5 and 1 and TypeScript's `+=`
  concatenates the string. The application writes integer totals only.
- Prototype keys such as `__proto__` in JavaScript tables are not modelled.
- The `ethnicityOutcomes` table of `statistics.ts` is never filled and is not
  modelled. The statistics fallback record is modelled only by its counts.
- Timestamps written as text (`date('c')`, `toISOString`) are integers.
- The tried-paths error text and the undecodable-forces-file case of
  `homepage-map.php` are not modelled.
- The request wrappers of the store other than `getStopsByForce`, the
  composables, the plugins and the build scripts are not part of this model.
- The `usort` of `homepage-map.php` is modelled on a sequence, not in place.
- Aggregation.FindCluster: the cluster test `Math.abs(a - b) < 0.001` on
  doubles is modelled as equality of integer thousandths. In doubles two
  neighbouring thousandths can differ by slightly less than 0.001 (51.001 -
  51.0 is 0.00099999999999767), so the source can merge incidents at
  (51.000, -0.100) and (51.001, -0.100) into one cluster of count 2 where the
  model keeps two clusters of count 1.
- Aggregation.AddPoint: inherits that difference; it may make more, smaller
  clusters than the source. The sums over clusters are the same.
- ForceData.PercentageJson: the percentage is an exact rational. PHP computes
  `($arrests / $total) * 100` in doubles and can write a rounded value (7/100
  then times 100 gives 7.000000000000001).
- ClientCache.CapAll: modes are capped one after another, and a mode is
  sorted by the timestamps the earlier modes left. So the rule that no
  dropped entry is newer than a kept one is stated, against the original
  timestamps, only for keys that no other mode drops; for a key shared with
  another mode it depends on the order of `Object.keys(this.cache)`.
- DurableCache.CacheFileStore.Stats: PHP's `min`/`max` over whole entries
  compare arrays element by element, not by timestamp. The model states only
  that the oldest and newest entries reported are entries of the snapshot with
  their own timestamps, not which ones PHP picks.
