/** The client store (`useStopSearchStore`): the two-table client cache, the
    bounded error log and the fetch governor's counters, with the operations
    that read and rewrite them. The server cache, the network and the clock
    are inputs: what the server cache answers, what each request receives,
    and `now` in milliseconds. Writes to the server cache are best-effort and
    do not affect the client state, so they are not modelled. */
module StopSearchStore {
  import opened Wrappers
  import opened Incidents
  import opened CacheKeys
  import opened ClientCache
  import opened Governor
  import opened BatchFetch
  import opened AggKeys
  import opened AggregatedLookup

  /** What the server cache answers to `getCached(key)`: the call fails, the
      key is not cached, or it is cached with this data (which may be
      falsy). */
  datatype ServerAnswer = ServerDown | ServerMiss | ServerHit(data: Payload)

  /** `forces.find(f => f.id === forceId)?.name || forceId`: the name of the
      first force with that id, unless it is empty or there is none. */
  function ForceName(forces: seq<ForceInfo>, forceId: string): (n: string)
    ensures (forall i :: 0 <= i < |forces| ==> forces[i].id != forceId) ==> n == forceId
    ensures forall i :: 0 <= i < |forces| && forces[i].id == forceId
                        && (forall j :: 0 <= j < i ==> forces[j].id != forceId)
                        ==> n == OrJs(Some(forces[i].name), forceId)
  {
    if forces == [] then forceId
    else if forces[0].id == forceId then (if forces[0].name != "" then forces[0].name else forceId)
    else
      var n := ForceName(forces[1..], forceId);
      assert forall i :: 1 <= i < |forces| ==> forces[i] == forces[1..][i - 1];
      n
  }

  /** The repair applied to cached and stale rows: a truthy `force_id` and
      `force_name` are kept, a missing or empty one is filled in. Nothing else
      in a row changes. */
  function Repair(rows: seq<Incident>, forceId: string, name: string): (r: seq<Incident>)
    ensures |r| == |rows|
    ensures forall i :: 0 <= i < |r| ==>
      r[i].(forceId := rows[i].forceId, forceName := rows[i].forceName) == rows[i]
      && r[i].forceId == (if TruthyJs(rows[i].forceId) then rows[i].forceId else Some(forceId))
      && r[i].forceName == (if TruthyJs(rows[i].forceName) then rows[i].forceName else Some(name))
  {
    seq(|rows|, i requires 0 <= i < |rows| =>
      rows[i].(forceId := Some(OrJs(rows[i].forceId, forceId)), forceName := Some(OrJs(rows[i].forceName, name))))
  }

  /** The tagging applied to freshly fetched rows: every row gets the force's
      id and name, whatever it had. Nothing else in a row changes. */
  function Enrich(rows: seq<Incident>, forceId: string, name: string): (r: seq<Incident>)
    ensures |r| == |rows|
    ensures forall i :: 0 <= i < |r| ==>
      r[i].(forceId := rows[i].forceId, forceName := rows[i].forceName) == rows[i]
      && r[i].forceId == Some(forceId) && r[i].forceName == Some(name)
  {
    seq(|rows|, i requires 0 <= i < |rows| => rows[i].(forceId := Some(forceId), forceName := Some(name)))
  }

  /** Rows that were tagged when fetched come back from the cache unchanged
      by the repair, whatever name the repair would fill in. */
  lemma RepairAfterEnrich(rows: seq<Incident>, forceId: string, name: string, other: string)
    requires forceId != "" && name != ""
    ensures Repair(Enrich(rows, forceId, name), forceId, other) == Enrich(rows, forceId, name)
  {
  }

  /** What `getCachedData(key, mode)` returns: the server's data when the
      server cache is available and has the key, the client lookup
      otherwise. */
  function Found(available: bool, server: ServerAnswer, tables: Tables, times: Stamps,
                 mode: string, key: string, now: int): (r: Option<Payload>)
    ensures r.Some? && !(available && server.ServerHit?) ==> Truthy(r.value) && IsValid(times, key, now)
  {
    if available && server.ServerHit? then Some(server.data) else ClientGet(tables, times, mode, key, now)
  }

  /** The client tables after `getCachedData(key, mode)`: a server hit
      leaves them alone, the client branch evicts a stale entry. */
  function Looked(available: bool, server: ServerAnswer, tables: Tables, times: Stamps,
                  mode: string, key: string, now: int): (r: (Tables, Stamps))
    ensures available && server.ServerHit? ==> r == (tables, times)
    ensures r.0.Keys == tables.Keys
  {
    if available && server.ServerHit? then (tables, times) else Evict(tables, times, mode, key, now)
  }

  /** Rows of a cached or stale force entry as `getStopsByForce` returns
      them: repaired when the entry is an array; anything else fails on
      `.map` and surfaces as a `FORCE_SEARCH_ERROR`. */
  function Served(p: Payload, forceId: string, name: string): (r: Result<seq<Incident>, StoreError>)
    ensures r.Success? <==> p.Rows?
    ensures r.Failure? ==> r.error == ForceSearchError
    ensures r.Success? ==> |r.value| == |p.items|
  {
    if p.Rows? then Success(Repair(p.items, forceId, name)) else Failure(ForceSearchError)
  }

  /** The stale candidate of `getStopsByForce`: the client's force entry
      when it is truthy and younger than three timeouts. */
  function StaleEntry(tables: Tables, times: Stamps, key: string, now: int): (r: Option<Payload>)
    ensures r.Some? ==>
      "force" in tables && key in tables["force"] && r.value == tables["force"][key]
      && Truthy(r.value) && now - TimeOr0(times, key) < 3 * CacheTimeout
  {
    if "force" in tables && key in tables["force"] && Truthy(tables["force"][key])
       && now - TimeOr0(times, key) < 3 * CacheTimeout
    then Some(tables["force"][key])
    else None
  }

  /** After a client lookup that found nothing there is no stale entry to
      fall back on: a truthy entry the lookup did not return was expired
      and has just been evicted. */
  lemma {:induction false} NoStaleAfterClientMiss(tables: Tables, times: Stamps, key: string, now: int)
    requires ClientGet(tables, times, "force", key, now).None?
    ensures var after := Evict(tables, times, "force", key, now); StaleEntry(after.0, after.1, key, now).None?
  {
    var after := Evict(tables, times, "force", key, now);
    if "force" in tables && key in tables["force"] && Truthy(tables["force"][key]) {
      assert Stale(tables, times, "force", key, now);
      assert key !in after.0["force"];
    }
  }

  /** The fetch in `getStopsByForce` succeeded with an array. */
  predicate Fetched(o: Result<Payload, StoreError>) {
    o.Success? && o.value.Rows?
  }

  /** What `getStopsByForce` throws when the fetch does not give an array:
      the fetch's own error, or a 500 `APIError` for a body that is not an
      array. */
  function FetchError(o: Result<Payload, StoreError>): (e: StoreError)
    requires !Fetched(o)
    ensures o.Failure? ==> e == o.error
    ensures o.Success? ==> e == ApiError(500)
  {
    if o.Failure? then o.error else ApiError(500)
  }

  /** What `getMultipleCached(keys)` resolves to: the entries of `cached`
      in order and `missingKeys`; `None` when the call throws. */
  type MultiAnswer = Option<(seq<(string, Payload)>, seq<string>)>

  /** The result after the server branch of `getForcesDataAggregated`: the
      cached entries whose force was requested, or nothing when the server
      cache threw. */
  function ServerGrid(forceIds: seq<string>, multi: MultiAnswer): (g: Grid)
    ensures g.Keys == EmptyGrid(forceIds).Keys
  {
    match multi
    case None => EmptyGrid(forceIds)
    case Some(answer) => MarkHits(EmptyGrid(forceIds), SplitEntries(answer.0))
  }

  /** The requests left to fetch after the server branch: the missing keys
      split, or every pair when the server cache threw. */
  function ServerMissing(forceIds: seq<string>, months: seq<string>, multi: MultiAnswer): (r: seq<Request>)
    ensures multi.None? ==> r == Pairs(forceIds, months)
    ensures multi.Some? ==> |r| == |multi.value.1|
  {
    match multi
    case None => Pairs(forceIds, months)
    case Some(answer) => MissingRequests(answer.1)
  }

  /** `params` of `getStopsByForce`: the force, and the date when it is
      given, non-empty and not "latest". */
  function ForceQuery(forceId: string, date: Option<string>): seq<Param> {
    [("force", forceId)] + (if date.Some? && date.value != "" && date.value != "latest" then [("date", date.value)] else [])
  }

  /** The cache key of a force query is `getCacheKey(params)`: the
      planner's key for that month when a month is given, `force=<id>`
      otherwise. */
  function ForceQueryKey(forceId: string, date: Option<string>): (k: string)
    ensures k == CacheKey(ForceQuery(forceId, date))
  {
    if date.Some? && date.value != "" && date.value != "latest" then
      ForceKeyIsCacheKey(forceId, date.value);
      ForceKey(forceId, date.value)
    else
      ForceOnlyKey(forceId);
      "force=" + forceId
  }

  /** `isDateAvailable(date)`, as `availableDatasets.some(...)`: some
      dataset is for that month and lists at least one force with
      stop-and-search data. */
  function DateAvailable(datasets: seq<Dataset>, date: string): (b: bool)
    ensures b <==> exists i :: 0 <= i < |datasets| && datasets[i].date == Some(date)
                              && datasets[i].stopAndSearch.Some? && |datasets[i].stopAndSearch.value| > 0
  {
    if datasets == [] then false
    else
      var d := datasets[0];
      var rest := DateAvailable(datasets[1..], date);
      assert forall i :: 1 <= i < |datasets| ==> datasets[i] == datasets[1..][i - 1];
      (d.date == Some(date) && d.stopAndSearch.Some? && |d.stopAndSearch.value| > 0) || rest
  }

  /** The inner loop of `getCachedForces`: whether every month of the force
      has a usable entry, stopping at the first that has not. */
  method CheckForce(tables: Tables, times: Stamps, now: int, forceId: string, months: seq<string>)
    returns (isFullyCached: bool)
    requires "force" in tables
    ensures isFullyCached == FullyCached(tables, times, now, forceId, months)
  {
    isFullyCached := true;
    var j := 0;
    while j < |months|
      invariant 0 <= j <= |months|
      invariant FullyCached(tables, times, now, forceId, months[..j])
    {
      var key := ForceKey(forceId, months[j]);
      if !(key in tables["force"] && Truthy(tables["force"][key])) || !IsValid(times, key, now) {
        isFullyCached := false;
        assert !Hit(tables, times, now, ForceKey(forceId, months[j]));
        break;
      }
      FullyCachedStep(tables, times, now, forceId, months, j);
      j := j + 1;
    }
  }

  lemma FullyCachedStep(tables: Tables, times: Stamps, now: int, forceId: string, months: seq<string>, j: nat)
    requires j < |months| && FullyCached(tables, times, now, forceId, months[..j])
    requires Hit(tables, times, now, ForceKey(forceId, months[j]))
    ensures FullyCached(tables, times, now, forceId, months[..j + 1])
  {
    assert months[..j + 1] == months[..j] + [months[j]];
  }

  /** The outer loop of `getCachedForces`, on the two tables. */
  method PlanForces(tables: Tables, times: Stamps, now: int, forceIds: seq<string>, months: seq<string>)
    returns (cached: seq<string>, uncached: seq<string>)
    requires "force" in tables
    ensures var full := FullyCachedIn(tables, times, now, months);
      cached == Keep(forceIds, full) && uncached == Reject(forceIds, full)
  {
    ghost var full := FullyCachedIn(tables, times, now, months);
    cached, uncached := [], [];
    var i := 0;
    while i < |forceIds|
      invariant 0 <= i <= |forceIds|
      invariant cached == Keep(forceIds[..i], full) && uncached == Reject(forceIds[..i], full)
    {
      var forceId := forceIds[i];
      var isFullyCached := CheckForce(tables, times, now, forceId, months);
      PartitionStep(forceIds, full, i);
      if isFullyCached {
        cached := cached + [forceId];
      } else {
        uncached := uncached + [forceId];
      }
      i := i + 1;
    }
    assert forceIds[..|forceIds|] == forceIds;
  }

  /** The inner loop of `getCachedDataForForces`: the incidents of one
      force's usable array entries, month by month. */
  method CollectMonths(tables: Tables, times: Stamps, now: int, forceId: string, months: seq<string>)
    returns (found: seq<Incident>)
    requires "force" in tables
    ensures found == HarvestMonths(tables, times, now, forceId, months)
  {
    found := [];
    var j := 0;
    while j < |months|
      invariant 0 <= j <= |months|
      invariant found == HarvestMonths(tables, times, now, forceId, months[..j])
    {
      var key := ForceKey(forceId, months[j]);
      if key in tables["force"] && Truthy(tables["force"][key]) && IsValid(times, key, now) {
        var cachedData := tables["force"][key];
        if cachedData.Rows? {
          found := found + cachedData.items;
        }
      }
      HarvestMonthsStep(tables, times, now, forceId, months, j);
      j := j + 1;
    }
    assert months[..|months|] == months;
  }

  /** The outer loop of `getCachedDataForForces`, on the two tables. */
  method CollectForces(tables: Tables, times: Stamps, now: int, forceIds: seq<string>, months: seq<string>)
    returns (all: seq<Incident>)
    requires "force" in tables
    ensures all == HarvestAll(tables, times, now, forceIds, months)
  {
    all := [];
    var i := 0;
    while i < |forceIds|
      invariant 0 <= i <= |forceIds|
      invariant all == HarvestAll(tables, times, now, forceIds[..i], months)
    {
      var found := CollectMonths(tables, times, now, forceIds[i], months);
      HarvestAllStep(tables, times, now, forceIds, months, i);
      all := all + found;
      i := i + 1;
    }
    assert forceIds[..|forceIds|] == forceIds;
  }

  class Store {
    var cache: Tables
    var cacheTimes: Stamps
    var errors: seq<StoreError>
    var lastApiCall: int
    var consecutiveFailures: nat
    var serverCacheAvailable: bool
    var forces: seq<ForceInfo>
    var availableDatasets: seq<Dataset>

    ghost predicate Valid()
      reads this
    {
      HasModes(cache) && |errors| <= MaxErrors
    }

    /** The fields the cache operations leave alone. */
    function Untouched(): (seq<StoreError>, int, nat, bool, seq<ForceInfo>, seq<Dataset>)
      reads this
    {
      (errors, lastApiCall, consecutiveFailures, serverCacheAvailable, forces, availableDatasets)
    }

    /** The fields the cache analytics and the force query do not write. */
    function Setting(): (bool, seq<ForceInfo>, seq<Dataset>)
      reads this
    {
      (serverCacheAvailable, forces, availableDatasets)
    }

    /** The governor's view of the store. */
    function GovState(): Gov
      reads this
    {
      Gov(consecutiveFailures, lastApiCall, errors)
    }

    /** The initial state: four empty modes, no timestamps, no errors, no
        call made yet. */
    constructor (serverAvailable: bool, forceList: seq<ForceInfo>, datasets: seq<Dataset>)
      ensures Valid()
      ensures cache == map["area" := map[], "location" := map[], "force" := map[], "customArea" := map[]]
      ensures cacheTimes == map[] && errors == [] && lastApiCall == 0 && consecutiveFailures == 0
      ensures serverCacheAvailable == serverAvailable && forces == forceList && availableDatasets == datasets
    {
      cache := map["area" := map[], "location" := map[], "force" := map[], "customArea" := map[]];
      cacheTimes := map[];
      errors := [];
      lastApiCall := 0;
      consecutiveFailures := 0;
      serverCacheAvailable := serverAvailable;
      forces := forceList;
      availableDatasets := datasets;
    }

    /** `getCachedData(key, mode)`: a server hit is returned as it is, even
        when its data is falsy. Otherwise the client entry is returned when
        it is present, truthy and valid; a present, truthy but expired entry
        is deleted from the mode's table and from `cacheTimes`, and nothing
        is returned. */
    method GetCachedData(key: string, mode: string, server: ServerAnswer, now: int) returns (r: Option<Payload>)
      requires Valid()
      modifies this
      ensures Valid() && Untouched() == old(Untouched())
      ensures r == Found(serverCacheAvailable, server, old(cache), old(cacheTimes), mode, key, now)
      ensures (cache, cacheTimes) == Looked(serverCacheAvailable, server, old(cache), old(cacheTimes), mode, key, now)
    {
      if serverCacheAvailable && server.ServerHit? {
        return Some(server.data);
      }
      r := None;
      if mode in cache && key in cache[mode] && Truthy(cache[mode][key]) {
        if IsValid(cacheTimes, key, now) {
          r := Some(cache[mode][key]);
        } else {
          cache := cache[mode := cache[mode] - {key}];
          cacheTimes := cacheTimes - {key};
        }
      }
    }

    /** The client half of `saveCachedData(key, data, mode)`: the mode's
        table is created if missing, the entry stored and stamped `now`. */
    method SaveCachedData(key: string, data: Payload, mode: string, now: int)
      requires Valid()
      modifies this
      ensures Valid() && Untouched() == old(Untouched())
      ensures cache == Written(old(cache), mode, key, data)
      ensures cacheTimes == old(cacheTimes)[key := now]
    {
      if mode !in cache {
        cache := cache[mode := map[]];
      }
      cache := cache[mode := cache[mode][key := data]];
      cacheTimes := cacheTimes[key := now];
    }

    /** The first pass of `saveToStorage`: every mode over the per-mode
        bound keeps only its newest entries, and the timestamps of the
        dropped ones are deleted. */
    method SaveToStorage()
      requires Valid()
      modifies this
      ensures Valid() && Untouched() == old(Untouched())
      ensures Capped(old(cache), old(cacheTimes), cache, cacheTimes)
    {
      var c, t := CapAll(cache, cacheTimes);
      SameModes(cache, c);
      cache, cacheTimes := c, t;
    }

    /** `setCacheData(mode, key, data)`: store and stamp the entry, then
        `saveToStorage`. When no mode is then over the bound, the state is
        exactly the written one. */
    method SetCacheData(mode: string, key: string, data: seq<Incident>, now: int)
      requires Valid() && mode in Modes
      modifies this
      ensures Valid() && Untouched() == old(Untouched())
      ensures var w, t := Written(old(cache), mode, key, Rows(data)), old(cacheTimes)[key := now];
        Capped(w, t, cache, cacheTimes)
        && ((forall m :: m in w ==> |w[m]| <= MaxItemsPerMode) ==> cache == w && cacheTimes == t)
    {
      cache := cache[mode := cache[mode][key := Rows(data)]];
      cacheTimes := cacheTimes[key := now];
      ghost var w, t := cache, cacheTimes;
      SaveToStorage();
      if forall m :: m in w ==> |w[m]| <= MaxItemsPerMode {
        CapWithinBoundChangesNothing(w, t, cache, cacheTimes);
      }
    }

    /** `clearExpiredCache`: every key whose age has reached the timeout is
        deleted from `cacheTimes` and from every mode; if anything was
        deleted, `saveToStorage` runs. When nothing expired nothing changes;
        otherwise the state is the capped cleared one, in which no expired
        key survives. */
    method ClearExpiredCache(now: int)
      requires Valid()
      modifies this
      ensures Valid() && Untouched() == old(Untouched())
      ensures Cleared(old(cache), old(cacheTimes), now, cache, cacheTimes)
    {
      var c, t := ClearAndCap(cache, cacheTimes, now);
      SameModes(cache, c);
      cache, cacheTimes := c, t;
    }

    /** `_addError(error)`: the newest error first, the oldest dropped once
        the log would exceed `MaxErrors`. */
    method AddError(e: StoreError)
      requires Valid()
      modifies this
      ensures Valid()
      ensures errors == PushError(old(errors), e)
      ensures cache == old(cache) && cacheTimes == old(cacheTimes)
      ensures lastApiCall == old(lastApiCall) && consecutiveFailures == old(consecutiveFailures)
      ensures Setting() == old(Setting())
    {
      errors := [e] + errors;
      if |errors| > MaxErrors {
        errors := errors[..|errors| - 1];
      }
    }

    /** `_rateLimit()` called at time `now`: wait until `MinApiInterval` has
        passed since the last call, then record the time the wait ended. */
    method RateLimit(now: int) returns (woke: int)
      modifies this
      ensures woke == now + RateDelay(now - old(lastApiCall))
      ensures lastApiCall == woke
      ensures cache == old(cache) && cacheTimes == old(cacheTimes) && errors == old(errors)
      ensures consecutiveFailures == old(consecutiveFailures) && Setting() == old(Setting())
    {
      var elapsed := now - lastApiCall;
      woke := now;
      if elapsed < MinApiInterval {
        woke := now + (MinApiInterval - elapsed);
      }
      lastApiCall := woke;
    }

    /** `_fetchWithErrorHandling(url, options, retry)` started at time
        `clock`; `net(i)` is what attempt `i` receives and `jitter(i)` the
        random part of the back-off after it. The outcome, the governor's
        counters and log, and the time it settles are those of
        `Governor.Attempt`; the cache is not touched. */
    method FetchWithErrorHandling(clock: int, retry: nat, net: nat -> NetResult, jitter: nat -> Jitter)
      returns (outcome: Result<Payload, StoreError>, settled: int)
      requires Valid()
      modifies this
      ensures Valid()
      ensures var t := Attempt(old(GovState()), clock, retry, net, jitter);
        outcome == t.outcome && GovState() == t.gov && settled == t.clock
      ensures cache == old(cache) && cacheTimes == old(cacheTimes) && Setting() == old(Setting())
      decreases if retry < MaxRetries then MaxRetries - retry else 0
    {
      ghost var g := GovState();
      settled := AwaitTurn(clock);
      if Retried(net(retry), retry) {
        // a 429 before the last retry: count it, back off, return the retry
        consecutiveFailures := consecutiveFailures + 1;
        ghost var sent := settled;
        ghost var g1 := GovState();
        assert g1 == g.(lastCall := sent, failures := g.failures + 1);
        var resume := settled + Backoff(retry, jitter(retry));
        outcome, settled := FetchWithErrorHandling(resume, retry + 1, net, jitter);
        ghost var inner := Attempt(g1, resume, retry + 1, net, jitter);
        assert inner.outcome == outcome && inner.gov == GovState() && inner.clock == settled;
        AttemptRetried(g, clock, retry, net, jitter, sent, outcome, GovState(), settled);
      } else {
        AttemptSettled(g, clock, retry, net, jitter);
        outcome := SettleResponse(net(retry), settled);
      }
    }

    /** The waits before each request of `_fetchWithErrorHandling`: the
        circuit breaker's pause once more than `BreakerThreshold` failures
        are counted, then `_rateLimit`; the request is sent when they end. */
    method AwaitTurn(clock: int) returns (sent: int)
      requires Valid()
      modifies this
      ensures Valid()
      ensures sent == SentAt(old(GovState()), clock) && GovState() == old(GovState()).(lastCall := sent)
      ensures cache == old(cache) && cacheTimes == old(cacheTimes) && Setting() == old(Setting())
    {
      var woke := clock;
      if consecutiveFailures > BreakerThreshold {
        var wait := if consecutiveFailures * BreakerStep < BreakerCap then consecutiveFailures * BreakerStep else BreakerCap;
        woke := clock + wait;
      }
      sent := RateLimit(woke);
    }

    /** The rest of `_fetchWithErrorHandling` once the answer is not a
        retried 429: a 2xx resets the failure count and returns the body (a
        body that does not parse is caught after the reset); a non-2xx is
        counted, thrown as an `APIError`, counted again and logged by the
        catch block; a fetch rejected with 'Failed to fetch' is counted and
        logged as a network error, any other rejection as an unexpected
        error. */
    method SettleResponse(r: NetResult, sent: int) returns (outcome: Result<Payload, StoreError>)
      requires Valid()
      modifies this
      ensures Valid()
      ensures var t := Settle(old(GovState()), sent, r); outcome == t.outcome && GovState() == t.gov
      ensures cache == old(cache) && cacheTimes == old(cacheTimes) && Setting() == old(Setting())
    {
      match r
      case Ok(body) =>
        consecutiveFailures := 0;
        outcome := Success(body);
      case BadBody =>
        consecutiveFailures := 0;
        consecutiveFailures := consecutiveFailures + 1;
        AddError(UnexpectedError);
        outcome := Failure(UnexpectedError);
      case NetworkFailure =>
        consecutiveFailures := consecutiveFailures + 1;
        AddError(NetworkError);
        outcome := Failure(NetworkError);
      case Rejected =>
        consecutiveFailures := consecutiveFailures + 1;
        AddError(UnexpectedError);
        outcome := Failure(UnexpectedError);
      case HttpStatus(code) =>
        consecutiveFailures := consecutiveFailures + 1;
        consecutiveFailures := consecutiveFailures + 1;
        AddError(ApiError(code));
        outcome := Failure(ApiError(code));
    }

    /** `getStopsByForce(forceId, date)` at time `clock`. A truthy cached
        entry is served repaired, without a request. Otherwise the police
        API is asked through the fetch wrapper: an array is tagged with the
        force, cached stamped with the time the fetch settled, and returned.
        A failure, or a body that is not an array, falls back on the stale
        entry (truthy, younger than three timeouts) when there is one, and
        is thrown otherwise. */
    method GetStopsByForce(forceId: string, date: Option<string>, server: ServerAnswer, clock: int,
                           net: nat -> NetResult, jitter: nat -> Jitter)
      returns (r: Result<seq<Incident>, StoreError>)
      requires Valid()
      modifies this
      ensures Valid() && Setting() == old(Setting())
      ensures var key, name := ForceQueryKey(forceId, date), ForceName(forces, forceId);
        var found := Found(serverCacheAvailable, server, old(cache), old(cacheTimes), "force", key, clock);
        found.Some? && Truthy(found.value) ==>
          r == Served(found.value, forceId, name) && GovState() == old(GovState())
          && cache == old(cache) && cacheTimes == old(cacheTimes)
      ensures var key, name := ForceQueryKey(forceId, date), ForceName(forces, forceId);
        var found := Found(serverCacheAvailable, server, old(cache), old(cacheTimes), "force", key, clock);
        var t := Attempt(old(GovState()), clock, 0, net, jitter);
        !(found.Some? && Truthy(found.value)) && Fetched(t.outcome) ==>
          var rows := Enrich(t.outcome.value.items, forceId, name);
          r == Success(rows) && GovState() == t.gov
          && cache == Written(old(cache), "force", key, Rows(rows)) && cacheTimes == old(cacheTimes)[key := t.clock]
      ensures var key, name := ForceQueryKey(forceId, date), ForceName(forces, forceId);
        var found := Found(serverCacheAvailable, server, old(cache), old(cacheTimes), "force", key, clock);
        var t := Attempt(old(GovState()), clock, 0, net, jitter);
        var after := Looked(serverCacheAvailable, server, old(cache), old(cacheTimes), "force", key, clock);
        !(found.Some? && Truthy(found.value)) && !Fetched(t.outcome) ==>
          GovState() == t.gov && cache == after.0 && cacheTimes == after.1
          && r == match StaleEntry(after.0, after.1, key, clock)
                  case Some(p) => Served(p, forceId, name)
                  case None => Failure(FetchError(t.outcome))
      ensures var key := ForceQueryKey(forceId, date);
        var found := Found(serverCacheAvailable, server, old(cache), old(cacheTimes), "force", key, clock);
        var t := Attempt(old(GovState()), clock, 0, net, jitter);
        !(found.Some? && Truthy(found.value)) && !Fetched(t.outcome) && !(serverCacheAvailable && server.ServerHit?) ==>
          r == Failure(FetchError(t.outcome))
    {
      var key := ForceQueryKey(forceId, date);
      var name := ForceName(forces, forceId);
      var cached := GetCachedData(key, "force", server, clock);
      if cached.Some? && Truthy(cached.value) {
        r := Served(cached.value, forceId, name);
        return;
      }
      if !(serverCacheAvailable && server.ServerHit?) {
        NoStaleAfterClientMiss(old(cache), old(cacheTimes), key, clock);
      }
      ghost var t := Attempt(GovState(), clock, 0, net, jitter);
      if Fetched(t.outcome) {
        WriteAfterEvict(old(cache), old(cacheTimes), "force", key, clock, Rows(Enrich(t.outcome.value.items, forceId, name)), t.clock);
      }
      r := FetchForce(forceId, name, key, StaleEntry(cache, cacheTimes, key, clock), clock, net, jitter);
    }

    /** The part of `getStopsByForce` after a cache miss: the fetch, the
        tagging and caching of an array, and the stale fallback (`stale`)
        or the throw on failure. */
    method FetchForce(forceId: string, name: string, key: string, stale: Option<Payload>, clock: int,
                      net: nat -> NetResult, jitter: nat -> Jitter)
      returns (r: Result<seq<Incident>, StoreError>)
      requires Valid()
      modifies this
      ensures Valid() && Setting() == old(Setting())
      ensures var t := Attempt(old(GovState()), clock, 0, net, jitter);
        GovState() == t.gov
        && (Fetched(t.outcome) ==>
              var rows := Enrich(t.outcome.value.items, forceId, name);
              r == Success(rows)
              && cache == Written(old(cache), "force", key, Rows(rows)) && cacheTimes == old(cacheTimes)[key := t.clock])
        && (!Fetched(t.outcome) ==>
              cache == old(cache) && cacheTimes == old(cacheTimes)
              && r == match stale
                      case Some(p) => Served(p, forceId, name)
                      case None => Failure(FetchError(t.outcome)))
    {
      var outcome, settled := FetchWithErrorHandling(clock, 0, net, jitter);
      if Fetched(outcome) {
        var rows := Enrich(outcome.value.items, forceId, name);
        SaveCachedData(key, Rows(rows), "force", settled);
        r := Success(rows);
      } else {
        r := match stale
             case Some(p) => Served(p, forceId, name)
             case None => Failure(FetchError(outcome));
      }
    }

    /** `getForcesDataAggregated(forceIds, months)`. With the server cache
        available, the result starts from its cached entries and every
        missing pair is fetched in batches of three; `fetched(f, m)` is what
        `fetchForceData(f, m)` resolves to. Without it, every pair's cell is
        the un-awaited promise of the client lookup of its key, nothing is
        fetched, and the lookups evict the stale keys. `None` when a request
        names a force that is not in the result, which makes a batch
        reject. */
    method GetForcesDataAggregated(forceIds: seq<string>, months: seq<string>, multi: MultiAnswer, now: int,
                                   fetched: (string, string) -> Payload)
      returns (r: Option<Grid>)
      requires Valid()
      modifies this
      ensures Valid() && Untouched() == old(Untouched())
      ensures serverCacheAvailable ==>
        cache == old(cache) && cacheTimes == old(cacheTimes)
        && r == FillAll(ServerGrid(forceIds, multi), ServerMissing(forceIds, months, multi), fetched)
      ensures !serverCacheAvailable ==>
        r == Some(ClientCells(EmptyGrid(forceIds), Pairs(forceIds, months), old(cache), old(cacheTimes), now))
        && (cache, cacheTimes) == EvictAll(old(cache), old(cacheTimes), ReqKeys(Pairs(forceIds, months)), now)
    {
      var results: Grid;
      var missing: seq<Request>;
      if serverCacheAvailable {
        results := ServerGrid(forceIds, multi);
        missing := ServerMissing(forceIds, months, multi);
      } else {
        var tables, times := cache, cacheTimes;
        var c, t;
        results, c, t := LookupPairs(tables, times, forceIds, months, now);
        SameModes(tables, c);
        cache, cacheTimes := c, t;
        missing := [];
      }
      r := Some(results);
      if |missing| > 0 {
        var batches, paused;
        r, batches, paused := FetchInBatches(results, missing, fetched);
      }
    }

    /** `getCachedForces(forceIds, months)`: the forces whose every month
        has a truthy, valid entry in the force mode, and the others, each in
        request order. */
    method GetCachedForces(forceIds: seq<string>, months: seq<string>, now: int)
      returns (cached: seq<string>, uncached: seq<string>)
      requires Valid()
      ensures var full := FullyCachedIn(cache, cacheTimes, now, months);
        cached == Keep(forceIds, full) && uncached == Reject(forceIds, full)
    {
      var tables, times := cache, cacheTimes;
      cached, uncached := PlanForces(tables, times, now, forceIds, months);
    }

    /** `getCachedDataForForces(forceIds, months)`: the incidents of every
        truthy, valid array entry of the force mode, force by force and month
        by month. */
    method GetCachedDataForForces(forceIds: seq<string>, months: seq<string>, now: int)
      returns (all: seq<Incident>)
      requires Valid()
      ensures all == HarvestAll(cache, cacheTimes, now, forceIds, months)
    {
      var tables, times := cache, cacheTimes;
      all := CollectForces(tables, times, now, forceIds, months);
    }
  }
}
