/** The durable key/value store behind `/api/cache` (`php-api/cache.php`):
    one file holds the whole snapshot, a map from key to an entry with its
    data, a millisecond timestamp and a time-to-live. Every action loads the
    snapshot, changes its copy and writes the whole copy back. The file is a
    field of a class; what `json_encode` writes is what `json_decode` reads
    back. */
module DurableCache {
  import opened Wrappers
  import opened Json
  import opened AggKeys
  import opened ClientCache

  /** 90 days in milliseconds: the default time-to-live of `set`. */
  const DefaultTtl: int := 7776000000
  /** The `maxSize` that `stats` reports; nothing enforces it. */
  const MaxSize: nat := 2000

  /** One entry of the snapshot. `source` is set by the force endpoint only. */
  datatype Entry = Entry(data: Json, timestamp: int, ttl: int, source: Option<string>)

  type Snapshot = map<string, Entry>

  /** The cache file: missing, or holding text that decodes to a snapshot
      (`Some`), or to something falsy or unparsable (`None`). */
  datatype CacheFile = Missing | Holds(decoded: Option<Snapshot>)

  /** What an action answers. `BadRequest` is sent with status 400. */
  datatype Reply =
    | BadRequest(error: string)
    | GetReply(cached: bool, data: Json)
    | SetReply(success: bool, cacheSize: nat)
    | StatsReply(size: nat, maxSize: nat, keys: set<string>, oldest: Option<(string, int)>, newest: Option<(string, int)>)
    | ForceDataReply(forceId: string, cachedData: map<string, Json>, cachedCount: nat, missingMonths: seq<string>, totalMonths: nat)

  /** `loadCache()`: the decoded snapshot, or the empty one when the file is
      missing or its contents decode to nothing usable. */
  function Load(f: CacheFile): (c: Snapshot)
    ensures f.Missing? || f == Holds(None) ==> c == map[]
    ensures f.Holds? && f.decoded.Some? ==> c == f.decoded.value
  {
    match f
    case Missing => map[]
    case Holds(d) => d.GetOr(map[])
  }

  /** Writing a snapshot and loading it again gives it back, the empty one
      included. */
  lemma LoadAfterSave(c: Snapshot)
    ensures Load(Holds(Some(c))) == c
  {
  }

  /** The entry `set` writes at `nowSec` seconds: stamped in milliseconds. */
  function Stamp(data: Json, ttl: int, nowSec: int): (e: Entry)
    ensures e.timestamp == 1000 * nowSec && e.data == data && e.ttl == ttl && e.source.None?
  {
    Entry(data, nowSec * 1000, ttl, None)
  }

  /** The expiry test of `get`, as written: the current time in seconds
      minus the entry's timestamp, which is in milliseconds. */
  predicate FreshForGet(e: Entry, nowSec: int) {
    nowSec - e.timestamp <= e.ttl
  }

  /** The expiry test of `getForceData`: both sides in milliseconds, and an
      entry exactly `ttl` old is still fresh. */
  predicate FreshForForce(e: Entry, nowSec: int) {
    nowSec * 1000 - e.timestamp <= e.ttl
  }

  /** The `get` action on a loaded snapshot: the reply, and the snapshot it
      saves, if any. */
  function GetAction(c: Snapshot, key: Option<string>, nowSec: int): (r: (Reply, Option<Snapshot>))
    ensures r.1.Some? ==> key.Some? && key.value in c && r.1.value == c - {key.value} && r.0 == GetReply(false, JNull)
    ensures r.0.GetReply? && r.0.cached ==> key.Some? && key.value in c && r.0.data == c[key.value].data && r.1.None?
  {
    if key.None? || !PhpTruthyString(key.value) then (BadRequest("Key is required for get action"), None)
    else if key.value in c then
      if FreshForGet(c[key.value], nowSec) then (GetReply(true, c[key.value].data), None)
      else (GetReply(false, JNull), Some(c - {key.value}))
    else (GetReply(false, JNull), None)
  }

  /** The `set` action on a loaded snapshot. `data` is the raw parameter
      with its decoding; `ttl` is `intval` of the parameter, if given. */
  function SetAction(c: Snapshot, key: Option<string>, data: Option<(string, Json)>, ttl: Option<int>, nowSec: int)
    : (r: (Reply, Option<Snapshot>))
    ensures r.1.None? <==> r.0.BadRequest?
    ensures r.1.Some? ==> key.Some? && r.1.value.Keys == c.Keys + {key.value} && r.0 == SetReply(true, |r.1.value|)
  {
    if key.None? || !PhpTruthyString(key.value) || data.None? || !PhpTruthyString(data.value.0) then
      (BadRequest("Key and data are required for set action"), None)
    else
      var next := c[key.value := Stamp(data.value.1, ttl.GetOr(DefaultTtl), nowSec)];
      (SetReply(true, |next|), Some(next))
  }

  /** A `set` changes the entry of its key only: every other key keeps its
      entry, and the size reported is the number of entries. */
  lemma SetTouchesOnlyKey(c: Snapshot, key: string, raw: string, data: Json, ttl: Option<int>, nowSec: int, other: string)
    requires PhpTruthyString(key) && PhpTruthyString(raw) && other != key
    ensures var r := SetAction(c, Some(key), Some((raw, data)), ttl, nowSec);
      r.1.Some?
      && (other in r.1.value <==> other in c) && (other in c ==> r.1.value[other] == c[other])
      && r.1.value[key] == Entry(data, 1000 * nowSec, ttl.GetOr(DefaultTtl), None)
      && r.0.cacheSize == |c| + (if key in c then 0 else 1)
  {
    var next := c[key := Stamp(data, ttl.GetOr(DefaultTtl), nowSec)];
    if key !in c {
      assert next.Keys == c.Keys + {key};
    } else {
      assert next.Keys == c.Keys;
    }
  }

  /** `set` then `get` of the same key at `nowGet` seconds: the data is
      returned exactly when `nowGet - 1000 * nowSet <= ttl`; otherwise the
      entry is deleted and saved. */
  lemma SetThenGet(c: Snapshot, key: string, raw: string, data: Json, ttl: int, nowSet: int, nowGet: int)
    requires PhpTruthyString(key) && PhpTruthyString(raw)
    ensures var stored := SetAction(c, Some(key), Some((raw, data)), Some(ttl), nowSet).1;
      stored.Some?
      && (nowGet - 1000 * nowSet <= ttl ==> GetAction(stored.value, Some(key), nowGet) == (GetReply(true, data), None))
      && (nowGet - 1000 * nowSet > ttl ==>
            GetAction(stored.value, Some(key), nowGet) == (GetReply(false, JNull), Some(stored.value - {key})))
  {
  }

  /** The units of `get` as written: an entry stamped at `nowSet` seconds
      with a non-negative ttl is still returned at any `nowGet` up to
      `1000 * nowSet` seconds, that is for thousands of years. */
  lemma GetIgnoresExpiry(e: Entry, nowSet: int, nowGet: int)
    requires e.timestamp == 1000 * nowSet && e.ttl >= 0 && nowGet <= 1000 * nowSet
    ensures FreshForGet(e, nowGet)
  {
  }

  /** The two expiry tests disagree: an entry with a one-second ttl, read
      ten seconds after it was written, is fresh for `get` and expired for
      `getForceData`. */
  lemma ExpiryTestsDisagree()
    ensures var e := Stamp(JBool(true), 1000, 1700000000);
      FreshForGet(e, 1700000010) && !FreshForForce(e, 1700000010)
  {
  }

  /** A month of `getForceData` that is served from the snapshot. */
  predicate ForceHit(c: Snapshot, forceId: string, month: string, nowSec: int) {
    AggKey(forceId, month) in c && FreshForForce(c[AggKey(forceId, month)], nowSec)
  }

  function ForceHitIn(c: Snapshot, forceId: string, nowSec: int): string -> bool {
    m => ForceHit(c, forceId, m, nowSec)
  }

  /** The keys `getForceData` deletes: those of the requested months that
      are present but expired. */
  function ExpiredOf(c: Snapshot, forceId: string, months: seq<string>, nowSec: int): (s: set<string>)
    ensures forall k :: k in s ==> k in c && !FreshForForce(c[k], nowSec)
  {
    set m | m in months && AggKey(forceId, m) in c && !FreshForForce(c[AggKey(forceId, m)], nowSec) :: AggKey(forceId, m)
  }

  /** The invariant of the month loop of `getForceData` after `i` months. */
  ghost predicate ScanInv(c: Snapshot, forceId: string, months: seq<string>, nowSec: int, i: nat,
                          found: map<string, Json>, cachedCount: nat, missing: seq<string>, left: Snapshot)
    requires i <= |months|
  {
    var p := ForceHitIn(c, forceId, nowSec);
    missing == Reject(months[..i], p) && cachedCount == |Keep(months[..i], p)|
    && (forall m :: m in found <==> m in months[..i] && ForceHit(c, forceId, m, nowSec))
    && (forall m :: m in found ==> found[m] == c[AggKey(forceId, m)].data)
    && left == c - ExpiredOf(c, forceId, months[..i], nowSec)
  }

  lemma ScanStep(c: Snapshot, forceId: string, months: seq<string>, nowSec: int, i: nat,
                 found: map<string, Json>, cachedCount: nat, missing: seq<string>, left: Snapshot)
    requires i < |months| && ScanInv(c, forceId, months, nowSec, i, found, cachedCount, missing, left)
    ensures var m, k := months[i], AggKey(forceId, months[i]);
      (k in left && FreshForForce(left[k], nowSec) <==> ForceHit(c, forceId, m, nowSec))
      && (k in left ==> left[k] == c[k])
      && if k in left && FreshForForce(left[k], nowSec) then
           ScanInv(c, forceId, months, nowSec, i + 1, found[m := left[k].data], cachedCount + 1, missing, left)
         else
           ScanInv(c, forceId, months, nowSec, i + 1, found, cachedCount, missing + [m],
                   if k in left then left - {k} else left)
  {
    var m, k := months[i], AggKey(forceId, months[i]);
    var p := ForceHitIn(c, forceId, nowSec);
    PartitionStep(months, p, i);
    assert months[..i + 1] == months[..i] + [m];
    var gone, gone' := ExpiredOf(c, forceId, months[..i], nowSec), ExpiredOf(c, forceId, months[..i + 1], nowSec);
    if k in c && !FreshForForce(c[k], nowSec) {
      assert gone' == gone + {k};
    } else {
      assert gone' == gone;
    }
  }

  /** The month loop of `getForceData`: each month's key is looked up in
      the loaded copy; a fresh entry is returned and counted, an expired one
      is deleted from the copy, and every month not returned is listed as
      missing, in order. */
  method ScanMonths(c: Snapshot, forceId: string, months: seq<string>, nowSec: int)
    returns (found: map<string, Json>, cachedCount: nat, missing: seq<string>, left: Snapshot)
    ensures missing == Reject(months, ForceHitIn(c, forceId, nowSec))
    ensures cachedCount == |Keep(months, ForceHitIn(c, forceId, nowSec))|
    ensures cachedCount + |missing| == |months|
    ensures forall m :: m in found <==> m in months && ForceHit(c, forceId, m, nowSec)
    ensures forall m :: m in found ==> found[m] == c[AggKey(forceId, m)].data
    ensures left == c - ExpiredOf(c, forceId, months, nowSec)
  {
    found, cachedCount, missing, left := map[], 0, [], c;
    assert months[..0] == [];
    var i := 0;
    while i < |months|
      invariant i <= |months|
      invariant ScanInv(c, forceId, months, nowSec, i, found, cachedCount, missing, left)
    {
      var key := AggKey(forceId, months[i]);
      ScanStep(c, forceId, months, nowSec, i, found, cachedCount, missing, left);
      if key in left {
        var entry := left[key];
        if nowSec * 1000 - entry.timestamp <= entry.ttl {
          found := found[months[i] := entry.data];
          cachedCount := cachedCount + 1;
        } else {
          left := left - {key};
          missing := missing + [months[i]];
        }
      } else {
        missing := missing + [months[i]];
      }
      i := i + 1;
    }
    assert months[..i] == months;
    SplitKeepsAll(months, ForceHitIn(c, forceId, nowSec));
    assert |multiset(Keep(months, ForceHitIn(c, forceId, nowSec)))| + |multiset(missing)| == |multiset(months)|;
  }

  /** The file holding the snapshot, with the four actions of `cache.php`. */
  /** What the `stats` action answers about the snapshot `c`: size, keys
      and `maxSize`; on a non-empty snapshot, an oldest and a newest entry
      with their timestamps. */
  ghost predicate StatsOf(c: Snapshot, reply: Reply) {
    reply.StatsReply? && reply.maxSize == MaxSize
    && reply.size == |c| && reply.keys == c.Keys
    && (reply.oldest.None? <==> c == map[])
    && (reply.newest.None? <==> c == map[])
    && (reply.oldest.Some? ==> reply.oldest.value.0 in c && reply.oldest.value.1 == c[reply.oldest.value.0].timestamp)
    && (reply.newest.Some? ==> reply.newest.value.0 in c && reply.newest.value.1 == c[reply.newest.value.0].timestamp)
  }

  /** What the `getForceData` action answers and the file it leaves: a 400
      for a missing parameter or a months value that is not an array;
      otherwise the scan of the months, with the snapshot saved without the
      expired keys only when some month is missing. */
  ghost predicate ForceDataDone(before: CacheFile, forceId: Option<string>, months: Option<string>,
                                monthsArray: Option<seq<string>>, nowSec: int, reply: Reply, after: CacheFile) {
    if forceId.None? || !PhpTruthyString(forceId.value) || months.None? || !PhpTruthyString(months.value) then
      reply == BadRequest("forceId and months are required") && after == before
    else if monthsArray.None? then
      reply == BadRequest("Invalid months array") && after == before
    else
      var c, f, ms := Load(before), forceId.value, monthsArray.value;
      var missing := Reject(ms, ForceHitIn(c, f, nowSec));
      reply.ForceDataReply? && reply.forceId == f && reply.totalMonths == |ms|
      && reply.missingMonths == missing && reply.cachedCount + |missing| == |ms|
      && (forall m :: m in reply.cachedData <==> m in ms && ForceHit(c, f, m, nowSec))
      && (forall m :: m in reply.cachedData ==> reply.cachedData[m] == c[AggKey(f, m)].data)
      && after == if missing != [] then Holds(Some(c - ExpiredOf(c, f, ms, nowSec))) else before
  }

  class CacheFileStore {
    var file: CacheFile

    constructor (f: CacheFile)
      ensures file == f
    {
      file := f;
    }

    /** `saveCache($cache)`. */
    method Save(c: Snapshot)
      modifies this
      ensures file == Holds(Some(c))
    {
      file := Holds(Some(c));
    }

    /** The `get` action: a missing or falsy key is a 400; a present entry
        that passes the test as written is returned; one that fails it is
        deleted and the snapshot saved. */
    method Get(key: Option<string>, nowSec: int) returns (reply: Reply)
      modifies this
      ensures var r := GetAction(Load(old(file)), key, nowSec);
        reply == r.0 && file == if r.1.Some? then Holds(Some(r.1.value)) else old(file)
    {
      if key.None? || !PhpTruthyString(key.value) {
        return BadRequest("Key is required for get action");
      }
      var cache := Load(file);
      if key.value in cache {
        var entry := cache[key.value];
        if nowSec - entry.timestamp <= entry.ttl {
          reply := GetReply(true, entry.data);
        } else {
          cache := cache - {key.value};
          Save(cache);
          reply := GetReply(false, JNull);
        }
      } else {
        reply := GetReply(false, JNull);
      }
    }

    /** The `set` action: a missing or falsy key or data is a 400 and saves
        nothing; otherwise the entry is stamped and the snapshot saved. */
    method Set(key: Option<string>, data: Option<(string, Json)>, ttl: Option<int>, nowSec: int) returns (reply: Reply)
      modifies this
      ensures var r := SetAction(Load(old(file)), key, data, ttl, nowSec);
        reply == r.0 && file == if r.1.Some? then Holds(Some(r.1.value)) else old(file)
    {
      if key.None? || !PhpTruthyString(key.value) || data.None? || !PhpTruthyString(data.value.0) {
        return BadRequest("Key and data are required for set action");
      }
      var cache := Load(file);
      cache := cache[key.value := Stamp(data.value.1, ttl.GetOr(DefaultTtl), nowSec)];
      Save(cache);
      reply := SetReply(true, |cache|);
    }

    /** The `stats` action: size, keys and `maxSize`; on a non-empty
        snapshot, an oldest and a newest entry with their timestamps. */
    method Stats() returns (reply: Reply)
      ensures StatsOf(Load(file), reply)
    {
      var cache := Load(file);
      reply := StatsReply(|cache|, MaxSize, cache.Keys, None, None);
      if cache != map[] {
        var oldestKey :| oldestKey in cache;
        var newestKey :| newestKey in cache;
        reply := reply.(oldest := Some((oldestKey, cache[oldestKey].timestamp)),
                        newest := Some((newestKey, cache[newestKey].timestamp)));
      }
    }

    /** The `getForceData` action. `months` is the raw parameter and
        `monthsArray` its decoding, `None` when that is not an array. The
        snapshot is saved, without the expired keys, only when some month is
        missing. */
    method GetForceData(forceId: Option<string>, months: Option<string>, monthsArray: Option<seq<string>>, nowSec: int)
      returns (reply: Reply)
      modifies this
      ensures ForceDataDone(old(file), forceId, months, monthsArray, nowSec, reply, file)
    {
      if forceId.None? || !PhpTruthyString(forceId.value) || months.None? || !PhpTruthyString(months.value) {
        return BadRequest("forceId and months are required");
      }
      if monthsArray.None? {
        return BadRequest("Invalid months array");
      }
      var cache := Load(file);
      var found, cachedCount, missing, left := ScanMonths(cache, forceId.value, monthsArray.value, nowSec);
      if missing != [] {
        Save(left);
      }
      reply := ForceDataReply(forceId.value, found, cachedCount, missing, |monthsArray.value|);
    }

    /** The dispatch on `action`: the four actions, and a 400 that changes
        nothing for any other action or none. */
    method Handle(action: Option<string>, key: Option<string>, data: Option<(string, Json)>, ttl: Option<int>,
                  forceId: Option<string>, months: Option<string>, monthsArray: Option<seq<string>>, nowSec: int)
      returns (reply: Reply)
      modifies this
      ensures action.None? || action.value !in {"stats", "get", "set", "getForceData"} ==>
        reply == BadRequest("Invalid action. Use: get, set, stats, or getForceData") && file == old(file)
      ensures action == Some("stats") ==> StatsOf(Load(old(file)), reply) && file == old(file)
      ensures action == Some("get") ==>
        var r := GetAction(Load(old(file)), key, nowSec);
        reply == r.0 && file == if r.1.Some? then Holds(Some(r.1.value)) else old(file)
      ensures action == Some("set") ==>
        var r := SetAction(Load(old(file)), key, data, ttl, nowSec);
        reply == r.0 && file == if r.1.Some? then Holds(Some(r.1.value)) else old(file)
      ensures action == Some("getForceData") ==>
        ForceDataDone(old(file), forceId, months, monthsArray, nowSec, reply, file)
    {
      if action == Some("stats") {
        reply := Stats();
      } else if action == Some("get") {
        reply := Get(key, nowSec);
      } else if action == Some("set") {
        reply := Set(key, data, ttl, nowSec);
      } else if action == Some("getForceData") {
        reply := GetForceData(forceId, months, monthsArray, nowSec);
      } else {
        reply := BadRequest("Invalid action. Use: get, set, stats, or getForceData");
      }
    }
  }
}
