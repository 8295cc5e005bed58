/** The statistics endpoint's file cache (`php-api/statistics-cache.php`):
    one JSON file per cache key, served while it is younger than an hour and
    decodes to something truthy, otherwise recomputed and rewritten; plus the
    `clear` action and the dispatch on `action`. A file is named after the
    MD5 digest of its key; the model keys files by the key itself. A file's
    content is the record that was written, or any other decoded value. */
module StatsCache {
  import opened Wrappers
  import opened Json
  import opened Text
  import opened Incidents
  import opened StatsAggregate

  /** `$cacheExpiry`, in seconds. */
  const CacheExpiry := 3600

  /** What a cache file decodes to. */
  datatype Doc = ForceDoc(stats: ForceStats) | OverallDoc(overall: Overall) | OtherDoc(json: Json)

  /** PHP's `if ($data)` on a decoded file: a written record is a non-empty
      array and so truthy. */
  predicate DocTruthy(d: Doc) {
    !d.OtherDoc? || PhpTruthy(d.json)
  }

  /** A cache file: its modification time (seconds) and its decoded content. */
  datatype CacheFile = CacheFile(mtime: int, doc: Doc)

  type Files = map<string, CacheFile>

  /** What the endpoint answers. */
  datatype Reply = Data(cached: bool, data: Doc) | Error(message: string) | Message(text: string)

  /** `getCacheKey($force, $month)`: the force key when a (truthy) force is
      given, the overall key otherwise. */
  function CacheKey(force: Option<string>, month: string): (k: string)
    ensures StartsWith(k, "statistics_")
  {
    if force.Some? && PhpTruthyString(force.value) then "statistics_force_" + force.value + "_" + month
    else "statistics_overall_" + month
  }

  /** A force key is never an overall key. */
  lemma ForceKeyIsNotOverall(force: string, m1: string, m2: string)
    requires PhpTruthyString(force)
    ensures CacheKey(Some(force), m1) != CacheKey(None, m2)
  {
    assert CacheKey(Some(force), m1)[11] == 'f';
    assert CacheKey(None, m2)[11] == 'o';
  }

  /** For force ids without an underscore, as every force id is, the key
      determines the force and the month. */
  lemma ForceKeyInjective(f1: string, m1: string, f2: string, m2: string)
    requires PhpTruthyString(f1) && PhpTruthyString(f2)
    requires '_' !in f1 && '_' !in f2
    requires CacheKey(Some(f1), m1) == CacheKey(Some(f2), m2)
    ensures f1 == f2 && m1 == m2
  {
    var p := "statistics_force_";
    var k1, k2 := CacheKey(Some(f1), m1), CacheKey(Some(f2), m2);
    assert k1[|p|..] == f1 + "_" + m1 && k2[|p|..] == f2 + "_" + m2;
    var r1, r2 := f1 + "_" + m1, f2 + "_" + m2;
    assert r1 == r2;
    FirstUnderscore(f1, m1);
    FirstUnderscore(f2, m2);
    assert f1 == r1[..|f1|] && f2 == r2[..|f2|];
    assert m1 == r1[|f1| + 1..] && m2 == r2[|f2| + 1..];
  }

  /** The first underscore of `f + "_" + m`, for `f` without one, is the one
      after `f`. */
  lemma FirstUnderscore(f: string, m: string)
    requires '_' !in f
    ensures (f + "_" + m)[|f|] == '_'
    ensures forall j :: 0 <= j < |f| ==> (f + "_" + m)[j] != '_'
  {
    assert forall j :: 0 <= j < |f| ==> (f + "_" + m)[j] == f[j];
  }

  /** With an underscore in the force id, two requests share a key. */
  lemma UnderscoreKeysCollide()
    ensures CacheKey(Some("a_b"), "latest") == CacheKey(Some("a"), "b_latest")
  {
  }

  /** `getCached($key)`: the file's content when the file exists, is younger
      than the expiry and decodes to something truthy; nothing otherwise. */
  function Cached(files: Files, key: string, now: int): (r: Option<Doc>)
    ensures r.Some? <==> key in files && now - files[key].mtime < CacheExpiry && DocTruthy(files[key].doc)
    ensures r.Some? ==> r.value == files[key].doc
  {
    if key in files && now - files[key].mtime < CacheExpiry && DocTruthy(files[key].doc) then Some(files[key].doc)
    else None
  }

  /** A record written at `saved` is served for the next hour, and not after. */
  lemma SavedIsServedForAnHour(files: Files, key: string, d: Doc, saved: int, now: int)
    requires !d.OtherDoc?
    ensures Cached(files[key := CacheFile(saved, d)], key, now) == if now < saved + CacheExpiry then Some(d) else None
  {
  }

  /** Writing one key changes no other key's lookup. */
  lemma SaveTouchesOnlyKey(files: Files, key: string, d: Doc, saved: int, other: string, now: int)
    requires other != key
    ensures Cached(files[key := CacheFile(saved, d)], other, now) == Cached(files, other, now)
  {
  }

  /** The reply and the files after a `get` for a force that is not cached:
      the recomputed record is written and returned, and without one the
      error is answered and nothing is written. */
  function ForceMiss(files: Files, key: string, st: Option<ForceStats>, now: int): (Reply, Files) {
    match st
    case Some(s) => (Data(false, ForceDoc(s)), files[key := CacheFile(now, ForceDoc(s))])
    case None => (Error("No data available for this force and month"), files)
  }

  /** What the `get` action answers and the files it leaves. A fresh,
      truthy cached file is answered as cached and nothing changes.
      Otherwise, for a force, the recomputed record is written and answered,
      or the error answered when there is none. Without a force the overall
      record is recomputed, written and answered: the analysed forces, their
      number, the summed totals and the pointwise-summed tables. */
  ghost predicate GetDone(before: Files, force: Option<string>, month: string, now: int, lastMonth: string,
                          api: string -> Option<Answer>, reply: Reply, after: Files) {
    var key := CacheKey(force, month);
    var hit := Cached(before, key, now);
    if hit.Some? then
      reply == Data(true, hit.value) && after == before
    else if force.Some? && PhpTruthyString(force.value) then
      var st := ForceStatistics(force.value, month, lastMonth, api(force.value));
      (reply, after) == ForceMiss(before, key, st, now)
      && (st.Some? ==> Consistent(st.value))
    else
      reply.Data? && !reply.cached && reply.data.OverallDoc?
      && OverallOf(reply.data.overall, Analysed(Forces, month, lastMonth, api))
      && reply.data.overall.month == month
      && after == before[key := CacheFile(now, reply.data)]
  }

  /** The cache directory of the endpoint. */
  class StatsCacheDir {
    var files: Files

    constructor (files: Files)
      ensures this.files == files
    {
      this.files := files;
    }

    /** `saveCache($key, $data)`: the file is (over)written with the current
        time. */
    method SaveCache(key: string, d: Doc, now: int)
      modifies this
      ensures files == old(files)[key := CacheFile(now, d)]
    {
      files := files[key := CacheFile(now, d)];
    }

    /** The `get` action. A fresh, truthy cached file is answered as cached
        and nothing changes. Otherwise, for a force, the record is
        recomputed from the API's answer: written and answered when there
        are incidents, an error otherwise. Without a force the overall record
        is recomputed, which is always truthy, and so always written and
        answered; the error branch for it is never taken. */
    method Get(force: Option<string>, month: string, now: int, lastMonth: string, api: string -> Option<Answer>)
      returns (reply: Reply)
      modifies this
      ensures GetDone(old(files), force, month, now, lastMonth, api, reply, files)
    {
      var key := CacheKey(force, month);
      var cached := Cached(files, key, now);
      if cached.Some? {
        return Data(true, cached.value);
      }
      if force.Some? && PhpTruthyString(force.value) {
        var st := FetchForceStatistics(force.value, month, lastMonth, api(force.value));
        if st.Some? {
          SaveCache(key, ForceDoc(st.value), now);
          reply := Data(false, ForceDoc(st.value));
        } else {
          reply := Error("No data available for this force and month");
        }
      } else {
        var overall := GetOverallStatistics(month, lastMonth, api);
        SaveCache(key, OverallDoc(overall), now);
        reply := Data(false, OverallDoc(overall));
      }
    }

    /** The `clear` action: every cache file is deleted. */
    method Clear() returns (reply: Reply)
      modifies this
      ensures files == map[] && reply == Message("Cache cleared")
    {
      files := map[];
      reply := Message("Cache cleared");
    }

    /** The dispatch on `action` (default 'get'); `force` and `month`
        (default 'latest') are the request parameters. An unknown action is
        answered with an error and changes nothing. */
    method Handle(action: Option<string>, force: Option<string>, month: Option<string>,
                  now: int, lastMonth: string, api: string -> Option<Answer>)
      returns (reply: Reply)
      modifies this
      ensures var act := action.GetOr("get");
        act != "get" && act != "clear" ==> reply == Error("Invalid action") && files == old(files)
      ensures action.GetOr("get") == "clear" ==> files == map[] && reply == Message("Cache cleared")
      ensures action.GetOr("get") == "get" ==>
        GetDone(old(files), force, month.GetOr("latest"), now, lastMonth, api, reply, files)
    {
      var act := action.GetOr("get");
      if act == "get" {
        reply := Get(force, month.GetOr("latest"), now, lastMonth, api);
      } else if act == "clear" {
        reply := Clear();
      } else {
        reply := Error("Invalid action");
      }
    }
  }

  /** Once a `get` has written a force's record, a second `get` for the same
      force and month within the hour is answered from the cache with that
      record. */
  lemma SecondGetIsCached(files: Files, force: string, month: string, s: ForceStats, saved: int, now: int)
    requires PhpTruthyString(force) && saved <= now < saved + CacheExpiry
    ensures var key := CacheKey(Some(force), month);
      var after := ForceMiss(files, key, Some(s), saved).1;
      Cached(after, key, now) == Some(ForceDoc(s))
  {
  }
}
