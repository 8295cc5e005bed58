/** The server's statistics handler (`server/api/statistics.ts`): a module
    level cache of the last result, served for an hour; otherwise the police
    API's dataset list is filtered, the first five forces' stops for the
    latest month are counted, and the most common object of search picked.
    A build, or a request that cannot reach the API, answers fixed fallback
    data and caches it; any other failure answers the previous result as
    stale, or an error when there is none. What the API answers is an input
    (`Answer`): `Unreachable` when `fetch` itself throws, `Failed` when the
    response is not ok or its body cannot be used, otherwise the body. */
module StatisticsApi {
  import opened Wrappers
  import opened Text
  import opened Tally
  import opened Incidents

  /** `CACHE_DURATION`, in milliseconds. */
  const CacheDuration := 3600000

  datatype Answer<T> = Unreachable | Failed | Body(value: T)

  /** What the `forEach` over the sample's stops counts. `objectOrder` lists
      the labels of `objects` in the order they were first seen; that is the
      order `Object.entries` gives them back in when no label is integer-like
      (the README's "Left out" section notes the exception). */
  datatype Counts = Counts(
    totalSearches: nat,
    arrests: nat,
    noFurtherAction: nat,
    outcomes: Counter,
    ethnicity: Counter,
    objects: Counter,
    objectOrder: seq<string>,
    gender: Counter,
    age: Counter)

  /** The `statistics` object. Its `ethnicityOutcomes` table is never filled
      and is not modelled. */
  datatype Statistics = Statistics(
    counts: Counts,
    mostCommonObject: string,
    mostCommonObjectCount: nat,
    latestMonth: string,
    availableMonths: seq<string>,
    forcesAnalyzed: nat,
    totalForces: nat)

  /** `statisticsCache` once it holds data. */
  datatype Entry = Entry(data: Statistics, forces: seq<ForceInfo>, datasets: seq<Dataset>)

  /** What the handler answers: the cache spread with `cached: true` (and
      `stale: true` after a failure), a computed or fallback result with
      `cached: false`, or the 500 error. */
  datatype Reply =
    | Served(entry: Entry, lastUpdated: int, stale: bool)
    | Computed(statistics: Statistics, forces: seq<ForceInfo>, datasets: seq<Dataset>, lastUpdated: int, fallback: bool)
    | ServerError

  const NoCounts := Counts(0, 0, 0, map[], map[], map[], [], map[], map[])

  // ---- the fallback data -------------------------------------------------

  const FallbackMonths: seq<string> := ["2025-01", "2024-12", "2024-11"]

  const FallbackStatistics := Statistics(NoCounts, "None", 0, "2025-01", FallbackMonths, 0, 44)

  const FallbackForces: seq<ForceInfo> := [
    ForceInfo("avon-and-somerset", "Avon and Somerset Police"), ForceInfo("bedfordshire", "Bedfordshire Police"),
    ForceInfo("cambridgeshire", "Cambridgeshire Police"), ForceInfo("cheshire", "Cheshire Police"),
    ForceInfo("city-of-london", "City of London Police"), ForceInfo("cleveland", "Cleveland Police"),
    ForceInfo("cumbria", "Cumbria Police"), ForceInfo("derbyshire", "Derbyshire Police"),
    ForceInfo("devon-and-cornwall", "Devon and Cornwall Police"), ForceInfo("dorset", "Dorset Police"),
    ForceInfo("durham", "Durham Police"), ForceInfo("dyfed-powys", "Dyfed-Powys Police"),
    ForceInfo("essex", "Essex Police"), ForceInfo("gloucestershire", "Gloucestershire Police"),
    ForceInfo("greater-manchester", "Greater Manchester Police"), ForceInfo("gwent", "Gwent Police"),
    ForceInfo("hampshire", "Hampshire Police"), ForceInfo("hertfordshire", "Hertfordshire Police"),
    ForceInfo("kent", "Kent Police"), ForceInfo("lancashire", "Lancashire Police"),
    ForceInfo("leicestershire", "Leicestershire Police"), ForceInfo("merseyside", "Merseyside Police"),
    ForceInfo("metropolitan", "Metropolitan Police"), ForceInfo("norfolk", "Norfolk Police"),
    ForceInfo("north-wales", "North Wales Police"), ForceInfo("north-yorkshire", "North Yorkshire Police"),
    ForceInfo("northamptonshire", "Northamptonshire Police"), ForceInfo("northumbria", "Northumbria Police"),
    ForceInfo("nottinghamshire", "Nottinghamshire Police"), ForceInfo("south-wales", "South Wales Police"),
    ForceInfo("south-yorkshire", "South Yorkshire Police"), ForceInfo("staffordshire", "Staffordshire Police"),
    ForceInfo("suffolk", "Suffolk Police"), ForceInfo("surrey", "Surrey Police"),
    ForceInfo("sussex", "Sussex Police"), ForceInfo("thames-valley", "Thames Valley Police"),
    ForceInfo("warwickshire", "Warwickshire Police"), ForceInfo("west-mercia", "West Mercia Police"),
    ForceInfo("west-midlands", "West Midlands Police"), ForceInfo("west-yorkshire", "West Yorkshire Police"),
    ForceInfo("wiltshire", "Wiltshire Police")]

  const FallbackDatasets: seq<Dataset> := [
    Dataset(Some("2025-01"), Some(["avon-and-somerset", "bedfordshire"])),
    Dataset(Some("2024-12"), Some(["avon-and-somerset", "bedfordshire"])),
    Dataset(Some("2024-11"), Some(["avon-and-somerset", "bedfordshire"]))]

  // ---- the dataset list ----------------------------------------------------

  /** `dataset.date && dataset['stop-and-search'] && ...length > 0`. */
  predicate Usable(d: Dataset) {
    d.date.Some? && d.date.value != "" && d.stopAndSearch.Some? && |d.stopAndSearch.value| > 0
  }

  /** The `filter` over the dataset list. */
  function Kept(ds: seq<Dataset>): (r: seq<Dataset>)
    ensures |r| <= |ds|
    ensures forall i :: 0 <= i < |r| ==> Usable(r[i])
    decreases |ds|
  {
    if ds == [] then []
    else Kept(ds[..|ds| - 1]) + (if Usable(ds[|ds| - 1]) then [ds[|ds| - 1]] else [])
  }

  /** The kept datasets are exactly the usable ones. */
  lemma {:induction false} KeptExactly(ds: seq<Dataset>)
    ensures forall d :: d in Kept(ds) <==> d in ds && Usable(d)
    decreases |ds|
  {
    if ds != [] {
      var p := ds[..|ds| - 1];
      KeptExactly(p);
      assert ds == p + [ds[|ds| - 1]];
    }
  }

  /** The first usable dataset is the first kept one, so it gives
      `latestMonth`. */
  lemma {:induction false} KeptFirst(ds: seq<Dataset>, i: nat)
    requires i < |ds| && Usable(ds[i])
    requires forall j :: 0 <= j < i ==> !Usable(ds[j])
    ensures |Kept(ds)| > 0 && Kept(ds)[0] == ds[i]
    decreases |ds|
  {
    var p := ds[..|ds| - 1];
    if i < |p| {
      assert p[i] == ds[i];
      KeptFirst(p, i);
    } else {
      KeptNone(p);
    }
  }

  lemma {:induction false} KeptNone(ds: seq<Dataset>)
    requires forall j :: 0 <= j < |ds| ==> !Usable(ds[j])
    ensures Kept(ds) == []
    decreases |ds|
  {
    if ds != [] {
      KeptNone(ds[..|ds| - 1]);
    }
  }

  /** A dataset's `date` (every kept dataset has one). */
  function DateOf(d: Dataset): string {
    d.date.GetOr("")
  }

  /** `availableDatasets.map(d => d.date).slice(0, 12)`. */
  function AvailableMonths(kept: seq<Dataset>): (r: seq<string>)
    ensures |r| == if |kept| < 12 then |kept| else 12
    ensures forall i :: 0 <= i < |r| ==> r[i] == DateOf(kept[i])
  {
    var n := if |kept| < 12 then |kept| else 12;
    seq(n, i requires 0 <= i < n => DateOf(kept[i]))
  }

  // ---- counting the sample -------------------------------------------------

  /** `forces.slice(0, 5)`. */
  function Sample(forces: seq<ForceInfo>): (r: seq<ForceInfo>)
    ensures |r| == if |forces| < 5 then |forces| else 5
    ensures r == forces[..|r|]
  {
    if |forces| < 5 then forces else forces[..5]
  }

  /** The stops of the sample forces, in order: a force whose request fails
      or throws contributes nothing. */
  function Pooled(sample: seq<ForceInfo>, stops: string -> Option<seq<Incident>>): seq<Incident>
    decreases |sample|
  {
    if sample == [] then []
    else Pooled(sample[..|sample| - 1], stops) + stops(sample[|sample| - 1].id).GetOr([])
  }

  /** `outcome.includes('Arrest')`, then `includes('No further action')`,
      both case-sensitive. */
  predicate IsArrest(outcome: string) {
    Contains(outcome, "Arrest")
  }

  predicate IsNoAction(outcome: string) {
    !Contains(outcome, "Arrest") && Contains(outcome, "No further action")
  }

  /** The `forEach` body for one incident. */
  function Step(c: Counts, inc: Incident): Counts {
    var outcome := OrJs(inc.outcome, "Unknown");
    var obj := OrJs(inc.objectOfSearch, "None");
    Counts(
      c.totalSearches + 1,
      if IsArrest(outcome) then c.arrests + 1 else c.arrests,
      if IsNoAction(outcome) then c.noFurtherAction + 1 else c.noFurtherAction,
      Bump(c.outcomes, outcome),
      Bump(c.ethnicity, OrJs(inc.officerEthnicity, "Unknown")),
      Bump(c.objects, obj),
      if obj in c.objects then c.objectOrder else c.objectOrder + [obj],
      Bump(c.gender, OrJs(inc.gender, "Unknown")),
      Bump(c.age, OrJs(inc.ageRange, "Unknown")))
  }

  function CountAll(s: seq<Incident>): Counts
    decreases |s|
  {
    if s == [] then NoCounts else Step(CountAll(s[..|s| - 1]), s[|s| - 1])
  }

  lemma CountAllSnoc(s: seq<Incident>, inc: Incident)
    ensures CountAll(s + [inc]) == Step(CountAll(s), inc)
  {
    assert (s + [inc])[..|s|] == s;
  }

  /** `order` lists the labels of `m`, each once. */
  ghost predicate ListsKeys(order: seq<string>, m: Counter) {
    (forall k :: k in m <==> k in order)
    && (forall i, j :: 0 <= i < j < |order| ==> order[i] != order[j])
  }

  /** What the counts of `n` incidents satisfy: every table sums to `n`,
      arrests and no-further-action never overlap, and the object order lists
      the objects table. */
  ghost predicate CountsAdd(c: Counts, n: nat) {
    c.totalSearches == n
    && c.arrests + c.noFurtherAction <= n
    && Sum(c.outcomes) == n && Sum(c.ethnicity) == n && Sum(c.objects) == n
    && Sum(c.gender) == n && Sum(c.age) == n
    && ListsKeys(c.objectOrder, c.objects)
  }

  lemma StepCountsAdd(c: Counts, inc: Incident, n: nat)
    requires CountsAdd(c, n)
    ensures CountsAdd(Step(c, inc), n + 1)
  {
    var obj := OrJs(inc.objectOfSearch, "None");
    SumBump(c.outcomes, OrJs(inc.outcome, "Unknown"));
    SumBump(c.ethnicity, OrJs(inc.officerEthnicity, "Unknown"));
    SumBump(c.objects, obj);
    SumBump(c.gender, OrJs(inc.gender, "Unknown"));
    SumBump(c.age, OrJs(inc.ageRange, "Unknown"));
  }

  /** The counts of any incidents: one search per incident, every table
      summing to the searches, arrests and no-further-action disjoint, and
      the object order listing each object once. */
  lemma {:induction false} CountAllAdds(s: seq<Incident>)
    ensures CountsAdd(CountAll(s), |s|)
    decreases |s|
  {
    if s != [] {
      var p := s[..|s| - 1];
      CountAllAdds(p);
      StepCountsAdd(CountAll(p), s[|s| - 1], |p|);
    }
  }

  // ---- the most common object ----------------------------------------------

  /** `Object.entries(objectsOfSearch)`. */
  function Entries(c: Counts): (e: seq<(string, nat)>)
    ensures |e| == |c.objectOrder|
  {
    seq(|c.objectOrder|, i requires 0 <= i < |c.objectOrder| => (c.objectOrder[i], Get0(c.objects, c.objectOrder[i])))
  }

  /** The position `reduce((a, b) => a[1] > b[1] ? a : b)` ends on: the
      later entry wins a tie, so it is the last entry of maximal count. */
  function MostCommonIndex(e: seq<(string, nat)>): (i: nat)
    requires |e| > 0
    ensures i < |e|
    ensures forall j :: 0 <= j < |e| ==> e[j].1 <= e[i].1
    ensures forall j :: i < j < |e| ==> e[j].1 < e[i].1
    decreases |e|
  {
    if |e| == 1 then 0
    else
      var a := MostCommonIndex(e[..|e| - 1]);
      assert forall j :: 0 <= j < |e| - 1 ==> e[..|e| - 1][j] == e[j];
      if e[a].1 > e[|e| - 1].1 then a else |e| - 1
  }

  /** `mostCommonObject` and its count: 'None' and 0 without objects. */
  function MostCommon(c: Counts): (r: (string, nat))
    ensures c.objectOrder == [] ==> r == ("None", 0)
  {
    var e := Entries(c);
    if |e| > 0 then e[MostCommonIndex(e)] else ("None", 0)
  }

  /** When the order lists the objects table, the most common object is an
      object of the table with its count, and no object has a higher count. */
  lemma MostCommonIsMaximal(c: Counts)
    requires ListsKeys(c.objectOrder, c.objects) && c.objects != map[]
    ensures MostCommon(c).0 in c.objects && c.objects[MostCommon(c).0] == MostCommon(c).1
    ensures forall k :: k in c.objects ==> c.objects[k] <= MostCommon(c).1
  {
    var e := Entries(c);
    var k0 :| k0 in c.objects;
    assert k0 in c.objectOrder;
    var i := MostCommonIndex(e);
    assert e[i].0 == c.objectOrder[i] && e[i].0 in c.objects;
    forall k | k in c.objects
      ensures c.objects[k] <= e[i].1
    {
      var j :| 0 <= j < |c.objectOrder| && c.objectOrder[j] == k;
      assert e[j].1 == c.objects[k];
    }
  }

  // ---- one request ------------------------------------------------------------

  /** The statistics computed from the kept datasets (the first one gives the
      month), the forces list and each force's stops for that month. */
  function Compute(kept: seq<Dataset>, forces: seq<ForceInfo>, stops: string -> Option<seq<Incident>>): (st: Statistics)
    requires |kept| > 0
    ensures st.latestMonth == DateOf(kept[0]) && st.availableMonths == AvailableMonths(kept)
    ensures st.forcesAnalyzed == |Sample(forces)| <= 5 && st.totalForces == |forces|
  {
    var c := CountAll(Pooled(Sample(forces), stops));
    var mc := MostCommon(c);
    Statistics(c, mc.0, mc.1, DateOf(kept[0]), AvailableMonths(kept), |Sample(forces)|, |forces|)
  }

  /** How a request that does not find fresh data ends: with the fallback,
      with a failure, or with freshly computed data. */
  datatype Attempted = UseFallback | Broken | Got(entry: Entry)

  /** The API calls of one request: a build, or a `fetch` that throws, gives
      the fallback; a failed response, an unusable body or no usable dataset
      is a failure; otherwise the statistics are computed. */
  function Attempt(building: bool, dates: Answer<seq<Dataset>>, forces: Answer<seq<ForceInfo>>,
                   stops: string -> Option<seq<Incident>>): (a: Attempted)
    ensures a.Got? ==> dates.Body? && forces.Body? && |Kept(dates.value)| > 0 && a.entry.datasets == Kept(dates.value) && a.entry.forces == forces.value
  {
    if building then UseFallback
    else
      match dates
      case Unreachable => UseFallback
      case Failed => Broken
      case Body(ds) =>
        var kept := Kept(ds);
        if kept == [] then Broken
        else
          match forces
          case Unreachable => UseFallback
          case Failed => Broken
          case Body(fs) => Got(Entry(Compute(kept, fs, stops), fs, kept))
  }

  /** The handler's state: the cached entry, if any, and `lastFetch`. */
  datatype State = State(cache: Option<Entry>, lastFetch: int)

  /** One request at time `now`: the reply and the new state. */
  function Respond(s: State, now: int, building: bool, dates: Answer<seq<Dataset>>, forces: Answer<seq<ForceInfo>>,
                   stops: string -> Option<seq<Incident>>): (Reply, State)
  {
    if s.cache.Some? && now - s.lastFetch < CacheDuration then (Served(s.cache.value, s.lastFetch, false), s)
    else
      match Attempt(building, dates, forces, stops)
      case UseFallback =>
        (Computed(FallbackStatistics, FallbackForces, FallbackDatasets, now, true),
         State(Some(Entry(FallbackStatistics, FallbackForces, FallbackDatasets)), now))
      case Broken =>
        (if s.cache.Some? then Served(s.cache.value, s.lastFetch, true) else ServerError, s)
      case Got(e) =>
        (Computed(e.data, e.forces, e.datasets, now, false), State(Some(e), now))
  }

  /** Cached data is answered, not stale, exactly when there is an entry and
      it is less than an hour old. */
  lemma FreshIffRecent(s: State, now: int, building: bool, dates: Answer<seq<Dataset>>, forces: Answer<seq<ForceInfo>>,
                       stops: string -> Option<seq<Incident>>)
    ensures var r := Respond(s, now, building, dates, forces, stops).0;
      (r.Served? && !r.stale) <==> s.cache.Some? && now - s.lastFetch < CacheDuration
  {
  }

  /** After an answer that was computed or fell back, any request in the
      next hour is answered from the cache with that very data. */
  lemma ComputedIsServedForAnHour(s: State, now: int, building: bool, dates: Answer<seq<Dataset>>,
                                  forces: Answer<seq<ForceInfo>>, stops: string -> Option<seq<Incident>>,
                                  later: int, building2: bool, dates2: Answer<seq<Dataset>>,
                                  forces2: Answer<seq<ForceInfo>>, stops2: string -> Option<seq<Incident>>)
    requires Respond(s, now, building, dates, forces, stops).0.Computed?
    requires now <= later < now + CacheDuration
    ensures var (r, s') := Respond(s, now, building, dates, forces, stops);
      Respond(s', later, building2, dates2, forces2, stops2).0
        == Served(Entry(r.statistics, r.forces, r.datasets), now, false)
  {
  }

  /** A failure never changes the state; it answers the previous data marked
      stale when there is some, and the error otherwise. */
  lemma FailureKeepsState(s: State, now: int, building: bool, dates: Answer<seq<Dataset>>,
                          forces: Answer<seq<ForceInfo>>, stops: string -> Option<seq<Incident>>)
    requires !(s.cache.Some? && now - s.lastFetch < CacheDuration)
    requires Attempt(building, dates, forces, stops).Broken?
    ensures var (r, s') := Respond(s, now, building, dates, forces, stops);
      s' == s && (r == ServerError <==> s.cache.None?) && (r.Served? ==> r.stale && r.entry == s.cache.value)
  {
  }

  /** The loop over the sample forces: each force whose request succeeds
      has its stops counted. */
  method CountSample(sample: seq<ForceInfo>, stops: string -> Option<seq<Incident>>) returns (c: Counts)
    ensures c == CountAll(Pooled(sample, stops))
    ensures CountsAdd(c, |Pooled(sample, stops)|)
  {
    c := NoCounts;
    var i := 0;
    while i < |sample|
      invariant i <= |sample| && c == CountAll(Pooled(sample[..i], stops))
    {
      ghost var before := Pooled(sample[..i], stops);
      PooledStep(sample, stops, i);
      var answer := stops(sample[i].id);
      if answer.Some? {
        c := CountRows(c, before, answer.value);
      } else {
        assert before + [] == before;
      }
      i := i + 1;
    }
    assert sample[..i] == sample;
    CountAllAdds(Pooled(sample, stops));
  }

  lemma PooledStep(sample: seq<ForceInfo>, stops: string -> Option<seq<Incident>>, i: nat)
    requires i < |sample|
    ensures Pooled(sample[..i + 1], stops) == Pooled(sample[..i], stops) + stops(sample[i].id).GetOr([])
  {
    assert sample[..i + 1][..i] == sample[..i];
  }

  /** The `forEach` over one force's stops, after the stops `before`. */
  method CountRows(c0: Counts, ghost before: seq<Incident>, rows: seq<Incident>) returns (c: Counts)
    requires c0 == CountAll(before)
    ensures c == CountAll(before + rows)
  {
    c := c0;
    var j := 0;
    assert before + rows[..0] == before;
    while j < |rows|
      invariant j <= |rows| && c == CountAll(before + rows[..j])
    {
      CountRowsStep(before, rows, j);
      c := Visit(c, rows[j]);
      j := j + 1;
    }
    assert rows[..j] == rows;
  }

  lemma CountRowsStep(before: seq<Incident>, rows: seq<Incident>, j: nat)
    requires j < |rows|
    ensures CountAll(before + rows[..j + 1]) == Step(CountAll(before + rows[..j]), rows[j])
  {
    assert before + rows[..j + 1] == (before + rows[..j]) + [rows[j]];
    CountAllSnoc(before + rows[..j], rows[j]);
  }

  /** The `forEach` body: the search is counted, its outcome, arrest or no
      further action, and its ethnicity, gender, age and object labels. */
  method Visit(c: Counts, inc: Incident) returns (r: Counts)
    ensures r == Step(c, inc)
  {
    var outcome := OrJs(inc.outcome, "Unknown");
    var arrests, noAction := c.arrests, c.noFurtherAction;
    if Contains(outcome, "Arrest") {
      arrests := arrests + 1;
    } else if Contains(outcome, "No further action") {
      noAction := noAction + 1;
    }
    var obj := OrJs(inc.objectOfSearch, "None");
    var order := c.objectOrder;
    if obj !in c.objects {
      order := order + [obj];
    }
    r := Counts(c.totalSearches + 1, arrests, noAction, Bump(c.outcomes, outcome),
      Bump(c.ethnicity, OrJs(inc.officerEthnicity, "Unknown")), Bump(c.objects, obj), order,
      Bump(c.gender, OrJs(inc.gender, "Unknown")), Bump(c.age, OrJs(inc.ageRange, "Unknown")));
  }

  /** The handler with its module-level state. */
  class StatisticsEndpoint {
    var cache: Option<Entry>
    var lastFetch: int

    /** `let statisticsCache = {}` and `let lastFetch = 0`. */
    constructor ()
      ensures cache == None && lastFetch == 0
    {
      cache := None;
      lastFetch := 0;
    }

    /** One request at time `now`. */
    method Handle(now: int, building: bool, dates: Answer<seq<Dataset>>, forces: Answer<seq<ForceInfo>>,
                  stops: string -> Option<seq<Incident>>)
      returns (reply: Reply)
      modifies this
      ensures (reply, State(cache, lastFetch)) == Respond(State(old(cache), old(lastFetch)), now, building, dates, forces, stops)
    {
      if cache.Some? && now - lastFetch < CacheDuration {
        return Served(cache.value, lastFetch, false);
      }
      if building || dates.Unreachable? {
        reply := UseFallbackData(now);
        return;
      }
      if dates.Failed? {
        reply := Fail();
        return;
      }
      var kept := Kept(dates.value);
      if |kept| == 0 {
        reply := Fail();
        return;
      }
      if forces.Unreachable? {
        reply := UseFallbackData(now);
        return;
      }
      if forces.Failed? {
        reply := Fail();
        return;
      }
      var fs := forces.value;
      var sample := Sample(fs);
      var counts := CountSample(sample, stops);
      var mc := MostCommon(counts);
      var st := Statistics(counts, mc.0, mc.1, DateOf(kept[0]), AvailableMonths(kept), |sample|, |fs|);
      cache := Some(Entry(st, fs, kept));
      lastFetch := now;
      reply := Computed(st, fs, kept, now, false);
    }

    /** The fallback answer, which is cached. */
    method UseFallbackData(now: int) returns (reply: Reply)
      modifies this
      ensures reply == Computed(FallbackStatistics, FallbackForces, FallbackDatasets, now, true)
      ensures cache == Some(Entry(FallbackStatistics, FallbackForces, FallbackDatasets)) && lastFetch == now
    {
      cache := Some(Entry(FallbackStatistics, FallbackForces, FallbackDatasets));
      lastFetch := now;
      reply := Computed(FallbackStatistics, FallbackForces, FallbackDatasets, now, true);
    }

    /** The `catch`: the cached data marked stale, or the 500 error. */
    method Fail() returns (reply: Reply)
      ensures reply == if cache.Some? then Served(cache.value, lastFetch, true) else ServerError
    {
      if cache.Some? {
        reply := Served(cache.value, lastFetch, true);
      } else {
        reply := ServerError;
      }
    }
  }
}
