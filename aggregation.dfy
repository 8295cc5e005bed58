/** The client store's aggregation engine (`aggregateStopSearchData`): one
    pass over a month of incidents that counts outcomes, fills eight breakdown
    tables and clusters locations; the zero record (`getEmptyAggregatedData`);
    and the expansion of clusters back into map points
    (`getLocationDataFromAggregated`). */
module Aggregation {
  import opened Wrappers
  import opened Tally
  import opened Text
  import opened Incidents

  /** A location cluster: rounded coordinates (thousandths) and the number of
      incidents found there. */
  datatype Cluster = Cluster(lat: int, lng: int, count: nat)

  /** The four outcome tallies. */
  datatype Outcomes = Outcomes(arrests: nat, noAction: nat, warnings: nat, other: nat)

  /** The six breakdown tables every incident contributes to. */
  datatype Breakdowns = Breakdowns(
    byEthnicity: Counter,
    byGender: Counter,
    byAgeRange: Counter,
    byLegislation: Counter,
    byObjectOfSearch: Counter,
    byType: Counter)

  /** The two tables of the time analysis. */
  datatype Times = Times(byHour: Counter, byDayOfWeek: Counter)

  /** The aggregated record of one force and month. The source's record is
      one flat object; its fields are grouped here as outcome tallies,
      breakdowns and time tables. `forceId`/`forceName` are `None` when the
      first incident has no such field (`undefined`). */
  datatype Aggregated = Aggregated(
    total: nat,
    outcomes: Outcomes,
    breakdowns: Breakdowns,
    times: Times,
    locations: seq<Cluster>,
    forceId: Option<string>,
    forceName: Option<string>,
    month: string)

  /** The outcome class an incident is counted under. */
  datatype OutcomeClass = ArrestClass | NoActionClass | WarningClass | OtherClass

  const NoOutcomes := Outcomes(0, 0, 0, 0)
  const NoBreakdowns := Breakdowns(map[], map[], map[], map[], map[], map[])
  const NoTimes := Times(map[], map[])

  /** The zero record: nothing counted, no clusters, empty force and month. */
  function EmptyAggregated(): (r: Aggregated)
    ensures r.total == 0 && r.outcomes == Outcomes(0, 0, 0, 0) && r.locations == []
    ensures r.breakdowns.byEthnicity == map[] && r.breakdowns.byType == map[] && r.times.byHour == map[]
    ensures r.month == "" && r.forceId == Some("") && r.forceName == Some("")
  {
    Aggregated(0, NoOutcomes, NoBreakdowns, NoTimes, [], Some(""), Some(""), "")
  }

  /** The case-sensitive outcome test, first match wins. */
  function Classify(outcome: string): (c: OutcomeClass)
    ensures c == ArrestClass <==> Contains(outcome, "Arrest")
    ensures c == NoActionClass <==> !Contains(outcome, "Arrest") && Contains(outcome, "no further action")
    ensures c == WarningClass <==>
      !Contains(outcome, "Arrest") && !Contains(outcome, "no further action") && Contains(outcome, "warning")
  {
    if Contains(outcome, "Arrest") then ArrestClass
    else if Contains(outcome, "no further action") then NoActionClass
    else if Contains(outcome, "warning") then WarningClass
    else OtherClass
  }

  /** Officer-defined ethnicity first, then self-defined, then 'Unknown'. */
  function Ethnicity(inc: Incident): (e: string)
    ensures TruthyJs(inc.officerEthnicity) ==> e == inc.officerEthnicity.value
    ensures !TruthyJs(inc.officerEthnicity) && TruthyJs(inc.selfEthnicity) ==> e == inc.selfEthnicity.value
    ensures !TruthyJs(inc.officerEthnicity) && !TruthyJs(inc.selfEthnicity) ==> e == "Unknown"
  {
    OrJs(inc.officerEthnicity, OrJs(inc.selfEthnicity, "Unknown"))
  }

  /** The incident takes part in the time analysis: its datetime is truthy. */
  predicate Dated(inc: Incident) {
    TruthyJs(inc.datetime)
  }

  /** `getHours().toString()`: "NaN" for an unparseable date. */
  function HourLabel(inc: Incident): string {
    if inc.parsed.Some? then NatToString(inc.parsed.value.hour) else "NaN"
  }

  /** The long weekday name: "Invalid Date" for an unparseable date. */
  function DayLabel(inc: Incident): string {
    if inc.parsed.Some? then inc.parsed.value.weekday else "Invalid Date"
  }

  /** The incident takes part in location clustering: both coordinates are
      present and their text is non-empty. */
  predicate Located(inc: Incident) {
    inc.location.Some? && inc.location.value.latitude.Some? && inc.location.value.longitude.Some?
    && inc.location.value.latitude.value.raw != "" && inc.location.value.longitude.value.raw != ""
  }

  /** The first cluster at these rounded coordinates. The source's test is
      `Math.abs(loc.lat - lat) < 0.001` (and the same for `lng`) on doubles;
      on exact thousandths that is equality. Two neighbouring thousandths
      whose doubles differ by slightly less than 0.001 pass the source's
      test but not this one (see the README's "Left out" section). */
  function FindCluster(ls: seq<Cluster>, lat: int, lng: int): (r: Option<nat>)
    ensures r.Some? ==> r.value < |ls| && ls[r.value].lat == lat && ls[r.value].lng == lng
    ensures r.Some? ==> forall k :: 0 <= k < r.value ==> !(ls[k].lat == lat && ls[k].lng == lng)
    ensures r.None? ==> forall k :: 0 <= k < |ls| ==> !(ls[k].lat == lat && ls[k].lng == lng)
  {
    if ls == [] then None
    else if ls[0].lat == lat && ls[0].lng == lng then Some(0)
    else
      match FindCluster(ls[1..], lat, lng)
      case None => None
      case Some(j) => Some(j + 1)
  }

  /** Counts one incident at (lat, lng): the matching cluster grows by one, or
      a new cluster of count 1 is appended. */
  function AddCluster(ls: seq<Cluster>, lat: int, lng: int): seq<Cluster> {
    match FindCluster(ls, lat, lng)
    case Some(j) => ls[j := ls[j].(count := ls[j].count + 1)]
    case None => ls + [Cluster(lat, lng, 1)]
  }

  /** The clusters after one incident: unchanged unless it is located. */
  function StepLocations(ls: seq<Cluster>, inc: Incident): seq<Cluster> {
    if Located(inc) then
      AddCluster(ls, inc.location.value.latitude.value.milli, inc.location.value.longitude.value.milli)
    else ls
  }

  /** The outcome tally after one incident: exactly one class grows. */
  function StepOutcomes(o: Outcomes, inc: Incident): Outcomes {
    match Classify(OrJs(inc.outcome, "Unknown"))
    case ArrestClass => o.(arrests := o.arrests + 1)
    case NoActionClass => o.(noAction := o.noAction + 1)
    case WarningClass => o.(warnings := o.warnings + 1)
    case OtherClass => o.(other := o.other + 1)
  }

  /** The breakdowns after one incident: one label of each table grows. */
  function StepBreakdowns(b: Breakdowns, inc: Incident): Breakdowns {
    Breakdowns(
      Bump(b.byEthnicity, Ethnicity(inc)),
      Bump(b.byGender, OrJs(inc.gender, "Unknown")),
      Bump(b.byAgeRange, OrJs(inc.ageRange, "Unknown")),
      Bump(b.byLegislation, OrJs(inc.legislation, "Unknown")),
      Bump(b.byObjectOfSearch, OrJs(inc.objectOfSearch, "Unknown")),
      Bump(b.byType, OrJs(inc.kind, "Unknown")))
  }

  /** The time tables after one incident: both grow for a dated incident. */
  function StepTimes(t: Times, inc: Incident): Times {
    if Dated(inc) then Times(Bump(t.byHour, HourLabel(inc)), Bump(t.byDayOfWeek, DayLabel(inc))) else t
  }

  /** The counters over `s`, processed in order from the zero record. */
  function OutcomeTallies(s: seq<Incident>): Outcomes {
    if s == [] then NoOutcomes else StepOutcomes(OutcomeTallies(s[..|s| - 1]), s[|s| - 1])
  }

  function BreakdownTallies(s: seq<Incident>): Breakdowns {
    if s == [] then NoBreakdowns else StepBreakdowns(BreakdownTallies(s[..|s| - 1]), s[|s| - 1])
  }

  function TimeTallies(s: seq<Incident>): Times {
    if s == [] then NoTimes else StepTimes(TimeTallies(s[..|s| - 1]), s[|s| - 1])
  }

  function ClusterTallies(s: seq<Incident>): seq<Cluster> {
    if s == [] then [] else StepLocations(ClusterTallies(s[..|s| - 1]), s[|s| - 1])
  }

  /** `datetime?.substring(0, 7) || ''`. */
  function MonthOf(inc: Incident): (m: string)
    ensures |m| <= 7
  {
    if inc.datetime.Some? then
      var d := inc.datetime.value;
      if |d| <= 7 then d else d[..7]
    else ""
  }

  /** The record after the first `i` incidents of `s`: total and the
      force/month header are set before the loop, from the first incident. */
  function Partial(s: seq<Incident>, i: nat): Aggregated
    requires 0 < |s| && i <= |s|
  {
    Aggregated(|s|, OutcomeTallies(s[..i]), BreakdownTallies(s[..i]), TimeTallies(s[..i]), ClusterTallies(s[..i]),
               s[0].forceId, s[0].forceName, MonthOf(s[0]))
  }

  /** The effect of one incident on the record being built. */
  function Count(r: Aggregated, inc: Incident): Aggregated {
    r.(outcomes := StepOutcomes(r.outcomes, inc), breakdowns := StepBreakdowns(r.breakdowns, inc),
       times := StepTimes(r.times, inc), locations := StepLocations(r.locations, inc))
  }

  /** Counting the next incident extends the partial record by one. */
  lemma PartialStep(s: seq<Incident>, i: nat)
    requires i < |s|
    ensures Partial(s, i + 1) == Count(Partial(s, i), s[i])
  {
    assert s[..i + 1][..i] == s[..i];
  }

  /** The whole record; the zero record for no incidents. */
  function Aggregate(s: seq<Incident>): Aggregated {
    if s == [] then EmptyAggregated() else Partial(s, |s|)
  }

  function DatedCount(s: seq<Incident>): (n: nat)
    ensures n <= |s|
  {
    if s == [] then 0 else DatedCount(s[..|s| - 1]) + (if Dated(s[|s| - 1]) then 1 else 0)
  }

  function LocatedCount(s: seq<Incident>): (n: nat)
    ensures n <= |s|
  {
    if s == [] then 0 else LocatedCount(s[..|s| - 1]) + (if Located(s[|s| - 1]) then 1 else 0)
  }

  function ClusterSum(ls: seq<Cluster>): nat {
    if ls == [] then 0 else ClusterSum(ls[..|ls| - 1]) + ls[|ls| - 1].count
  }

  /** Clusters are at pairwise different coordinates and none is empty. */
  predicate WellFormedClusters(ls: seq<Cluster>) {
    (forall j :: 0 <= j < |ls| ==> ls[j].count >= 1)
    && (forall j, k :: 0 <= j < k < |ls| ==> !(ls[j].lat == ls[k].lat && ls[j].lng == ls[k].lng))
  }

  /** The four outcome tallies partition the `n` incidents. */
  predicate OutcomesPartition(o: Outcomes, n: nat) {
    o.arrests + o.noAction + o.warnings + o.other == n
  }

  /** Each breakdown that every incident contributes to sums to `n`. */
  ghost predicate BreakdownsSum(b: Breakdowns, n: nat) {
    Sum(b.byEthnicity) == n && Sum(b.byGender) == n && Sum(b.byAgeRange) == n
    && Sum(b.byLegislation) == n && Sum(b.byObjectOfSearch) == n && Sum(b.byType) == n
  }

  /** The hour and weekday tables both sum to the number of dated incidents. */
  ghost predicate TimesSum(t: Times, dated: nat) {
    Sum(t.byHour) == dated && Sum(t.byDayOfWeek) == dated
  }

  lemma {:induction false} ClusterSumUpdate(ls: seq<Cluster>, j: nat, c: Cluster)
    requires j < |ls|
    ensures ClusterSum(ls[j := c]) + ls[j].count == ClusterSum(ls) + c.count
    decreases |ls|
  {
    var u := ls[j := c];
    var n := |ls| - 1;
    assert u[..n] == if j == n then ls[..n] else ls[..n][j := c];
    if j < n {
      ClusterSumUpdate(ls[..n], j, c);
    }
  }

  lemma ClusterSumAppend(ls: seq<Cluster>, c: Cluster)
    ensures ClusterSum(ls + [c]) == ClusterSum(ls) + c.count
  {
    assert (ls + [c])[..|ls|] == ls;
  }

  /** Adding one incident to the clusters adds one to their total and keeps
      them well formed. */
  lemma AddClusterKeeps(ls: seq<Cluster>, lat: int, lng: int)
    requires WellFormedClusters(ls)
    ensures ClusterSum(AddCluster(ls, lat, lng)) == ClusterSum(ls) + 1
    ensures WellFormedClusters(AddCluster(ls, lat, lng))
  {
    match FindCluster(ls, lat, lng)
    case Some(j) =>
      ClusterSumUpdate(ls, j, ls[j].(count := ls[j].count + 1));
    case None =>
      ClusterSumAppend(ls, Cluster(lat, lng, 1));
  }

  lemma StepKeepsBreakdowns(b: Breakdowns, inc: Incident, n: nat)
    requires BreakdownsSum(b, n)
    ensures BreakdownsSum(StepBreakdowns(b, inc), n + 1)
  {
    SumBump(b.byEthnicity, Ethnicity(inc));
    SumBump(b.byGender, OrJs(inc.gender, "Unknown"));
    SumBump(b.byAgeRange, OrJs(inc.ageRange, "Unknown"));
    SumBump(b.byLegislation, OrJs(inc.legislation, "Unknown"));
    SumBump(b.byObjectOfSearch, OrJs(inc.objectOfSearch, "Unknown"));
    SumBump(b.byType, OrJs(inc.kind, "Unknown"));
  }

  lemma StepKeepsTimes(t: Times, inc: Incident, dated: nat)
    requires TimesSum(t, dated)
    ensures TimesSum(StepTimes(t, inc), dated + (if Dated(inc) then 1 else 0))
  {
    SumBump(t.byHour, HourLabel(inc));
    SumBump(t.byDayOfWeek, DayLabel(inc));
  }

  lemma StepKeepsClusters(ls: seq<Cluster>, inc: Incident)
    requires WellFormedClusters(ls)
    ensures ClusterSum(StepLocations(ls, inc)) == ClusterSum(ls) + (if Located(inc) then 1 else 0)
    ensures WellFormedClusters(StepLocations(ls, inc))
  {
    if Located(inc) {
      AddClusterKeeps(ls, inc.location.value.latitude.value.milli, inc.location.value.longitude.value.milli);
    }
  }

  /** Each incident counts under exactly one outcome class, so the four
      tallies partition the incidents. */
  lemma {:induction false} TalliesOutcomes(s: seq<Incident>)
    ensures OutcomesPartition(OutcomeTallies(s), |s|)
    decreases |s|
  {
    if s != [] {
      TalliesOutcomes(s[..|s| - 1]);
    }
  }

  /** Each always-filled breakdown table sums to the number of incidents. */
  lemma {:induction false} TalliesBreakdowns(s: seq<Incident>)
    ensures BreakdownsSum(BreakdownTallies(s), |s|)
    decreases |s|
  {
    if s != [] {
      var p := s[..|s| - 1];
      TalliesBreakdowns(p);
      StepKeepsBreakdowns(BreakdownTallies(p), s[|s| - 1], |p|);
    }
  }

  /** The hour and weekday tables both sum to the number of dated incidents. */
  lemma {:induction false} TalliesTimes(s: seq<Incident>)
    ensures TimesSum(TimeTallies(s), DatedCount(s))
    decreases |s|
  {
    if s != [] {
      var p := s[..|s| - 1];
      TalliesTimes(p);
      StepKeepsTimes(TimeTallies(p), s[|s| - 1], DatedCount(p));
    }
  }

  /** The clusters are well formed and sum to the number of located incidents. */
  lemma {:induction false} TalliesClusters(s: seq<Incident>)
    ensures ClusterSum(ClusterTallies(s)) == LocatedCount(s)
    ensures WellFormedClusters(ClusterTallies(s))
    decreases |s|
  {
    if s != [] {
      var p := s[..|s| - 1];
      TalliesClusters(p);
      StepKeepsClusters(ClusterTallies(p), s[|s| - 1]);
    }
  }

  /** The finished record over `s`: total is |s|, the outcome tallies
      partition it, the breakdowns sum to it, the time tables sum to the dated
      incidents and the clusters to the located ones, which are at most |s|. */
  lemma AggregateConsistent(s: seq<Incident>)
    ensures Aggregate(s).total == |s|
    ensures OutcomesPartition(Aggregate(s).outcomes, |s|)
    ensures BreakdownsSum(Aggregate(s).breakdowns, |s|)
    ensures TimesSum(Aggregate(s).times, DatedCount(s)) && DatedCount(s) <= |s|
    ensures ClusterSum(Aggregate(s).locations) == LocatedCount(s) <= |s|
    ensures WellFormedClusters(Aggregate(s).locations)
  {
    assert s == [] || s[..|s|] == s;
    TalliesOutcomes(s);
    TalliesBreakdowns(s);
    TalliesTimes(s);
    TalliesClusters(s);
  }

  /** The linear `find` over the cluster list, then the in-place increment
      of the match or the push of a new cluster. */
  method AddPoint(ls: seq<Cluster>, lat: int, lng: int) returns (r: seq<Cluster>)
    ensures r == AddCluster(ls, lat, lng)
    ensures |r| == |ls| || r == ls + [Cluster(lat, lng, 1)]
  {
    var j := 0;
    while j < |ls| && !(ls[j].lat == lat && ls[j].lng == lng)
      invariant 0 <= j <= |ls|
      invariant forall k :: 0 <= k < j ==> !(ls[k].lat == lat && ls[k].lng == lng)
    {
      j := j + 1;
    }
    if j < |ls| {
      r := ls[j := ls[j].(count := ls[j].count + 1)];
    } else {
      r := ls + [Cluster(lat, lng, 1)];
    }
  }

  /** `aggregateStopSearchData`: the record `Aggregate` specifies, whose
      properties `AggregateConsistent` states; no incidents give the zero
      record. */
  method AggregateStopSearchData(incidents: seq<Incident>) returns (r: Aggregated)
    ensures r == Aggregate(incidents)
    ensures r.total == |incidents|
    ensures incidents == [] ==> r == EmptyAggregated()
  {
    r := Aggregated(|incidents|, Outcomes(0, 0, 0, 0), Breakdowns(map[], map[], map[], map[], map[], map[]),
                    Times(map[], map[]), [], Some(""), Some(""), "");
    if |incidents| == 0 {
      return;
    }
    r := r.(forceId := incidents[0].forceId, forceName := incidents[0].forceName, month := MonthOf(incidents[0]));
    var i := 0;
    assert incidents[..0] == [];
    while i < |incidents|
      invariant 0 <= i <= |incidents|
      invariant r == Partial(incidents, i)
    {
      PartialStep(incidents, i);
      r := CountIncident(r, incidents[i]);
      i := i + 1;
    }
  }

  /** The body of the source's `forEach`: every counter of the record is
      updated for one incident, the cluster list through `AddPoint`. */
  method CountIncident(r: Aggregated, inc: Incident) returns (next: Aggregated)
    ensures next == Count(r, inc)
  {
    var locs := r.locations;
    if Located(inc) {
      locs := AddPoint(locs, inc.location.value.latitude.value.milli, inc.location.value.longitude.value.milli);
    }
    next := r.(outcomes := StepOutcomes(r.outcomes, inc), breakdowns := StepBreakdowns(r.breakdowns, inc),
               times := StepTimes(r.times, inc), locations := locs);
  }

  /** A map point produced from a cluster. */
  datatype Point = Point(lat: int, lng: int, outcome: string, count: nat)

  /** `count` identical points for one cluster. */
  function Copies(c: Cluster, n: nat): (r: seq<Point>)
    ensures |r| == n
  {
    seq(n, _ => Point(c.lat, c.lng, "Aggregated", c.count))
  }

  /** The points of a cluster list, cluster by cluster in order. */
  function Expand(ls: seq<Cluster>): seq<Point> {
    if ls == [] then [] else Expand(ls[..|ls| - 1]) + Copies(ls[|ls| - 1], ls[|ls| - 1].count)
  }

  /** The expansion has exactly one point per counted incident. */
  lemma {:induction false} ExpandLength(ls: seq<Cluster>)
    ensures |Expand(ls)| == ClusterSum(ls)
    decreases |ls|
  {
    if ls != [] { ExpandLength(ls[..|ls| - 1]); }
  }

  /** Every point sits at the coordinates of some cluster and carries that
      cluster's count. */
  lemma {:induction false} ExpandFromClusters(ls: seq<Cluster>, p: Point)
    requires p in Expand(ls)
    ensures exists c :: c in ls && p == Point(c.lat, c.lng, "Aggregated", c.count)
    decreases |ls|
  {
    var n := |ls| - 1;
    if p in Expand(ls[..n]) {
      ExpandFromClusters(ls[..n], p);
      var c :| c in ls[..n] && p == Point(c.lat, c.lng, "Aggregated", c.count);
      assert c in ls;
    } else {
      assert ls[n] in ls;
    }
  }

  /** `getLocationDataFromAggregated`: for a record, `count` points per
      cluster in cluster order; for no record, no points. */
  method GetLocationDataFromAggregated(data: Option<Aggregated>) returns (points: seq<Point>)
    ensures data.None? ==> points == []
    ensures data.Some? ==> points == Expand(data.value.locations)
    ensures data.Some? ==> |points| == ClusterSum(data.value.locations)
  {
    points := [];
    if data.None? {
      return;
    }
    var ls := data.value.locations;
    var i := 0;
    while i < |ls|
      invariant 0 <= i <= |ls|
      invariant points == Expand(ls[..i])
    {
      var k := 0;
      while k < ls[i].count
        invariant 0 <= k <= ls[i].count
        invariant points == Expand(ls[..i]) + Copies(ls[i], k)
      {
        assert Copies(ls[i], k + 1) == Copies(ls[i], k) + [Point(ls[i].lat, ls[i].lng, "Aggregated", ls[i].count)];
        points := points + [Point(ls[i].lat, ls[i].lng, "Aggregated", ls[i].count)];
        k := k + 1;
      }
      assert ls[..i + 1][..i] == ls[..i];
      i := i + 1;
    }
    assert ls[..i] == ls;
    ExpandLength(ls);
  }
}
