/** The statistics endpoint's aggregation (`php-api/statistics-cache.php`):
    one force's month of incidents summarised by a `foreach` that counts
    outcomes, fills eight label tables and clusters locations by rounded
    coordinates (`fetchForceStatistics`), and the overall record that visits
    every force and adds their tables pointwise (`getOverallStatistics`).
    What the police API answers for a force is an input: `None` when the
    request fails or answers nothing, otherwise the decoded body. */
module StatsAggregate {
  import opened Wrappers
  import opened Json
  import opened Text
  import opened Tally
  import opened Incidents

  /** A location cluster: rounded coordinates (thousandths), the number of
      incidents there and the street name of the first of them. */
  datatype Spot = Spot(lat: int, lng: int, count: nat, name: string)

  /** The eight label tables of a record, in the order the source lists them. */
  datatype Tables = Tables(
    outcomes: Counter,
    ethnicity: Counter,
    gender: Counter,
    age: Counter,
    objectOfSearch: Counter,
    legislation: Counter,
    byHour: Counter,
    byDay: Counter)

  /** Names one of the eight tables. */
  datatype Kind = OutcomeKind | EthnicityKind | GenderKind | AgeKind | ObjectKind | LegislationKind | HourKind | DayKind

  function Table(t: Tables, kind: Kind): Counter {
    match kind
    case OutcomeKind => t.outcomes
    case EthnicityKind => t.ethnicity
    case GenderKind => t.gender
    case AgeKind => t.age
    case ObjectKind => t.objectOfSearch
    case LegislationKind => t.legislation
    case HourKind => t.byHour
    case DayKind => t.byDay
  }

  /** The six tables every incident contributes one label to. */
  predicate EveryIncident(kind: Kind) {
    !(kind == HourKind || kind == DayKind)
  }

  const NoTables := Tables(map[], map[], map[], map[], map[], map[], map[], map[])

  /** The record `fetchForceStatistics` returns. */
  datatype ForceStats = ForceStats(
    forceId: string,
    month: string,
    total: nat,
    arrests: nat,
    noAction: nat,
    tables: Tables,
    locations: seq<Spot>)

  /** What the `foreach` accumulates. */
  datatype Tallies = Tallies(arrests: nat, noAction: nat, tables: Tables, spots: seq<Spot>)

  const NoTallies := Tallies(0, 0, NoTables, [])

  /** The `Y-m` month asked of the API: the month before the current one
      (`lastMonth`, computed from the clock) for 'latest', otherwise the
      first two `-`-separated pieces of the month, the second one empty when
      there is none. */
  function DateStr(month: string, lastMonth: string): string {
    if month == "latest" then lastMonth
    else
      var parts := Split(month, '-');
      parts[0] + "-" + (if |parts| > 1 then parts[1] else "")
  }

  /** A `YYYY-MM` month, with or without a day after it, is asked for as it
      is; the day is dropped. */
  lemma DateStrKeepsYearMonth(y: string, m: string, rest: string, lastMonth: string)
    requires '-' !in y && '-' !in m
    requires rest == [] || rest[0] == '-'
    ensures DateStr(y + "-" + m + rest, lastMonth) == y + "-" + m
  {
    var month := y + "-" + m + rest;
    assert month[|y|] == '-';
    assert forall i | 0 <= i < |"latest"| :: "latest"[i] != '-';
    assert month == y + ['-'] + (m + rest);
    SplitAfterPiece(y, '-', m + rest);
    if rest == [] {
      assert m + rest == m;
      SplitNoSep(m, '-');
    } else {
      assert m + rest == m + ['-'] + rest[1..];
      SplitAfterPiece(m, '-', rest[1..]);
    }
  }

  /** A decoded JSON value that is neither a list nor an object. */
  type Plain = j: Json | !j.JArr? && !j.JObj? witness JNull

  /** The police API's body as `json_decode($response, true)` hands it to the
      `foreach`: a list of incidents; an object, which PHP decodes to an
      associative array whose values the `foreach` visits as incidents, in
      the object's order; or any other value (including the null of a body
      that does not decode). A value read as an incident yields its fields
      where present; one that is not an object yields none of them, since
      `??` and `empty` read a missing offset as null. */
  datatype Answer = Listed(items: seq<Incident>) | Keyed(values: seq<Incident>) | Other(doc: Plain)

  /** `!$incidents || !is_array($incidents)`: a failed request, an empty
      list or object, and a value that is neither give no incidents; a
      non-empty list gives its elements and a non-empty object its values. */
  function IncidentList(response: Option<Answer>): (r: Option<seq<Incident>>)
    ensures response.None? || response.value.Other? ==> r.None?
    ensures response.Some? && response.value.Listed? ==>
      (r.Some? <==> response.value.items != []) && (r.Some? ==> r.value == response.value.items)
    ensures response.Some? && response.value.Keyed? ==>
      (r.Some? <==> response.value.values != []) && (r.Some? ==> r.value == response.value.values)
  {
    match response
    case Some(Listed(items)) => if items == [] then None else Some(items)
    case Some(Keyed(values)) => if values == [] then None else Some(values)
    case _ => None
  }

  /** `$incident['outcome'] ?? 'Not Recorded'`. */
  function OutcomeLabel(inc: Incident): string {
    OrPhp(inc.outcome, "Not Recorded")
  }

  /** Self-defined ethnicity first, then officer-defined, then 'Not Recorded';
      an empty string is kept, since `??` only skips null. */
  function EthnicityLabel(inc: Incident): (e: string)
    ensures inc.selfEthnicity.Some? ==> e == inc.selfEthnicity.value
    ensures inc.selfEthnicity.None? && inc.officerEthnicity.Some? ==> e == inc.officerEthnicity.value
    ensures inc.selfEthnicity.None? && inc.officerEthnicity.None? ==> e == "Not Recorded"
  {
    OrPhp(inc.selfEthnicity, OrPhp(inc.officerEthnicity, "Not Recorded"))
  }

  /** `stripos($outcome, 'arrest') !== false`. */
  predicate IsArrest(inc: Incident) {
    ContainsIgnoreCase(OutcomeLabel(inc), "arrest")
  }

  /** The `elseif`: no further action, tested only when there is no arrest. */
  predicate IsNoAction(inc: Incident) {
    !IsArrest(inc) && ContainsIgnoreCase(OutcomeLabel(inc), "no further action")
  }

  /** A non-empty datetime that `strtotime` could parse. */
  predicate Dated(inc: Incident) {
    NonEmptyPhp(inc.datetime) && inc.parsed.Some?
  }

  /** `date('G')`: the hour without a leading zero. */
  function HourOf(inc: Incident): string
    requires Dated(inc)
  {
    NatToString(inc.parsed.value.hour)
  }

  /** `date('l')`: the English weekday name. */
  function DayOf(inc: Incident): string
    requires Dated(inc)
  {
    inc.parsed.value.weekday
  }

  /** Both coordinates present and not `empty` ("" and "0" are). */
  predicate Located(inc: Incident) {
    inc.location.Some? && inc.location.value.latitude.Some? && inc.location.value.longitude.Some?
    && PhpTruthyText(inc.location.value.latitude.value.raw)
    && PhpTruthyText(inc.location.value.longitude.value.raw)
  }

  predicate PhpTruthyText(s: string) {
    s != "" && s != "0"
  }

  function LatOf(inc: Incident): int
    requires Located(inc)
  {
    inc.location.value.latitude.value.milli
  }

  function LngOf(inc: Incident): int
    requires Located(inc)
  {
    inc.location.value.longitude.value.milli
  }

  /** `$incident['location']['street']['name'] ?? 'Unknown Location'`. */
  function StreetOf(inc: Incident): string
    requires Located(inc)
  {
    OrPhp(inc.location.value.streetName, "Unknown Location")
  }

  /** The position of the cluster at these coordinates: the lookup of the
      `"{lat},{lng}"` key in `$locationCounts`. */
  function FindSpot(spots: seq<Spot>, lat: int, lng: int): (r: Option<nat>)
    ensures r.Some? ==> r.value < |spots| && spots[r.value].lat == lat && spots[r.value].lng == lng
    ensures r.None? ==> forall j :: 0 <= j < |spots| ==> !(spots[j].lat == lat && spots[j].lng == lng)
    decreases |spots|
  {
    if spots == [] then None
    else
      match FindSpot(spots[..|spots| - 1], lat, lng)
      case Some(j) => Some(j)
      case None =>
        if spots[|spots| - 1].lat == lat && spots[|spots| - 1].lng == lng then Some(|spots| - 1) else None
  }

  /** One incident at these coordinates: a new cluster named after it when
      the key is unset, then one more in the cluster. */
  function AddSpot(spots: seq<Spot>, lat: int, lng: int, name: string): seq<Spot> {
    match FindSpot(spots, lat, lng)
    case Some(j) => spots[j := spots[j].(count := spots[j].count + 1)]
    case None => spots + [Spot(lat, lng, 1, name)]
  }

  function StepTables(t: Tables, inc: Incident): Tables {
    Tables(
      Bump(t.outcomes, OutcomeLabel(inc)),
      Bump(t.ethnicity, EthnicityLabel(inc)),
      Bump(t.gender, OrPhp(inc.gender, "Not Recorded")),
      Bump(t.age, OrPhp(inc.ageRange, "Not Recorded")),
      Bump(t.objectOfSearch, OrPhp(inc.objectOfSearch, "Not Recorded")),
      Bump(t.legislation, OrPhp(inc.legislation, "Not Recorded")),
      if Dated(inc) then Bump(t.byHour, HourOf(inc)) else t.byHour,
      if Dated(inc) then Bump(t.byDay, DayOf(inc)) else t.byDay)
  }

  function StepSpots(spots: seq<Spot>, inc: Incident): seq<Spot> {
    if Located(inc) then AddSpot(spots, LatOf(inc), LngOf(inc), StreetOf(inc)) else spots
  }

  /** The effect of one pass of the `foreach` body. */
  function Step(t: Tallies, inc: Incident): Tallies {
    Tallies(
      if IsArrest(inc) then t.arrests + 1 else t.arrests,
      if IsNoAction(inc) then t.noAction + 1 else t.noAction,
      StepTables(t.tables, inc),
      StepSpots(t.spots, inc))
  }

  /** The tallies after the incidents of `s`, in order. */
  function Tallied(s: seq<Incident>): Tallies
    decreases |s|
  {
    if s == [] then NoTallies else Step(Tallied(s[..|s| - 1]), s[|s| - 1])
  }

  lemma TalliedStep(s: seq<Incident>, i: nat)
    requires i < |s|
    ensures Tallied(s[..i + 1]) == Step(Tallied(s[..i]), s[i])
  {
    assert s[..i + 1][..i] == s[..i];
  }

  /** The record `fetchForceStatistics($forceId, $month)` returns, given what
      the API answered: none when there are no incidents, otherwise the
      tallies of the incidents with the month asked for. */
  function ForceStatistics(forceId: string, month: string, lastMonth: string, response: Option<Answer>): (r: Option<ForceStats>)
    ensures r.Some? <==> IncidentList(response).Some?
    ensures r.Some? ==> r.value.forceId == forceId && r.value.month == DateStr(month, lastMonth)
    ensures r.Some? ==> r.value.total == |IncidentList(response).value| > 0
  {
    match IncidentList(response)
    case None => None
    case Some(s) =>
      var t := Tallied(s);
      Some(ForceStats(forceId, DateStr(month, lastMonth), |s|, t.arrests, t.noAction, t.tables, t.spots))
  }

  // ---- what the tallies satisfy -------------------------------------------

  function DatedCount(s: seq<Incident>): (n: nat)
    ensures n <= |s|
    decreases |s|
  {
    if s == [] then 0 else DatedCount(s[..|s| - 1]) + (if Dated(s[|s| - 1]) then 1 else 0)
  }

  function LocatedCount(s: seq<Incident>): (n: nat)
    ensures n <= |s|
    decreases |s|
  {
    if s == [] then 0 else LocatedCount(s[..|s| - 1]) + (if Located(s[|s| - 1]) then 1 else 0)
  }

  function SpotSum(spots: seq<Spot>): nat
    decreases |spots|
  {
    if spots == [] then 0 else SpotSum(spots[..|spots| - 1]) + spots[|spots| - 1].count
  }

  /** The street name of the first located incident of `s` at these
      coordinates. */
  function FirstName(s: seq<Incident>, lat: int, lng: int): Option<string>
    decreases |s|
  {
    if s == [] then None
    else
      var earlier := FirstName(s[..|s| - 1], lat, lng);
      var last := s[|s| - 1];
      if earlier.Some? then earlier
      else if Located(last) && LatOf(last) == lat && LngOf(last) == lng then Some(StreetOf(last))
      else None
  }

  /** One cluster per key, none empty, each named after the first incident
      at its key. */
  ghost predicate SpotsFaithful(spots: seq<Spot>, s: seq<Incident>) {
    (forall j :: 0 <= j < |spots| ==> spots[j].count >= 1)
    && (forall j, k :: 0 <= j < k < |spots| ==> !(spots[j].lat == spots[k].lat && spots[j].lng == spots[k].lng))
    && (forall j :: 0 <= j < |spots| ==> FirstName(s, spots[j].lat, spots[j].lng) == Some(spots[j].name))
    && (forall i :: 0 <= i < |s| && Located(s[i]) ==> FindSpot(spots, LatOf(s[i]), LngOf(s[i])).Some?)
  }

  /** The six always-filled tables each sum to `n`. */
  ghost predicate SixSum(t: Tables, n: nat) {
    Sum(t.outcomes) == n && Sum(t.ethnicity) == n && Sum(t.gender) == n
    && Sum(t.age) == n && Sum(t.objectOfSearch) == n && Sum(t.legislation) == n
  }

  lemma SixSumTable(t: Tables, n: nat)
    requires SixSum(t, n)
    ensures forall kind :: EveryIncident(kind) ==> Sum(Table(t, kind)) == n
  {
    forall kind | EveryIncident(kind)
      ensures Sum(Table(t, kind)) == n
    {
      match kind
      case OutcomeKind =>
      case EthnicityKind =>
      case GenderKind =>
      case AgeKind =>
      case ObjectKind =>
      case LegislationKind =>
    }
  }

  /** What the tallies of `n` incidents, `dated` of them datable and
      `located` of them located, satisfy: the arrest and no-further-action
      counts never overlap, each always-filled table sums to `n`, the hour
      and day tables both sum to `dated`, and the clusters hold `located`
      incidents. */
  ghost predicate TalliesAdd(t: Tallies, n: nat, dated: nat, located: nat) {
    t.arrests + t.noAction <= n
    && SixSum(t.tables, n)
    && Sum(t.tables.byHour) == dated && Sum(t.tables.byDay) == dated
    && SpotSum(t.spots) == located
  }

  lemma {:induction false} SpotSumUpdate(spots: seq<Spot>, j: nat, c: Spot)
    requires j < |spots|
    ensures SpotSum(spots[j := c]) + spots[j].count == SpotSum(spots) + c.count
    decreases |spots|
  {
    var u := spots[j := c];
    var n := |spots| - 1;
    assert u[..n] == if j == n then spots[..n] else spots[..n][j := c];
    if j < n {
      SpotSumUpdate(spots[..n], j, c);
    }
  }

  lemma StepTablesAdd(t: Tables, inc: Incident, n: nat, dated: nat)
    requires SixSum(t, n)
    requires Sum(t.byHour) == dated && Sum(t.byDay) == dated
    ensures SixSum(StepTables(t, inc), n + 1)
    ensures var d := dated + (if Dated(inc) then 1 else 0);
      Sum(StepTables(t, inc).byHour) == d && Sum(StepTables(t, inc).byDay) == d
  {
    SumBump(t.outcomes, OutcomeLabel(inc));
    SumBump(t.ethnicity, EthnicityLabel(inc));
    SumBump(t.gender, OrPhp(inc.gender, "Not Recorded"));
    SumBump(t.age, OrPhp(inc.ageRange, "Not Recorded"));
    SumBump(t.objectOfSearch, OrPhp(inc.objectOfSearch, "Not Recorded"));
    SumBump(t.legislation, OrPhp(inc.legislation, "Not Recorded"));
    if Dated(inc) {
      SumBump(t.byHour, HourOf(inc));
      SumBump(t.byDay, DayOf(inc));
    }
  }

  lemma StepSpotsAdd(spots: seq<Spot>, inc: Incident)
    ensures SpotSum(StepSpots(spots, inc)) == SpotSum(spots) + (if Located(inc) then 1 else 0)
  {
    if Located(inc) {
      match FindSpot(spots, LatOf(inc), LngOf(inc))
      case Some(j) =>
        SpotSumUpdate(spots, j, spots[j].(count := spots[j].count + 1));
      case None =>
        assert (spots + [Spot(LatOf(inc), LngOf(inc), 1, StreetOf(inc))])[..|spots|] == spots;
    }
  }

  lemma StepTalliesAdd(t: Tallies, inc: Incident, n: nat, dated: nat, located: nat)
    requires TalliesAdd(t, n, dated, located)
    ensures TalliesAdd(Step(t, inc), n + 1, dated + (if Dated(inc) then 1 else 0), located + (if Located(inc) then 1 else 0))
  {
    StepTablesAdd(t.tables, inc, n, dated);
    StepSpotsAdd(t.spots, inc);
  }

  /** Each always-filled table sums to the number of incidents, the hour and
      day tables to the number of datable ones, the clusters to the number of
      located ones, and arrests and no-further-action never overlap. */
  lemma {:induction false} TalliedAdds(s: seq<Incident>)
    ensures TalliesAdd(Tallied(s), |s|, DatedCount(s), LocatedCount(s))
    decreases |s|
  {
    if s != [] {
      var p := s[..|s| - 1];
      var last := s[|s| - 1];
      TalliedAdds(p);
      StepTalliesAdd(Tallied(p), last, |p|, DatedCount(p), LocatedCount(p));
      assert Tallied(s) == Step(Tallied(p), last);
      assert DatedCount(s) == DatedCount(p) + (if Dated(last) then 1 else 0);
      assert LocatedCount(s) == LocatedCount(p) + (if Located(last) then 1 else 0);
    }
  }

  lemma FirstNameKept(s: seq<Incident>, inc: Incident, lat: int, lng: int)
    requires FirstName(s, lat, lng).Some?
    ensures FirstName(s + [inc], lat, lng) == FirstName(s, lat, lng)
  {
    assert (s + [inc])[..|s|] == s;
  }

  lemma FirstNameNew(s: seq<Incident>, inc: Incident)
    requires Located(inc) && FirstName(s, LatOf(inc), LngOf(inc)).None?
    ensures FirstName(s + [inc], LatOf(inc), LngOf(inc)) == Some(StreetOf(inc))
  {
    assert (s + [inc])[..|s|] == s;
  }

  /** A located incident's key was recorded already, so it has a name. */
  lemma {:induction false} FoundHasName(s: seq<Incident>, i: nat)
    requires i < |s| && Located(s[i])
    ensures FirstName(s, LatOf(s[i]), LngOf(s[i])).Some?
    decreases |s|
  {
    var p := s[..|s| - 1];
    if i < |p| {
      assert p[i] == s[i];
      FoundHasName(p, i);
    }
  }

  lemma StepSpotsFaithful(spots: seq<Spot>, s: seq<Incident>, inc: Incident)
    requires SpotsFaithful(spots, s)
    ensures SpotsFaithful(StepSpots(spots, inc), s + [inc])
  {
    var s' := s + [inc];
    assert s'[..|s|] == s;
    var spots' := StepSpots(spots, inc);
    forall j | 0 <= j < |spots|
      ensures FirstName(s', spots[j].lat, spots[j].lng) == Some(spots[j].name)
    {
      FirstNameKept(s, inc, spots[j].lat, spots[j].lng);
    }
    if Located(inc) {
      var lat, lng := LatOf(inc), LngOf(inc);
      match FindSpot(spots, lat, lng)
      case Some(j) =>
        assert forall k :: 0 <= k < |spots'| ==> spots'[k].lat == spots[k].lat && spots'[k].lng == spots[k].lng;
        forall i | 0 <= i < |s'| && Located(s'[i])
          ensures FindSpot(spots', LatOf(s'[i]), LngOf(s'[i])).Some?
        {
          if i < |s| {
            assert s'[i] == s[i];
            var k := FindSpot(spots, LatOf(s[i]), LngOf(s[i])).value;
            assert spots'[k].lat == LatOf(s'[i]) && spots'[k].lng == LngOf(s'[i]);
          } else {
            assert spots'[j].lat == lat && spots'[j].lng == lng;
          }
        }
      case None =>
        var added := Spot(lat, lng, 1, StreetOf(inc));
        assert spots' == spots + [added];
        NamedHasSpot(spots, s, lat, lng);
        FirstNameNew(s, inc);
        forall i | 0 <= i < |s'| && Located(s'[i])
          ensures FindSpot(spots', LatOf(s'[i]), LngOf(s'[i])).Some?
        {
          if i < |s| {
            assert s'[i] == s[i];
            var k := FindSpot(spots, LatOf(s[i]), LngOf(s[i])).value;
            assert spots'[k] == spots[k];
          } else {
            assert spots'[|spots|] == added;
          }
        }
    } else {
      forall i | 0 <= i < |s'| && Located(s'[i])
        ensures FindSpot(spots', LatOf(s'[i]), LngOf(s'[i])).Some?
      {
        assert i < |s| && s'[i] == s[i];
      }
    }
  }

  /** A named key belongs to some located incident of `s`. */
  lemma {:induction false} FirstNameWitness(s: seq<Incident>, lat: int, lng: int)
    requires FirstName(s, lat, lng).Some?
    ensures exists i :: 0 <= i < |s| && Located(s[i]) && LatOf(s[i]) == lat && LngOf(s[i]) == lng
    decreases |s|
  {
    var p := s[..|s| - 1];
    if FirstName(p, lat, lng).Some? {
      FirstNameWitness(p, lat, lng);
      var i :| 0 <= i < |p| && Located(p[i]) && LatOf(p[i]) == lat && LngOf(p[i]) == lng;
      assert s[i] == p[i];
    } else {
      assert Located(s[|s| - 1]);
    }
  }

  /** Under the invariant, a key that has a name has a cluster. */
  lemma NamedHasSpot(spots: seq<Spot>, s: seq<Incident>, lat: int, lng: int)
    requires SpotsFaithful(spots, s)
    ensures FirstName(s, lat, lng).Some? ==> FindSpot(spots, lat, lng).Some?
  {
    if FirstName(s, lat, lng).Some? {
      FirstNameWitness(s, lat, lng);
    }
  }

  /** The clusters have one entry per distinct key, each named after the first
      incident at that key, and every located incident's key has a cluster. */
  lemma {:induction false} TalliedSpotsFaithful(s: seq<Incident>)
    ensures SpotsFaithful(Tallied(s).spots, s)
    decreases |s|
  {
    if s != [] {
      var p := s[..|s| - 1];
      TalliedSpotsFaithful(p);
      StepSpotsFaithful(Tallied(p).spots, p, s[|s| - 1]);
      assert p + [s[|s| - 1]] == s;
    }
  }

  /** Everything the record of a force promises about itself. */
  ghost predicate Consistent(f: ForceStats) {
    f.total > 0
    && f.arrests + f.noAction <= f.total
    && (forall kind :: EveryIncident(kind) ==> Sum(Table(f.tables, kind)) == f.total)
    && Sum(f.tables.byHour) == Sum(f.tables.byDay) <= f.total
    && SpotSum(f.locations) <= f.total
  }

  /** Every record `fetchForceStatistics` returns is consistent. */
  lemma ForceStatisticsConsistent(forceId: string, month: string, lastMonth: string, response: Option<Answer>)
    requires ForceStatistics(forceId, month, lastMonth, response).Some?
    ensures Consistent(ForceStatistics(forceId, month, lastMonth, response).value)
  {
    var s := IncidentList(response).value;
    TalliedAdds(s);
    SixSumTable(Tallied(s).tables, |s|);
  }

  // ---- the loop ----------------------------------------------------------

  /** The body of the `foreach` for one incident: the outcome, arrest or
      no-further-action, the six labels, the hour and day of a datable
      incident, and the cluster of a located one. */
  method Visit(t: Tallies, inc: Incident) returns (r: Tallies)
    ensures r == Step(t, inc)
  {
    var arrests, noAction := t.arrests, t.noAction;
    var outcome := OrPhp(inc.outcome, "Not Recorded");
    if ContainsIgnoreCase(outcome, "arrest") {
      arrests := arrests + 1;
    } else if ContainsIgnoreCase(outcome, "no further action") {
      noAction := noAction + 1;
    }
    var tables := VisitTables(t.tables, inc);
    var spots := VisitLocation(t.spots, inc);
    r := Tallies(arrests, noAction, tables, spots);
  }

  /** The table part of the body: one label in each of the six tables, and
      the hour and the weekday of a datable incident. */
  method VisitTables(tb: Tables, inc: Incident) returns (r: Tables)
    ensures r == StepTables(tb, inc)
  {
    var outcomes := Bump(tb.outcomes, OrPhp(inc.outcome, "Not Recorded"));
    var ethnicity := Bump(tb.ethnicity, EthnicityLabel(inc));
    var gender := Bump(tb.gender, OrPhp(inc.gender, "Not Recorded"));
    var age := Bump(tb.age, OrPhp(inc.ageRange, "Not Recorded"));
    var objects := Bump(tb.objectOfSearch, OrPhp(inc.objectOfSearch, "Not Recorded"));
    var legislation := Bump(tb.legislation, OrPhp(inc.legislation, "Not Recorded"));
    var byHour, byDay := tb.byHour, tb.byDay;
    if NonEmptyPhp(inc.datetime) && inc.parsed.Some? {
      byHour := Bump(byHour, NatToString(inc.parsed.value.hour));
      byDay := Bump(byDay, inc.parsed.value.weekday);
    }
    r := Tables(outcomes, ethnicity, gender, age, objects, legislation, byHour, byDay);
  }

  /** The location part of the body: the cluster is created, named after
      this incident, when its key is unset, and then counted. */
  method VisitLocation(spots: seq<Spot>, inc: Incident) returns (r: seq<Spot>)
    ensures r == StepSpots(spots, inc)
  {
    r := spots;
    if Located(inc) {
      var lat, lng := LatOf(inc), LngOf(inc);
      var at := FindSpot(r, lat, lng);
      if at.None? {
        r := r + [Spot(lat, lng, 0, StreetOf(inc))];
        at := Some(|r| - 1);
      }
      r := r[at.value := r[at.value].(count := r[at.value].count + 1)];
    }
  }

  /** `fetchForceStatistics` after the request: the record is absent when
      there are no incidents, and otherwise built by the `foreach`. */
  method FetchForceStatistics(forceId: string, month: string, lastMonth: string, response: Option<Answer>)
    returns (r: Option<ForceStats>)
    ensures r == ForceStatistics(forceId, month, lastMonth, response)
    ensures r.Some? ==> Consistent(r.value)
  {
    var dateStr := DateStr(month, lastMonth);
    if response.None? || response.value.Other? {
      return None;
    }
    var s := if response.value.Listed? then response.value.items else response.value.values;
    if |s| == 0 {
      return None;
    }
    assert IncidentList(response) == Some(s);
    var t := TallyIncidents(s);
    r := Some(ForceStats(forceId, dateStr, |s|, t.arrests, t.noAction, t.tables, t.spots));
    ForceStatisticsConsistent(forceId, month, lastMonth, response);
  }

  /** The `foreach` of `fetchForceStatistics` over the incidents. */
  method TallyIncidents(s: seq<Incident>) returns (t: Tallies)
    ensures t == Tallied(s)
  {
    t := NoTallies;
    var i := 0;
    while i < |s|
      invariant i <= |s| && t == Tallied(s[..i])
    {
      TalliedStep(s, i);
      t := Visit(t, s[i]);
      i := i + 1;
    }
    assert s[..i] == s;
  }

  // ---- the overall record --------------------------------------------------

  /** The forces `getOverallStatistics` visits, in order. */
  const Forces: seq<string> := [
    "avon-and-somerset", "bedfordshire", "cambridgeshire", "cheshire", "city-of-london",
    "cleveland", "cumbria", "derbyshire", "devon-and-cornwall", "dorset", "durham",
    "dyfed-powys", "essex", "gloucestershire", "greater-manchester", "gwent", "hampshire",
    "hertfordshire", "kent", "lancashire", "leicestershire", "merseyside", "metropolitan",
    "norfolk", "north-wales", "north-yorkshire", "northamptonshire", "northumbria",
    "nottinghamshire", "south-wales", "south-yorkshire", "staffordshire", "suffolk",
    "surrey", "sussex", "thames-valley", "warwickshire", "west-mercia", "west-midlands",
    "west-yorkshire", "wiltshire"]

  /** The record `getOverallStatistics` returns. */
  datatype Overall = Overall(
    month: string,
    totalIncidents: nat,
    totalArrests: nat,
    totalNoAction: nat,
    forcesAnalyzed: nat,
    forces: seq<ForceStats>,
    tables: Tables)

  /** The records of the forces in `ids` that have incidents, in order;
      `api` is what the police API answers for each force. */
  function Analysed(ids: seq<string>, month: string, lastMonth: string, api: string -> Option<Answer>): (r: seq<ForceStats>)
    ensures |r| <= |ids|
    ensures forall j :: 0 <= j < |r| ==> r[j].total > 0
    decreases |ids|
  {
    if ids == [] then []
    else
      var earlier := Analysed(ids[..|ids| - 1], month, lastMonth, api);
      var st := ForceStatistics(ids[|ids| - 1], month, lastMonth, api(ids[|ids| - 1]));
      if st.Some? && st.value.total > 0 then earlier + [st.value] else earlier
  }

  lemma AnalysedStep(ids: seq<string>, i: nat, month: string, lastMonth: string, api: string -> Option<Answer>)
    requires i < |ids|
    ensures var st := ForceStatistics(ids[i], month, lastMonth, api(ids[i]));
      var earlier := Analysed(ids[..i], month, lastMonth, api);
      Analysed(ids[..i + 1], month, lastMonth, api) == if st.Some? && st.value.total > 0 then earlier + [st.value] else earlier
  {
    assert ids[..i + 1][..i] == ids[..i];
  }

  function TotalIncidents(fs: seq<ForceStats>): nat
    decreases |fs|
  {
    if fs == [] then 0 else TotalIncidents(fs[..|fs| - 1]) + fs[|fs| - 1].total
  }

  function TotalArrests(fs: seq<ForceStats>): nat
    decreases |fs|
  {
    if fs == [] then 0 else TotalArrests(fs[..|fs| - 1]) + fs[|fs| - 1].arrests
  }

  function TotalNoAction(fs: seq<ForceStats>): nat
    decreases |fs|
  {
    if fs == [] then 0 else TotalNoAction(fs[..|fs| - 1]) + fs[|fs| - 1].noAction
  }

  /** The labels any of the records has in the given table. */
  function KeysOf(fs: seq<ForceStats>, kind: Kind): set<string>
    decreases |fs|
  {
    if fs == [] then {} else KeysOf(fs[..|fs| - 1], kind) + Table(fs[|fs| - 1].tables, kind).Keys
  }

  /** The records' counts of one label in the given table, added up. */
  function Column(fs: seq<ForceStats>, kind: Kind, k: string): nat
    decreases |fs|
  {
    if fs == [] then 0 else Column(fs[..|fs| - 1], kind, k) + Get0(Table(fs[|fs| - 1].tables, kind), k)
  }

  /** `r` is `a` and `b` added pointwise, table by table. */
  ghost predicate PointwiseSum(r: Tables, a: Tables, b: Tables) {
    forall kind :: Merged(Table(r, kind), Table(a, kind), Table(b, kind))
  }

  /** Each table of `t` is the pointwise sum of that table over the records. */
  ghost predicate MergedOver(t: Tables, fs: seq<ForceStats>) {
    (forall kind :: Table(t, kind).Keys == KeysOf(fs, kind))
    && (forall kind, k :: Get0(Table(t, kind), k) == Column(fs, kind, k))
  }

  /** The sums an overall record of these totals keeps: each always-filled
      table sums to the incidents, the hour and day tables agree and stay
      within them, and arrests and no-further-action do not overlap. */
  ghost predicate OverallSums(t: Tables, incidents: nat, arrests: nat, noAction: nat) {
    (forall kind :: EveryIncident(kind) ==> Sum(Table(t, kind)) == incidents)
    && Sum(t.byHour) == Sum(t.byDay) <= incidents
    && arrests + noAction <= incidents
  }

  /** The eight `foreach ($forceStats[...] as $label => $count)` loops: each
      table of the force is added into the overall one. */
  method MergeTables(acc: Tables, t: Tables) returns (r: Tables)
    ensures PointwiseSum(r, acc, t)
  {
    var outcomes := MergeCounts(acc.outcomes, t.outcomes);
    var ethnicity := MergeCounts(acc.ethnicity, t.ethnicity);
    var gender := MergeCounts(acc.gender, t.gender);
    var age := MergeCounts(acc.age, t.age);
    var objects := MergeCounts(acc.objectOfSearch, t.objectOfSearch);
    var legislation := MergeCounts(acc.legislation, t.legislation);
    var byHour := MergeCounts(acc.byHour, t.byHour);
    var byDay := MergeCounts(acc.byDay, t.byDay);
    r := Tables(outcomes, ethnicity, gender, age, objects, legislation, byHour, byDay);
    forall kind
      ensures Merged(Table(r, kind), Table(acc, kind), Table(t, kind))
    {
      match kind
      case OutcomeKind =>
      case EthnicityKind =>
      case GenderKind =>
      case AgeKind =>
      case ObjectKind =>
      case LegislationKind =>
      case HourKind =>
      case DayKind =>
    }
  }

  /** Adding one more record keeps the overall tables the pointwise sum. */
  lemma MergedStep(t: Tables, fs: seq<ForceStats>, f: ForceStats, r: Tables)
    requires MergedOver(t, fs) && PointwiseSum(r, t, f.tables)
    ensures MergedOver(r, fs + [f])
  {
    var fs' := fs + [f];
    assert fs'[..|fs|] == fs && fs'[|fs|] == f;
    forall kind
      ensures Table(r, kind).Keys == KeysOf(fs', kind)
    {
      assert Merged(Table(r, kind), Table(t, kind), Table(f.tables, kind));
    }
    forall kind, k
      ensures Get0(Table(r, kind), k) == Column(fs', kind, k)
    {
      assert Merged(Table(r, kind), Table(t, kind), Table(f.tables, kind));
    }
  }

  /** Adding a consistent record keeps the overall sums. */
  lemma SumsStep(t: Tables, incidents: nat, arrests: nat, noAction: nat, f: ForceStats, r: Tables)
    requires OverallSums(t, incidents, arrests, noAction) && Consistent(f) && PointwiseSum(r, t, f.tables)
    ensures OverallSums(r, incidents + f.total, arrests + f.arrests, noAction + f.noAction)
  {
    assert Merged(Table(r, HourKind), Table(t, HourKind), Table(f.tables, HourKind));
    assert Merged(Table(r, DayKind), Table(t, DayKind), Table(f.tables, DayKind));
    forall kind | EveryIncident(kind)
      ensures Sum(Table(r, kind)) == incidents + f.total
    {
      assert Merged(Table(r, kind), Table(t, kind), Table(f.tables, kind));
    }
  }

  /** `o` is the overall record of the records `fs`, in that order. */
  ghost predicate OverallOf(o: Overall, fs: seq<ForceStats>) {
    o.forces == fs && o.forcesAnalyzed == |fs|
    && o.totalIncidents == TotalIncidents(fs)
    && o.totalArrests == TotalArrests(fs) && o.totalNoAction == TotalNoAction(fs)
    && MergedOver(o.tables, fs)
    && OverallSums(o.tables, o.totalIncidents, o.totalArrests, o.totalNoAction)
  }

  /** The body of the `if` for a force with incidents: the record is listed,
      its totals added, the force counted and its tables merged. */
  method AddForce(o: Overall, f: ForceStats) returns (r: Overall)
    requires OverallOf(o, o.forces) && Consistent(f)
    ensures OverallOf(r, o.forces + [f]) && r.month == o.month
  {
    var merged := MergeTables(o.tables, f.tables);
    MergedStep(o.tables, o.forces, f, merged);
    SumsStep(o.tables, o.totalIncidents, o.totalArrests, o.totalNoAction, f, merged);
    var fs := o.forces + [f];
    assert fs[..|o.forces|] == o.forces;
    r := Overall(o.month, o.totalIncidents + f.total, o.totalArrests + f.arrests,
      o.totalNoAction + f.noAction, o.forcesAnalyzed + 1, fs, merged);
  }

  /** `getOverallStatistics($month)`: every force is visited in order; a
      force whose record is missing or has no incidents is skipped, and each
      other one is listed, counted and added into the totals and the tables. */
  method GetOverallStatistics(month: string, lastMonth: string, api: string -> Option<Answer>) returns (o: Overall)
    ensures o.month == month
    ensures o.forces == Analysed(Forces, month, lastMonth, api)
    ensures o.forcesAnalyzed == |o.forces|
    ensures o.totalIncidents == TotalIncidents(o.forces)
    ensures o.totalArrests == TotalArrests(o.forces) && o.totalNoAction == TotalNoAction(o.forces)
    ensures MergedOver(o.tables, o.forces)
    ensures OverallSums(o.tables, o.totalIncidents, o.totalArrests, o.totalNoAction)
  {
    o := Overall(month, 0, 0, 0, 0, [], NoTables);
    var i := 0;
    while i < |Forces|
      invariant i <= |Forces| && o.month == month
      invariant o.forces == Analysed(Forces[..i], month, lastMonth, api) && OverallOf(o, o.forces)
    {
      AnalysedStep(Forces, i, month, lastMonth, api);
      var st := FetchForceStatistics(Forces[i], month, lastMonth, api(Forces[i]));
      if st.Some? && st.value.total > 0 {
        o := AddForce(o, st.value);
      }
      i := i + 1;
    }
    assert Forces[..i] == Forces;
  }
}
