/** The homepage map endpoint (`php-api/homepage-map.php`): the server
    cache is analysed as the transparency analysis does, also tracking each
    force's latest month with data; every force of the forces list is then
    classified as active, with limited data or with none, listed with its
    formatted latest month and its centre, the list sorted by that status,
    and a summary counted. Which files exist and what they hold are inputs;
    the forces list is given as its `id => name` members in document order. */
module HomepageMap {
  import opened Wrappers
  import opened Json
  import opened Text
  import opened Transparency

  // ---- formatMonth -------------------------------------------------------------

  const MonthNames: seq<string> := ["Jan", "Feb", "Mar", "Apr", "May", "Jun", "Jul", "Aug", "Sep", "Oct", "Nov", "Dec"]

  predicate IsDigit(c: char) {
    '0' <= c <= '9'
  }

  /** `preg_match('/^(\d{4})-(\d{2})$/', ...)`: four digits, a dash and two
      digits; `$` also matches before a final newline. */
  predicate MonthShaped(s: string) {
    (|s| == 7 || (|s| == 8 && s[7] == '\n'))
    && IsDigit(s[0]) && IsDigit(s[1]) && IsDigit(s[2]) && IsDigit(s[3])
    && s[4] == '-' && IsDigit(s[5]) && IsDigit(s[6])
  }

  /** `intval($matches[2])`. */
  function MonthNumber(s: string): (n: nat)
    requires MonthShaped(s)
    ensures n < 100
  {
    (s[5] as int - '0' as int) * 10 + (s[6] as int - '0' as int)
  }

  /** A month `formatMonth` renders by name. */
  predicate Nameable(s: string) {
    MonthShaped(s) && 1 <= MonthNumber(s) <= 12
  }

  /** `formatMonth($monthString)`: 'latest' and null read 'Latest', a
      nameable month reads `Mon YYYY`, anything else is returned unchanged. */
  function FormatMonth(month: Option<string>): (r: string)
    ensures r == "Latest" <==> month.None? || month.value == "latest" || month.value == "Latest"
    ensures month.Some? && Nameable(month.value) ==>
      |r| == 8 && r[..3] == MonthNames[MonthNumber(month.value) - 1] && r[3] == ' ' && r[4..] == month.value[..4]
      && 'A' <= r[0] <= 'Z'
    ensures month.Some? && month.value != "latest" && !Nameable(month.value) ==> r == month.value
  {
    if month.None? || month.value == "latest" then "Latest"
    else if Nameable(month.value) then MonthNames[MonthNumber(month.value) - 1] + " " + month.value[..4]
    else month.value
  }

  /** Two months of the form `YYYY-MM` that read the same are the same. */
  lemma FormatMonthInjective(a: string, b: string)
    requires Nameable(a) && Nameable(b) && |a| == 7 && |b| == 7
    requires FormatMonth(Some(a)) == FormatMonth(Some(b))
    ensures a == b
  {
    var ra, rb := FormatMonth(Some(a)), FormatMonth(Some(b));
    assert MonthNames[MonthNumber(a) - 1] == ra[..3] == rb[..3] == MonthNames[MonthNumber(b) - 1];
    assert a[..4] == ra[4..] == rb[4..] == b[..4];
    assert MonthNumber(a) == MonthNumber(b);
    assert a[5] == b[5] && a[6] == b[6];
    assert a == a[..4] + [a[4], a[5], a[6]];
    assert b == b[..4] + [b[4], b[5], b[6]];
  }

  /** A month followed by a newline reads as the month. */
  lemma TrailingNewlineAccepted()
    ensures FormatMonth(Some("2024-03\n")) == "Mar 2024" == FormatMonth(Some("2024-03"))
  {
    assert Nameable("2024-03\n") && MonthNumber("2024-03\n") == 3;
    assert Nameable("2024-03") && MonthNumber("2024-03") == 3;
  }

  // ---- the analysis with latest months ---------------------------------------

  /** A force's entry in `$forceData`: its counters and its latest month. */
  datatype MapTally = MapTally(counts: Counts, latestMonth: Option<string>)

  datatype MapAnalysis = MapAnalysis(order: seq<string>, stats: map<string, MapTally>)

  const NoTally := MapTally(Counts(0, 0, 0), None)

  /** The latest month after a month with data: a month other than 'latest'
      replaces a missing or falsy latest month, or a smaller one. */
  function NewerMonth(latest: Option<string>, month: string): Option<string> {
    if month != "latest" && (latest.None? || !PhpTruthyString(latest.value) || Less(latest.value, month)) then Some(month)
    else latest
  }

  /** The first loop's body for one cache member. */
  function MapStep(a: MapAnalysis, key: string, entry: Json): MapAnalysis {
    match ParseKey(key)
    case None => a
    case Some((force, month)) =>
      var t := if force in a.stats then a.stats[force] else NoTally;
      var total := TotalOf(DataOf(entry));
      MapAnalysis(if force in a.stats then a.order else a.order + [force],
                  a.stats[force := MapTally(AddMonth(t.counts, total),
                                            if total > 0 then NewerMonth(t.latestMonth, month) else t.latestMonth)])
  }

  function MapAnalyse(entries: seq<(string, Json)>): MapAnalysis
    decreases |entries|
  {
    if entries == [] then MapAnalysis([], map[])
    else
      var last := entries[|entries| - 1];
      MapStep(MapAnalyse(entries[..|entries| - 1]), last.0, last.1)
  }

  /** The counters alone. */
  function Counted(a: MapAnalysis): Analysis {
    Analysis(a.order, map f | f in a.stats :: a.stats[f].counts)
  }

  /** The counters agree with the transparency analysis of the same cache, so
      the same forces are flagged. */
  lemma {:induction false} MapCountsAgree(entries: seq<(string, Json)>)
    ensures Counted(MapAnalyse(entries)) == Analyse(entries)
    decreases |entries|
  {
    if entries != [] {
      var p := entries[..|entries| - 1];
      var last := entries[|entries| - 1];
      MapCountsAgree(p);
      var a := MapAnalyse(p);
      match ParseKey(last.0)
      case None =>
      case Some((force, month)) =>
        var t := if force in a.stats then a.stats[force] else NoTally;
        assert Counted(a).stats[force := AddMonth(t.counts, TotalOf(DataOf(last.1)))] == Counted(MapAnalyse(entries)).stats;
    }
  }

  /** The month a cache member adds to a force's months with data. */
  function NewMonths(key: string, entry: Json, force: string): seq<string> {
    var p := ParseKey(key);
    if p.Some? && p.value.0 == force && p.value.1 != "latest" && TotalOf(DataOf(entry)) > 0 then [p.value.1] else []
  }

  /** The months with data of a force, 'latest' excluded, in cache order. */
  function DataMonths(entries: seq<(string, Json)>, force: string): seq<string>
    decreases |entries|
  {
    if entries == [] then []
    else
      var last := entries[|entries| - 1];
      DataMonths(entries[..|entries| - 1], force) + NewMonths(last.0, last.1, force)
  }

  lemma DataMonthsSnoc(entries: seq<(string, Json)>, key: string, entry: Json, force: string)
    ensures DataMonths(entries + [(key, entry)], force) == DataMonths(entries, force) + NewMonths(key, entry, force)
  {
    assert (entries + [(key, entry)])[..|entries|] == entries;
  }

  /** With truthy months, a force's months with data are truthy. */
  lemma {:induction false} DataMonthsTruthy(entries: seq<(string, Json)>, force: string)
    requires TruthyMonths(entries)
    ensures forall m :: m in DataMonths(entries, force) ==> PhpTruthyString(m)
    decreases |entries|
  {
    if entries != [] {
      var p := entries[..|entries| - 1];
      assert TruthyMonths(p) by {
        forall i | 0 <= i < |p| ensures p[i] == entries[i] { }
      }
      DataMonthsTruthy(p, force);
      var last := entries[|entries| - 1];
      assert ParseKey(last.0).Some? ==> PhpTruthyString(ParseKey(last.0).value.1);
    }
  }

  /** The lexicographically greatest of some months. */
  function MaxMonth(ms: seq<string>): (r: Option<string>)
    ensures r.None? <==> ms == []
    ensures r.Some? ==> r.value in ms && forall m :: m in ms ==> m == r.value || Less(m, r.value)
    decreases |ms|
  {
    if ms == [] then None
    else
      var r := MaxMonth(ms[..|ms| - 1]);
      var m := ms[|ms| - 1];
      assert ms == ms[..|ms| - 1] + [m];
      MaxMonthStep(ms[..|ms| - 1], r, m);
      if r.None? || Less(r.value, m) then Some(m) else r
  }

  lemma MaxMonthStep(ms: seq<string>, r: Option<string>, m: string)
    requires r.None? <==> ms == []
    requires r.Some? ==> r.value in ms && forall x :: x in ms ==> x == r.value || Less(x, r.value)
    ensures var next := if r.None? || Less(r.value, m) then Some(m) else r;
      next.Some? && next.value in ms + [m] && forall x :: x in ms + [m] ==> x == next.value || Less(x, next.value)
  {
    if r.Some? {
      if Less(r.value, m) {
        forall x | x in ms ensures x == m || Less(x, m) {
          if x != r.value { LessTransitive(x, r.value, m); }
        }
      } else if r.value != m {
        LessTotal(r.value, m);
      }
    }
  }

  /** Every month a key names is truthy to PHP, as `YYYY-MM` months are. */
  ghost predicate TruthyMonths(entries: seq<(string, Json)>) {
    forall i :: 0 <= i < |entries| && ParseKey(entries[i].0).Some? ==> PhpTruthyString(ParseKey(entries[i].0).value.1)
  }

  /** Each force's latest month is the greatest of its months with data, and
      a force not yet seen has none. */
  ghost predicate LatestOf(a: MapAnalysis, entries: seq<(string, Json)>) {
    (forall f :: f in a.stats ==> a.stats[f].latestMonth == MaxMonth(DataMonths(entries, f)))
    && (forall f :: f !in a.stats ==> DataMonths(entries, f) == [])
  }

  lemma MapStepLatest(a: MapAnalysis, entries: seq<(string, Json)>, key: string, entry: Json)
    requires LatestOf(a, entries) && TruthyMonths(entries)
    ensures LatestOf(MapStep(a, key, entry), entries + [(key, entry)])
  {
    var e := entries + [(key, entry)];
    var p := ParseKey(key);
    forall f | p.None? || f != p.value.0
      ensures DataMonths(e, f) == DataMonths(entries, f)
    {
      DataMonthsSnoc(entries, key, entry, f);
      assert NewMonths(key, entry, f) == [];
      assert DataMonths(entries, f) + [] == DataMonths(entries, f);
    }
    if p.Some? {
      ForceLatest(a, entries, key, entry);
    }
  }

  /** The force a member names gets the greatest of its months with data. */
  lemma ForceLatest(a: MapAnalysis, entries: seq<(string, Json)>, key: string, entry: Json)
    requires LatestOf(a, entries) && TruthyMonths(entries)
    requires ParseKey(key).Some?
    ensures var force := ParseKey(key).value.0;
      MapStep(a, key, entry).stats[force].latestMonth == MaxMonth(DataMonths(entries + [(key, entry)], force))
  {
    var (force, month) := ParseKey(key).value;
    var ms := DataMonths(entries, force);
    DataMonthsSnoc(entries, key, entry, force);
    var t := if force in a.stats then a.stats[force] else NoTally;
    var total := TotalOf(DataOf(entry));
    assert MapStep(a, key, entry).stats[force].latestMonth
      == if total > 0 then NewerMonth(t.latestMonth, month) else t.latestMonth;
    assert t.latestMonth == MaxMonth(ms);
    DataMonthsTruthy(entries, force);
    if month != "latest" && total > 0 {
      assert NewMonths(key, entry, force) == [month];
      MaxMonthSnoc(ms, month);
    } else {
      assert NewMonths(key, entry, force) == [];
      assert ms + [] == ms;
      if total > 0 {
        assert NewerMonth(t.latestMonth, month) == t.latestMonth;
      }
    }
  }

  /** Tracking the latest month is taking the greatest of truthy months. */
  lemma MaxMonthSnoc(ms: seq<string>, month: string)
    requires forall m :: m in ms ==> PhpTruthyString(m)
    requires month != "latest"
    ensures MaxMonth(ms + [month]) == NewerMonth(MaxMonth(ms), month)
  {
    assert (ms + [month])[..|ms|] == ms;
  }

  /** With months truthy to PHP, a force's latest month is the
      lexicographically greatest of its months with data other than
      'latest', and there is none when it has no such month. */
  lemma {:induction false} LatestIsGreatest(entries: seq<(string, Json)>)
    requires TruthyMonths(entries)
    ensures LatestOf(MapAnalyse(entries), entries)
    decreases |entries|
  {
    if entries != [] {
      var p := entries[..|entries| - 1];
      var last := entries[|entries| - 1];
      assert TruthyMonths(p) by {
        forall i | 0 <= i < |p| ensures p[i] == entries[i] { }
      }
      LatestIsGreatest(p);
      MapStepLatest(MapAnalyse(p), p, last.0, last.1);
      assert p + [last] == entries;
    }
  }

  /** A month that is not truthy can make the latest month a smaller one:
      '0' replaces '-1', and being falsy is then replaced by '+'. */
  lemma FalsyMonthBreaksMaximum()
    ensures NewerMonth(NewerMonth(NewerMonth(None, "-1"), "0"), "+") == Some("+")
    ensures Less("+", "-1")
  {
    assert Less("-1", "0");
  }

  // ---- status ------------------------------------------------------------------

  datatype Status = Active | Limited | NoData

  /** `$statusOrder`. */
  function Rank(s: Status): (n: nat)
    ensures n < 3
    ensures s == Active <==> n == 0
    ensures s == NoData <==> n == 2
  {
    match s
    case Active => 0
    case Limited => 1
    case NoData => 2
  }

  /** A force's centre, in ten-thousandths of a degree (latitude, longitude). */
  const Centres: map<string, (int, int)> := map[
    "avon-and-somerset" := (514545, -25879), "bedfordshire" := (521364, -4661), "cambridgeshire" := (522053, 1218),
    "cheshire" := (531910, -25879), "city-of-london" := (515136, -984), "cleveland" := (545260, -12346),
    "cumbria" := (545772, -27975), "derbyshire" := (531333, -15333), "devon-and-cornwall" := (503755, -41427),
    "dorset" := (507488, -23445), "durham" := (547761, -15733), "dyfed-powys" := (521307, -42763),
    "essex" := (517500, 5000), "gloucestershire" := (518642, -22380), "greater-manchester" := (534808, -22426),
    "gwent" := (516214, -39436), "hampshire" := (509097, -14044), "hertfordshire" := (518098, -2377),
    "humberside" := (537443, -3325), "kent" := (512787, 5217), "lancashire" := (537632, -27039),
    "leicestershire" := (526369, -11398), "lincolnshire" := (532307, -5406), "merseyside" := (534084, -29916),
    "metropolitan" := (515074, -1278), "norfolk" := (526143, 8888), "north-wales" := (531404, -37837),
    "north-yorkshire" := (540000, -15000), "northamptonshire" := (522333, -9000), "northern-ireland" := (547877, -64923),
    "northumbria" := (549783, -16178), "nottinghamshire" := (530000, -10000), "police-scotland" := (559533, -31883),
    "psni" := (547877, -64923), "south-wales" := (514816, -31791), "south-yorkshire" := (533811, -14701),
    "staffordshire" := (528833, -21333), "suffolk" := (521872, 9708), "surrey" := (512362, -5704),
    "sussex" := (508225, -1372), "thames-valley" := (514543, -9781), "warwickshire" := (522823, -15849),
    "west-mercia" := (521916, -22215), "west-midlands" := (524862, -18904), "west-yorkshire" := (538008, -15491),
    "wiltshire" := (513498, -19941)]

  /** An element of `$forces`. */
  datatype Row = Row(id: string, name: string, status: Status, latestMonth: Option<string>,
                     totalIncidents: int, coordinates: Option<(int, int)>, hasTransparencyIssues: bool)

  /** The row of one force of the forces list: a flagged force has no data
      and shows no incidents; otherwise eleven months with data and more than
      a hundred incidents make it active, any incidents give limited data,
      and no incidents none. */
  function RowFor(id: string, name: string, a: MapAnalysis, flagged: seq<string>): (r: Row)
    ensures r.id == id && r.name == name && r.hasTransparencyIssues == (id in flagged)
    ensures r.status == NoData ==> r.latestMonth.None?
  {
    var issue := id in flagged;
    var t := if id in a.stats then a.stats[id] else NoTally;
    var centre := if id in Centres then Some(Centres[id]) else None;
    if issue then Row(id, name, NoData, None, 0, centre, true)
    else if t.counts.monthsWithData >= 11 && t.counts.totalIncidents > 100 then
      Row(id, name, Active, Some(FormatMonth(t.latestMonth)), t.counts.totalIncidents, centre, false)
    else if t.counts.totalIncidents > 0 then
      Row(id, name, Limited, Some(FormatMonth(t.latestMonth)), t.counts.totalIncidents, centre, false)
    else Row(id, name, NoData, None, t.counts.totalIncidents, centre, false)
  }

  /** The rows of the forces list, in its order. */
  function Rows(forces: seq<(string, string)>, a: MapAnalysis, flagged: seq<string>): (r: seq<Row>)
    ensures |r| == |forces|
    ensures forall i :: 0 <= i < |r| ==> r[i] == RowFor(forces[i].0, forces[i].1, a, flagged)
  {
    seq(|forces|, i requires 0 <= i < |forces| => RowFor(forces[i].0, forces[i].1, a, flagged))
  }

  /** How a force of the forces list is classified, in terms of its cache
      counters: it has no data exactly when it is absent from the cache or
      has an issue; it is active exactly when, without an issue, it has data
      for eleven months and more than a hundred incidents; and a flagged
      force shows no incidents. */
  lemma StatusRule(entries: seq<(string, Json)>, id: string, name: string)
    ensures var a := Analyse(entries);
      var r := RowFor(id, name, MapAnalyse(entries), Flagged(a.order, a.stats));
      (r.status == NoData <==> id !in a.stats || HasIssue(a.stats[id]))
      && (r.status == Active <==>
            id in a.stats && !HasIssue(a.stats[id]) && a.stats[id].monthsWithData >= 11 && a.stats[id].totalIncidents > 100)
      && (r.hasTransparencyIssues ==> r.totalIncidents == 0)
      && (r.status != NoData ==> r.totalIncidents == a.stats[id].totalIncidents > 0)
  {
    var a := Analyse(entries);
    MapCountsAgree(entries);
    AnalyseCounts(entries);
    var m := MapAnalyse(entries);
    assert id in m.stats <==> id in a.stats;
    if id in a.stats {
      assert m.stats[id].counts == a.stats[id];
    }
  }

  // ---- the summary month -------------------------------------------------------

  /** A force's tracked latest month, `null` for a force not in the cache. */
  function LatestOfForce(a: MapAnalysis, id: string): Option<string> {
    if id in a.stats then a.stats[id].latestMonth else None
  }

  /** Whether the summary's month is replaced by a force's month: a truthy
      month other than 'latest', when the summary is still 'Unknown' or the
      month compares greater than the summary's current (formatted) value. */
  function SummaryStep(current: string, latest: Option<string>): string {
    if latest.Some? && PhpTruthyString(latest.value) && latest.value != "latest"
       && (current == "Unknown" || Less(current, latest.value))
    then FormatMonth(latest)
    else current
  }

  /** `$latestMonth` after the forces of the forces list. */
  function SummaryMonth(forces: seq<(string, string)>, a: MapAnalysis): string
    decreases |forces|
  {
    if forces == [] then "Unknown"
    else SummaryStep(SummaryMonth(forces[..|forces| - 1], a), LatestOfForce(a, forces[|forces| - 1].0))
  }

  /** The first force of the list with a truthy month other than 'latest'. */
  function FirstMonth(forces: seq<(string, string)>, a: MapAnalysis): Option<string>
    decreases |forces|
  {
    if forces == [] then None
    else
      var r := FirstMonth(forces[..|forces| - 1], a);
      var l := LatestOfForce(a, forces[|forces| - 1].0);
      if r.None? && l.Some? && PhpTruthyString(l.value) && l.value != "latest" then l else r
  }

  /** The forces' months are `YYYY-MM` months. */
  ghost predicate NameableMonths(forces: seq<(string, string)>, a: MapAnalysis) {
    forall i :: 0 <= i < |forces| && LatestOfForce(a, forces[i].0).Some? ==> Nameable(LatestOfForce(a, forces[i].0).value)
  }

  /** Once the summary holds a formatted month, its comparison is with a
      raw `YYYY-MM` month, which starts with a digit and so never compares
      greater: the summary month is the first force's month, not the
      latest one. */
  lemma {:induction false} SummaryIsFirstMonth(forces: seq<(string, string)>, a: MapAnalysis)
    requires NameableMonths(forces, a)
    ensures SummaryMonth(forces, a) == if FirstMonth(forces, a).None? then "Unknown" else FormatMonth(FirstMonth(forces, a))
    ensures FirstMonth(forces, a).Some? ==> Nameable(FirstMonth(forces, a).value)
    decreases |forces|
  {
    if forces != [] {
      var p := forces[..|forces| - 1];
      assert NameableMonths(p, a) by {
        forall i | 0 <= i < |p| ensures p[i] == forces[i] { }
      }
      SummaryIsFirstMonth(p, a);
      var l := LatestOfForce(a, forces[|forces| - 1].0);
      var first := FirstMonth(p, a);
      if l.Some? {
        assert Nameable(l.value);
        if first.Some? {
          var cur := FormatMonth(first);
          assert cur[0] > l.value[0];
        }
      }
    }
  }

  /** For two forces with data in January and June 2024, the summary reads
      'Jan 2024'. */
  lemma SummaryMonthExample(a: MapAnalysis)
    requires LatestOfForce(a, "one") == Some("2024-01") && LatestOfForce(a, "two") == Some("2024-06")
    ensures SummaryMonth([("one", "One"), ("two", "Two")], a) == "Jan 2024"
    ensures Less("2024-01", "2024-06")
  {
    var forces := [("one", "One"), ("two", "Two")];
    assert forces[..1] == [("one", "One")] && forces[..1][..0] == [];
    assert Nameable("2024-01") && MonthNumber("2024-01") == 1;
    var jan := FormatMonth(Some("2024-01"));
    assert jan == "Jan 2024";
    assert SummaryMonth(forces[..1], a) == jan;
    assert !Less(jan, "2024-06") by {
      assert jan[0] == 'J';
    }
    assert "2024-01" == "2024-0" + "1" && "2024-06" == "2024-0" + "6";
    LessCommonPrefix("2024-0", "1", "6");
  }

  // ---- the status sort ---------------------------------------------------------

  /** The rows with one status, in order. */
  function WithStatus(rows: seq<Row>, st: Status): (r: seq<Row>)
    ensures |r| <= |rows|
    ensures forall i :: 0 <= i < |r| ==> r[i].status == st
    decreases |rows|
  {
    if rows == [] then []
    else
      var last := rows[|rows| - 1];
      WithStatus(rows[..|rows| - 1], st) + (if last.status == st then [last] else [])
  }

  /** `usort` by `$statusOrder`, stable as PHP 8 sorts are: the active rows,
      then those with limited data, then those with none, each in the order
      they were built. */
  function SortByStatus(rows: seq<Row>): seq<Row> {
    WithStatus(rows, Active) + WithStatus(rows, Limited) + WithStatus(rows, NoData)
  }

  /** The sorted rows are ordered by status. */
  lemma SortedByStatus(rows: seq<Row>)
    ensures var r := SortByStatus(rows);
      forall i, j :: 0 <= i < j < |r| ==> Rank(r[i].status) <= Rank(r[j].status)
  {
    var a, l, n := WithStatus(rows, Active), WithStatus(rows, Limited), WithStatus(rows, NoData);
    var r := a + l + n;
    forall i | 0 <= i < |r|
      ensures Rank(r[i].status) == if i < |a| then 0 else if i < |a| + |l| then 1 else 2
    {
      if i < |a| { assert r[i] == a[i]; }
      else if i < |a| + |l| { assert r[i] == l[i - |a|]; }
      else { assert r[i] == n[i - |a| - |l|]; }
    }
  }

  /** Splitting a list by status keeps every row: the three groups together
      are a permutation of it. */
  lemma {:induction false} SortIsPermutation(rows: seq<Row>)
    ensures multiset(SortByStatus(rows)) == multiset(rows)
    decreases |rows|
  {
    if rows != [] {
      var p := rows[..|rows| - 1];
      SortIsPermutation(p);
      assert rows == p + [rows[|rows| - 1]];
    }
  }

  /** The rows of one status keep their relative order. */
  lemma SortIsStable(rows: seq<Row>, st: Status)
    ensures WithStatus(SortByStatus(rows), st) == WithStatus(rows, st)
  {
    var a, l, n := WithStatus(rows, Active), WithStatus(rows, Limited), WithStatus(rows, NoData);
    WithStatusAppend(a + l, n, st);
    WithStatusAppend(a, l, st);
    WithStatusOf(a, Active, st);
    WithStatusOf(l, Limited, st);
    WithStatusOf(n, NoData, st);
    WithStatusOf(WithStatus(rows, st), st, st);
  }

  lemma {:induction false} WithStatusAppend(x: seq<Row>, y: seq<Row>, st: Status)
    ensures WithStatus(x + y, st) == WithStatus(x, st) + WithStatus(y, st)
    decreases |y|
  {
    if y == [] {
      assert x + y == x;
    } else {
      var q, last := y[..|y| - 1], y[|y| - 1];
      var tail := if last.status == st then [last] else [];
      WithStatusAppend(x, q, st);
      var xy := x + y;
      assert xy[..|xy| - 1] == x + q && xy[|xy| - 1] == last;
      assert WithStatus(xy, st) == WithStatus(x + q, st) + tail;
      assert WithStatus(y, st) == WithStatus(q, st) + tail;
      assert WithStatus(x, st) + WithStatus(q, st) + tail == WithStatus(x, st) + (WithStatus(q, st) + tail);
    }
  }

  /** Keeping one status of rows that all have status `has`. */
  lemma {:induction false} WithStatusOf(rows: seq<Row>, has: Status, st: Status)
    requires forall i :: 0 <= i < |rows| ==> rows[i].status == has
    ensures WithStatus(rows, st) == if has == st then rows else []
    decreases |rows|
  {
    if rows != [] {
      WithStatusOf(rows[..|rows| - 1], has, st);
      assert rows == rows[..|rows| - 1] + [rows[|rows| - 1]];
    }
  }

  // ---- the loops as written ----------------------------------------------------

  /** The first loop's body for one cache member. */
  method TallyEntry(a: MapAnalysis, key: string, entry: Json) returns (r: MapAnalysis)
    ensures r == MapStep(a, key, entry)
  {
    r := a;
    var p := ParseKey(key);
    if p.Some? {
      var (force, month) := p.value;
      var stats, order := r.stats, r.order;
      if force !in stats {
        stats := stats[force := NoTally];
        order := order + [force];
      }
      var t := stats[force];
      var c := t.counts.(totalMonths := t.counts.totalMonths + 1);
      var latest := t.latestMonth;
      var total := TotalOf(DataOf(entry));
      if total > 0 {
        c := c.(totalIncidents := c.totalIncidents + total, monthsWithData := c.monthsWithData + 1);
        if month != "latest" {
          if latest.None? || !PhpTruthyString(latest.value) || Less(latest.value, month) {
            latest := Some(month);
          }
        }
      }
      r := MapAnalysis(order, stats[force := MapTally(c, latest)]);
    }
  }

  /** The first loop, over the members of the cache. */
  method TallyEntries(entries: seq<(string, Json)>) returns (a: MapAnalysis)
    ensures a == MapAnalyse(entries)
  {
    a := MapAnalysis([], map[]);
    var i := 0;
    while i < |entries|
      invariant i <= |entries| && a == MapAnalyse(entries[..i])
    {
      assert entries[..i + 1][..i] == entries[..i];
      a := TallyEntry(a, entries[i].0, entries[i].1);
      i := i + 1;
    }
    assert entries[..i] == entries;
  }

  /** The third loop, over the forces list: each force's row is appended,
      its status counted, and the summary month updated. */
  method BuildRows(forces: seq<(string, string)>, a: MapAnalysis, flagged: seq<string>)
    returns (rows: seq<Row>, active: nat, limited: nat, noData: nat, latest: string)
    ensures rows == Rows(forces, a, flagged)
    ensures active == |WithStatus(rows, Active)| && limited == |WithStatus(rows, Limited)|
    ensures noData == |WithStatus(rows, NoData)|
    ensures latest == SummaryMonth(forces, a)
  {
    rows, active, limited, noData, latest := [], 0, 0, 0, "Unknown";
    var i := 0;
    while i < |forces|
      invariant i <= |forces| && rows == Rows(forces[..i], a, flagged)
      invariant active == |WithStatus(rows, Active)| && limited == |WithStatus(rows, Limited)|
      invariant noData == |WithStatus(rows, NoData)|
      invariant latest == SummaryMonth(forces[..i], a)
    {
      var row := RowFor(forces[i].0, forces[i].1, a, flagged);
      match row.status {
        case Active => active := active + 1;
        case Limited => limited := limited + 1;
        case NoData => noData := noData + 1;
      }
      latest := SummaryStep(latest, LatestOfForce(a, forces[i].0));
      RowsStep(forces, i, a, flagged);
      WithStatusSnoc(rows, row);
      rows := rows + [row];
      i := i + 1;
    }
    assert forces[..i] == forces;
  }

  lemma RowsStep(forces: seq<(string, string)>, i: nat, a: MapAnalysis, flagged: seq<string>)
    requires i < |forces|
    ensures Rows(forces[..i + 1], a, flagged) == Rows(forces[..i], a, flagged) + [RowFor(forces[i].0, forces[i].1, a, flagged)]
    ensures SummaryMonth(forces[..i + 1], a) == SummaryStep(SummaryMonth(forces[..i], a), LatestOfForce(a, forces[i].0))
  {
    assert forces[..i + 1][..i] == forces[..i];
  }

  lemma WithStatusSnoc(rows: seq<Row>, row: Row)
    ensures forall st :: WithStatus(rows + [row], st) == WithStatus(rows, st) + if row.status == st then [row] else []
  {
    assert (rows + [row])[..|rows|] == rows;
  }

  // ---- the endpoint --------------------------------------------------------------

  datatype Summary = Summary(totalForces: nat, activeForces: nat, limitedDataForces: nat, noDataForces: nat,
                             transparencyIssues: nat, latestMonth: string)

  /** Why the endpoint answers `success: false`. */
  datatype Failure = NoCacheFile | InvalidCache | NoForcesFile

  datatype MapReply = Failed(reason: Failure) | Answered(summary: Summary, forces: seq<Row>)

  /** The endpoint. A missing cache file, a cache that decodes to something
      falsy and a missing forces list are answered as failures, in that
      order. Otherwise the forces list's rows are answered sorted by status,
      with the summary: the number of rows, the number with each status (so
      the three add up to the rows), the number of flagged forces and the
      summary month. */
  method HomepageMapReply(cache: CacheFile, forcesFile: Option<seq<(string, string)>>) returns (r: MapReply)
    ensures cache.NoFile? ==> r == Failed(NoCacheFile)
    ensures !cache.NoFile? && !PhpLoaded(cache) ==> r == Failed(InvalidCache)
    ensures PhpLoaded(cache) && forcesFile.None? ==> r == Failed(NoForcesFile)
    ensures PhpLoaded(cache) && forcesFile.Some? ==>
      var m := MapAnalyse(MembersOf(cache));
      var a := Analyse(MembersOf(cache));
      var flagged := Flagged(a.order, a.stats);
      var rows := Rows(forcesFile.value, m, flagged);
      r.Answered? && r.forces == SortByStatus(rows)
      && r.summary == Summary(|rows|, |WithStatus(rows, Active)|, |WithStatus(rows, Limited)|,
                              |WithStatus(rows, NoData)|, |flagged|, SummaryMonth(forcesFile.value, m))
      && r.summary.activeForces + r.summary.limitedDataForces + r.summary.noDataForces == r.summary.totalForces
  {
    if cache.NoFile? {
      return Failed(NoCacheFile);
    }
    if !PhpLoaded(cache) {
      return Failed(InvalidCache);
    }
    if forcesFile.None? {
      return Failed(NoForcesFile);
    }
    var m := TallyEntries(MembersOf(cache));
    MapCountsAgree(MembersOf(cache));
    var counted := Counted(m);
    var flagged := FlagForces(counted.order, counted.stats);
    var rows, active, limited, noData, latest := BuildRows(forcesFile.value, m, flagged);
    SortIsPermutation(rows);
    StatusesAddUp(rows);
    r := Answered(Summary(|rows|, active, limited, noData, |flagged|, latest), SortByStatus(rows));
  }

  /** Every row has one of the three statuses. */
  lemma StatusesAddUp(rows: seq<Row>)
    ensures |WithStatus(rows, Active)| + |WithStatus(rows, Limited)| + |WithStatus(rows, NoData)| == |rows|
  {
    SortIsPermutation(rows);
    assert |multiset(SortByStatus(rows))| == |multiset(rows)|;
  }
}
