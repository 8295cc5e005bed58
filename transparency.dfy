/** The transparency analysis of the server cache, in its PHP form
    (`php-api/transparency-analysis.php`) and its TypeScript form
    (`server/api/transparency-analysis.ts`). Every cache key
    `aggregated:{force}:{month}` counts one month for its force, and a month
    with a positive `total` counts as a month with data and adds its incidents.
    A force has a transparency issue when it has no incidents at all or data
    for fewer than a tenth of its months. The cache file is an input: it is
    absent, does not decode, decodes to something that is not an object, or
    decodes to an object whose members are given in document order. */
module Transparency {
  import opened Wrappers
  import opened Json
  import opened Text
  import opened AggKeys

  /** A decoded value that is not an object. A list is kept here: its
      integer keys never start with 'aggregated:', so no element of it is
      counted. */
  type NonObject = j: Json | !j.JObj? witness JNull

  /** The cache file as read: missing, not decodable, a value that is not an
      object, or an object given by its members in file order. */
  datatype CacheFile = NoFile | Garbled | Scalar(value: NonObject) | Members(entries: seq<(string, Json)>)

  /** PHP's `if (!$cache)` fails: the file decoded to something truthy. */
  predicate PhpLoaded(file: CacheFile) {
    (file.Scalar? && PhpTruthy(file.value)) || (file.Members? && file.entries != [])
  }

  /** What `foreach` visits: the members of an object, and nothing for any
      other value. */
  function MembersOf(file: CacheFile): seq<(string, Json)> {
    if file.Members? then file.entries else []
  }

  /** A force's counters. */
  datatype Counts = Counts(totalIncidents: int, monthsWithData: nat, totalMonths: nat)

  /** `$forceData` / `forceData`: the forces in the order they were first
      seen, and their counters. */
  datatype Analysis = Analysis(order: seq<string>, stats: map<string, Counts>)

  const NoAnalysis := Analysis([], map[])

  /** `order` lists the keys of `stats`, each once. */
  ghost predicate Indexed(a: Analysis) {
    (forall f :: f in a.stats <==> f in a.order)
    && (forall i, j :: 0 <= i < j < |a.order| ==> a.order[i] != a.order[j])
  }

  // ---- keys and entries ----------------------------------------------------

  /** A key that starts with `aggregated:` and has at least three
      colon-separated parts: its force (second part) and month (third). */
  function ParseKey(key: string): (r: Option<(string, string)>)
    ensures r.Some? ==> StartsWith(key, Prefix + ":")
  {
    if StartsWith(key, Prefix + ":") then
      var parts := Split(key, ':');
      if |parts| >= 3 then Some((parts[1], parts[2])) else None
    else None
  }

  /** The keys the client writes parse back to their force and month. */
  lemma ParseAggKey(force: string, month: string)
    requires NoColon(force) && NoColon(month)
    ensures ParseKey(AggKey(force, month)) == Some((force, month))
  {
    AggKeySplits(force, month);
  }

  /** A key with the prefix but only two parts is not counted. */
  lemma TwoPartsIgnored(force: string)
    requires NoColon(force)
    ensures ParseKey(Prefix + ":" + force) == None
  {
    var key := Prefix + ":" + force;
    assert key == Prefix + [':'] + force;
    assert key[..|Prefix + ":"|] == Prefix + ":";
    SplitAfterPiece(Prefix, ':', force);
    SplitNoSep(force, ':');
  }

  /** `$entry['data'] ?? null` / `cache[key]?.data`. */
  function DataOf(entry: Json): Json {
    if entry.JObj? && "data" in entry.fields then entry.fields["data"] else JNull
  }

  /** The counters after one more month whose `total` is `total`: the month
      is counted, and when the total is positive it is a month with data and
      adds its incidents. */
  function AddMonth(c: Counts, total: int): (r: Counts)
    ensures r.totalMonths == c.totalMonths + 1
    ensures r.monthsWithData == c.monthsWithData + (if total > 0 then 1 else 0)
    ensures r.totalIncidents == c.totalIncidents + (if total > 0 then total else 0)
  {
    if total > 0 then Counts(c.totalIncidents + total, c.monthsWithData + 1, c.totalMonths + 1)
    else Counts(c.totalIncidents, c.monthsWithData, c.totalMonths + 1)
  }

  // ---- the counting loop ---------------------------------------------------

  /** The loop body for one cache member. */
  function Step(a: Analysis, key: string, entry: Json): Analysis {
    match ParseKey(key)
    case None => a
    case Some((force, _)) =>
      var c := if force in a.stats then a.stats[force] else Counts(0, 0, 0);
      Analysis(if force in a.stats then a.order else a.order + [force],
               a.stats[force := AddMonth(c, TotalOf(DataOf(entry)))])
  }

  /** The loop over the members of the cache. */
  function Analyse(entries: seq<(string, Json)>): (r: Analysis)
    ensures forall i :: 0 <= i < |r.order| ==> r.order[i] in r.stats
    decreases |entries|
  {
    if entries == [] then NoAnalysis
    else
      var last := entries[|entries| - 1];
      Step(Analyse(entries[..|entries| - 1]), last.0, last.1)
  }

  /** A force's counters computed on their own: every member whose key
      names the force counts one month. */
  function CountsOf(entries: seq<(string, Json)>, force: string): (r: Counts)
    ensures r.totalMonths == 0 ==> r == Counts(0, 0, 0)
    ensures r.totalMonths > 0 ==> Sane(r)
    decreases |entries|
  {
    if entries == [] then Counts(0, 0, 0)
    else
      var c := CountsOf(entries[..|entries| - 1], force);
      var last := entries[|entries| - 1];
      var p := ParseKey(last.0);
      if p.Some? && p.value.0 == force then AddMonth(c, TotalOf(DataOf(last.1))) else c
  }

  /** What the counters of any force satisfy: at least one month, no more
      months with data than months, and incidents exactly when there is a
      month with data, at least one per such month. */
  ghost predicate Sane(c: Counts) {
    c.totalMonths >= 1
    && c.monthsWithData <= c.totalMonths
    && c.totalIncidents >= c.monthsWithData
    && (c.totalIncidents == 0 <==> c.monthsWithData == 0)
  }

  /** What the loop has computed after some members: the forces listed once
      each, in order, and each force's counters those of the members naming
      it. */
  ghost predicate AnalysisOf(a: Analysis, entries: seq<(string, Json)>) {
    Indexed(a)
    && (forall f :: f in a.stats <==> CountsOf(entries, f).totalMonths > 0)
    && (forall f :: f in a.stats ==> a.stats[f] == CountsOf(entries, f) && Sane(a.stats[f]))
  }

  lemma StepAnalysisOf(a: Analysis, entries: seq<(string, Json)>, key: string, entry: Json)
    requires AnalysisOf(a, entries)
    ensures AnalysisOf(Step(a, key, entry), entries + [(key, entry)])
  {
    var e := entries + [(key, entry)];
    assert e[..|e| - 1] == entries;
    match ParseKey(key)
    case None =>
      forall f
        ensures CountsOf(e, f) == CountsOf(entries, f)
      {
      }
    case Some((force, _)) =>
      StepParsed(a, entries, key, entry, force);
  }

  /** The step for a member whose key names `force`. */
  lemma StepParsed(a: Analysis, entries: seq<(string, Json)>, key: string, entry: Json, force: string)
    requires AnalysisOf(a, entries)
    requires ParseKey(key).Some? && ParseKey(key).value.0 == force
    ensures AnalysisOf(Step(a, key, entry), entries + [(key, entry)])
  {
    var e := entries + [(key, entry)];
    assert e[..|e| - 1] == entries;
    var c := AddMonth(CountsOf(entries, force), TotalOf(DataOf(entry)));
    assert CountsOf(e, force) == c;
    forall f | f != force
      ensures CountsOf(e, f) == CountsOf(entries, f)
    {
    }
    StepIndexed(a, force, c);
    var a' := Step(a, key, entry);
    assert a'.stats == a.stats[force := c];
  }

  /** Counting a month for `force` keeps the forces listed once each. */
  lemma StepIndexed(a: Analysis, force: string, c: Counts)
    requires Indexed(a)
    ensures Indexed(Analysis(if force in a.stats then a.order else a.order + [force], a.stats[force := c]))
  {
    if force !in a.stats {
      var order := a.order + [force];
      assert forall i :: 0 <= i < |a.order| ==> order[i] == a.order[i];
    }
  }

  /** The analysis of any cache: each force that some key names is listed
      once, in the order first seen, with the counters of exactly the keys
      naming it. */
  lemma {:induction false} AnalyseCounts(entries: seq<(string, Json)>)
    ensures AnalysisOf(Analyse(entries), entries)
    decreases |entries|
  {
    if entries != [] {
      var p := entries[..|entries| - 1];
      var last := entries[|entries| - 1];
      AnalyseCounts(p);
      StepAnalysisOf(Analyse(p), p, last.0, last.1);
      assert p + [last] == entries;
    }
  }

  // ---- the issue rule -------------------------------------------------------

  /** `totalIncidents === 0 || monthsWithData / totalMonths < 0.1`, with the
      ratio compared by cross-multiplication. */
  predicate HasIssue(c: Counts) {
    c.totalIncidents == 0 || 10 * c.monthsWithData < c.totalMonths
  }

  /** The cross-multiplied comparison is the ratio's. */
  lemma RatioRule(m: nat, t: nat)
    requires t > 0
    ensures (m as real) / (t as real) < 0.1 <==> 10 * m < t
  {
    var q, tr := (m as real) / (t as real), t as real;
    assert q * tr == m as real;
    ScaleLess(q, 0.1, tr);
    ScaleLess(0.1, q, tr);
  }

  lemma ScaleLess(a: real, b: real, c: real)
    requires c > 0.0
    ensures a < b <==> a * c < b * c
  {
    assert a * c - b * c == (a - b) * c;
  }

  /** For the counters of a force, an issue is having no month with data or
      data in fewer than a tenth of the months. */
  lemma IssueIsSparseData(c: Counts)
    requires Sane(c)
    ensures HasIssue(c) <==> c.monthsWithData == 0 || 10 * c.monthsWithData < c.totalMonths
  {
  }

  /** The second loop: the forces with an issue, in order. */
  function Flagged(order: seq<string>, stats: map<string, Counts>): (r: seq<string>)
    requires forall i :: 0 <= i < |order| ==> order[i] in stats
    ensures |r| <= |order|
    ensures forall x :: x in r <==> x in order && HasIssue(stats[x])
    decreases |order|
  {
    if order == [] then []
    else
      var last := order[|order| - 1];
      Flagged(order[..|order| - 1], stats) + (if HasIssue(stats[last]) then [last] else [])
  }

  /** A force is flagged at most once. */
  lemma {:induction false} FlaggedOnce(order: seq<string>, stats: map<string, Counts>)
    requires forall i :: 0 <= i < |order| ==> order[i] in stats
    requires forall i, j :: 0 <= i < j < |order| ==> order[i] != order[j]
    ensures var r := Flagged(order, stats);
      forall i, j :: 0 <= i < j < |r| ==> r[i] != r[j]
    decreases |order|
  {
    if order != [] {
      var p := order[..|order| - 1];
      FlaggedOnce(p, stats);
      assert forall i :: 0 <= i < |p| ==> p[i] == order[i];
      assert order[|order| - 1] !in Flagged(p, stats);
    }
  }

  /** The flagged forces of an analysis: each analysed force with an issue,
      once, and no other. */
  lemma FlaggedForces(entries: seq<(string, Json)>)
    ensures var a := Analyse(entries);
      var r := Flagged(a.order, a.stats);
      (forall f :: f in r <==> CountsOf(entries, f).totalMonths > 0 && HasIssue(CountsOf(entries, f)))
      && (forall i, j :: 0 <= i < j < |r| ==> r[i] != r[j])
  {
    var a := Analyse(entries);
    AnalyseCounts(entries);
    FlaggedOnce(a.order, a.stats);
  }

  // ---- the loops as written ------------------------------------------------

  /** The body of the first loop for one member: the force's counters are
      created when first seen, its month counted, and a month with data
      added. */
  method CountEntry(a: Analysis, key: string, entry: Json) returns (r: Analysis)
    ensures r == Step(a, key, entry)
  {
    r := a;
    var p := ParseKey(key);
    if p.Some? {
      var force := p.value.0;
      var stats := r.stats;
      var order := r.order;
      if force !in stats {
        stats := stats[force := Counts(0, 0, 0)];
        order := order + [force];
      }
      var c := stats[force];
      c := c.(totalMonths := c.totalMonths + 1);
      var total := TotalOf(DataOf(entry));
      if total > 0 {
        c := c.(totalIncidents := c.totalIncidents + total, monthsWithData := c.monthsWithData + 1);
      }
      r := Analysis(order, stats[force := c]);
    }
  }

  /** The first loop, over the members of the cache. */
  method CountEntries(entries: seq<(string, Json)>) returns (a: Analysis)
    ensures a == Analyse(entries) && AnalysisOf(a, entries)
  {
    a := NoAnalysis;
    var i := 0;
    while i < |entries|
      invariant i <= |entries| && a == Analyse(entries[..i])
    {
      assert entries[..i + 1][..i] == entries[..i];
      a := CountEntry(a, entries[i].0, entries[i].1);
      i := i + 1;
    }
    assert entries[..i] == entries;
    AnalyseCounts(entries);
  }

  /** The second loop: a force with an issue is appended. */
  method FlagForces(order: seq<string>, stats: map<string, Counts>) returns (flagged: seq<string>)
    requires forall i :: 0 <= i < |order| ==> order[i] in stats
    ensures flagged == Flagged(order, stats)
  {
    flagged := [];
    var i := 0;
    while i < |order|
      invariant i <= |order| && flagged == Flagged(order[..i], stats)
    {
      assert order[..i + 1][..i] == order[..i];
      var c := stats[order[i]];
      if c.totalIncidents == 0 || 10 * c.monthsWithData < c.totalMonths {
        flagged := flagged + [order[i]];
      }
      i := i + 1;
    }
    assert order[..i] == order;
  }

  // ---- the two endpoints ---------------------------------------------------

  /** The PHP answer: `forcesWithIssues` and `analysis`. */
  datatype Report = Report(forcesWithIssues: seq<string>, analysis: Analysis)

  /** The TypeScript answer: without `analysis` when the file is missing or
      reading it fails. */
  datatype TsReport = IssuesOnly(forcesWithIssues: seq<string>) | Full(issues: seq<string>, analysis: Analysis)

  /** `php-api/transparency-analysis.php`. A missing file, or one that
      decodes to something falsy, answers empty lists; otherwise the
      members are counted and the forces with an issue listed. */
  method PhpAnalysis(file: CacheFile) returns (r: Report)
    ensures PhpLoaded(file) ==>
      var a := Analyse(MembersOf(file));
      r == Report(Flagged(a.order, a.stats), a)
    ensures !PhpLoaded(file) ==> r == Report([], NoAnalysis)
  {
    if file.NoFile? {
      return Report([], NoAnalysis);
    }
    if !PhpLoaded(file) {
      return Report([], NoAnalysis);
    }
    var a := CountEntries(MembersOf(file));
    var flagged := FlagForces(a.order, a.stats);
    r := Report(flagged, a);
  }

  /** `server/api/transparency-analysis.ts`. A missing file answers an
      empty list, as does any failure: a file that does not parse, or one
      that parses to `null` (`Object.keys(null)` throws). */
  method TsAnalysis(file: CacheFile) returns (r: TsReport)
    ensures file.Members? ==>
      var a := Analyse(file.entries);
      r == Full(Flagged(a.order, a.stats), a)
    ensures file.NoFile? || file.Garbled? || file == Scalar(JNull) ==> r == IssuesOnly([])
    ensures file.Scalar? && file.value != JNull ==> r == Full([], NoAnalysis)
  {
    if file.NoFile? || file.Garbled? || file == Scalar(JNull) {
      return IssuesOnly([]);
    }
    var a := CountEntries(MembersOf(file));
    var flagged := FlagForces(a.order, a.stats);
    r := Full(flagged, a);
  }
}
