/** The force endpoint (`php-api/force-data.php`): a read-through cache in
    front of the police API for one force and month. It shares the snapshot
    file of the durable cache: an entry with data under
    `aggregated:{force}:{date or 'latest'}` is returned as it is, with no
    expiry test; otherwise the API's answer is summarised (total, arrests and
    their percentage; every breakdown left empty) and stored under that key.
    What the API answers is an input: `None` when the request fails,
    otherwise the decoded body. */
module ForceData {
  import opened Wrappers
  import opened Json
  import opened Text
  import opened AggKeys
  import opened DurableCache

  const ApiSource := "force-api"

  /** What the endpoint sends: a 400 when the force is missing, a JSON
      document, or the 500 of a script stopped by an uncaught `TypeError`. */
  datatype ForceReply = MissingForce | Answer(data: Json) | Crashed

  /** `$date ?: 'latest'`, the month part of the cache key. */
  function KeyMonth(date: Option<string>): string {
    if date.Some? && PhpTruthyString(date.value) then date.value else "latest"
  }

  /** `$date ?: ''`, the month reported in the summary. */
  function ReportedMonth(date: Option<string>): string {
    if date.Some? && PhpTruthyString(date.value) then date.value else ""
  }

  /** `isset($incident['outcome']) && strpos($incident['outcome'], 'Arrest') !== false`,
      for an outcome that is a string; the match is case-sensitive. */
  predicate IsArrest(incident: Json) {
    incident.JObj? && "outcome" in incident.fields && incident.fields["outcome"].JStr?
    && Contains(incident.fields["outcome"].s, "Arrest")
  }

  /** `strpos($incident['outcome'], 'Arrest')` throws a `TypeError` in PHP 8
      when the outcome is set and is an array (a decoded JSON list or
      object); every other type is converted to a string. */
  predicate OutcomeThrows(incident: Json) {
    incident.JObj? && "outcome" in incident.fields
    && (incident.fields["outcome"].JArr? || incident.fields["outcome"].JObj?)
  }

  /** Some incident the `foreach` visits makes `strpos` throw. */
  predicate Throws(raw: Json) {
    (raw.JArr? && exists i :: 0 <= i < |raw.items| && OutcomeThrows(raw.items[i]))
    || (raw.JObj? && exists k :: k in raw.fields && OutcomeThrows(raw.fields[k]))
  }

  /** `count($rawData)` once a decoded body that is not an array has been
      replaced by `[]`. A decoded JSON object is an array in PHP. */
  function Total(raw: Json): (n: nat)
    ensures !(raw.JArr? || raw.JObj?) ==> n == 0
  {
    match raw
    case JArr(items) => |items|
    case JObj(fields) => |fields|
    case _ => 0
  }

  /** The arrests among a list of incidents. */
  function ArrestsIn(items: seq<Json>): (n: nat)
    ensures n <= |items|
    decreases |items|
  {
    if items == [] then 0
    else ArrestsIn(items[..|items| - 1]) + (if IsArrest(items[|items| - 1]) then 1 else 0)
  }

  /** The arrests among the values of a decoded object, under the given keys. */
  function ArrestKeys(fields: map<string, Json>, ks: set<string>): (s: set<string>)
    ensures s <= ks
  {
    set k | k in ks && k in fields && IsArrest(fields[k])
  }

  /** The arrests among the incidents the `foreach` visits. */
  function Arrests(raw: Json): (n: nat)
    ensures n <= Total(raw)
  {
    match raw
    case JArr(items) => ArrestsIn(items)
    case JObj(fields) =>
      assert ArrestKeys(fields, fields.Keys) <= fields.Keys;
      CardinalityOfSubset(ArrestKeys(fields, fields.Keys), fields.Keys);
      |ArrestKeys(fields, fields.Keys)|
    case _ => 0
  }

  lemma {:induction false} CardinalityOfSubset(a: set<string>, b: set<string>)
    requires a <= b
    ensures |a| <= |b|
    decreases |b|
  {
    if a != {} {
      var x :| x in a;
      CardinalityOfSubset(a - {x}, b - {x});
    }
  }

  /** The `foreach` counting arrests over a list; it stops (`crashed`) at
      the first incident whose outcome makes `strpos` throw. */
  method CountListArrests(items: seq<Json>) returns (arrests: nat, crashed: bool)
    ensures crashed <==> exists i :: 0 <= i < |items| && OutcomeThrows(items[i])
    ensures !crashed ==> arrests == ArrestsIn(items) && arrests <= |items|
  {
    arrests, crashed := 0, false;
    var i := 0;
    assert items[..0] == [];
    while i < |items|
      invariant i <= |items| && arrests == ArrestsIn(items[..i])
      invariant forall j :: 0 <= j < i ==> !OutcomeThrows(items[j])
    {
      assert items[..i + 1][..i] == items[..i];
      if OutcomeThrows(items[i]) {
        return arrests, true;
      }
      if items[i].JObj? && "outcome" in items[i].fields && items[i].fields["outcome"].JStr?
         && Contains(items[i].fields["outcome"].s, "Arrest") {
        arrests := arrests + 1;
      }
      i := i + 1;
    }
    assert items[..i] == items;
  }

  /** The `foreach` counting arrests over the values of an object; it stops
      (`crashed`) at a value whose outcome makes `strpos` throw. */
  method CountObjectArrests(fields: map<string, Json>) returns (arrests: nat, crashed: bool)
    ensures crashed <==> exists k :: k in fields && OutcomeThrows(fields[k])
    ensures !crashed ==> arrests == |ArrestKeys(fields, fields.Keys)|
  {
    arrests, crashed := 0, false;
    var rest := fields.Keys;
    while rest != {}
      invariant rest <= fields.Keys
      invariant arrests == |ArrestKeys(fields, fields.Keys - rest)|
      invariant forall j :: j in fields && j !in rest ==> !OutcomeThrows(fields[j])
      decreases rest
    {
      var k :| k in rest;
      if OutcomeThrows(fields[k]) {
        return arrests, true;
      }
      var before, after := ArrestKeys(fields, fields.Keys - rest), ArrestKeys(fields, fields.Keys - (rest - {k}));
      if IsArrest(fields[k]) {
        assert after == before + {k};
        arrests := arrests + 1;
      } else {
        assert after == before;
      }
      rest := rest - {k};
    }
    assert fields.Keys - rest == fields.Keys;
  }

  /** `($arrests / $total) * 100` when there are incidents, 0 otherwise. */
  function Percentage(arrests: nat, total: nat): (p: real)
    ensures total == 0 ==> p == 0.0
    ensures arrests <= total ==> 0.0 <= p <= 100.0
    ensures total > 0 && arrests == total ==> p == 100.0
  {
    if total == 0 then 0.0 else (arrests as real / total as real) * 100.0
  }

  /** The percentage as PHP writes it: an integer when the division is
      exact, a fraction otherwise. */
  function PercentageJson(arrests: nat, total: nat): (j: Json)
    ensures j.JNum? ==> j.n as real == Percentage(arrests, total)
    ensures j.JFrac? ==> j.r == Percentage(arrests, total)
  {
    if total == 0 then JNum(0)
    else if arrests % total == 0 then
      assert arrests as real / total as real == (arrests / total) as real;
      JNum((arrests / total) * 100)
    else JFrac(Percentage(arrests, total))
  }

  /** The fields of a summary that do not depend on the request: every
      breakdown empty, no most common object. */
  const Template: map<string, Json> := map[
    "outcomes" := JArr([]), "ageBreakdown" := JArr([]), "genderBreakdown" := JArr([]),
    "ethnicityBreakdown" := JArr([]), "objectOfSearch" := JArr([]), "legislation" := JArr([]),
    "locationBreakdown" := JArr([]), "byHour" := JArr([]), "byDay" := JArr([]), "byMonth" := JArr([]),
    "mostCommonObject" := JStr("None"), "mostCommonObjectCount" := JNum(0)]

  /** The summary the endpoint returns, and stores unless it is the
      fallback: the force as both id and name, the month, the total and the
      arrests; the breakdowns are empty. */
  function Summary(force: string, date: Option<string>, total: nat, arrests: nat, fallback: bool): (j: Json)
    ensures j.JObj? && TotalOf(j) == total
    ensures "arrests" in j.fields && j.fields["arrests"] == JNum(arrests)
    ensures "forceId" in j.fields && j.fields["forceId"] == JStr(force)
  {
    var base := Template["forceName" := JStr(force)]["month" := JStr(ReportedMonth(date))]
                        ["arrestsPercentage" := PercentageJson(arrests, total)]
                        ["forceId" := JStr(force)]["arrests" := JNum(arrests)]["total" := JNum(total)];
    JObj(if fallback then base["fallback" := JBool(true)] else base)
  }

  /** A request for the force endpoint. A missing or falsy force is a 400
      and touches nothing. An entry with (non-null) data under the key is
      returned as it is, however old. A failed API request answers the
      fallback summary without storing it. An incident whose outcome makes
      `strpos` throw stops the script with nothing stored. Otherwise the
      decoded answer is summarised, stored under the key alone with the default time-to-live
      and the API as its source, and returned. */
  method ServeForceData(store: CacheFileStore, force: Option<string>, date: Option<string>,
                        upstream: Option<Json>, nowSec: int)
    returns (reply: ForceReply)
    modifies store
    ensures force.None? || !PhpTruthyString(force.value) ==> reply == MissingForce && store.file == old(store.file)
    ensures force.Some? && PhpTruthyString(force.value) ==>
      var c, key := Load(old(store.file)), AggKey(force.value, KeyMonth(date));
      if key in c && c[key].data != JNull then
        reply == Answer(c[key].data) && store.file == old(store.file)
      else if upstream.None? then
        reply == Answer(Summary(force.value, date, 0, 0, true)) && store.file == old(store.file)
      else if Throws(upstream.value) then
        reply == Crashed && store.file == old(store.file)
      else
        var total, arrests := Total(upstream.value), Arrests(upstream.value);
        var s := Summary(force.value, date, total, arrests, false);
        reply == Answer(s)
        && store.file == Holds(Some(c[key := Entry(s, 1000 * nowSec, DefaultTtl, Some(ApiSource))]))
  {
    if force.None? || !PhpTruthyString(force.value) {
      return MissingForce;
    }
    var cache := Load(store.file);
    var key := AggKey(force.value, KeyMonth(date));
    if key in cache && cache[key].data != JNull {
      return Answer(cache[key].data);
    }
    if upstream.None? {
      return Answer(Summary(force.value, date, 0, 0, true));
    }
    var raw := upstream.value;
    var arrests, crashed := 0, false;
    if raw.JArr? {
      arrests, crashed := CountListArrests(raw.items);
    } else if raw.JObj? {
      arrests, crashed := CountObjectArrests(raw.fields);
    }
    if crashed {
      return Crashed;
    }
    var s := Summary(force.value, date, Total(raw), arrests, false);
    cache := cache[key := Entry(s, nowSec * 1000, DefaultTtl, Some(ApiSource))];
    store.Save(cache);
    reply := Answer(s);
  }

  /** Once the endpoint has stored a summary, the next request for the same
      force and month is answered from the snapshot with that summary,
      whatever the API would answer. */
  lemma StoredSummaryIsServed(c: Snapshot, force: string, date: Option<string>, total: nat, arrests: nat, nowSec: int)
    ensures var key, s := AggKey(force, KeyMonth(date)), Summary(force, date, total, arrests, false);
      var c' := c[key := Entry(s, 1000 * nowSec, DefaultTtl, Some(ApiSource))];
      key in c' && c'[key].data != JNull && c'[key].data == s
  {
  }
}
