/** The client tier of the store's cache, as values: a table of entries per
    mode (`cache`), one timestamp per key shared by all modes (`cacheTimes`),
    the validity test, expiry, the planner that splits forces into fully
    cached and uncached ones, the collector of cached incidents, and the
    choice of the oldest entry when a mode is over its bound. The store class
    keeps these two tables in its fields and is specified with the
    definitions here. */
module ClientCache {
  import opened Wrappers
  import opened Incidents
  import opened CacheKeys

  /** 90 days in milliseconds. */
  const CacheTimeout: int := 7776000000
  const MaxItemsPerMode: nat := 1200

  /** Entries per mode; each mode maps cache keys to payloads. */
  type Tables = map<string, map<string, Payload>>

  /** Timestamps (milliseconds) per cache key. */
  type Stamps = map<string, int>

  /** The four modes the store is created with. */
  const Modes: set<string> := {"area", "location", "force", "customArea"}

  predicate HasModes(t: Tables) {
    Modes <= t.Keys
  }

  lemma SameModes(t: Tables, u: Tables)
    requires HasModes(t) && u.Keys == t.Keys
    ensures HasModes(u)
  {
  }

  /** `cacheTimes[key] || 0`. */
  function TimeOr0(times: Stamps, key: string): (t: int)
    ensures key !in times ==> t == 0
    ensures key in times ==> t == times[key]
  {
    if key in times then times[key] else 0
  }

  /** `isCacheValid`: a key with a missing or zero timestamp is never valid;
      otherwise it is valid while its age is below the timeout. */
  predicate IsValid(times: Stamps, key: string, now: int) {
    key in times && times[key] != 0 && now - times[key] < CacheTimeout
  }

  /** The keys `clearExpiredCache` removes: those whose age has reached the
      timeout. */
  function ExpiredKeys(times: Stamps, now: int): (e: set<string>)
    ensures forall k :: k in e <==> k in times && now - times[k] >= CacheTimeout
  {
    set k | k in times && now - times[k] >= CacheTimeout
  }

  /** Every mode's table without the given keys. */
  function DropKeys(tables: Tables, ks: set<string>): (r: Tables)
    ensures r.Keys == tables.Keys
    ensures forall m :: m in r ==> r[m] == tables[m] - ks
  {
    map m | m in tables :: tables[m] - ks
  }

  lemma DropNothing(tables: Tables)
    ensures DropKeys(tables, {}) == tables
  {
    var r := DropKeys(tables, {});
    assert forall m :: m in r ==> r[m] == tables[m];
  }

  lemma DropKeysUnion(tables: Tables, a: set<string>, b: set<string>)
    ensures DropKeys(DropKeys(tables, a), b) == DropKeys(tables, a + b)
  {
    var l, r := DropKeys(DropKeys(tables, a), b), DropKeys(tables, a + b);
    assert forall m :: m in l ==> l[m] == r[m];
  }

  /** Removing the expired timestamps changes no key's validity at the same
      moment, and every remaining key with a non-zero timestamp is valid. */
  lemma ExpiryKeepsValidity(times: Stamps, now: int, key: string)
    ensures IsValid(times - ExpiredKeys(times, now), key, now) <==> IsValid(times, key, now)
    ensures key in times - ExpiredKeys(times, now) && times[key] != 0 ==> IsValid(times, key, now)
  {
  }

  /** What the client branch of `getCachedData` returns: the entry when it
      is present, truthy and valid, and nothing otherwise. */
  function ClientGet(tables: Tables, times: Stamps, mode: string, key: string, now: int): (r: Option<Payload>)
    ensures r.Some? ==> mode in tables && key in tables[mode] && r.value == tables[mode][key]
  {
    if mode in tables && key in tables[mode] && Truthy(tables[mode][key]) && IsValid(times, key, now)
    then Some(tables[mode][key])
    else None
  }

  /** The entry the client branch deletes: present and truthy, but expired. */
  predicate Stale(tables: Tables, times: Stamps, mode: string, key: string, now: int) {
    mode in tables && key in tables[mode] && Truthy(tables[mode][key]) && !IsValid(times, key, now)
  }

  /** The tables after the client branch of `getCachedData`: a stale entry
      is deleted from its mode and from the timestamps. The deletion leaves
      nothing stale behind and changes no lookup at the same moment, in any
      mode and for any key. */
  function Evict(tables: Tables, times: Stamps, mode: string, key: string, now: int): (r: (Tables, Stamps))
    ensures r.0.Keys == tables.Keys
    ensures !Stale(r.0, r.1, mode, key, now)
    ensures forall md, k :: ClientGet(r.0, r.1, md, k, now) == ClientGet(tables, times, md, k, now)
    ensures forall k :: k != key ==> (k in r.1 <==> k in times) && (k in times ==> r.1[k] == times[k])
  {
    if Stale(tables, times, mode, key, now)
    then (tables[mode := tables[mode] - {key}], times - {key})
    else (tables, times)
  }

  /** The client write of `saveCachedData`: the mode's table is created if
      missing, and the entry is stored. */
  function Written(tables: Tables, mode: string, key: string, data: Payload): (r: Tables)
    ensures r.Keys == tables.Keys + {mode}
    ensures key in r[mode] && r[mode][key] == data
  {
    tables[mode := (if mode in tables then tables[mode] else map[])[key := data]]
  }

  /** Writing a key after its eviction is writing it in place of the
      evicted entry. */
  lemma WriteAfterEvict(tables: Tables, times: Stamps, mode: string, key: string, now: int, data: Payload, t: int)
    ensures var after := Evict(tables, times, mode, key, now);
      Written(after.0, mode, key, data) == Written(tables, mode, key, data) && after.1[key := t] == times[key := t]
  {
    var after := Evict(tables, times, mode, key, now);
    if Stale(tables, times, mode, key, now) {
      assert after.0[mode][key := data] == tables[mode][key := data];
      assert after.1[key := t] == times[key := t];
    }
  }

  /** Reading back what was just written at time `t` gives the data exactly
      when it is truthy, `t` is not zero and the entry has not expired. */
  lemma WriteThenRead(tables: Tables, times: Stamps, mode: string, key: string, data: Payload, t: int, now: int)
    ensures ClientGet(Written(tables, mode, key, data), times[key := t], mode, key, now)
         == if Truthy(data) && t != 0 && now - t < CacheTimeout then Some(data) else None
  {
  }

  /** A write touches no other key: every other key reads as before in every
      mode. */
  lemma WriteKeepsOthers(tables: Tables, times: Stamps, mode: string, key: string, data: Payload, t: int,
                         mode2: string, key2: string, now: int)
    requires key2 != key
    ensures ClientGet(Written(tables, mode, key, data), times[key := t], mode2, key2, now)
         == ClientGet(tables, times, mode2, key2, now)
  {
    if mode2 == mode && mode !in tables {
      assert key2 !in Written(tables, mode, key, data)[mode];
    }
  }

  /** The key the planner and the force query use for a force and month:
      `getCacheKey({force, date})`, as `ForceKeyIsCacheKey` shows. */
  function ForceKey(force: string, month: string): string {
    "date=" + month + "&force=" + force
  }

  lemma ForceKeyIsCacheKey(force: string, month: string)
    ensures ForceKey(force, month) == CacheKey([("force", force), ("date", month)])
  {
    ForceMonthKey(force, month);
  }

  /** A usable entry of the force table: present, truthy and valid. */
  predicate Hit(tables: Tables, times: Stamps, now: int, key: string) {
    "force" in tables && key in tables["force"] && Truthy(tables["force"][key]) && IsValid(times, key, now)
  }

  /** A force is fully cached when every requested month has a usable entry. */
  predicate FullyCached(tables: Tables, times: Stamps, now: int, force: string, months: seq<string>) {
    forall m :: m in months ==> Hit(tables, times, now, ForceKey(force, m))
  }

  /** The planner's test, as a test on forces. */
  function FullyCachedIn(tables: Tables, times: Stamps, now: int, months: seq<string>): string -> bool {
    f => FullyCached(tables, times, now, f, months)
  }

  /** The elements that satisfy `p`, in order. */
  function Keep(xs: seq<string>, p: string -> bool): seq<string>
  {
    if xs == [] then []
    else Keep(xs[..|xs| - 1], p) + (if p(xs[|xs| - 1]) then [xs[|xs| - 1]] else [])
  }

  /** The elements that do not satisfy `p`, in order. */
  function Reject(xs: seq<string>, p: string -> bool): seq<string>
  {
    if xs == [] then []
    else Reject(xs[..|xs| - 1], p) + (if p(xs[|xs| - 1]) then [] else [xs[|xs| - 1]])
  }

  /** One more element, as the partitioning loop takes it. */
  lemma PartitionStep(xs: seq<string>, p: string -> bool, i: nat)
    requires i < |xs|
    ensures Keep(xs[..i + 1], p) == Keep(xs[..i], p) + (if p(xs[i]) then [xs[i]] else [])
    ensures Reject(xs[..i + 1], p) == Reject(xs[..i], p) + (if p(xs[i]) then [] else [xs[i]])
  {
    assert xs[..i + 1][..i] == xs[..i];
  }

  /** `a` is `b` with some elements left out, the rest kept in order. */
  ghost predicate Subsequence<T>(a: seq<T>, b: seq<T>)
    decreases |b|
  {
    a == []
    || (b != [] && ((a[|a| - 1] == b[|b| - 1] && Subsequence(a[..|a| - 1], b[..|b| - 1]))
                    || Subsequence(a, b[..|b| - 1])))
  }

  lemma SubsequenceAppend<T>(a: seq<T>, b: seq<T>, x: T)
    requires Subsequence(a, b)
    ensures Subsequence(a + [x], b + [x]) && Subsequence(a, b + [x])
  {
    assert (a + [x])[..|a|] == a && (b + [x])[..|b|] == b;
  }

  /** Splitting by a test loses and duplicates nothing: the two parts
      together hold every element exactly as often as the input. */
  lemma {:induction false} SplitKeepsAll(xs: seq<string>, p: string -> bool)
    ensures multiset(Keep(xs, p)) + multiset(Reject(xs, p)) == multiset(xs)
    decreases |xs|
  {
    if xs != [] {
      var init := xs[..|xs| - 1];
      SplitKeepsAll(init, p);
      assert xs == init + [xs[|xs| - 1]];
    }
  }

  /** Both parts keep the input order. */
  lemma {:induction false} SplitKeepsOrder(xs: seq<string>, p: string -> bool)
    ensures Subsequence(Keep(xs, p), xs) && Subsequence(Reject(xs, p), xs)
    decreases |xs|
  {
    if xs != [] {
      var init := xs[..|xs| - 1];
      var x := xs[|xs| - 1];
      SplitKeepsOrder(init, p);
      assert xs == init + [x];
      var k, r := Keep(init, p), Reject(init, p);
      SubsequenceAppend(k, init, x);
      SubsequenceAppend(r, init, x);
      if p(x) {
        assert Keep(xs, p) == k + [x] && Reject(xs, p) == r;
      } else {
        assert Keep(xs, p) == k && Reject(xs, p) == r + [x];
      }
    }
  }

  /** The first part holds only elements that pass the test, the second only
      elements that fail it, and every element is in one of them. */
  lemma {:induction false} SplitMembers(xs: seq<string>, p: string -> bool)
    ensures forall x :: x in Keep(xs, p) ==> x in xs && p(x)
    ensures forall x :: x in Reject(xs, p) ==> x in xs && !p(x)
    ensures forall x :: x in xs ==> x in Keep(xs, p) || x in Reject(xs, p)
    decreases |xs|
  {
    if xs != [] {
      var init := xs[..|xs| - 1];
      SplitMembers(init, p);
      assert xs == init + [xs[|xs| - 1]];
    }
  }

  /** The incidents one key contributes to `getCachedDataForForces`: the
      entry's array when the entry is usable and is an array, else nothing. */
  function Harvest(tables: Tables, times: Stamps, now: int, key: string): (r: seq<Incident>)
    ensures r != [] ==> Hit(tables, times, now, key) && tables["force"][key].Rows?
  {
    if Hit(tables, times, now, key) && tables["force"][key].Rows? then tables["force"][key].items else []
  }

  function HarvestMonths(tables: Tables, times: Stamps, now: int, force: string, months: seq<string>): seq<Incident>
  {
    if months == [] then []
    else
      HarvestMonths(tables, times, now, force, months[..|months| - 1])
        + Harvest(tables, times, now, ForceKey(force, months[|months| - 1]))
  }

  function HarvestAll(tables: Tables, times: Stamps, now: int, forces: seq<string>, months: seq<string>): seq<Incident>
  {
    if forces == [] then []
    else
      HarvestAll(tables, times, now, forces[..|forces| - 1], months)
        + HarvestMonths(tables, times, now, forces[|forces| - 1], months)
  }

  /** One more month, as the collecting loop takes it. */
  lemma HarvestMonthsStep(tables: Tables, times: Stamps, now: int, force: string, months: seq<string>, j: nat)
    requires j < |months|
    ensures HarvestMonths(tables, times, now, force, months[..j + 1])
      == HarvestMonths(tables, times, now, force, months[..j]) + Harvest(tables, times, now, ForceKey(force, months[j]))
  {
    assert months[..j + 1][..j] == months[..j];
  }

  /** One more force, as the collecting loop takes it. */
  lemma HarvestAllStep(tables: Tables, times: Stamps, now: int, forces: seq<string>, months: seq<string>, i: nat)
    requires i < |forces|
    ensures HarvestAll(tables, times, now, forces[..i + 1], months)
      == HarvestAll(tables, times, now, forces[..i], months) + HarvestMonths(tables, times, now, forces[i], months)
  {
    assert forces[..i + 1][..i] == forces[..i];
  }

  lemma {:induction false} HarvestMonthsFrom(tables: Tables, times: Stamps, now: int, force: string, months: seq<string>, x: Incident)
    requires x in HarvestMonths(tables, times, now, force, months)
    ensures exists m :: m in months && x in Harvest(tables, times, now, ForceKey(force, m))
    decreases |months|
  {
    var init := months[..|months| - 1];
    var m := months[|months| - 1];
    if x in HarvestMonths(tables, times, now, force, init) {
      HarvestMonthsFrom(tables, times, now, force, init, x);
      var w :| w in init && x in Harvest(tables, times, now, ForceKey(force, w));
      assert w in months;
    } else {
      assert x in Harvest(tables, times, now, ForceKey(force, m));
    }
  }

  /** Every collected incident comes from a usable array entry of one of the
      requested forces and months. */
  lemma {:induction false} HarvestAllFrom(tables: Tables, times: Stamps, now: int, forces: seq<string>, months: seq<string>, x: Incident)
    requires x in HarvestAll(tables, times, now, forces, months)
    ensures exists f, m :: f in forces && m in months && x in Harvest(tables, times, now, ForceKey(f, m))
    decreases |forces|
  {
    var init := forces[..|forces| - 1];
    var f := forces[|forces| - 1];
    if x in HarvestAll(tables, times, now, init, months) {
      HarvestAllFrom(tables, times, now, init, months, x);
      var g, w :| g in init && w in months && x in Harvest(tables, times, now, ForceKey(g, w));
      assert g in forces;
    } else {
      HarvestMonthsFrom(tables, times, now, f, months, x);
    }
  }

  /** A fully cached force whose entries are all arrays contributes all of
      their incidents. */
  lemma {:induction false} HarvestFullyCached(tables: Tables, times: Stamps, now: int, force: string, months: seq<string>)
    requires "force" in tables && FullyCached(tables, times, now, force, months)
    ensures |HarvestMonths(tables, times, now, force, months)|
      == CountRows(tables, force, months)
    decreases |months|
  {
    if months != [] {
      var init := months[..|months| - 1];
      assert forall m :: m in init ==> m in months;
      HarvestFullyCached(tables, times, now, force, init);
    }
  }

  /** The number of incidents held in the array entries of a force. */
  function CountRows(tables: Tables, force: string, months: seq<string>): nat
    requires "force" in tables
  {
    if months == [] then 0
    else
      var key := ForceKey(force, months[|months| - 1]);
      CountRows(tables, force, months[..|months| - 1])
        + (if key in tables["force"] && tables["force"][key].Rows? then |tables["force"][key].items| else 0)
  }

  /** `k` is an entry of the mode with the smallest `cacheTimes[k] || 0`. */
  predicate Oldest(entries: map<string, Payload>, times: Stamps, k: string) {
    k in entries && forall j :: j in entries ==> TimeOr0(times, k) <= TimeOr0(times, j)
  }

  /** An entry to drop when a mode is over its bound: one with the smallest
      timestamp (missing timestamps count as 0). */
  method OldestKey(entries: map<string, Payload>, times: Stamps) returns (k: string)
    requires entries != map[]
    ensures Oldest(entries, times, k)
  {
    k :| k in entries;
    var rest := entries.Keys - {k};
    while rest != {}
      invariant rest <= entries.Keys && k in entries
      invariant forall j :: j in entries && j !in rest ==> TimeOr0(times, k) <= TimeOr0(times, j)
      decreases |rest|
    {
      var j :| j in rest;
      if TimeOr0(times, j) < TimeOr0(times, k) {
        k := j;
      }
      rest := rest - {j};
    }
  }

  /** Every entry of `a` is an entry of `b`. */
  predicate SubMap<V(==)>(a: map<string, V>, b: map<string, V>) {
    forall k :: k in a ==> k in b && a[k] == b[k]
  }

  /** The per-mode bound of `saveToStorage`: while a mode holds more than
      `MaxItemsPerMode` entries, an entry with the oldest timestamp is
      dropped, and so is its timestamp. Afterwards the mode holds the bound's
      worth of its entries (or all of them, if it was within the bound), and
      every dropped entry is at least as old as every kept one. */
  method CapEntries(entries: map<string, Payload>, times: Stamps) returns (kept: map<string, Payload>, left: Stamps)
    ensures SubMap(kept, entries)
    ensures |kept| == CapSize(|entries|)
    ensures |entries| <= MaxItemsPerMode ==> kept == entries
    ensures left == times - (entries.Keys - kept.Keys)
    ensures forall d, k :: d in entries && d !in kept && k in kept ==> TimeOr0(times, d) <= TimeOr0(times, k)
  {
    kept, left := entries, times;
    while |kept| > MaxItemsPerMode
      invariant SubMap(kept, entries)
      invariant |entries| > MaxItemsPerMode ==> |kept| >= MaxItemsPerMode
      invariant |entries| <= MaxItemsPerMode ==> kept == entries
      invariant left == times - (entries.Keys - kept.Keys)
      invariant forall d, k :: d in entries && d !in kept && k in kept ==> TimeOr0(times, d) <= TimeOr0(times, k)
      decreases |kept|
    {
      var k := OldestKey(kept, left);
      assert forall j :: j in kept ==> TimeOr0(left, j) == TimeOr0(times, j);
      ghost var before := kept;
      kept := kept - {k};
      left := left - {k};
      assert before.Keys == kept.Keys + {k};
    }
  }

  /** The size a mode has after the per-mode bound: all of its entries, or
      the bound's worth when it holds more. */
  function CapSize(n: nat): (s: nat)
    ensures s <= MaxItemsPerMode && s <= n
    ensures s == n || s == MaxItemsPerMode
  {
    if n > MaxItemsPerMode then MaxItemsPerMode else n
  }

  /** The keys some mode held in `before` and no longer holds in `after`. */
  ghost function DroppedKeys(before: Tables, after: Tables): set<string> {
    set m, k | m in before && m in after && k in before[m] && k !in after[m] :: k
  }

  /** Some mode other than `m` held `k` in `before` and no longer does. */
  ghost predicate DroppedElsewhere(before: Tables, after: Tables, m: string, k: string) {
    exists n :: n in before && n in after && n != m && k in before[n] && k !in after[n]
  }

  /** In mode `m` every dropped entry is at least as old as every kept one.
      The modes are capped one after another against the timestamps left by
      the earlier ones, so this is stated for the keys no other mode drops:
      their timestamps are still the original ones when `m` is capped. */
  ghost predicate NewestKept(tables: Tables, times: Stamps, capped: Tables, m: string) {
    m in tables && m in capped
    && forall d, k :: d in tables[m] && d !in capped[m] && k in capped[m]
         && !DroppedElsewhere(tables, capped, m, d) && !DroppedElsewhere(tables, capped, m, k)
         ==> TimeOr0(times, d) <= TimeOr0(times, k)
  }

  /** The shape part of `CapAll`'s loop state: the modes outside `todo`
      are cut to size, those in it are untouched. */
  ghost predicate CapSizes(tables: Tables, capped: Tables, todo: set<string>) {
    todo <= capped.Keys && capped.Keys == tables.Keys
    && (forall m :: m in capped && m !in todo ==> |capped[m]| == CapSize(|tables[m]|))
    && (forall m :: m in todo ==> capped[m] == tables[m])
    && (forall m :: m in capped && |tables[m]| <= MaxItemsPerMode ==> capped[m] == tables[m])
    && (forall m :: m in capped ==> SubMap(capped[m], tables[m]))
  }

  /** The loop state of `CapAll` after the modes outside `todo` are capped. */
  ghost predicate CapInv(tables: Tables, times: Stamps, capped: Tables, left: Stamps, todo: set<string>) {
    CapSizes(tables, capped, todo)
    && (forall m :: m in capped && m !in todo ==> NewestKept(tables, times, capped, m))
    && left == times - DroppedKeys(tables, capped)
  }

  /** Capping one more mode keeps the loop state. */
  lemma CapStep(tables: Tables, times: Stamps, capped: Tables, left: Stamps, todo: set<string>,
                m: string, kept: map<string, Payload>, rest: Stamps)
    requires CapInv(tables, times, capped, left, todo) && m in todo
    requires SubMap(kept, capped[m])
    requires |kept| == CapSize(|capped[m]|)
    requires |capped[m]| <= MaxItemsPerMode ==> kept == capped[m]
    requires rest == left - (capped[m].Keys - kept.Keys)
    requires forall d, k :: d in capped[m] && d !in kept && k in kept ==> TimeOr0(left, d) <= TimeOr0(left, k)
    ensures CapInv(tables, times, capped[m := kept], rest, todo - {m})
  {
    CapStepTables(tables, capped, todo, m, kept);
    CapStepStamps(tables, capped, m, kept);
    ghost var c1 := capped[m := kept];
    ghost var d0, d1 := DroppedKeys(tables, capped), capped[m].Keys - kept.Keys;
    MinusTwice(times, d0, d1);
    CapStepNewest(tables, times, capped, left, todo, m, kept);
    assert CapSizes(tables, c1, todo - {m});
    assert rest == times - DroppedKeys(tables, c1);
    assert forall n :: n in c1 && n !in todo - {m} ==> NewestKept(tables, times, c1, n);
  }

  lemma MinusTwice(times: Stamps, a: set<string>, b: set<string>)
    ensures (times - a) - b == times - (a + b)
  {
  }

  lemma CapStepTables(tables: Tables, capped: Tables, todo: set<string>, m: string, kept: map<string, Payload>)
    requires CapSizes(tables, capped, todo) && m in todo
    requires SubMap(kept, capped[m])
    requires |kept| == CapSize(|capped[m]|)
    requires |capped[m]| <= MaxItemsPerMode ==> kept == capped[m]
    ensures CapSizes(tables, capped[m := kept], todo - {m})
  {
  }

  /** Capping a mode adds exactly its dropped keys to `DroppedKeys`. */
  lemma CapStepStamps(tables: Tables, capped: Tables, m: string, kept: map<string, Payload>)
    requires capped.Keys == tables.Keys && m in capped && capped[m] == tables[m]
    requires SubMap(kept, capped[m])
    ensures DroppedKeys(tables, capped[m := kept]) == DroppedKeys(tables, capped) + (capped[m].Keys - kept.Keys)
  {
    var c1 := capped[m := kept];
    forall k | k in DroppedKeys(tables, c1)
      ensures k in DroppedKeys(tables, capped) + (capped[m].Keys - kept.Keys)
    {
      var n :| n in tables && n in c1 && k in tables[n] && k !in c1[n];
      if n != m {
        assert k in tables[n] && k !in capped[n];
      }
    }
    forall k | k in DroppedKeys(tables, capped) + (capped[m].Keys - kept.Keys)
      ensures k in DroppedKeys(tables, c1)
    {
      if k in DroppedKeys(tables, capped) {
        var n :| n in tables && n in capped && k in tables[n] && k !in capped[n];
        assert n != m && k in tables[n] && k !in c1[n];
      } else {
        assert k in tables[m] && k !in c1[m];
      }
    }
  }

  /** Capping mode `m` gives it `NewestKept` and keeps it for the modes
      capped before. */
  lemma CapStepNewest(tables: Tables, times: Stamps, capped: Tables, left: Stamps, todo: set<string>,
                      m: string, kept: map<string, Payload>)
    requires CapSizes(tables, capped, todo) && m in todo
    requires forall n :: n in capped && n !in todo ==> NewestKept(tables, times, capped, n)
    requires left == times - DroppedKeys(tables, capped)
    requires SubMap(kept, capped[m])
    requires forall d, k :: d in capped[m] && d !in kept && k in kept ==> TimeOr0(left, d) <= TimeOr0(left, k)
    ensures forall n :: n in capped && n !in todo - {m} ==> NewestKept(tables, times, capped[m := kept], n)
  {
    var c1 := capped[m := kept];
    forall n, x | n in capped && DroppedElsewhere(tables, capped, n, x)
      ensures DroppedElsewhere(tables, c1, n, x)
    {
      var p :| p in tables && p in capped && p != n && x in tables[p] && x !in capped[p];
      assert p in c1 && x !in c1[p];
    }
    forall n | n in capped && n !in todo - {m}
      ensures NewestKept(tables, times, c1, n)
    {
      if n == m {
        forall d, k | d in tables[m] && d !in c1[m] && k in c1[m]
            && !DroppedElsewhere(tables, c1, m, d) && !DroppedElsewhere(tables, c1, m, k)
          ensures TimeOr0(times, d) <= TimeOr0(times, k)
        {
          StampKept(tables, times, capped, left, m, d);
          StampKept(tables, times, capped, left, m, k);
        }
      } else {
        assert NewestKept(tables, times, capped, n);
        assert c1[n] == capped[n];
      }
    }
  }

  /** A key no mode other than `m` has dropped, while `m` is still whole,
      keeps its original timestamp. */
  lemma StampKept(tables: Tables, times: Stamps, capped: Tables, left: Stamps, m: string, k: string)
    requires capped.Keys == tables.Keys && m in capped && capped[m] == tables[m]
    requires left == times - DroppedKeys(tables, capped)
    requires !DroppedElsewhere(tables, capped, m, k)
    ensures TimeOr0(left, k) == TimeOr0(times, k)
  {
  }

  /** What the first pass of `saveToStorage` promises: the same modes; a
      mode over the per-mode bound keeps exactly the bound's worth of its
      entries, the newest ones, and a mode within it is left as it is; the
      timestamps of exactly the dropped keys are deleted. */
  ghost predicate Capped(tables: Tables, times: Stamps, capped: Tables, left: Stamps) {
    capped.Keys == tables.Keys
    && (forall m :: m in capped ==> |capped[m]| == CapSize(|tables[m]|))
    && (forall m :: m in capped && |tables[m]| <= MaxItemsPerMode ==> capped[m] == tables[m])
    && (forall m :: m in capped ==> SubMap(capped[m], tables[m]))
    && (forall m :: m in capped ==> NewestKept(tables, times, capped, m))
    && left == times - DroppedKeys(tables, capped)
  }

  /** The first pass of `saveToStorage`: every mode over the per-mode bound
      keeps only its newest `MaxItemsPerMode` entries, and the timestamps of
      the dropped entries are deleted. */
  method CapAll(tables: Tables, times: Stamps) returns (capped: Tables, left: Stamps)
    ensures Capped(tables, times, capped, left)
  {
    capped, left := tables, times;
    var todo := tables.Keys;
    assert DroppedKeys(tables, tables) == {};
    while todo != {}
      invariant CapInv(tables, times, capped, left, todo)
      decreases |todo|
    {
      var m :| m in todo;
      var kept, rest := CapEntries(capped[m], left);
      CapStep(tables, times, capped, left, todo, m, kept, rest);
      capped, left := capped[m := kept], rest;
      todo := todo - {m};
    }
  }

  /** When no mode is over the bound, capping changes nothing. */
  lemma CapWithinBoundChangesNothing(tables: Tables, times: Stamps, capped: Tables, left: Stamps)
    requires Capped(tables, times, capped, left)
    requires forall m :: m in tables ==> |tables[m]| <= MaxItemsPerMode
    ensures capped == tables && left == times
  {
    assert DroppedKeys(tables, capped) == {};
  }

  /** The loop state of `ClearExpired` once the keys outside `keys` are
      looked at: exactly the expired ones among them are `gone`. */
  ghost predicate ClearInv(tables: Tables, times: Stamps, now: int, keys: set<string>, gone: set<string>,
                           cleared: Tables, left: Stamps, changed: bool) {
    keys <= times.Keys
    && (forall j :: j in gone <==> j in times && j !in keys && now - times[j] >= CacheTimeout)
    && left == times - gone
    && cleared == DropKeys(tables, gone)
    && (changed <==> gone != {})
  }

  /** Looking at one more key keeps the loop state. */
  lemma ClearStep(tables: Tables, times: Stamps, now: int, keys: set<string>, gone: set<string>,
                  cleared: Tables, left: Stamps, changed: bool, k: string)
    requires ClearInv(tables, times, now, keys, gone, cleared, left, changed) && k in keys
    ensures now - times[k] >= CacheTimeout ==>
      ClearInv(tables, times, now, keys - {k}, gone + {k}, DropKeys(cleared, {k}), left - {k}, true)
    ensures now - times[k] < CacheTimeout ==>
      ClearInv(tables, times, now, keys - {k}, gone, cleared, left, changed)
  {
    if now - times[k] >= CacheTimeout {
      DropKeysUnion(tables, gone, {k});
      assert left - {k} == times - (gone + {k});
    }
  }

  /** The first pass of `clearExpiredCache`: every key whose age has reached
      the timeout is deleted from the timestamps and from every mode;
      `changed` says whether anything was. */
  method ClearExpired(tables: Tables, times: Stamps, now: int) returns (cleared: Tables, left: Stamps, changed: bool)
    ensures cleared == DropKeys(tables, ExpiredKeys(times, now))
    ensures left == times - ExpiredKeys(times, now)
    ensures changed <==> ExpiredKeys(times, now) != {}
    ensures !changed ==> cleared == tables && left == times
  {
    cleared, left, changed := tables, times, false;
    var keys := times.Keys;
    ghost var gone: set<string> := {};
    DropNothing(tables);
    assert times - {} == times;
    while keys != {}
      invariant ClearInv(tables, times, now, keys, gone, cleared, left, changed)
      decreases |keys|
    {
      var k :| k in keys;
      ClearStep(tables, times, now, keys, gone, cleared, left, changed, k);
      if now - times[k] >= CacheTimeout {
        gone := gone + {k};
        left := left - {k};
        cleared := DropKeys(cleared, {k});
        changed := true;
      }
      keys := keys - {k};
    }
    assert gone == ExpiredKeys(times, now);
  }

  /** What `clearExpiredCache` promises of the state it leaves: when
      nothing expired nothing changes; otherwise the state is the cleared
      one, capped, and no expired key is left in it. */
  ghost predicate Cleared(tables: Tables, times: Stamps, now: int, cache: Tables, left: Stamps) {
    var e := ExpiredKeys(times, now);
    (e == {} ==> cache == tables && left == times)
    && (e != {} ==> Capped(DropKeys(tables, e), times - e, cache, left))
    && (forall k :: k in left ==> k !in e)
    && (forall m, k :: m in cache && k in cache[m] ==> k !in e)
  }

  /** Capping after clearing brings no expired key back. */
  lemma ClearedStaysClear(tables: Tables, times: Stamps, now: int, capped: Tables, left: Stamps)
    requires ExpiredKeys(times, now) != {}
    requires Capped(DropKeys(tables, ExpiredKeys(times, now)), times - ExpiredKeys(times, now), capped, left)
    ensures Cleared(tables, times, now, capped, left)
  {
  }

  lemma NothingExpired(tables: Tables, times: Stamps, now: int)
    requires ExpiredKeys(times, now) == {}
    ensures Cleared(tables, times, now, tables, times)
  {
  }


  /** `clearExpiredCache` on the two tables: delete every expired key and,
      if any was deleted, run the first pass of `saveToStorage`. */
  method ClearAndCap(tables: Tables, times: Stamps, now: int) returns (cache: Tables, left: Stamps)
    ensures cache.Keys == tables.Keys
    ensures Cleared(tables, times, now, cache, left)
  {
    var changed;
    cache, left, changed := ClearExpired(tables, times, now);
    if changed {
      cache, left := CapAll(cache, left);
      ClearedStaysClear(tables, times, now, cache, left);
    } else {
      NothingExpired(tables, times, now);
    }
  }
}
