/** The client store's cache key (`getCacheKey`): the request parameters,
    sorted by name, rendered `name=value` and joined with `&`. The parameter
    object has distinct names; their string comparison is modelled as
    code-point order. */
module CacheKeys {
  import opened Text

  /** A request parameter: its name and its value, already rendered as text. */
  type Param = (string, string)

  /** Object keys are unique. */
  predicate DistinctNames(p: seq<Param>) {
    forall i, j :: 0 <= i < j < |p| ==> p[i].0 != p[j].0
  }

  /** Strictly increasing names. */
  predicate StrictlySorted(p: seq<Param>) {
    forall i, j :: 0 <= i < j < |p| ==> Less(p[i].0, p[j].0)
  }

  /** `x` goes before the first entry whose name is larger. */
  function Insert(x: Param, s: seq<Param>): (r: seq<Param>)
    ensures multiset(r) == multiset(s) + multiset{x}
    decreases |s|
  {
    if s == [] then [x]
    else if Less(x.0, s[0].0) then [x] + s
    else
      assert s == [s[0]] + s[1..];
      [s[0]] + Insert(x, s[1..])
  }

  /** The entries sorted by name (`.sort(([a], [b]) => a.localeCompare(b))`). */
  function SortByName(p: seq<Param>): (r: seq<Param>)
    ensures multiset(r) == multiset(p)
    decreases |p|
  {
    if p == [] then []
    else
      assert p == [p[0]] + p[1..];
      Insert(p[0], SortByName(p[1..]))
  }

  /** Inserting a new name into a strictly sorted list keeps it strictly sorted. */
  lemma {:induction false} InsertSorted(x: Param, s: seq<Param>)
    requires StrictlySorted(s)
    requires forall i :: 0 <= i < |s| ==> s[i].0 != x.0
    ensures StrictlySorted(Insert(x, s))
    decreases |s|
  {
    if s == [] {
    } else if Less(x.0, s[0].0) {
      forall i | 0 < i < |s| ensures Less(x.0, s[i].0) { LessTransitive(x.0, s[0].0, s[i].0); }
    } else {
      LessTotal(x.0, s[0].0);
      var rest := Insert(x, s[1..]);
      InsertSorted(x, s[1..]);
      forall k | 0 <= k < |rest| ensures Less(s[0].0, rest[k].0) {
        assert rest[k] in multiset(rest);
        if rest[k] != x {
          assert rest[k] in multiset(s[1..]);
          var m :| 0 <= m < |s[1..]| && s[1..][m] == rest[k];
          assert rest[k] == s[m + 1];
        }
      }
    }
  }

  /** Sorting a parameter list with distinct names gives strictly increasing names. */
  lemma {:induction false} SortSorted(p: seq<Param>)
    requires DistinctNames(p)
    ensures StrictlySorted(SortByName(p))
    decreases |p|
  {
    if p != [] {
      var rest := SortByName(p[1..]);
      SortSorted(p[1..]);
      forall k | 0 <= k < |rest| ensures rest[k].0 != p[0].0 {
        assert rest[k] in multiset(p[1..]);
        var m :| 0 <= m < |p[1..]| && p[1..][m] == rest[k];
        assert rest[k] == p[m + 1];
      }
      InsertSorted(p[0], rest);
    }
  }

  /** `${key}=${value}` for every entry. */
  function Render(p: seq<Param>): (r: seq<string>)
    ensures |r| == |p|
    ensures forall i :: 0 <= i < |p| ==> r[i] == p[i].0 + "=" + p[i].1
  {
    if p == [] then [] else [p[0].0 + "=" + p[0].1] + Render(p[1..])
  }

  /** `.join(sep)`. */
  function Join(parts: seq<string>, sep: string): string {
    if parts == [] then ""
    else if |parts| == 1 then parts[0]
    else parts[0] + sep + Join(parts[1..], sep)
  }

  /** `getCacheKey(params)`. */
  function CacheKey(p: seq<Param>): string {
    Join(Render(SortByName(p)), "&")
  }

  lemma TailSorted(a: seq<Param>)
    requires a != [] && StrictlySorted(a)
    ensures StrictlySorted(a[1..])
  {
    forall x, y | 0 <= x < y < |a[1..]| ensures Less(a[1..][x].0, a[1..][y].0) {
      assert a[1..][x] == a[x + 1] && a[1..][y] == a[y + 1];
    }
  }

  /** The first entry of a strictly sorted list is its least: two such lists
      with the same entries start alike. */
  lemma HeadsEqual(a: seq<Param>, b: seq<Param>)
    requires a != [] && StrictlySorted(a) && StrictlySorted(b)
    requires multiset(a) == multiset(b)
    ensures b != [] && a[0] == b[0]
  {
    assert a[0] in multiset(b);
    var i :| 0 <= i < |b| && b[i] == a[0];
    assert b[0] in multiset(a);
    var j :| 0 <= j < |a| && a[j] == b[0];
    assert i == 0 || Less(b[0].0, a[0].0);
    assert j == 0 || Less(a[0].0, b[0].0);
    if i != 0 && j != 0 {
      LessAsymmetric(a[0].0, b[0].0);
    }
  }

  /** Two strictly sorted lists with the same entries are the same list. */
  lemma {:induction false} SortedUnique(a: seq<Param>, b: seq<Param>)
    requires StrictlySorted(a) && StrictlySorted(b)
    requires multiset(a) == multiset(b)
    ensures a == b
    decreases |a|
  {
    if a == [] {
      assert |b| == |multiset(b)| == 0;
    } else {
      HeadsEqual(a, b);
      assert a == [a[0]] + a[1..] && b == [b[0]] + b[1..];
      assert multiset(a[1..]) == multiset(a) - multiset{a[0]};
      assert multiset(b[1..]) == multiset(b) - multiset{b[0]};
      TailSorted(a);
      TailSorted(b);
      SortedUnique(a[1..], b[1..]);
    }
  }

  /** The key does not depend on the order in which the parameters were
      inserted: any rearrangement of the same entries gives the same key. */
  lemma CacheKeyOrderIndependent(p: seq<Param>, q: seq<Param>)
    requires DistinctNames(p) && DistinctNames(q)
    requires multiset(p) == multiset(q)
    ensures CacheKey(p) == CacheKey(q)
  {
    SortSorted(p);
    SortSorted(q);
    SortedUnique(SortByName(p), SortByName(q));
  }

  /** `{force, date}` sorts as date, force. */
  lemma SortForceDate(force: string, month: string)
    ensures SortByName([("force", force), ("date", month)]) == [("date", month), ("force", force)]
  {
    var f, d := ("force", force), ("date", month);
    assert !Less("force", "date");
    assert [f, d][1..] == [d];
    assert SortByName([d]) == [d];
    assert Insert(f, [d]) == [d] + Insert(f, []);
  }

  lemma JoinTwo(x: string, y: string, sep: string)
    ensures Join([x, y], sep) == x + sep + y
  {
    assert [x, y][1..] == [y];
  }

  /** The planner's key for a force and month: `{force, date}` renders as
      `date=<month>&force=<force>`. */
  lemma ForceMonthKey(force: string, month: string)
    ensures CacheKey([("force", force), ("date", month)]) == "date=" + month + "&force=" + force
  {
    SortForceDate(force, month);
    var r := Render([("date", month), ("force", force)]);
    assert r == ["date=" + month, "force=" + force] by {
      assert r[0] == "date" + "=" + month && r[1] == "force" + "=" + force;
      assert "date" + "=" + month == "date=" + month;
      assert "force" + "=" + force == "force=" + force;
    }
    JoinTwo("date=" + month, "force=" + force, "&");
    assert "date=" + month + "&" + ("force=" + force) == "date=" + month + "&force=" + force;
  }

  /** A query with only a force renders as `force=<force>`. */
  lemma ForceOnlyKey(force: string)
    ensures CacheKey([("force", force)]) == "force=" + force
  {
    var f := ("force", force);
    assert [f][1..] == [];
    assert SortByName([f]) == [f];
    assert Render([f]) == ["force" + "=" + force];
    assert "force" + "=" + force == "force=" + force;
  }
}
