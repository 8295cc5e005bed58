/** Breakdown maps: a label -> count table, as built by the
    `m[k] = (m[k] || 0) + 1` and `$m[$k] = ($m[$k] ?? 0) + 1` idioms, and the
    total of a table, which every breakdown's invariant is stated against. */
module Tally {

  type Counter = map<string, nat>

  /** The count of a label, 0 when the label was never seen. */
  function Get0(m: Counter, k: string): nat {
    if k in m then m[k] else 0
  }

  /** Adds `n` to the count of `k`; every other label keeps its count. */
  function AddAt(m: Counter, k: string, n: nat): (r: Counter)
    ensures r.Keys == m.Keys + {k}
    ensures Get0(r, k) == Get0(m, k) + n
    ensures forall j :: j != k ==> Get0(r, j) == Get0(m, j)
  {
    m[k := Get0(m, k) + n]
  }

  /** One more occurrence of `k`. */
  function Bump(m: Counter, k: string): (r: Counter)
    ensures r.Keys == m.Keys + {k}
    ensures Get0(r, k) == Get0(m, k) + 1
    ensures forall j :: j != k ==> Get0(r, j) == Get0(m, j)
  {
    AddAt(m, k, 1)
  }

  /** The sum of all counts of a table. */
  ghost function Sum(m: Counter): nat
    decreases |m|
  {
    if m == map[] then 0
    else
      assert m.Keys != {};
      var k :| k in m;
      assert |(m - {k}).Keys| < |m.Keys|;
      m[k] + Sum(m - {k})
  }

  /** The sum does not depend on which label is taken out first. */
  lemma {:induction false} SumRemove(m: Counter, k: string)
    requires k in m
    ensures Sum(m) == m[k] + Sum(m - {k})
    decreases |m|
  {
    assert m.Keys != {};
    var j :| j in m && Sum(m) == m[j] + Sum(m - {j});
    if j != k {
      var mj, mk := m - {j}, m - {k};
      assert k in mj && j in mk;
      assert |mj.Keys| < |m.Keys| && |mk.Keys| < |m.Keys|;
      SumRemove(mj, k);
      SumRemove(mk, j);
      assert mj - {k} == mk - {j};
    }
  }

  /** Adding `n` to one label adds `n` to the total. */
  lemma SumAddAt(m: Counter, k: string, n: nat)
    ensures Sum(AddAt(m, k, n)) == Sum(m) + n
  {
    var r := AddAt(m, k, n);
    SumRemove(r, k);
    if k in m {
      SumRemove(m, k);
      assert r - {k} == m - {k};
    } else {
      assert r - {k} == m;
    }
  }

  /** One more occurrence adds one to the total. */
  lemma SumBump(m: Counter, k: string)
    ensures Sum(Bump(m, k)) == Sum(m) + 1
  {
    SumAddAt(m, k, 1);
  }

  /** The sub-table of `m` on the labels `ks`. */
  function Restrict(m: Counter, ks: set<string>): (r: Counter)
    ensures r.Keys == m.Keys * ks
  {
    map k | k in m && k in ks :: m[k]
  }

  /** Taking one label out of a restriction takes its count out of the sum. */
  lemma SumRestrictRemove(m: Counter, ks: set<string>, k: string)
    requires k in ks && k in m
    ensures Sum(Restrict(m, ks)) == m[k] + Sum(Restrict(m, ks - {k}))
  {
    var before := Restrict(m, ks);
    SumRemove(before, k);
    assert before - {k} == Restrict(m, ks - {k});
  }

  /** `r` is `a` and `b` added label by label: its labels are theirs, each
      count is the sum of theirs, and so is its total. */
  ghost predicate Merged(r: Counter, a: Counter, b: Counter) {
    r.Keys == a.Keys + b.Keys
    && (forall k :: Get0(r, k) == Get0(a, k) + Get0(b, k))
    && Sum(r) == Sum(a) + Sum(b)
  }

  /** The loop state of `MergeCounts` once the labels outside `rest` are
      added. */
  ghost predicate MergeInv(r: Counter, acc: Counter, m: Counter, rest: set<string>) {
    rest <= m.Keys
    && r.Keys == acc.Keys + (m.Keys - rest)
    && (forall k :: Get0(r, k) == Get0(acc, k) + (if k in rest then 0 else Get0(m, k)))
    && Sum(r) + Sum(Restrict(m, rest)) == Sum(acc) + Sum(m)
  }

  /** Adding one more label keeps the loop state. */
  lemma MergeStep(r: Counter, acc: Counter, m: Counter, rest: set<string>, k: string)
    requires MergeInv(r, acc, m, rest) && k in rest
    ensures MergeInv(AddAt(r, k, m[k]), acc, m, rest - {k})
  {
    var r', rest' := AddAt(r, k, m[k]), rest - {k};
    SumRestrictRemove(m, rest, k);
    SumAddAt(r, k, m[k]);
    assert r'.Keys == acc.Keys + (m.Keys - rest');
    forall j
      ensures Get0(r', j) == Get0(acc, j) + (if j in rest' then 0 else Get0(m, j))
    {
      if j == k {
        assert Get0(m, k) == m[k];
      }
    }
  }

  /** Adds every count of `m` into `acc`, one label at a time, as the
      `foreach ($m as $k => $count) { $acc[$k] = ($acc[$k] ?? 0) + $count; }`
      loops do. The result is the pointwise sum, and its total is the sum of
      the two totals. */
  method MergeCounts(acc: Counter, m: Counter) returns (r: Counter)
    ensures Merged(r, acc, m)
  {
    r := acc;
    var rest := m.Keys;
    assert Restrict(m, rest) == m;
    while rest != {}
      invariant MergeInv(r, acc, m, rest)
      decreases rest
    {
      var k :| k in rest;
      MergeStep(r, acc, m, rest, k);
      r := AddAt(r, k, m[k]);
      rest := rest - {k};
    }
    assert Restrict(m, rest) == map[];
  }
}
