/** The client branch of `getForcesDataAggregated`: every requested
    force/month pair is looked up with `getCachedData(key, 'force')`, whose
    promise is stored in the result without being awaited. With the server
    cache unavailable the lookup runs to completion at the call, so each
    call evicts its key when it is stale before the next one starts. */
module AggregatedLookup {
  import opened Wrappers
  import opened Incidents
  import opened ClientCache
  import opened BatchFetch
  import opened AggKeys

  /** `aggregated:${forceId}:${month}`, with an undefined force written as
      "undefined". */
  function ReqKey(r: Request): (k: string)
    ensures r.force.Some? ==> k == AggKey(r.force.value, r.month)
  {
    AggKey(if r.force.Some? then r.force.value else "undefined", r.month)
  }

  /** The keys of the requests, in order. */
  function ReqKeys(reqs: seq<Request>): (ks: seq<string>)
    ensures |ks| == |reqs|
    ensures forall i :: 0 <= i < |reqs| ==> ks[i] == ReqKey(reqs[i])
  {
    seq(|reqs|, i requires 0 <= i < |reqs| => ReqKey(reqs[i]))
  }

  /** The keys `getForcesDataAggregated` asks the server cache for, split
      back, are the requested pairs when no force or month holds a colon:
      a server cache that reports every key missing leads to the same
      fetches as one that cannot be asked. */
  lemma MissingKeysArePairs(forces: seq<string>, months: seq<string>)
    requires forall f :: f in forces ==> NoColon(f)
    requires forall m :: m in months ==> NoColon(m)
    ensures MissingRequests(ReqKeys(Pairs(forces, months))) == Pairs(forces, months)
  {
    var reqs := Pairs(forces, months);
    PairsInRange(forces, months);
    forall i | 0 <= i < |reqs|
      ensures KeyRequest(ReqKey(reqs[i])) == reqs[i]
    {
      assert reqs[i] in reqs;
      KeyRequestOfAggKey(reqs[i].force.value, reqs[i].month);
    }
  }

  /** The client tables after looking up each key in turn. */
  function EvictAll(tables: Tables, times: Stamps, keys: seq<string>, now: int): (r: (Tables, Stamps))
    ensures r.0.Keys == tables.Keys
    decreases |keys|
  {
    if keys == [] then (tables, times)
    else
      var e := EvictAll(tables, times, keys[..|keys| - 1], now);
      Evict(e.0, e.1, "force", keys[|keys| - 1], now)
  }

  /** The keys among `keys` whose force entry is stale. */
  function StaleIn(tables: Tables, times: Stamps, keys: seq<string>, now: int): (s: set<string>)
    ensures forall k :: k in s <==> k in keys && Stale(tables, times, "force", k, now)
  {
    set k | k in keys && Stale(tables, times, "force", k, now)
  }

  /** Looking up keys one after another deletes exactly the stale ones among
      them, from the force mode and from the timestamps, whatever the order;
      the other modes are untouched. */
  lemma {:induction false} EvictAllRemoves(tables: Tables, times: Stamps, keys: seq<string>, now: int)
    requires "force" in tables
    ensures var e, gone := EvictAll(tables, times, keys, now), StaleIn(tables, times, keys, now);
      (forall md :: md in tables && md != "force" ==> e.0[md] == tables[md])
      && e.0["force"] == tables["force"] - gone && e.1 == times - gone
    decreases |keys|
  {
    if keys != [] {
      var init, last := keys[..|keys| - 1], keys[|keys| - 1];
      EvictAllRemoves(tables, times, init, now);
      var e0 := EvictAll(tables, times, init, now);
      var gone0, gone := StaleIn(tables, times, init, now), StaleIn(tables, times, keys, now);
      assert forall k :: k in keys <==> k in init || k == last;
      assert Stale(e0.0, e0.1, "force", last, now) <==> last !in gone0 && Stale(tables, times, "force", last, now);
      if Stale(tables, times, "force", last, now) {
        assert gone == gone0 + {last};
      } else {
        assert gone == gone0;
      }
    }
  }

  /** Looking up keys changes no lookup at the same moment: what each
      promise settles to is what the first lookup would have read. */
  lemma {:induction false} EvictAllKeepsReads(tables: Tables, times: Stamps, keys: seq<string>, now: int, key: string)
    ensures var e := EvictAll(tables, times, keys, now);
      ClientGet(e.0, e.1, "force", key, now) == ClientGet(tables, times, "force", key, now)
    decreases |keys|
  {
    if keys != [] {
      EvictAllKeepsReads(tables, times, keys[..|keys| - 1], now, key);
    }
  }

  /** The cells of the client branch: for each request naming a force of the
      result, the promise of the lookup of its key. */
  function ClientCells(g: Grid, reqs: seq<Request>, tables: Tables, times: Stamps, now: int): (r: Grid)
    ensures r.Keys == g.Keys
    decreases |reqs|
  {
    if reqs == [] then g
    else
      var h := ClientCells(g, reqs[..|reqs| - 1], tables, times, now);
      var req := reqs[|reqs| - 1];
      if req.force.Some? && req.force.value in h
      then h[req.force.value := h[req.force.value][req.month := Promised(ClientGet(tables, times, "force", ReqKey(req), now))]]
      else h
  }

  /** Every request naming a force of the result gets the promise of its
      lookup. */
  lemma {:induction false} ClientCellsCover(g: Grid, reqs: seq<Request>, tables: Tables, times: Stamps, now: int)
    ensures var h := ClientCells(g, reqs, tables, times, now);
      forall r :: r in reqs && r.force.Some? && r.force.value in g ==>
        r.month in h[r.force.value]
        && h[r.force.value][r.month] == Promised(ClientGet(tables, times, "force", ReqKey(r), now))
    decreases |reqs|
  {
    if reqs != [] {
      var init, last := reqs[..|reqs| - 1], reqs[|reqs| - 1];
      ClientCellsCover(g, init, tables, times, now);
      assert forall r :: r in reqs <==> r in init || r == last;
    }
  }

  /** A cell of the result is either one a request names or one that was
      already there, unchanged. */
  lemma {:induction false} ClientCellsOnly(g: Grid, reqs: seq<Request>, tables: Tables, times: Stamps, now: int)
    ensures var h := ClientCells(g, reqs, tables, times, now);
      forall f, m :: f in h && m in h[f] ==>
        Request(Some(f), m) in reqs || (m in g[f] && h[f][m] == g[f][m])
    decreases |reqs|
  {
    if reqs != [] {
      var init, last := reqs[..|reqs| - 1], reqs[|reqs| - 1];
      ClientCellsOnly(g, init, tables, times, now);
      assert forall r :: r in init ==> r in reqs;
    }
  }

  /** Every pair of the client branch, for forces and months given: the
      result has a row for each requested force and, in it, exactly the
      requested months, each holding the promise of that pair's lookup. */
  lemma ClientGridHolds(forces: seq<string>, months: seq<string>, tables: Tables, times: Stamps, now: int)
    ensures var h := ClientCells(EmptyGrid(forces), Pairs(forces, months), tables, times, now);
      (forall f :: f in h <==> f in forces)
      && (forall f, m :: f in h ==> (m in h[f] <==> m in months))
      && (forall f, m :: f in forces && m in months ==>
            h[f][m] == Promised(ClientGet(tables, times, "force", AggKey(f, m), now)))
  {
    var g, reqs := EmptyGrid(forces), Pairs(forces, months);
    ClientCellsCover(g, reqs, tables, times, now);
    ClientCellsOnly(g, reqs, tables, times, now);
    PairsInRange(forces, months);
    forall f, m | f in forces && m in months
      ensures Request(Some(f), m) in reqs
    {
      PairsHold(forces, months, f, m);
    }
  }

  lemma EvictAllStep(tables: Tables, times: Stamps, keys: seq<string>, i: nat, now: int)
    requires i < |keys|
    ensures var e := EvictAll(tables, times, keys[..i], now);
      EvictAll(tables, times, keys[..i + 1], now) == Evict(e.0, e.1, "force", keys[i], now)
  {
    assert keys[..i + 1][..i] == keys[..i];
  }

  lemma ClientCellsStep(g: Grid, reqs: seq<Request>, i: nat, tables: Tables, times: Stamps, now: int)
    requires i < |reqs|
    ensures var h, req := ClientCells(g, reqs[..i], tables, times, now), reqs[i];
      ClientCells(g, reqs[..i + 1], tables, times, now)
      == if req.force.Some? && req.force.value in h
         then h[req.force.value := h[req.force.value][req.month := Promised(ClientGet(tables, times, "force", ReqKey(req), now))]]
         else h
  {
    assert reqs[..i + 1][..i] == reqs[..i];
  }

  /** The lookup loop of the client branch, pair after pair. */
  method LookupPairs(tables: Tables, times: Stamps, forces: seq<string>, months: seq<string>, now: int)
    returns (grid: Grid, tables': Tables, times': Stamps)
    ensures grid == ClientCells(EmptyGrid(forces), Pairs(forces, months), tables, times, now)
    ensures (tables', times') == EvictAll(tables, times, ReqKeys(Pairs(forces, months)), now)
  {
    var reqs := Pairs(forces, months);
    var keys := ReqKeys(reqs);
    grid := EmptyGrid(forces);
    tables', times' := tables, times;
    var i := 0;
    assert reqs[..0] == [] && keys[..0] == [];
    while i < |reqs|
      invariant 0 <= i <= |reqs|
      invariant grid == ClientCells(EmptyGrid(forces), reqs[..i], tables, times, now)
      invariant (tables', times') == EvictAll(tables, times, keys[..i], now)
    {
      var req := reqs[i];
      EvictAllKeepsReads(tables, times, keys[..i], now, keys[i]);
      EvictAllStep(tables, times, keys, i, now);
      ClientCellsStep(EmptyGrid(forces), reqs, i, tables, times, now);
      var found := ClientGet(tables', times', "force", keys[i], now);
      var e := Evict(tables', times', "force", keys[i], now);
      tables', times' := e.0, e.1;
      if req.force.Some? && req.force.value in grid {
        grid := grid[req.force.value := grid[req.force.value][req.month := Promised(found)]];
      }
      i := i + 1;
    }
    assert reqs[..i] == reqs && keys[..i] == keys;
  }
}
