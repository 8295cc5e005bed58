/** The value side of `getForcesDataAggregated`: the result grid (force →
    month → cell), the requests for missing force/month pairs, and the batched
    fetch that fills them three at a time. The fetch of one force and month
    (`fetchForceData`) swallows every error and answers the empty record, so
    it is a total function from force and month to a payload here. */
module BatchFetch {
  import opened Wrappers
  import opened Text
  import opened Incidents
  import opened AggKeys

  const BatchSize: nat := 3
  /** The pause between two batches, in milliseconds. */
  const BatchPause: nat := 200

  /** A force/month pair to fetch. The force is `None` when a key had no
      second part (`undefined`); a missing third part reads as the text
      "undefined", which is what the month becomes as a property name. */
  datatype Request = Request(force: Option<string>, month: string)

  /** A cell of the result: a payload, or the promise the client branch
      stores without awaiting it, with the value it settles to. */
  datatype Cell = Value(p: Payload) | Promised(settled: Option<Payload>)

  type Grid = map<string, map<string, Cell>>

  /** `const [, forceId, month] = key.split(':')`. */
  function KeyRequest(key: string): (r: Request)
    ensures NoColon(r.month)
  {
    var parts := Split(key, ':');
    SplitPiecesNoColon(key);
    Request(if |parts| > 1 then Some(parts[1]) else None, if |parts| > 2 then parts[2] else "undefined")
  }

  lemma {:induction false} SplitPiecesNoColon(s: string)
    ensures forall i :: 0 <= i < |Split(s, ':')| ==> NoColon(Split(s, ':')[i])
    decreases |s|
  {
    if s != [] {
      SplitPiecesNoColon(s[1..]);
    }
  }

  /** Reading back a key built from a colon-free force and month gives that
      force and month. */
  lemma KeyRequestOfAggKey(force: string, month: string)
    requires NoColon(force) && NoColon(month)
    ensures KeyRequest(AggKey(force, month)) == Request(Some(force), month)
  {
    AggKeySplits(force, month);
  }

  /** `results[forceId] = {}` for every requested force. */
  function EmptyGrid(forces: seq<string>): (g: Grid)
    ensures forall f :: f in g <==> f in forces
    ensures forall f :: f in g ==> g[f] == map[]
  {
    map f | f in forces :: map[]
  }

  /** The entries of `serverResult.cached` with each key split. */
  function SplitEntries(entries: seq<(string, Payload)>): (r: seq<(Request, Payload)>)
    ensures |r| == |entries|
    ensures forall i :: 0 <= i < |r| ==> r[i] == (KeyRequest(entries[i].0), entries[i].1)
  {
    seq(|entries|, i requires 0 <= i < |entries| => (KeyRequest(entries[i].0), entries[i].1))
  }

  /** `serverResult.missingKeys`, each split into the request to fetch. */
  function MissingRequests(keys: seq<string>): (r: seq<Request>)
    ensures |r| == |keys|
    ensures forall i :: 0 <= i < |keys| ==> r[i] == KeyRequest(keys[i])
  {
    seq(|keys|, i requires 0 <= i < |keys| => KeyRequest(keys[i]))
  }

  /** The split entries read into the result: the data is stored when its
      force is one of the result's; a later entry for the same force and
      month overwrites an earlier one. */
  function MarkHits(g: Grid, hits: seq<(Request, Payload)>): (r: Grid)
    ensures r.Keys == g.Keys
    decreases |hits|
  {
    if hits == [] then g
    else
      var h := MarkHits(g, hits[..|hits| - 1]);
      var (req, data) := hits[|hits| - 1];
      if req.force.Some? && req.force.value in h
      then h[req.force.value := h[req.force.value][req.month := Value(data)]]
      else h
  }

  /** A cell no entry names is left as it was. */
  lemma {:induction false} MarkHitsKeeps(g: Grid, hits: seq<(Request, Payload)>, f: string, m: string)
    requires f in g
    requires forall i :: 0 <= i < |hits| ==> hits[i].0 != Request(Some(f), m)
    ensures m in MarkHits(g, hits)[f] <==> m in g[f]
    ensures m in g[f] ==> MarkHits(g, hits)[f][m] == g[f][m]
    decreases |hits|
  {
    if hits != [] {
      var init := hits[..|hits| - 1];
      assert forall i :: 0 <= i < |init| ==> init[i] == hits[i];
      MarkHitsKeeps(g, init, f, m);
    }
  }

  /** A cell some entry names holds the data of the last entry naming it. */
  lemma {:induction false} MarkHitsLastWins(g: Grid, hits: seq<(Request, Payload)>, f: string, m: string, i: nat)
    requires f in g && i < |hits| && hits[i].0 == Request(Some(f), m)
    requires forall j :: i < j < |hits| ==> hits[j].0 != Request(Some(f), m)
    ensures m in MarkHits(g, hits)[f] && MarkHits(g, hits)[f][m] == Value(hits[i].1)
    decreases |hits|
  {
    var init := hits[..|hits| - 1];
    if i < |hits| - 1 {
      assert forall j :: 0 <= j < |init| ==> init[j] == hits[j];
      MarkHitsLastWins(g, init, f, m, i);
    }
  }

  /** Every requested pair, force by force and month by month. */
  function Pairs(forces: seq<string>, months: seq<string>): (r: seq<Request>)
    ensures |r| == |forces| * |months|
  {
    if forces == [] then []
    else
      Pairs(forces[..|forces| - 1], months) + seq(|months|, j requires 0 <= j < |months| => Request(Some(forces[|forces| - 1]), months[j]))
  }

  lemma {:induction false} PairsHold(forces: seq<string>, months: seq<string>, f: string, m: string)
    requires f in forces && m in months
    ensures Request(Some(f), m) in Pairs(forces, months)
    decreases |forces|
  {
    var init := forces[..|forces| - 1];
    if f in init {
      PairsHold(init, months, f, m);
    } else {
      var j :| 0 <= j < |months| && months[j] == m;
      var tail := seq(|months|, j requires 0 <= j < |months| => Request(Some(forces[|forces| - 1]), months[j]));
      assert tail[j] == Request(Some(f), m);
    }
  }

  /** Every pair names a requested force and a requested month. */
  lemma {:induction false} PairsInRange(forces: seq<string>, months: seq<string>)
    ensures forall r :: r in Pairs(forces, months) ==> r.force.Some? && r.force.value in forces && r.month in months
    decreases |forces|
  {
    if forces != [] {
      var init := forces[..|forces| - 1];
      PairsInRange(init, months);
      assert forall f :: f in init ==> f in forces;
    }
  }

  /** The consecutive slices of three the missing list is fetched in. */
  function Batches(xs: seq<Request>): seq<seq<Request>>
    decreases |xs|
  {
    if xs == [] then []
    else if |xs| <= BatchSize then [xs]
    else [xs[..BatchSize]] + Batches(xs[BatchSize..])
  }

  function Flatten(bs: seq<seq<Request>>): seq<Request> {
    if bs == [] then [] else bs[0] + Flatten(bs[1..])
  }

  /** The batches are consecutive slices that together give back the missing
      list; each holds one to three requests, and all but the last hold
      exactly three. */
  lemma {:induction false} BatchesCover(xs: seq<Request>)
    ensures Flatten(Batches(xs)) == xs
    ensures forall i :: 0 <= i < |Batches(xs)| ==> 1 <= |Batches(xs)[i]| <= BatchSize
    ensures forall i :: 0 <= i < |Batches(xs)| - 1 ==> |Batches(xs)[i]| == BatchSize
    ensures |Batches(xs)| == (|xs| + BatchSize - 1) / BatchSize
    decreases |xs|
  {
    if |xs| > BatchSize {
      var rest := xs[BatchSize..];
      BatchesCover(rest);
      var bs := Batches(xs);
      assert bs == [xs[..BatchSize]] + Batches(rest);
      assert bs[1..] == Batches(rest);
      assert xs == xs[..BatchSize] + rest;
      assert forall i :: 1 <= i < |bs| ==> bs[i] == Batches(rest)[i - 1];
    }
  }

  /** One fetched record stored in its cell; `None` when the request names
      no force of the result (`results[forceId]` is undefined and the
      assignment throws). */
  function Put(g: Grid, req: Request, fetched: (string, string) -> Payload): Option<Grid> {
    if req.force.Some? && req.force.value in g then
      Some(g[req.force.value := g[req.force.value][req.month := Value(fetched(req.force.value, req.month))]])
    else None
  }

  /** Every request stored in order; `None` as soon as one throws. */
  function FillAll(g: Grid, reqs: seq<Request>, fetched: (string, string) -> Payload): Option<Grid>
    decreases |reqs|
  {
    if reqs == [] then Some(g)
    else match FillAll(g, reqs[..|reqs| - 1], fetched)
      case None => None
      case Some(h) => Put(h, reqs[|reqs| - 1], fetched)
  }

  /** Filling succeeds exactly when every request names a force of the grid;
      it then keeps the forces, keeps every cell it does not fetch, and
      stores the fetched record in the cell of every request. */
  lemma {:induction false} FillAllCovers(g: Grid, reqs: seq<Request>, fetched: (string, string) -> Payload)
    ensures FillAll(g, reqs, fetched).Some? <==> forall r :: r in reqs ==> r.force.Some? && r.force.value in g
    ensures FillAll(g, reqs, fetched).Some? ==>
      var h := FillAll(g, reqs, fetched).value;
      h.Keys == g.Keys
      && (forall r :: r in reqs ==>
            (r.month in h[r.force.value] && h[r.force.value][r.month] == Value(fetched(r.force.value, r.month))))
      && (forall f, m :: f in g && m in g[f] && Request(Some(f), m) !in reqs ==> m in h[f] && h[f][m] == g[f][m])
    decreases |reqs|
  {
    if reqs != [] {
      var init := reqs[..|reqs| - 1];
      var last := reqs[|reqs| - 1];
      FillAllCovers(g, init, fetched);
      assert reqs == init + [last];
      assert forall r :: r in reqs <==> r in init || r == last;
    }
  }

  /** Once a request throws, the whole fill fails. */
  lemma {:induction false} FillAllFailsLater(g: Grid, reqs: seq<Request>, j: nat, fetched: (string, string) -> Payload)
    requires j <= |reqs| && FillAll(g, reqs[..j], fetched).None?
    ensures FillAll(g, reqs, fetched).None?
    decreases |reqs| - j
  {
    if j < |reqs| {
      assert reqs[..j + 1][..j] == reqs[..j];
      FillAllFailsLater(g, reqs, j + 1, fetched);
    } else {
      assert reqs[..j] == reqs;
    }
  }

  /** When the server cache cannot be asked, every pair is fetched: the
      result then holds, for each requested force, exactly the requested
      months, each with the fetched record. */
  lemma AllMissingFetchesAll(forces: seq<string>, months: seq<string>, fetched: (string, string) -> Payload)
    ensures FillAll(EmptyGrid(forces), Pairs(forces, months), fetched).Some?
    ensures var h := FillAll(EmptyGrid(forces), Pairs(forces, months), fetched).value;
      forall f :: f in h <==> f in forces
    ensures var h := FillAll(EmptyGrid(forces), Pairs(forces, months), fetched).value;
      forall f, m :: f in h ==> (m in h[f] <==> m in months)
    ensures var h := FillAll(EmptyGrid(forces), Pairs(forces, months), fetched).value;
      forall f, m :: f in forces && m in months ==> h[f][m] == Value(fetched(f, m))
  {
    var g, reqs := EmptyGrid(forces), Pairs(forces, months);
    assert forall r :: r in reqs ==> r.force.Some? && r.force.value in g by {
      PairsInRange(forces, months);
    }
    FillAllCovers(g, reqs, fetched);
    var h := FillAll(g, reqs, fetched).value;
    assert h.Keys == g.Keys;
    forall f, m | f in forces && m in months
      ensures m in h[f] && h[f][m] == Value(fetched(f, m))
    {
      PairsHold(forces, months, f, m);
    }
    forall f, m | f in h && m in h[f]
      ensures m in months
    {
      FillAllOnly(g, reqs, fetched);
      assert Request(Some(f), m) in reqs;
      PairsInRange(forces, months);
    }
    assert forall f, m :: f in h ==> (m in h[f] <==> m in months);
  }

  /** A cell of a successful fill is one a request names or was already
      there. */
  lemma {:induction false} FillAllOnly(g: Grid, reqs: seq<Request>, fetched: (string, string) -> Payload)
    ensures FillAll(g, reqs, fetched).Some? ==>
      var h := FillAll(g, reqs, fetched).value;
      forall f, m :: f in h && m in h[f] ==> Request(Some(f), m) in reqs || (f in g && m in g[f])
    decreases |reqs|
  {
    if reqs != [] {
      var init := reqs[..|reqs| - 1];
      FillAllOnly(g, init, fetched);
      assert forall r :: r in init ==> r in reqs;
      if FillAll(g, init, fetched).Some? {
        FillAllCovers(g, init, fetched);
      }
    }
  }

  lemma BatchesStep(xs: seq<Request>, i: nat, end: nat)
    requires i < |xs| && end == (if i + BatchSize < |xs| then i + BatchSize else |xs|)
    ensures Batches(xs[i..]) == [xs[i..end]] + Batches(xs[end..])
  {
    if |xs[i..]| > BatchSize {
      assert xs[i..][..BatchSize] == xs[i..end];
      assert xs[i..][BatchSize..] == xs[end..];
    } else {
      assert xs[i..] == xs[i..end] && xs[end..] == [];
    }
  }

  /** One batch: the requests `missing[i..end]` stored in order. A failure
      anywhere in the batch fails the whole fill. */
  method FillBatch(results: Grid, missing: seq<Request>, i: nat, end: nat, fetched: (string, string) -> Payload, r0: Option<Grid>)
    returns (r: Option<Grid>)
    requires i <= end <= |missing| && r0 == FillAll(results, missing[..i], fetched)
    ensures r == FillAll(results, missing[..end], fetched)
    ensures r.None? ==> FillAll(results, missing, fetched).None?
  {
    r := r0;
    var k := i;
    while k < end
      invariant i <= k <= end
      invariant r == FillAll(results, missing[..k], fetched)
      decreases end - k
    {
      ghost var next := missing[..k + 1];
      assert next[..|next| - 1] == missing[..k] && next[|next| - 1] == missing[k];
      if r.Some? {
        r := Put(r.value, missing[k], fetched);
      }
      k := k + 1;
    }
    if r.None? {
      FillAllFailsLater(results, missing, end, fetched);
    }
  }

  /** The batched fetch of `getForcesDataAggregated`: slices of three, each
      request's record stored in its cell, and a pause after every batch but
      the last. Returns `None`, after the batch in which it happens, when a
      request names no force of the result. */
  method FetchInBatches(results: Grid, missing: seq<Request>, fetched: (string, string) -> Payload)
    returns (r: Option<Grid>, batches: seq<seq<Request>>, paused: nat)
    ensures r == FillAll(results, missing, fetched)
    ensures batches <= Batches(missing)
    ensures r.Some? ==> batches == Batches(missing)
    ensures r.Some? ==> paused == if missing == [] then 0 else BatchPause * (|Batches(missing)| - 1)
  {
    r := Some(results);
    batches := [];
    paused := 0;
    var i := 0;
    assert missing[..0] == [] && missing[0..] == missing;
    while i < |missing|
      invariant 0 <= i <= |missing|
      invariant r == FillAll(results, missing[..i], fetched) && r.Some?
      invariant batches + Batches(missing[i..]) == Batches(missing)
      invariant paused == if batches == [] then 0 else BatchPause * (|batches| - 1)
      decreases |missing| - i
    {
      var end := if i + BatchSize < |missing| then i + BatchSize else |missing|;
      BatchesStep(missing, i, end);
      r := FillBatch(results, missing, i, end, fetched, r);
      // the pause between the previous batch and this one
      if batches != [] {
        paused := paused + BatchPause;
      }
      batches := batches + [missing[i..end]];
      if r.None? {
        return;
      }
      i := end;
    }
    assert missing[..|missing|] == missing && missing[|missing|..] == [];
  }
}
