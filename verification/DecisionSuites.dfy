// The suites a decision hands to the next pass (batcher/src/attrib.rs, Decision): those owners
// turned red, and those red only in the merged tree, counted as the code counts them.

module DecisionSuites {
  import opened Prelude
  import opened AttributionSpec
  import opened AttributionDecision
  import opened Members

  ghost function OwnedSet(d: Decision): (r: set<Suite>) {
    set x, suite | x in d.owners && suite in d.owners[x] :: suite
  }

  ghost function IntegrationSet(d: Decision): (r: set<Suite>) {
    set suite | suite in OwnedSet(d) + Elems(d.unattributed) && IsIntegration(d, suite)
  }

  lemma IntegrationSetIs(d: Decision, suite: Suite)
    ensures suite in IntegrationSet(d) <==> IsIntegration(d, suite)
    ensures suite in OwnedSet(d) <==> IsOwned(d, suite)
  {
    if ChargedTwice(d.owners, suite) {
      if x, y :| x != y && Charged(d.owners, x, suite) && Charged(d.owners, y, suite) {
        assert suite in d.owners[x];
      } else {
        var x, i, j :| x in d.owners && 0 <= i < j < |d.owners[x]| && d.owners[x][i] == suite
            && d.owners[x][j] == suite;
        assert suite in d.owners[x];
      }
    }
    if IsOwned(d, suite) {
      var x :| Charged(d.owners, x, suite);
    }
    if suite in OwnedSet(d) {
      var x :| x in d.owners && suite in d.owners[x];
      assert Charged(d.owners, x, suite);
    }
  }

  method OwnedSuites(d: Decision) returns (r: seq<Suite>)
    ensures NoDup(r) && Elems(r) == OwnedSet(d)
  {
    r := Listed(set x, suite | x in d.owners && suite in d.owners[x] :: suite);
  }

  /** A place where a suite is charged: an owner and an index into its list. */
  type Spot = (Id, nat)

  ghost predicate IsSpot(owners: map<Id, seq<Suite>>, p: Spot) {
    p.0 in owners && p.1 < |owners[p.0]|
  }

  ghost function At(owners: map<Id, seq<Suite>>, spots: set<Spot>, suite: Suite): (r: set<Spot>) {
    set p | p in spots && IsSpot(owners, p) && owners[p.0][p.1] == suite
  }

  lemma OneMoreSpot(owners: map<Id, seq<Suite>>, spots: set<Spot>, p: Spot, suite: Suite)
    requires IsSpot(owners, p) && p !in spots
    ensures |At(owners, spots + {p}, suite)| ==
            |At(owners, spots, suite)| + (if owners[p.0][p.1] == suite then 1 else 0)
  {
    var before, after := At(owners, spots, suite), At(owners, spots + {p}, suite);
    if owners[p.0][p.1] == suite {
      assert after == before + {p};
    } else {
      assert after == before;
    }
  }

  lemma TwoSpots(owners: map<Id, seq<Suite>>, spots: set<Spot>, suite: Suite)
    requires forall p: Spot :: IsSpot(owners, p) ==> p in spots
    ensures |At(owners, spots, suite)| >= 2 <==> ChargedTwice(owners, suite)
  {
    var at := At(owners, spots, suite);
    if |at| >= 2 {
      var p :| p in at;
      assert at == {p} + (at - {p});
      var q :| q in at - {p};
      if p.0 == q.0 {
        var i, j := if p.1 < q.1 then p.1 else q.1, if p.1 < q.1 then q.1 else p.1;
        assert owners[p.0][i] == suite && owners[p.0][j] == suite;
      } else {
        assert Charged(owners, p.0, suite) && Charged(owners, q.0, suite);
      }
    }
    if ChargedTwice(owners, suite) {
      if x, y :| x != y && Charged(owners, x, suite) && Charged(owners, y, suite) {
        var i :| 0 <= i < |owners[x]| && owners[x][i] == suite;
        var j :| 0 <= j < |owners[y]| && owners[y][j] == suite;
        TwoIn(at, (x, i), (y, j));
      } else {
        var x, i, j :| x in owners && 0 <= i < j < |owners[x]| && owners[x][i] == suite && owners[x][j] == suite;
        TwoIn(at, (x, i), (x, j));
      }
    }
  }

  lemma TwoIn(s: set<Spot>, p: Spot, q: Spot)
    requires p in s && q in s && p != q
    ensures |s| >= 2
  {
    assert q in s - {p};
    assert |s - {p}| >= 1;
  }

  function CountOf(count: map<Suite, nat>, suite: Suite): (n: nat) {
    if suite in count then count[suite] else 0
  }

  /** How often each suite is named against an owner. */
  method CountCharges(owners: map<Id, seq<Suite>>) returns (count: map<Suite, nat>)
    ensures forall suite :: CountOf(count, suite) >= 2 <==> ChargedTwice(owners, suite)
  {
    count := map[];
    ghost var spots: set<Spot> := {};
    var ids := Listed(owners.Keys);
    for i := 0 to |ids|
      invariant forall suite :: CountOf(count, suite) == |At(owners, spots, suite)|
      invariant forall p: Spot :: p in spots <==> IsSpot(owners, p) && p.0 in ids[..i]
    {
      assert ids[i] in Elems(ids);
      var suites := owners[ids[i]];
      TakeOneMore(ids, i);
      for k := 0 to |suites|
        invariant forall suite :: CountOf(count, suite) == |At(owners, spots, suite)|
        invariant forall p: Spot :: p in spots <==> IsSpot(owners, p) && (p.0 in ids[..i] || (p.0 == ids[i] && p.1 < k))
      {
        ghost var p: Spot := (ids[i], k);
        assert p !in spots;
        forall suite
          ensures |At(owners, spots + {p}, suite)| ==
                  |At(owners, spots, suite)| + (if suites[k] == suite then 1 else 0)
        {
          OneMoreSpot(owners, spots, p, suite);
        }
        spots := spots + {p};
        count := count[suites[k] := CountOf(count, suites[k]) + 1];
      }
    }
    forall suite ensures CountOf(count, suite) >= 2 <==> ChargedTwice(owners, suite) {
      forall p: Spot | IsSpot(owners, p) ensures p in spots {
        assert p.0 in Elems(ids);
      }
      TwoSpots(owners, spots, suite);
    }
  }

  method IntegrationSuites(d: Decision) returns (r: seq<Suite>)
    ensures NoDup(r) && Elems(r) == IntegrationSet(d)
  {
    var count := CountCharges(d.owners);
    var twice := set suite | suite in count && count[suite] >= 2;
    r := Listed((set suite | suite in d.unattributed) + twice);
    forall suite ensures suite in Elems(r) <==> suite in IntegrationSet(d) {
      IntegrationSetIs(d, suite);
      assert suite in twice <==> CountOf(count, suite) >= 2;
    }
  }
}
