// One theory for every fixpoint over "stacked on": a set of edges (p, m), each saying that
// whatever takes p takes m too, and the least set that holds some seeds and is closed under
// the edges.

module Reach {
  import opened Prelude

  type Edges = set<(Id, Id)>

  /** A nonempty walk along the edges. */
  ghost predicate Chain(e: Edges, path: seq<Id>) {
    |path| > 0 && forall i :: 0 <= i < |path| - 1 ==> (path[i], path[i + 1]) in e
  }

  ghost predicate Reaches(e: Edges, seeds: set<Id>, m: Id) {
    exists path :: Chain(e, path) && path[0] in seeds && path[|path| - 1] == m
  }

  /** Everything some seed reaches: the definition the fixpoint loops are proved against. */
  ghost function Carried(e: Edges, seeds: set<Id>): set<Id> {
    set m | m in seeds + (set x | x in e :: x.1) && Reaches(e, seeds, m)
  }

  ghost predicate Closed(e: Edges, s: set<Id>) {
    forall p, m :: (p, m) in e && p in s ==> m in s
  }

  lemma ReachesCarried(e: Edges, seeds: set<Id>, m: Id)
    ensures m in Carried(e, seeds) <==> Reaches(e, seeds, m)
  {
    if Reaches(e, seeds, m) {
      var path :| Chain(e, path) && path[0] in seeds && path[|path| - 1] == m;
      if |path| > 1 {
        assert (path[|path| - 2], path[|path| - 2 + 1]) in e;
        assert (path[|path| - 2], m).1 in (set x | x in e :: x.1);
      }
    }
  }

  lemma CarriedHoldsSeeds(e: Edges, seeds: set<Id>)
    ensures seeds <= Carried(e, seeds)
  {
    forall m | m in seeds ensures m in Carried(e, seeds) {
      assert Chain(e, [m]) && [m][0] in seeds;
      ReachesCarried(e, seeds, m);
    }
  }

  lemma CarriedStep(e: Edges, seeds: set<Id>, p: Id, m: Id)
    requires p in Carried(e, seeds) && (p, m) in e
    ensures m in Carried(e, seeds)
  {
    ReachesCarried(e, seeds, p);
    var path :| Chain(e, path) && path[0] in seeds && path[|path| - 1] == p;
    var longer := path + [m];
    assert Chain(e, longer) && longer[0] in seeds && longer[|longer| - 1] == m;
    ReachesCarried(e, seeds, m);
  }

  lemma CarriedClosed(e: Edges, seeds: set<Id>)
    ensures Closed(e, Carried(e, seeds))
  {
    forall p, m | (p, m) in e && p in Carried(e, seeds) ensures m in Carried(e, seeds) {
      CarriedStep(e, seeds, p, m);
    }
  }

  lemma {:induction false} ChainStays(e: Edges, s: set<Id>, path: seq<Id>)
    requires Closed(e, s) && Chain(e, path) && path[0] in s
    ensures path[|path| - 1] in s
  {
    if |path| > 1 {
      ChainStays(e, s, path[..|path| - 1]);
      assert (path[|path| - 2], path[|path| - 2 + 1]) in e;
    }
  }

  /** Carried is the least closed set above the seeds. */
  lemma CarriedLeast(e: Edges, seeds: set<Id>, s: set<Id>)
    requires seeds <= s && Closed(e, s)
    ensures Carried(e, seeds) <= s
  {
    forall m | m in Carried(e, seeds) ensures m in s {
      ReachesCarried(e, seeds, m);
      var path :| Chain(e, path) && path[0] in seeds && path[|path| - 1] == m;
      ChainStays(e, s, path);
    }
  }

  /** What every fixpoint loop ends with: sound so far and closed means exactly the carried set. */
  lemma FixpointIsCarried(e: Edges, seeds: set<Id>, s: set<Id>)
    requires seeds <= s <= Carried(e, seeds) && Closed(e, s)
    ensures s == Carried(e, seeds)
  {
    CarriedLeast(e, seeds, s);
  }

  /** The carried set of a union of seeds is the union of the carried sets. */
  lemma CarriedUnion(e: Edges, seeds: set<Id>, m: Id)
    ensures m in Carried(e, seeds) <==> exists s :: s in seeds && m in Carried(e, {s})
  {
    ReachesCarried(e, seeds, m);
    if m in Carried(e, seeds) {
      var path :| Chain(e, path) && path[0] in seeds && path[|path| - 1] == m;
      assert path[0] in {path[0]};
      assert Reaches(e, {path[0]}, m);
      ReachesCarried(e, {path[0]}, m);
    }
    if s :| s in seeds && m in Carried(e, {s}) {
      ReachesCarried(e, {s}, m);
      var path :| Chain(e, path) && path[0] in {s} && path[|path| - 1] == m;
      assert Reaches(e, seeds, m);
    }
  }

  /** A walk that returns to where it began. */
  ghost predicate Cycle(e: Edges, path: seq<Id>) {
    Chain(e, path) && |path| > 1 && path[0] == path[|path| - 1]
  }

  ghost predicate Acyclic(e: Edges) {
    forall path :: !Cycle(e, path)
  }

  ghost predicate HasSource(e: Edges, s: set<Id>, m: Id) {
    exists p :: p in s && (p, m) in e
  }

  lemma {:induction false} BackwardWalk(e: Edges, s: set<Id>, n: nat) returns (path: seq<Id>)
    requires s != {}
    requires forall m :: m in s ==> HasSource(e, s, m)
    ensures |path| == n + 1 && Chain(e, path)
    ensures forall i :: 0 <= i < |path| ==> path[i] in s
  {
    if n == 0 {
      var m :| m in s;
      path := [m];
    } else {
      var rest := BackwardWalk(e, s, n - 1);
      assert HasSource(e, s, rest[0]);
      var p :| p in s && (p, rest[0]) in e;
      path := [p] + rest;
      forall i | 0 <= i < |path| - 1 ensures (path[i], path[i + 1]) in e {
        if i > 0 {
          assert (rest[i - 1], rest[i - 1 + 1]) in e;
        }
      }
    }
  }

  lemma {:induction false} Pigeonhole(path: seq<Id>, s: set<Id>)
    requires forall i :: 0 <= i < |path| ==> path[i] in s
    requires NoDup(path)
    ensures |path| <= |s|
  {
    if path != [] {
      var last := path[|path| - 1];
      var shorter := path[..|path| - 1];
      forall i | 0 <= i < |shorter| ensures shorter[i] in s - {last} {
        assert path[i] != last;
      }
      Pigeonhole(shorter, s - {last});
    }
  }

  /** Where every member of a nonempty set has an edge from inside the set, some walk inside
      it returns to where it began. */
  lemma NoSourceMeansCycle(e: Edges, s: set<Id>)
    requires s != {}
    requires forall m :: m in s ==> HasSource(e, s, m)
    ensures !Acyclic(e)
  {
    var path := BackwardWalk(e, s, |s|);
    if NoDup(path) {
      Pigeonhole(path, s);
      assert false;
    }
    var i, j :| 0 <= i < j < |path| && path[i] == path[j];
    var round := path[i..j + 1];
    forall k | 0 <= k < |round| - 1 ensures (round[k], round[k + 1]) in e {
      assert (path[i + k], path[i + k + 1]) in e;
    }
    assert Cycle(e, round);
  }

  /** A numbering that rises along every edge leaves no room for a cycle. */
  lemma {:induction false} RankRises(e: Edges, rank: map<Id, int>, path: seq<Id>)
    requires forall p, m :: (p, m) in e ==> p in rank && m in rank && rank[p] < rank[m]
    requires Chain(e, path) && |path| > 1
    ensures path[0] in rank && path[|path| - 1] in rank
    ensures rank[path[0]] < rank[path[|path| - 1]]
  {
    var shorter := path[..|path| - 1];
    assert (path[|path| - 2], path[|path| - 2 + 1]) in e;
    if |path| > 2 {
      assert Chain(e, shorter);
      RankRises(e, rank, shorter);
    }
  }
}
