// Who a pre-suite install fault belongs to (batcher/src/attrib.rs, attribute_install_fault): the
// base run, a bisection over the round's order, and one run without the member it ends on.

module InstallFaults {
  import opened Prelude
  import opened Reach
  import opened Shapes
  import opened AttributionSpec

  datatype InstallFault = ToOwner(id: Id) | ToBase | ToNobody

  /** The install as the bisection sees it: each probe may install, fail, or itself fault. */
  class Prober {
    ghost var asked: seq<(seq<Id>, JobResult)>

    method Probe(removal: seq<Id>) returns (r: JobResult)
      modifies this
      ensures asked == old(asked) + [(removal, r)]
    {
      r := *;
      asked := asked + [(removal, r)];
    }
  }

  /** One question: a faulting probe is tried once more. */
  method Ask(p: Prober, removal: seq<Id>) returns (r: JobResult)
    modifies p
    ensures old(p.asked) <= p.asked && |p.asked| <= |old(p.asked)| + 2
    ensures (removal, r) in p.asked && forall q :: q in p.asked ==> q in old(p.asked) || q.0 == removal
    ensures r.Fault? ==> FaultedTwice(p.asked, removal)
  {
    r := p.Probe(removal);
    assert p.asked[|p.asked| - 1] == (removal, r);
    if r.Fault? {
      ghost var n := |p.asked|;
      r := p.Probe(removal);
      assert p.asked[n - 1] == (removal, Fault) && p.asked[n] == (removal, r);
    }
  }

  ghost predicate FaultedTwice(asked: seq<(seq<Id>, JobResult)>, removal: seq<Id>) {
    exists i, j :: 0 <= i < j < |asked| && asked[i] == (removal, Fault) && asked[j] == (removal, Fault)
  }

  /** Halvings until one is left. */
  ghost function Halvings(n: nat): (r: nat) {
    if n <= 1 then 0 else 1 + Halvings((n + 1) / 2)
  }

  lemma {:induction false} HalvingsMonotone(m: nat, n: nat)
    requires m <= n
    ensures Halvings(m) <= Halvings(n)
  {
    if n > 1 && m > 1 {
      HalvingsMonotone((m + 1) / 2, (n + 1) / 2);
    }
  }

  /** That many doublings reach past `n`, and one fewer does not: it is the logarithm, rounded up. */
  lemma {:induction false} HalvingsIsLog(n: nat)
    requires n >= 1
    ensures n <= Power(Halvings(n))
    ensures n > 1 ==> Power(Halvings(n) - 1) < n
  {
    if n > 1 {
      HalvingsIsLog((n + 1) / 2);
    }
  }

  ghost function Power(k: nat): (r: nat) {
    if k == 0 then 1 else 2 * Power(k - 1)
  }

  // ----- what the answers make of it -------------------------------------------------------

  /** The place halfway between two. */
  function Middle(lo: nat, hi: nat): (mid: nat)
    requires lo + 1 < hi
    ensures lo < mid < hi
  {
    lo + (hi - lo) / 2
  }

  /** Where the bisection ends on answers that depend on nothing but the members removed. */
  ghost function Boundary(all: seq<Id>, installs: seq<Id> -> bool, lo: nat, hi: nat): (r: nat)
    requires lo <= hi <= |all|
    ensures lo <= r <= hi
    decreases hi - lo
  {
    if hi - lo <= 1 then hi
    else
      var mid := Middle(lo, hi);
      if installs(all[mid..]) then Boundary(all, installs, mid, hi) else Boundary(all, installs, lo, mid)
  }

  ghost function Verdict(shape: Shape, installs: seq<Id> -> bool): (r: InstallFault) {
    if !installs(shape.members) then ToBase
    else
      var hi := Boundary(shape.members, installs, 0, |shape.members|);
      if hi == 0 then ToNobody
      else if installs(RemovalOf(shape, shape.members[hi - 1])) then ToOwner(shape.members[hi - 1])
      else ToNobody
  }

  ghost predicate Steady(asked: seq<(seq<Id>, JobResult)>, installs: seq<Id> -> bool) {
    forall q :: q in asked ==> q.1 == (if installs(q.0) then Green else Red)
  }

  /** What an owner rests on: the base installs, removing it and its dependents installs, and it
      sits where the round stops installing: without everything from it on it installs, without
      everything after it it does not, unless nothing comes after. */
  ghost predicate OwnsFault(shape: Shape, asked: seq<(seq<Id>, JobResult)>, id: Id) {
    && (shape.members, Green) in asked && (RemovalOf(shape, id), Green) in asked
    && exists k :: 0 <= k < |shape.members| && shape.members[k] == id
        && (shape.members[k..], Green) in asked
        && (k + 1 < |shape.members| ==> (shape.members[k + 1..], Red) in asked)
  }

  lemma StillAsked(before: seq<(seq<Id>, JobResult)>, asked: seq<(seq<Id>, JobResult)>)
    requires before <= asked
    ensures forall q :: q in before ==> q in asked
  {
  }

  /** Where a bisection stands: without everything from `lo` on it installs, without everything
      from `hi` on it does not, or `hi` is the end. */
  ghost predicate Between(all: seq<Id>, asked: seq<(seq<Id>, JobResult)>, lo: nat, hi: nat) {
    lo <= hi <= |all| && (all[lo..], Green) in asked && (hi < |all| ==> (all[hi..], Red) in asked)
  }

  lemma BoundaryStep(all: seq<Id>, installs: seq<Id> -> bool, lo: nat, hi: nat)
    requires lo + 1 < hi <= |all|
    ensures
      var mid := Middle(lo, hi);
      Boundary(all, installs, lo, hi) ==
      if installs(all[mid..]) then Boundary(all, installs, mid, hi) else Boundary(all, installs, lo, mid)
  {
  }

  lemma HalvingsStep(lo: nat, hi: nat)
    requires lo + 1 < hi
    ensures
      var mid := Middle(lo, hi);
      Halvings(hi - mid) < Halvings(hi - lo) && Halvings(mid - lo) < Halvings(hi - lo)
  {
    HalvingsMonotone((hi - lo) / 2, (hi - lo + 1) / 2);
  }

  ghost predicate IsSuffix(all: seq<Id>, removal: seq<Id>) {
    exists k: nat :: k <= |all| && removal == all[k..]
  }

  /** Nothing but suffixes of the round has been asked about since. */
  ghost predicate OnlySuffixes(all: seq<Id>, before: seq<(seq<Id>, JobResult)>, asked: seq<(seq<Id>, JobResult)>) {
    forall q :: q in asked ==> q in before || IsSuffix(all, q.0)
  }

  /** One step of the bisection. */
  method Halve(all: seq<Id>, p: Prober, lo: nat, hi: nat, ghost installs: seq<Id> -> bool)
    returns (window: Option<(nat, nat)>)
    requires lo + 1 < hi && Between(all, p.asked, lo, hi)
    modifies p
    ensures old(p.asked) <= p.asked && |p.asked| <= |old(p.asked)| + 2
    ensures OnlySuffixes(all, old(p.asked), p.asked)
    ensures window.None? ==> (exists removal :: FaultedTwice(p.asked, removal)) && !Steady(p.asked, installs)
    ensures window.Some? ==> lo <= window.value.0 < window.value.1 <= hi
    ensures window.Some? ==> Between(all, p.asked, window.value.0, window.value.1)
    ensures window.Some? ==> Halvings(window.value.1 - window.value.0) < Halvings(hi - lo)
    ensures window.Some? && Steady(p.asked, installs) ==>
              Boundary(all, installs, window.value.0, window.value.1) == Boundary(all, installs, lo, hi)
  {
    ghost var before := p.asked;
    HalvingsStep(lo, hi);
    BoundaryStep(all, installs, lo, hi);
    var mid := Middle(lo, hi);
    var answer := Ask(p, all[mid..]);
    StillAsked(before, p.asked);
    match answer {
      case Green => window := Some((mid, hi));
      case Red => window := Some((lo, mid));
      case Fault => window := None;
    }
  }

  lemma StillSteady(before: seq<(seq<Id>, JobResult)>, asked: seq<(seq<Id>, JobResult)>, installs: seq<Id> -> bool)
    requires before <= asked
    ensures Steady(asked, installs) ==> Steady(before, installs)
  {
    StillAsked(before, asked);
  }

  /** Halves the round between a suffix whose removal installs and one whose removal does not. */
  method Bisect(all: seq<Id>, p: Prober, ghost installs: seq<Id> -> bool) returns (hi: Option<nat>)
    requires (all, Green) in p.asked
    modifies p
    ensures old(p.asked) <= p.asked && |p.asked| <= |old(p.asked)| + 2 * Halvings(|all|)
    ensures OnlySuffixes(all, old(p.asked), p.asked)
    ensures hi.None? ==> (exists removal :: FaultedTwice(p.asked, removal)) && !Steady(p.asked, installs)
    ensures hi.Some? ==> hi.value <= |all| && (hi.value == 0 <==> all == [])
    ensures hi.Some? && hi.value > 0 ==> Between(all, p.asked, hi.value - 1, hi.value)
    ensures hi.Some? && Steady(p.asked, installs) ==> hi.value == Boundary(all, installs, 0, |all|)
  {
    var lo, high := 0, |all|;
    assert all[0..] == all;
    while high - lo > 1
      invariant 0 <= lo <= high <= |all| && (all != [] ==> lo < high)
      invariant old(p.asked) <= p.asked && Between(all, p.asked, lo, high)
      invariant OnlySuffixes(all, old(p.asked), p.asked)
      invariant |p.asked| + 2 * Halvings(high - lo) <= |old(p.asked)| + 2 * Halvings(|all|)
      invariant Steady(p.asked, installs) ==> Boundary(all, installs, lo, high) == Boundary(all, installs, 0, |all|)
    {
      ghost var before := p.asked;
      var window := Halve(all, p, lo, high, installs);
      StillSteady(before, p.asked, installs);
      if window.None? {
        return None;
      }
      lo, high := window.value.0, window.value.1;
    }
    hi := Some(high);
  }

  /** Every removal asked about is a suffix of the round or some member's removal set. */
  ghost predicate ProbesAre(shape: Shape, asked: seq<(seq<Id>, JobResult)>) {
    forall q :: q in asked ==>
      IsSuffix(shape.members, q.0) || exists x :: x in shape.members && q.0 == RemovalOf(shape, x)
  }

  method AttributeInstallFault(shape: Shape, p: Prober, ghost installs: seq<Id> -> bool) returns (r: InstallFault)
    requires p.asked == []
    modifies p
    ensures |p.asked| <= 2 * (2 + Halvings(|shape.members|)) && ProbesAre(shape, p.asked)
    ensures r.ToOwner? ==> OwnsFault(shape, p.asked, r.id)
    ensures r.ToBase? ==> (shape.members, Red) in p.asked
    ensures Steady(p.asked, installs) ==> r == Verdict(shape, installs)
    ensures r.ToNobody? ==>
              || (exists removal :: FaultedTwice(p.asked, removal))
              || shape.members == []
              || exists x :: x in shape.members && (RemovalOf(shape, x), Red) in p.asked
  {
    var all := shape.members;
    var first := Ask(p, all);
    assert all[0..] == all && IsSuffix(all, all);
    if first.Red? {
      return ToBase;
    }
    if first.Fault? {
      return ToNobody;
    }
    var hi := Bisect(all, p, installs);
    if hi.None? || hi.value == 0 {
      return ToNobody;
    }
    var culprit := all[hi.value - 1];
    ghost var before := p.asked;
    var last := Ask(p, RemovalOf(shape, culprit));
    StillAsked(before, p.asked);
    if last.Green? {
      return ToOwner(culprit);
    }
    r := ToNobody;
  }

  // ----- what the boundary means -----------------------------------------------------------

  /** The bisection always ends between a suffix whose removal installs and one whose removal
      does not, or at the end of the round. */
  lemma {:induction false} BoundaryHolds(all: seq<Id>, installs: seq<Id> -> bool, lo: nat, hi: nat) returns (k: nat)
    requires lo < hi <= |all| && installs(all[lo..]) && (hi < |all| ==> !installs(all[hi..]))
    ensures k == Boundary(all, installs, lo, hi) && lo < k <= |all|
    ensures installs(all[k - 1..]) && (k < |all| ==> !installs(all[k..]))
    decreases hi - lo
  {
    if hi - lo <= 1 {
      k := hi;
    } else {
      var mid := Middle(lo, hi);
      BoundaryStep(all, installs, lo, hi);
      if installs(all[mid..]) {
        k := BoundaryHolds(all, installs, mid, hi);
      } else {
        k := BoundaryHolds(all, installs, lo, mid);
      }
    }
  }

  ghost predicate PrerequisitesFirst(e: Edges, members: seq<Id>) {
    forall i, j :: 0 <= i < |members| && 0 <= j < |members| && (members[i], members[j]) in e ==> i < j
  }

  /** No member removed leaves a dependent behind. */
  ghost predicate TakesDependents(e: Edges, members: seq<Id>, removal: seq<Id>) {
    forall p, m :: p in removal && (p, m) in e && m in members ==> m in removal
  }

  lemma SuffixTakes(e: Edges, members: seq<Id>, k: nat)
    requires PrerequisitesFirst(e, members) && NoDup(members) && k <= |members|
    ensures TakesDependents(e, members, members[k..])
  {
    forall p, m | p in members[k..] && (p, m) in e && m in members ensures m in members[k..] {
      var i :| 0 <= i < |members[k..]| && members[k..][i] == p;
      var j :| 0 <= j < |members| && members[j] == m;
      assert members[k + i] == p;
      assert members[k..][j - k] == m;
    }
  }

  lemma ClosureTakes(shape: Shape, e: Edges, x: Id)
    requires ClosesOver(shape, e) && x in shape.members
    ensures TakesDependents(e, shape.members, RemovalOf(shape, x))
  {
    WithinElems(shape.members, Carried(e, {x}));
    CarriedClosed(e, {x});
  }

  /** On an order that puts prerequisites first, no probe ever asks about a tree that holds a member
      without what it is stacked on. */
  lemma ProbesTakeDependents(shape: Shape, e: Edges, asked: seq<(seq<Id>, JobResult)>)
    requires ClosesOver(shape, e) && PrerequisitesFirst(e, shape.members) && NoDup(shape.members)
    requires ProbesAre(shape, asked)
    ensures forall q :: q in asked ==> TakesDependents(e, shape.members, q.0)
  {
    forall q | q in asked ensures TakesDependents(e, shape.members, q.0) {
      if IsSuffix(shape.members, q.0) {
        var k: nat :| k <= |shape.members| && q.0 == shape.members[k..];
        SuffixTakes(e, shape.members, k);
      } else {
        var x :| x in shape.members && q.0 == RemovalOf(shape, x);
        ClosureTakes(shape, e, x);
      }
    }
  }

  ghost predicate Meets(removal: seq<Id>, cause: set<Id>) {
    exists x :: x in removal && x in cause
  }

  ghost predicate MeetsAll(removal: seq<Id>, causes: set<set<Id>>) {
    forall c :: c in causes ==> Meets(removal, c)
  }

  /** What breaks the install: any of these sets of members, when all of it is present. */
  ghost predicate Caused(installs: seq<Id> -> bool, causes: set<set<Id>>) {
    forall removal :: installs(removal) <==> MeetsAll(removal, causes)
  }

  /** Some of the cause is at place `i` or later. */
  ghost predicate MeetsFrom(all: seq<Id>, i: nat, cause: set<Id>) {
    exists j :: i <= j < |all| && all[j] in cause
  }

  /** The member that completes the first cause to be complete: every cause reaches to its place
      or beyond, and one reaches no further, unless it is the last member. */
  ghost predicate Completes(all: seq<Id>, causes: set<set<Id>>, k: nat) {
    && k < |all|
    && (forall c :: c in causes ==> MeetsFrom(all, k, c))
    && (k + 1 < |all| ==> exists c :: c in causes && !MeetsFrom(all, k + 1, c))
  }

  lemma SuffixMeets(all: seq<Id>, i: nat, cause: set<Id>)
    requires i <= |all|
    ensures Meets(all[i..], cause) <==> MeetsFrom(all, i, cause)
  {
    if j :| i <= j < |all| && all[j] in cause {
      assert all[i..][j - i] == all[j];
      assert all[j] in all[i..] && all[j] in cause;
    }
    if x :| x in all[i..] && x in cause {
      var j :| 0 <= j < |all[i..]| && all[i..][j] == x;
      assert all[i + j] in cause;
    }
  }

  lemma SuffixInstalls(all: seq<Id>, installs: seq<Id> -> bool, causes: set<set<Id>>, i: nat)
    requires Caused(installs, causes) && i <= |all|
    ensures installs(all[i..]) <==> forall c :: c in causes ==> MeetsFrom(all, i, c)
  {
    forall c | c in causes ensures Meets(all[i..], c) <==> MeetsFrom(all, i, c) {
      SuffixMeets(all, i, c);
    }
  }

  lemma LaterMeets(all: seq<Id>, i: nat, j: nat, cause: set<Id>)
    requires i <= j && MeetsFrom(all, j, cause)
    ensures MeetsFrom(all, i, cause)
  {
  }

  lemma CompleterUnique(all: seq<Id>, causes: set<set<Id>>, j: nat, k: nat)
    requires Completes(all, causes, j) && Completes(all, causes, k)
    ensures j == k
  {
  }

  /** The bisection ends on the member that completes the first cause. */
  lemma BoundaryCompletes(all: seq<Id>, installs: seq<Id> -> bool, causes: set<set<Id>>)
    requires Caused(installs, causes) && all != [] && installs(all)
    ensures Boundary(all, installs, 0, |all|) > 0
    ensures Completes(all, causes, Boundary(all, installs, 0, |all|) - 1)
  {
    assert all[0..] == all;
    var b := BoundaryHolds(all, installs, 0, |all|);
    SuffixInstalls(all, installs, causes, b - 1);
    SuffixInstalls(all, installs, causes, b);
  }

  /** The verdict on a fault with any number of causes, on a base that installs: the member that
      completes the first of them, if removing it breaks them all, else nobody. */
  lemma VerdictOfCauses(shape: Shape, installs: seq<Id> -> bool, causes: set<set<Id>>, k: nat)
    requires Caused(installs, causes) && Completes(shape.members, causes, k)
    ensures Verdict(shape, installs) ==
            if MeetsAll(RemovalOf(shape, shape.members[k]), causes) then ToOwner(shape.members[k]) else ToNobody
  {
    CompletedInstalls(shape.members, installs, causes, k);
    BoundaryAt(shape.members, installs, causes, k);
  }

  lemma CompletedInstalls(all: seq<Id>, installs: seq<Id> -> bool, causes: set<set<Id>>, k: nat)
    requires Caused(installs, causes) && Completes(all, causes, k)
    ensures installs(all)
  {
    SuffixInstalls(all, installs, causes, 0);
    forall c | c in causes ensures MeetsFrom(all, 0, c) {
      LaterMeets(all, 0, k, c);
    }
    assert all[0..] == all;
  }

  lemma BoundaryAt(all: seq<Id>, installs: seq<Id> -> bool, causes: set<set<Id>>, k: nat)
    requires Caused(installs, causes) && Completes(all, causes, k) && installs(all)
    ensures Boundary(all, installs, 0, |all|) == k + 1
  {
    BoundaryCompletes(all, installs, causes);
    CompleterUnique(all, causes, k, Boundary(all, installs, 0, |all|) - 1);
  }

  /** The last member of a fault's only cause completes it, and owns it. */
  lemma SingleCauseFound(shape: Shape, installs: seq<Id> -> bool, cause: set<Id>, k: nat)
    requires ShapeOk(shape) && Caused(installs, {cause}) && k < |shape.members| && shape.members[k] in cause
    requires forall j :: k < j < |shape.members| ==> shape.members[j] !in cause
    ensures Verdict(shape, installs) == ToOwner(shape.members[k])
  {
    assert MeetsFrom(shape.members, k, cause);
    assert cause in {cause} && !MeetsFrom(shape.members, k + 1, cause);
    assert shape.members[k] in RemovalOf(shape, shape.members[k]);
    assert Meets(RemovalOf(shape, shape.members[k]), cause);
    VerdictOfCauses(shape, installs, {cause}, k);
  }

  // ----- where the doc comment goes too far ------------------------------------------------

  /** What the comment on an unattributed fault says: no single member's removal restores the
      install. */
  ghost predicate UnattributedMeans(shape: Shape, installs: seq<Id> -> bool) {
    Verdict(shape, installs) == ToNobody ==> forall x :: x in shape.members ==> !installs(RemovalOf(shape, x))
  }

  /** The comment holds exactly when removing the member that completes the first cause breaks
      every cause, or no member's removal does. */
  lemma UnattributedMeansIff(shape: Shape, installs: seq<Id> -> bool, causes: set<set<Id>>, k: nat)
    requires Caused(installs, causes) && Completes(shape.members, causes, k)
    ensures UnattributedMeans(shape, installs) <==>
              || MeetsAll(RemovalOf(shape, shape.members[k]), causes)
              || forall x :: x in shape.members ==> !MeetsAll(RemovalOf(shape, x), causes)
  {
    VerdictOfCauses(shape, installs, causes, k);
  }

  /** Where the base does not install, or nobody is in the round, it holds outright. */
  lemma UnattributedMeansElse(shape: Shape, installs: seq<Id> -> bool, causes: set<set<Id>>)
    requires Caused(installs, causes) && forall k :: !Completes(shape.members, causes, k)
    ensures UnattributedMeans(shape, installs)
  {
    if shape.members != [] && installs(shape.members) {
      BoundaryCompletes(shape.members, installs, causes);
      assert false;
    }
  }

  const TRIO := Shape(["a", "b", "c"], map["a" := ["a"], "b" := ["b"], "c" := ["c"]])

  /** Installing fails when "a" meets "b" or "c". */
  predicate ClashFree(removal: seq<Id>) {
    "a" in removal || ("b" in removal && "c" in removal)
  }

  /** With two causes it can fail: here removing "a" restores the install, but the bisection ends
      on "b", and the fault is left unattributed. */
  lemma ClashIsCaused()
    ensures Caused(ClashFree, {{"a", "b"}, {"a", "c"}})
  {
    var causes := {{"a", "b"}, {"a", "c"}};
    forall removal ensures ClashFree(removal) <==> MeetsAll(removal, causes) {
      assert {"a", "b"} in causes && {"a", "c"} in causes;
      if ClashFree(removal) {
        assert forall c :: c in causes ==> c == {"a", "b"} || c == {"a", "c"};
      }
    }
  }

  lemma UnattributedYetSingle()
    ensures Caused(ClashFree, {{"a", "b"}, {"a", "c"}})
    ensures Verdict(TRIO, ClashFree) == ToNobody && ClashFree(RemovalOf(TRIO, "a"))
    ensures !UnattributedMeans(TRIO, ClashFree)
  {
    ClashIsCaused();
    var all := TRIO.members;
    assert all[1..] == ["b", "c"] && all[2..] == ["c"];
    assert Boundary(all, ClashFree, 0, 3) == Boundary(all, ClashFree, 1, 3);
    assert Boundary(all, ClashFree, 1, 3) == Boundary(all, ClashFree, 1, 2);
    assert "a" in TRIO.members;
  }
}
