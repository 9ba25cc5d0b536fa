// The round's membership as attribution sees it (batcher/src/attrib.rs, Shape): every member
// with its removal set, the member itself and everything stacked on it, in round order.

module Shapes {
  import opened Prelude
  import opened Reach

  datatype Shape = Shape(members: seq<Id>, closure: map<Id, seq<Id>>)

  /** `prereqs`: member -> the members it is stacked on. An edge leads from a prerequisite to
      the member stacked on it. */
  ghost function StackEdges(members: seq<Id>, prereqs: map<Id, seq<Id>>): Edges {
    set m, p | m in members && m in prereqs && p in prereqs[m] :: (p, m)
  }

  /** The removal sets are exactly the reflexive-transitive dependents, in round order. */
  ghost predicate ClosesOver(s: Shape, e: Edges) {
    && s.closure.Keys == Elems(s.members)
    && forall x :: x in s.members ==> s.closure[x] == Within(s.members, Carried(e, {x}))
  }

  /** What every later proof needs of a shape, whatever edges it was built from. */
  ghost predicate ShapeOk(s: Shape) {
    && s.closure.Keys == Elems(s.members)
    && forall x :: x in s.members ==>
         x in s.closure[x] && s.closure[x] == Within(s.members, Elems(s.closure[x]))
  }

  function RemovalOf(s: Shape, x: Id): (r: seq<Id>) {
    if x in s.closure then s.closure[x] else [x]
  }

  lemma {:induction false} WithinSame(s: seq<Id>, a: set<Id>, b: set<Id>)
    requires forall x :: x in s ==> (x in a <==> x in b)
    ensures Within(s, a) == Within(s, b)
  {
    if s != [] {
      assert forall x :: x in s[1..] ==> x in s;
      WithinSame(s[1..], a, b);
    }
  }

  lemma ClosesOverIsOk(s: Shape, e: Edges)
    requires ClosesOver(s, e)
    ensures ShapeOk(s)
  {
    forall x | x in s.members
      ensures x in s.closure[x] && s.closure[x] == Within(s.members, Elems(s.closure[x]))
    {
      var c := Carried(e, {x});
      CarriedHoldsSeeds(e, {x});
      WithinElems(s.members, c);
      WithinSame(s.members, c, Elems(s.closure[x]));
    }
  }

  lemma SameSizeSame<T>(a: set<T>, b: set<T>)
    requires a <= b
    ensures |a| <= |b|
    ensures |a| == |b| ==> a == b
  {
    assert b == a + (b - a);
    assert |b| == |a| + |b - a|;
  }

  predicate StackedOnAny(prereqs: map<Id, seq<Id>>, m: Id, s: set<Id>) {
    m in prereqs && exists p :: p in prereqs[m] && p in s
  }

  lemma StackedOnAnyEdge(members: seq<Id>, prereqs: map<Id, seq<Id>>, m: Id, s: set<Id>)
    requires m in members
    ensures StackedOnAny(prereqs, m, s) <==> exists p :: p in s && (p, m) in StackEdges(members, prereqs)
  {
    if StackedOnAny(prereqs, m, s) {
      var p :| p in prereqs[m] && p in s;
      assert (p, m) in StackEdges(members, prereqs);
    }
  }

  /** One pass over the members: whoever is stacked on something already in joins. */
  method Pass(members: seq<Id>, prereqs: map<Id, seq<Id>>, ghost seeds: set<Id>, before: set<Id>)
    returns (grown: set<Id>)
    requires before <= Carried(StackEdges(members, prereqs), seeds)
    ensures before <= grown <= Carried(StackEdges(members, prereqs), seeds)
    ensures |grown| == |before| ==> grown == before && Closed(StackEdges(members, prereqs), before)
  {
    ghost var e := StackEdges(members, prereqs);
    grown := before;
    for i := 0 to |members|
      invariant before <= grown <= Carried(e, seeds)
      invariant forall j :: 0 <= j < i && StackedOnAny(prereqs, members[j], before) ==> members[j] in grown
    {
      if StackedOnAny(prereqs, members[i], grown) {
        StackedOnAnyEdge(members, prereqs, members[i], grown);
        ghost var p :| p in grown && (p, members[i]) in e;
        CarriedStep(e, seeds, p, members[i]);
        grown := grown + {members[i]};
      }
    }
    SameSizeSame(before, grown);
    if grown == before {
      forall p, m | (p, m) in e && p in before ensures m in before {
        StackedOnAnyEdge(members, prereqs, m, before);
      }
    }
  }

  /** One member's removal set, grown by passes over the members until a pass adds nothing. */
  method Dependents(members: seq<Id>, prereqs: map<Id, seq<Id>>, x: Id) returns (grown: set<Id>)
    ensures grown == Carried(StackEdges(members, prereqs), {x})
  {
    ghost var e := StackEdges(members, prereqs);
    CarriedHoldsSeeds(e, {x});
    grown := {x};
    while true
      invariant {x} <= grown <= Carried(e, {x})
      decreases |Carried(e, {x})| - |grown|
    {
      var before := grown;
      grown := Pass(members, prereqs, {x}, before);
      SameSizeSame(before, grown);
      SameSizeSame(grown, Carried(e, {x}));
      if |grown| == |before| {
        break;
      }
    }
    FixpointIsCarried(e, {x}, grown);
  }

  method New(members: seq<Id>, prereqs: map<Id, seq<Id>>) returns (s: Shape)
    ensures s.members == members
    ensures ClosesOver(s, StackEdges(members, prereqs))
  {
    ghost var e := StackEdges(members, prereqs);
    var closure: map<Id, seq<Id>> := map[];
    for i := 0 to |members|
      invariant closure.Keys == Elems(members[..i])
      invariant forall x :: x in members[..i] ==> closure[x] == Within(members, Carried(e, {x}))
    {
      var grown := Dependents(members, prereqs, members[i]);
      closure := closure[members[i] := Within(members, grown)];
      assert members[..i + 1] == members[..i] + [members[i]];
    }
    assert members[..|members|] == members;
    s := Shape(members, closure);
  }
}
