// A round member: a certified bead, its tip, and what it is stacked on (batcher/src/core.rs).

module Members {
  import opened Prelude
  import opened Reach
  import opened Shapes

  type u8 = x: int | 0 <= x < 256

  datatype Member = Member(
    id: Id,
    tip: string,
    priority: Option<u8>,
    express: bool,
    baseFix: bool,
    certifiedAt: nat,
    stack: map<Id, string>,
    blockedBy: seq<Id>)

  function MemberIds(members: seq<Member>): (r: seq<Id>)
    ensures |r| == |members| && forall i :: 0 <= i < |r| ==> r[i] == members[i].id
  {
    seq(|members|, i requires 0 <= i < |members| => members[i].id)
  }

  /** Edges from each prerequisite a member names to that member. */
  ghost function StackedOn(members: seq<Member>): (e: Edges) {
    set m, p | m in members && p in m.stack :: (p, m.id)
  }

  /** The members of a round stacked on one another. */
  ghost function RoundEdges(members: seq<Member>): (e: Edges) {
    set m, p | m in members && p in m.stack && p in Elems(MemberIds(members)) :: (p, m.id)
  }

  lemma RoundEdgesAre(members: seq<Member>)
    ensures RoundEdges(members) <= StackedOn(members)
    ensures forall p, m :: (p, m) in StackedOn(members) && p in Elems(MemberIds(members)) ==>
              (p, m) in RoundEdges(members)
    ensures Closed(StackedOn(members), Elems(MemberIds(members)))
  {
    var ids := Elems(MemberIds(members));
    forall p, m | (p, m) in StackedOn(members) && p in ids ensures (p, m) in RoundEdges(members) && m in ids {
      var k :| k in members && k.id == m && p in k.stack;
      IdIn(members, k);
    }
  }

  /** What members carry along is the same whether or not they name prerequisites outside. */
  lemma CarriedInRound(members: seq<Member>, seeds: set<Id>)
    requires seeds <= Elems(MemberIds(members))
    ensures Carried(StackedOn(members), seeds) == Carried(RoundEdges(members), seeds)
    ensures Carried(StackedOn(members), seeds) <= Elems(MemberIds(members))
  {
    RoundEdgesAre(members);
    CarriedAlike(StackedOn(members), RoundEdges(members), Elems(MemberIds(members)), seeds);
  }

  lemma ClosedUnderFewer(all: Edges, e: Edges, s: set<Id>)
    requires Closed(all, s) && e <= all
    ensures Closed(e, s)
  {
  }

  lemma ClosedUnderMore(all: Edges, e: Edges, ids: set<Id>, s: set<Id>)
    requires Closed(e, s) && s <= ids && forall p, m :: (p, m) in all && p in ids ==> (p, m) in e
    ensures Closed(all, s)
  {
  }

  lemma CarriedAlike(all: Edges, e: Edges, ids: set<Id>, seeds: set<Id>)
    requires seeds <= ids && e <= all && Closed(all, ids)
    requires forall p, m :: (p, m) in all && p in ids ==> (p, m) in e
    ensures Carried(all, seeds) == Carried(e, seeds) <= ids
  {
    assert Carried(all, seeds) <= ids by {
      CarriedLeast(all, seeds, ids);
    }
    assert Carried(e, seeds) <= Carried(all, seeds) by {
      FewerCarryLess(all, e, seeds);
    }
    assert Carried(all, seeds) <= Carried(e, seeds) by {
      MoreCarryNoMore(all, e, ids, seeds);
    }
  }

  lemma FewerCarryLess(all: Edges, e: Edges, seeds: set<Id>)
    requires e <= all
    ensures Carried(e, seeds) <= Carried(all, seeds)
  {
    CarriedHoldsSeeds(all, seeds);
    CarriedClosed(all, seeds);
    ClosedUnderFewer(all, e, Carried(all, seeds));
    CarriedLeast(e, seeds, Carried(all, seeds));
  }

  lemma MoreCarryNoMore(all: Edges, e: Edges, ids: set<Id>, seeds: set<Id>)
    requires Carried(e, seeds) <= ids && forall p, m :: (p, m) in all && p in ids ==> (p, m) in e
    ensures Carried(all, seeds) <= Carried(e, seeds)
  {
    CarriedHoldsSeeds(e, seeds);
    CarriedClosed(e, seeds);
    ClosedUnderMore(all, e, ids, Carried(e, seeds));
    CarriedLeast(all, seeds, Carried(e, seeds));
  }

  ghost predicate Distinct(members: seq<Member>) {
    NoDup(MemberIds(members))
  }

  lemma IdIn(members: seq<Member>, m: Member)
    requires m in members
    ensures m.id in MemberIds(members)
  {
    var i :| 0 <= i < |members| && members[i] == m;
    assert MemberIds(members)[i] == m.id;
  }

  lemma IdHas(members: seq<Member>, id: Id) returns (m: Member)
    requires id in MemberIds(members)
    ensures m in members && m.id == id
  {
    var i :| 0 <= i < |members| && MemberIds(members)[i] == id;
    m := members[i];
  }

  lemma SameMember(members: seq<Member>, m: Member, n: Member)
    requires Distinct(members) && m in members && n in members && m.id == n.id
    ensures m == n
  {
    var i :| 0 <= i < |members| && members[i] == m;
    var j :| 0 <= j < |members| && members[j] == n;
    assert MemberIds(members)[i] == MemberIds(members)[j];
  }

  /** The elements of a set in some order: where the source walks an ordered set or map whose
      order decides nothing. */
  method Listed<T(==)>(s: set<T>) returns (r: seq<T>)
    ensures NoDup(r) && Elems(r) == s
  {
    r := [];
    var rest := s;
    while rest != {}
      invariant NoDup(r) && Elems(r) + rest == s && Elems(r) !! rest
      decreases rest
    {
      var x :| x in rest;
      rest := rest - {x};
      assert x !in r by {
        assert x in r ==> x in Elems(r);
      }
      NoDupAppend(r, [x]);
      assert Elems(r + [x]) == Elems(r) + {x};
      r := r + [x];
    }
  }

  /** member -> the round members it is stacked on. */
  method Prereqs(members: seq<Member>) returns (prereqs: map<Id, seq<Id>>)
    requires Distinct(members)
    ensures StackEdges(MemberIds(members), prereqs) == RoundEdges(members)
  {
    var ids := MemberIds(members);
    prereqs := map[];
    for i := 0 to |members|
      invariant prereqs.Keys == Elems(ids[..i])
      invariant forall j :: 0 <= j < i ==> Elems(prereqs[ids[j]]) == (set p | p in members[j].stack && p in ids)
    {
      var m := members[i];
      var ps := Listed(set p | p in m.stack.Keys && p in ids);
      assert forall j :: 0 <= j < i ==> ids[j] != ids[i];
      prereqs := prereqs[m.id := ps];
      assert ids[..i + 1] == ids[..i] + [m.id];
    }
    assert ids[..|members|] == ids;
    StackEdgesAre(members, prereqs);
  }

  lemma StackEdgesAre(members: seq<Member>, prereqs: map<Id, seq<Id>>)
    requires prereqs.Keys == Elems(MemberIds(members))
    requires forall j :: 0 <= j < |members| ==>
               Elems(prereqs[MemberIds(members)[j]]) == (set p | p in members[j].stack && p in MemberIds(members))
    ensures StackEdges(MemberIds(members), prereqs) == RoundEdges(members)
  {
    var ids := MemberIds(members);
    forall x | x in StackEdges(ids, prereqs) ensures x in RoundEdges(members) {
      var j :| 0 <= j < |ids| && ids[j] == x.1;
      assert x.0 in Elems(prereqs[ids[j]]);
      assert members[j] in members;
    }
    forall x | x in RoundEdges(members) ensures x in StackEdges(ids, prereqs) {
      var m :| m in members && x.0 in m.stack && x.0 in Elems(ids) && m.id == x.1;
      var j :| 0 <= j < |members| && members[j] == m;
      assert x.0 in Elems(prereqs[ids[j]]);
    }
  }
}
