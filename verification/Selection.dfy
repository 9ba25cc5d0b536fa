// Who rides in a round (batcher/src/core.rs, select_round, combine and stack_sequencing;
// batcher-cut/src/io.rs, drop_stacked_on_barred): each a least set closed under stacking, or a
// parting of the pool.

module Selection {
  import opened Prelude
  import opened Reach
  import opened Shapes
  import opened Members
  import opened Pool

  // ----- feature first, else everyone ------------------------------------------------------

  datatype RoundKind = Feature(root: string) | CatchAll

  /** The epic a bead id belongs to: the id before its first dot. */
  function EpicRoot(id: Id): (r: string) {
    if id == [] || id[0] == '.' then [] else [id[0]] + EpicRoot(id[1..])
  }

  /** Dictionary order. */
  predicate Below(a: string, b: string) {
    b != [] && (a == [] || a[0] < b[0] || (a[0] == b[0] && Below(a[1..], b[1..])))
  }

  lemma {:induction false} BelowTotal(a: string, b: string)
    ensures a == b || Below(a, b) || Below(b, a)
    ensures !(Below(a, b) && (a == b || Below(b, a)))
  {
    if a != [] && b != [] && a[0] == b[0] {
      BelowTotal(a[1..], b[1..]);
      assert a == [a[0]] + a[1..] && b == [b[0]] + b[1..];
    }
  }

  lemma {:induction false} BelowChains(a: string, b: string, c: string)
    requires Below(a, b) && Below(b, c)
    ensures Below(a, c)
  {
    if a != [] && a[0] == b[0] && b[0] == c[0] {
      BelowChains(a[1..], b[1..], c[1..]);
    }
  }

  function Sharing(pool: seq<Member>, root: string): (n: nat) {
    if pool == [] then 0
    else Sharing(pool[..|pool| - 1], root) + (if EpicRoot(pool[|pool| - 1].id) == root then 1 else 0)
  }

  /** Shared by more members than `b`, or by as many and before it in the dictionary. */
  predicate Beats(pool: seq<Member>, a: string, b: string) {
    Sharing(pool, a) > Sharing(pool, b) || (Sharing(pool, a) == Sharing(pool, b) && Below(a, b))
  }

  /** Shared by two or more, and by no root beaten. */
  ghost predicate Best(pool: seq<Member>, root: string) {
    Sharing(pool, root) >= 2 && forall r :: Sharing(pool, r) >= 2 && r != root ==> Beats(pool, root, r)
  }

  method FindBest(pool: seq<Member>) returns (best: Option<string>)
    ensures best.Some? ==> Best(pool, best.value)
    ensures best.None? ==> forall r :: Sharing(pool, r) < 2
  {
    var groups: map<string, nat> := map[];
    for i := 0 to |pool|
      invariant forall r :: (if r in groups then groups[r] else 0) == Sharing(pool[..i], r)
    {
      TakeOneMore(pool, i);
      var root := EpicRoot(pool[i].id);
      groups := groups[root := (if root in groups then groups[root] else 0) + 1];
    }
    assert pool[..|pool|] == pool;
    var roots := Listed(groups.Keys);
    best := None;
    for i := 0 to |roots|
      invariant best.Some? ==> Sharing(pool, best.value) >= 2 && best.value in roots[..i]
      invariant best.Some? ==> forall r :: r in roots[..i] && Sharing(pool, r) >= 2 && r != best.value ==>
                Beats(pool, best.value, r)
      invariant best.None? ==> forall r :: r in roots[..i] ==> Sharing(pool, r) < 2
    {
      TakeOneMore(roots, i);
      ElemsHas(roots, roots[i]);
      assert roots[i] in roots;
      if groups[roots[i]] >= 2 {
        if best.None? {
          best := Some(roots[i]);
        } else {
          BelowTotal(roots[i], best.value);
          if Beats(pool, roots[i], best.value) {
            BeatsAll(pool, roots[i], best.value, roots[..i]);
            best := Some(roots[i]);
          }
        }
      }
    }
    forall r | Sharing(pool, r) >= 2 ensures r in roots[..|roots|] {
      assert r in Elems(roots);
    }
  }

  lemma BeatsAll(pool: seq<Member>, a: string, b: string, roots: seq<string>)
    requires Beats(pool, a, b)
    requires forall r :: r in roots && Sharing(pool, r) >= 2 && r != b ==> Beats(pool, b, r)
    ensures forall r :: r in roots && Sharing(pool, r) >= 2 && r != a ==> Beats(pool, a, r)
  {
    forall r | r in roots && Sharing(pool, r) >= 2 && r != a ensures Beats(pool, a, r) {
      if r != b && Below(a, b) && Below(b, r) {
        BelowChains(a, b, r);
      }
    }
  }

  /** Stacked on or blocked by, in either direction: what may not be cut apart. */
  ghost function Ties(pool: seq<Member>): (e: Edges) {
    var ids := Elems(MemberIds(pool));
    (set m, p | m in pool && p in Needs(m) && p in ids :: (p, m.id))
    + (set m, p | m in pool && p in Needs(m) && p in ids :: (m.id, p))
  }

  function SeedsOf(pool: seq<Member>, root: string): (r: set<Id>) {
    set m | m in pool && (m.express || EpicRoot(m.id) == root) :: m.id
  }

  /** The feature's members, every express one, and whatever is tied to either. */
  ghost function Riders(pool: seq<Member>, root: string): (r: set<Id>) {
    Carried(Ties(pool), SeedsOf(pool, root))
  }

  function Keeping(pool: seq<Member>, keep: set<Id>): (r: seq<Member>) {
    if pool == [] then []
    else Keeping(pool[..|pool| - 1], keep) + (if pool[|pool| - 1].id in keep then [pool[|pool| - 1]] else [])
  }

  predicate TiedTo(pool: seq<Member>, keep: set<Id>, m: Member) {
    || (exists p :: p in Needs(m) && p in keep)
    || (exists o :: o in pool && o.id in keep && m.id in Needs(o))
  }

  lemma TiedIsEdge(pool: seq<Member>, keep: set<Id>, m: Member)
    requires m in pool && keep <= Elems(MemberIds(pool))
    ensures TiedTo(pool, keep, m) <==> exists p :: p in keep && (p, m.id) in Ties(pool) && TiedBy(pool, m, p)
  {
    IdIn(pool, m);
    if p :| p in Needs(m) && p in keep {
      assert (p, m.id) in Ties(pool) && TiedBy(pool, m, p);
    }
    if o :| o in pool && o.id in keep && m.id in Needs(o) {
      assert m.id in Elems(MemberIds(pool));
      assert (o.id, m.id) in Ties(pool) && TiedBy(pool, m, o.id);
    }
  }

  ghost predicate TiedBy(pool: seq<Member>, m: Member, p: Id) {
    p in Needs(m) || exists o :: o in pool && o.id == p && m.id in Needs(o)
  }

  method TiePass(pool: seq<Member>, ghost seeds: set<Id>, before: set<Id>) returns (keep: set<Id>)
    requires before <= Carried(Ties(pool), seeds) && Carried(Ties(pool), seeds) <= Elems(MemberIds(pool))
    ensures before <= keep <= Carried(Ties(pool), seeds)
    ensures keep == before ==> forall m :: m in pool && TiedTo(pool, before, m) ==> m.id in before
  {
    keep := before;
    for i := 0 to |pool|
      invariant before <= keep <= Carried(Ties(pool), seeds)
      invariant forall m :: m in pool[..i] && TiedTo(pool, before, m) ==> m.id in keep
    {
      TakeOneMore(pool, i);
      assert TiedTo(pool, before, pool[i]) ==> TiedTo(pool, keep, pool[i]);
      if TiedTo(pool, keep, pool[i]) {
        TiedIsEdge(pool, keep, pool[i]);
        ghost var p :| p in keep && (p, pool[i].id) in Ties(pool) && TiedBy(pool, pool[i], p);
        CarriedStep(Ties(pool), seeds, p, pool[i].id);
        keep := keep + {pool[i].id};
      }
    }
    assert pool[..|pool|] == pool;
  }

  lemma TiesStayIn(pool: seq<Member>, seeds: set<Id>)
    requires seeds <= Elems(MemberIds(pool))
    ensures Carried(Ties(pool), seeds) <= Elems(MemberIds(pool))
  {
    var ids := Elems(MemberIds(pool));
    assert Closed(Ties(pool), ids) by {
      forall p, m | (p, m) in Ties(pool) && p in ids ensures m in ids {
        if k :| k in pool && k.id == m {
          IdIn(pool, k);
        }
      }
    }
    CarriedLeast(Ties(pool), seeds, ids);
  }

  lemma TiesClosed(pool: seq<Member>, s: set<Id>)
    requires s <= Elems(MemberIds(pool)) && forall m :: m in pool && TiedTo(pool, s, m) ==> m.id in s
    ensures Closed(Ties(pool), s)
  {
    forall p, q | (p, q) in Ties(pool) && p in s ensures q in s {
      var m := IdHas(pool, q) by { assert q in MemberIds(pool); }
    }
  }

  /** Grows the feature and the express members by whatever is tied to them. */
  method TieAll(pool: seq<Member>, root: string) returns (keep: set<Id>)
    ensures keep == Riders(pool, root)
  {
    ghost var seeds := SeedsOf(pool, root);
    ghost var all := Carried(Ties(pool), seeds);
    keep := SeedsOf(pool, root);
    SeedsInPool(pool, root);
    TiesStayIn(pool, seeds);
    CarriedHoldsSeeds(Ties(pool), seeds);
    while true
      invariant seeds <= keep <= all
      decreases |all| - |keep|
    {
      var before := keep;
      keep := TiePass(pool, seeds, before);
      SameSizeSame(before, keep);
      SameSizeSame(keep, all);
      if |keep| == |before| {
        break;
      }
    }
    TiesClosed(pool, keep);
    FixpointIsCarried(Ties(pool), seeds, keep);
  }

  /** The feature shared by the most members, with everyone tied to it; else the whole pool. */
  method SelectRound(pool: seq<Member>) returns (round: seq<Member>, kind: RoundKind)
    ensures kind.CatchAll? ==> round == pool && forall r :: Sharing(pool, r) < 2
    ensures kind.Feature? ==> Best(pool, kind.root) && round == Keeping(pool, Riders(pool, kind.root))
  {
    var best := FindBest(pool);
    if best.None? {
      return pool, CatchAll;
    }
    var keep := TieAll(pool, best.value);
    round := [];
    for i := 0 to |pool|
      invariant round == Keeping(pool[..i], keep)
    {
      TakeOneMore(pool, i);
      if pool[i].id in keep {
        round := round + [pool[i]];
      }
    }
    assert pool[..|pool|] == pool;
    kind := Feature(best.value);
  }

  lemma SeedsInPool(pool: seq<Member>, root: string)
    ensures SeedsOf(pool, root) <= Elems(MemberIds(pool))
  {
    forall id | id in SeedsOf(pool, root) ensures id in Elems(MemberIds(pool)) {
      var m :| m in pool && m.id == id;
      IdIn(pool, m);
    }
  }

  /** No stack or blocked-by edge crosses between those who ride and those who wait. */
  lemma NothingCrosses(pool: seq<Member>, root: string, m: Member, p: Id)
    requires m in pool && p in Needs(m) && p in MemberIds(pool)
    ensures p in Riders(pool, root) <==> m.id in Riders(pool, root)
  {
    ElemsHas(MemberIds(pool), p);
    assert (p, m.id) in Ties(pool) && (m.id, p) in Ties(pool);
    CarriedClosed(Ties(pool), SeedsOf(pool, root));
  }

  /** And nobody rides without reason: any set with the feature and the express members that no
      edge crosses holds all who ride. */
  lemma NoneRideIdly(pool: seq<Member>, root: string, s: set<Id>)
    requires SeedsOf(pool, root) <= s
    requires forall m, p :: m in pool && p in Needs(m) && p in MemberIds(pool) ==> (p in s <==> m.id in s)
    ensures Riders(pool, root) <= s
  {
    forall a, b | (a, b) in Ties(pool) && a in s ensures b in s {
      if m, p :| m in pool && p in Needs(m) && p in Elems(MemberIds(pool)) && (a, b) == (p, m.id) {
        assert p in MemberIds(pool);
      } else {
        var m, p :| m in pool && p in Needs(m) && p in Elems(MemberIds(pool)) && (a, b) == (m.id, p);
        assert p in MemberIds(pool);
      }
    }
    CarriedLeast(Ties(pool), SeedsOf(pool, root), s);
  }

  // ----- combining -------------------------------------------------------------------------

  datatype MergeResult = MergedOk | Conflict | Empty

  datatype Reason =
    | Conflicts(deletedSuites: seq<Suite>)
    | SiblingConflict(lostTo: Id, files: seq<string>)
    | Dependency(waitsOn: Id)
    | NothingOfItsOwn

  datatype SetAside = SetAside(id: Id, reason: Reason)

  datatype CombineInput = CombineInput(
    pool: seq<Member>,
    merges: map<Id, MergeResult>,
    deletedSuites: map<Id, seq<Suite>>,
    sequenced: map<Id, Id>,
    siblings: map<Id, (Id, seq<string>)>)

  predicate StackedInto(pool: seq<Member>, id: Id) {
    exists m :: m in pool && id in m.stack
  }

  /** Why a member is set aside, if it is. */
  function FateOf(input: CombineInput, m: Member): (r: Option<Reason>) {
    if m.id in input.sequenced then Some(Dependency(input.sequenced[m.id]))
    else if m.id in input.merges && input.merges[m.id].MergedOk? then None
    else if m.id in input.merges && input.merges[m.id].Empty? then
      if StackedInto(input.pool, m.id) then None else Some(NothingOfItsOwn)
    else if m.id in input.siblings then Some(SiblingConflict(input.siblings[m.id].0, input.siblings[m.id].1))
    else Some(Conflicts(if m.id in input.deletedSuites then input.deletedSuites[m.id] else []))
  }

  ghost function Passing(input: CombineInput, pool: seq<Member>): (r: seq<Member>) {
    if pool == [] then []
    else
      var last := pool[|pool| - 1];
      Passing(input, pool[..|pool| - 1]) + (if FateOf(input, last).None? then [last] else [])
  }

  ghost function Aside(input: CombineInput, pool: seq<Member>): (r: seq<SetAside>) {
    if pool == [] then []
    else
      var last := pool[|pool| - 1];
      Aside(input, pool[..|pool| - 1])
      + (if FateOf(input, last).Some? then [SetAside(last.id, FateOf(input, last).value)] else [])
  }

  /** Parts the pool into those merged, in merge order, and those set aside, each with its reason. */
  method Combine(input: CombineInput) returns (merged: seq<Member>, setAside: seq<SetAside>)
    ensures MergeOrder(Passing(input, input.pool), merged)
    ensures setAside == Aside(input, input.pool)
  {
    var passing: seq<Member> := [];
    setAside := [];
    for i := 0 to |input.pool|
      invariant passing == Passing(input, input.pool[..i]) && setAside == Aside(input, input.pool[..i])
    {
      TakeOneMore(input.pool, i);
      var m := input.pool[i];
      if m.id in input.sequenced {
        setAside := setAside + [SetAside(m.id, Dependency(input.sequenced[m.id]))];
        continue;
      }
      var merge := if m.id in input.merges then Some(input.merges[m.id]) else None;
      if merge == Some(MergedOk) || (merge == Some(Empty) && StackedInto(input.pool, m.id)) {
        passing := passing + [m];
      } else if merge == Some(Empty) {
        setAside := setAside + [SetAside(m.id, NothingOfItsOwn)];
      } else if m.id in input.siblings {
        setAside := setAside + [SetAside(m.id, SiblingConflict(input.siblings[m.id].0, input.siblings[m.id].1))];
      } else {
        var deleted := if m.id in input.deletedSuites then input.deletedSuites[m.id] else [];
        setAside := setAside + [SetAside(m.id, Conflicts(deleted))];
      }
    }
    assert input.pool[..|input.pool|] == input.pool;
    merged := TopoOrder(passing);
  }

  ghost function AsideIds(aside: seq<SetAside>): (r: seq<Id>) {
    seq(|aside|, i requires 0 <= i < |aside| => aside[i].id)
  }

  lemma {:induction false} EachOnce(input: CombineInput, pool: seq<Member>)
    ensures multiset(MemberIds(Passing(input, pool))) + multiset(AsideIds(Aside(input, pool))) ==
            multiset(MemberIds(pool))
  {
    if pool != [] {
      var shorter, last := pool[..|pool| - 1], pool[|pool| - 1];
      EachOnce(input, shorter);
      assert MemberIds(pool) == MemberIds(shorter) + [last.id];
      var passing, aside := Passing(input, shorter), Aside(input, shorter);
      if FateOf(input, last).None? {
        assert MemberIds(passing + [last]) == MemberIds(passing) + [last.id];
        assert Aside(input, pool) == aside;
      } else {
        var a := SetAside(last.id, FateOf(input, last).value);
        assert AsideIds(aside + [a]) == AsideIds(aside) + [last.id];
        assert Passing(input, pool) == passing;
      }
    }
  }

  lemma TakeOut<T>(s: seq<T>, k: nat)
    requires k < |s|
    ensures multiset(s) == multiset(s[..k] + s[k + 1..]) + multiset{s[k]}
  {
    assert s == s[..k] + ([s[k]] + s[k + 1..]);
  }

  lemma IdsTakenOut(b: seq<Member>, k: nat)
    requires k < |b|
    ensures multiset(MemberIds(b)) == multiset(MemberIds(b[..k] + b[k + 1..])) + multiset{b[k].id}
  {
    TakeOut(MemberIds(b), k);
    assert MemberIds(b)[..k] + MemberIds(b)[k + 1..] == MemberIds(b[..k] + b[k + 1..]);
  }

  lemma PlaceIn(a: seq<Member>, b: seq<Member>) returns (k: nat)
    requires multiset(a) == multiset(b) && a != []
    ensures k < |b| && b[k] == a[0]
    ensures multiset(a[..0] + a[1..]) == multiset(b[..k] + b[k + 1..])
  {
    assert a[0] in multiset(a);
    k :| 0 <= k < |b| && b[k] == a[0];
    TakeOut(a, 0);
    TakeOut(b, k);
    assert multiset(a[..0] + a[1..]) == multiset(a) - multiset{a[0]};
    assert multiset(b[..k] + b[k + 1..]) == multiset(b) - multiset{a[0]};
  }

  lemma {:induction false} IdsPermuted(a: seq<Member>, b: seq<Member>)
    requires multiset(a) == multiset(b)
    ensures multiset(MemberIds(a)) == multiset(MemberIds(b))
  {
    if a == [] {
      assert |multiset(a)| == |multiset(b)|;
    } else {
      var k := PlaceIn(a, b);
      IdsPermuted(a[..0] + a[1..], b[..k] + b[k + 1..]);
      IdsTakenOut(a, 0);
      IdsTakenOut(b, k);
    }
  }

  /** Every member of the pool is merged or set aside, once, and never both. */
  lemma PoolParted(input: CombineInput, merged: seq<Member>, setAside: seq<SetAside>)
    requires MergeOrder(Passing(input, input.pool), merged) && setAside == Aside(input, input.pool)
    ensures multiset(MemberIds(merged)) + multiset(AsideIds(setAside)) == multiset(MemberIds(input.pool))
    ensures Distinct(input.pool) ==> Elems(MemberIds(merged)) !! Elems(AsideIds(setAside))
  {
    EachOnce(input, input.pool);
    IdsPermuted(Passing(input, input.pool), merged);
    if Distinct(input.pool) {
      forall id | id in Elems(MemberIds(merged)) && id in Elems(AsideIds(setAside)) ensures false {
        assert multiset(MemberIds(merged))[id] >= 1 && multiset(AsideIds(setAside))[id] >= 1;
        IdsOnce(MemberIds(input.pool), id);
      }
    }
  }

  lemma {:induction false} IdsOnce(ids: seq<Id>, id: Id)
    requires NoDup(ids)
    ensures multiset(ids)[id] <= 1
  {
    if ids != [] {
      var shorter, last := ids[..|ids| - 1], ids[|ids| - 1];
      assert ids == shorter + [last];
      IdsOnce(shorter, id);
      forall i | 0 <= i < |shorter| ensures shorter[i] != last {
        assert ids[i] != ids[|ids| - 1];
      }
    }
  }

  // ----- stale stacks ----------------------------------------------------------------------

  /** The pool holds the prerequisite at the very tip the member was built on. */
  ghost predicate Current(pool: seq<Member>, prereq: Id, tip: string) {
    exists m :: m in pool && m.id == prereq && m.tip == tip
  }

  /** `m` waits, behind a prerequisite it is stale on, exactly when it is stale on one. */
  ghost predicate SequencedRight(pool: seq<Member>, sequenced: map<Id, Id>, m: Member) {
    && (m.id in sequenced <==> exists p :: p in m.stack && !Current(pool, p, m.stack[p]))
    && (m.id in sequenced ==> sequenced[m.id] in m.stack && !Current(pool, sequenced[m.id], m.stack[sequenced[m.id]]))
  }

  ghost predicate Indexes(pool: seq<Member>, byId: map<Id, Member>) {
    && (forall id :: id in byId ==> byId[id] in pool && byId[id].id == id)
    && (forall m :: m in pool ==> m.id in byId)
  }

  method ById(pool: seq<Member>) returns (byId: map<Id, Member>)
    ensures Indexes(pool, byId)
  {
    byId := map[];
    for i := 0 to |pool|
      invariant Indexes(pool[..i], byId)
    {
      TakeOneMore(pool, i);
      byId := byId[pool[i].id := pool[i]];
    }
    assert pool[..|pool|] == pool;
  }

  lemma CurrentIs(pool: seq<Member>, byId: map<Id, Member>, p: Id, tip: string)
    requires Distinct(pool) && Indexes(pool, byId)
    ensures Current(pool, p, tip) <==> p in byId && byId[p].tip == tip
  {
    if m :| m in pool && m.id == p && m.tip == tip {
      SameMember(pool, m, byId[p]);
    }
  }

  method StaleOn(pool: seq<Member>, byId: map<Id, Member>, m: Member) returns (r: Option<Id>)
    requires Distinct(pool) && Indexes(pool, byId)
    ensures r.Some? <==> exists p :: p in m.stack && !Current(pool, p, m.stack[p])
    ensures r.Some? ==> r.value in m.stack && !Current(pool, r.value, m.stack[r.value])
  {
    forall p | p in m.stack ensures Current(pool, p, m.stack[p]) <==> p in byId && byId[p].tip == m.stack[p] {
      CurrentIs(pool, byId, p, m.stack[p]);
    }
    if p :| p in m.stack.Keys && !(p in byId && byId[p].tip == m.stack[p]) {
      return Some(p);
    }
    r := None;
  }

  ghost predicate SequencedUpTo(pool: seq<Member>, sequenced: map<Id, Id>, i: nat)
    requires i <= |pool|
  {
    forall j :: 0 <= j < i ==> SequencedRight(pool, sequenced, pool[j])
  }

  lemma SequencedAll(pool: seq<Member>, sequenced: map<Id, Id>)
    requires SequencedUpTo(pool, sequenced, |pool|)
    ensures forall m :: m in pool ==> SequencedRight(pool, sequenced, m)
  {
  }

  /** Members built on a tip that is not in the pool wait behind that prerequisite. */
  method StackSequencing(pool: seq<Member>) returns (sequenced: map<Id, Id>)
    requires Distinct(pool)
    ensures forall m :: m in pool ==> SequencedRight(pool, sequenced, m)
  {
    var byId := ById(pool);
    sequenced := map[];
    for i := 0 to |pool|
      invariant sequenced.Keys <= Elems(MemberIds(pool[..i]))
      invariant SequencedUpTo(pool, sequenced, i)
    {
      TakeOneMore(pool, i);
      var stale := StaleOn(pool, byId, pool[i]);
      SequencedMore(pool, sequenced, i, stale);
      if stale.Some? {
        sequenced := sequenced[pool[i].id := stale.value];
      }
    }
    SequencedAll(pool, sequenced);
  }

  lemma SequencedMore(pool: seq<Member>, sequenced: map<Id, Id>, i: nat, stale: Option<Id>)
    requires Distinct(pool) && i < |pool| && sequenced.Keys <= Elems(MemberIds(pool[..i]))
    requires SequencedUpTo(pool, sequenced, i)
    requires stale.Some? <==> exists p :: p in pool[i].stack && !Current(pool, p, pool[i].stack[p])
    requires stale.Some? ==> stale.value in pool[i].stack && !Current(pool, stale.value, pool[i].stack[stale.value])
    ensures
      var after := if stale.Some? then sequenced[pool[i].id := stale.value] else sequenced;
      && after.Keys <= Elems(MemberIds(pool[..i + 1]))
      && SequencedUpTo(pool, after, i + 1)
  {
    assert MemberIds(pool[..i + 1]) == MemberIds(pool[..i]) + [pool[i].id];
    forall j | 0 <= j < i ensures pool[j].id != pool[i].id {
      assert MemberIds(pool)[j] != MemberIds(pool)[i];
    }
    forall id | id in MemberIds(pool[..i]) ensures id != pool[i].id {
      var j :| 0 <= j < i && MemberIds(pool[..i])[j] == id;
    }
    var after := if stale.Some? then sequenced[pool[i].id := stale.value] else sequenced;
    forall j | 0 <= j < i + 1 ensures SequencedRight(pool, after, pool[j]) {
      if j < i {
        assert SequencedRight(pool, sequenced, pool[j]);
      }
    }
  }

  // ----- held back -------------------------------------------------------------------------

  predicate StackedOnBarred(m: Member, barred: set<Id>) {
    exists p :: p in m.stack.Keys && p in barred
  }

  function NotStacked(members: seq<Member>, barred: set<Id>): (r: seq<Member>) {
    if members == [] then []
    else
      NotStacked(members[..|members| - 1], barred)
      + (if StackedOnBarred(members[|members| - 1], barred) then [] else [members[|members| - 1]])
  }

  lemma {:induction false} NotStackedMiddle(a: seq<Member>, x: Member, b: seq<Member>, barred: set<Id>)
    requires StackedOnBarred(x, barred)
    ensures NotStacked(a + [x] + b, barred) == NotStacked(a + b, barred)
  {
    if b == [] {
      assert a + [x] + b == a + [x] && (a + [x])[..|a|] == a && a + b == a;
    } else {
      var shorter, last := b[..|b| - 1], b[|b| - 1];
      NotStackedMiddle(a, x, shorter, barred);
      assert (a + [x] + b)[..|a + [x] + b| - 1] == a + [x] + shorter;
      assert (a + b)[..|a + b| - 1] == a + shorter;
    }
  }

  /** What is left so far: nobody the bar does not carry has gone. */
  ghost predicate Dropping(members: seq<Member>, barred0: set<Id>, kept: seq<Member>, barred: set<Id>) {
    var all := Carried(StackedOn(members), barred0);
    && barred0 <= barred <= all
    && (forall m :: m in kept ==> m in members)
    && (forall m :: m in members && m !in kept ==> m.id in barred)
    && NotStacked(kept, all) == NotStacked(members, all)
  }

  lemma BarCarries(members: seq<Member>, barred0: set<Id>, barred: set<Id>, m: Member)
    requires m in members && StackedOnBarred(m, barred) && barred <= Carried(StackedOn(members), barred0)
    ensures m.id in Carried(StackedOn(members), barred0)
    ensures StackedOnBarred(m, Carried(StackedOn(members), barred0))
  {
    var p :| p in m.stack.Keys && p in barred;
    assert (p, m.id) in StackedOn(members);
    CarriedStep(StackedOn(members), barred0, p, m.id);
  }

  lemma DropOne(members: seq<Member>, barred0: set<Id>, kept: seq<Member>, barred: set<Id>, i: nat)
    requires Dropping(members, barred0, kept, barred) && i < |kept| && StackedOnBarred(kept[i], barred)
    ensures Dropping(members, barred0, kept[..i] + kept[i + 1..], barred + {kept[i].id})
  {
    var rest := kept[..i] + kept[i + 1..];
    BarCarries(members, barred0, barred, kept[i]);
    assert kept == kept[..i] + [kept[i]] + kept[i + 1..];
    NotStackedMiddle(kept[..i], kept[i], kept[i + 1..], Carried(StackedOn(members), barred0));
    OthersStay(kept, i);
  }

  lemma OthersStay(kept: seq<Member>, i: nat)
    requires i < |kept|
    ensures forall k :: k in kept ==> k == kept[i] || k in kept[..i] + kept[i + 1..]
    ensures forall k :: k in kept[..i] + kept[i + 1..] ==> k in kept
  {
    assert kept == kept[..i] + [kept[i]] + kept[i + 1..];
  }

  lemma DroppedAll(members: seq<Member>, barred0: set<Id>, kept: seq<Member>, barred: set<Id>)
    requires Dropping(members, barred0, kept, barred)
    requires forall i :: 0 <= i < |kept| ==> !StackedOnBarred(kept[i], barred)
    ensures kept == NotStacked(members, Carried(StackedOn(members), barred0))
  {
    forall p, m | (p, m) in StackedOn(members) && p in barred ensures m in barred {
      var k :| k in members && k.id == m && p in k.stack;
      assert StackedOnBarred(k, barred);
    }
    FixpointIsCarried(StackedOn(members), barred0, barred);
    NoneStacked(kept, barred);
  }

  /** Drops whoever is stacked on a barred bead or on someone dropped for that reason, one at a
      time: who is left is who names nothing the bar carries, in order. */
  method DropStackedOnBarred(members: seq<Member>, barred0: set<Id>) returns (kept: seq<Member>)
    ensures kept == NotStacked(members, Carried(StackedOn(members), barred0))
  {
    var barred := barred0;
    kept := members;
    CarriedHoldsSeeds(StackedOn(members), barred0);
    while exists i :: 0 <= i < |kept| && StackedOnBarred(kept[i], barred)
      invariant Dropping(members, barred0, kept, barred)
      decreases |kept|
    {
      var i :| 0 <= i < |kept| && StackedOnBarred(kept[i], barred);
      DropOne(members, barred0, kept, barred, i);
      kept, barred := kept[..i] + kept[i + 1..], barred + {kept[i].id};
    }
    DroppedAll(members, barred0, kept, barred);
  }

  lemma {:induction false} NoneStacked(kept: seq<Member>, barred: set<Id>)
    requires forall i :: 0 <= i < |kept| ==> !StackedOnBarred(kept[i], barred)
    ensures NotStacked(kept, barred) == kept
  {
    if kept != [] {
      NoneStacked(kept[..|kept| - 1], barred);
    }
  }
}
