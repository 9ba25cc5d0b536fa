// From the certified pool to a round (batcher/src/core.rs): merge order, what rides together,
// and who is set aside; and the pool filter of batcher-cut/src/io.rs.

module Pool {
  import opened Prelude
  import opened Reach
  import opened Members

  // ----- order -----------------------------------------------------------------------------

  /** Express first, then the lowest number, an unknown priority last, then arrival. */
  datatype Key = Key(express: nat, priority: nat, at: nat)

  function OrderKey(m: Member): (k: Key) {
    Key(if m.express then 0 else 1, if m.priority.Some? then m.priority.value else 255, m.certifiedAt)
  }

  predicate AtMost(a: Key, b: Key) {
    || a.express < b.express
    || (a.express == b.express && (a.priority < b.priority || (a.priority == b.priority && a.at <= b.at)))
  }

  /** What must be merged before a member. */
  function Needs(m: Member): (r: set<Id>) {
    m.stack.Keys + Elems(m.blockedBy)
  }

  /** Every prerequisite in the pool has been placed. */
  predicate Ready(ids: set<Id>, placed: set<Id>, m: Member) {
    forall p :: p in Needs(m) && p in ids ==> p in placed
  }

  ghost function PoolEdges(members: seq<Member>): (e: Edges) {
    var ids := Elems(MemberIds(members));
    set m, p | m in members && p in Needs(m) && p in ids :: (p, m.id)
  }

  /** `m` was picked rightly over `other`: ready before unready, then by order. */
  ghost predicate PickedOver(ids: set<Id>, placed: set<Id>, m: Member, other: Member) {
    && (Ready(ids, placed, other) ==> Ready(ids, placed, m) && AtMost(OrderKey(m), OrderKey(other)))
    && (!Ready(ids, placed, m) ==> AtMost(OrderKey(m), OrderKey(other)))
  }

  /** Each member was picked rightly over everyone placed after it. */
  ghost predicate Greedy(ids: set<Id>, out: seq<Member>) {
    forall i, j :: 0 <= i < j < |out| ==> PickedOver(ids, Elems(MemberIds(out[..i])), out[i], out[j])
  }

  function WithKey(members: seq<Member>, k: Key): (r: seq<Member>) {
    if members == [] then []
    else
      WithKey(members[..|members| - 1], k)
      + (if OrderKey(members[|members| - 1]) == k then [members[|members| - 1]] else [])
  }

  /** The place of the first lowest key among the members satisfying `want`. */
  method Lowest(remaining: seq<Member>, ids: set<Id>, placed: set<Id>) returns (idx: nat)
    requires remaining != []
    ensures idx < |remaining|
    ensures forall i :: 0 <= i < |remaining| ==> PickedOver(ids, placed, remaining[idx], remaining[i])
    ensures (forall m :: m in remaining ==> Ready(ids, placed, m)) ==>
              forall i :: 0 <= i < idx ==> !AtMost(OrderKey(remaining[i]), OrderKey(remaining[idx]))
  {
    var best: Option<nat> := None;
    for i := 0 to |remaining|
      invariant best.Some? ==> best.value < i && Ready(ids, placed, remaining[best.value])
      invariant best.None? ==> forall k :: 0 <= k < i ==> !Ready(ids, placed, remaining[k])
      invariant best.Some? ==> forall k :: 0 <= k < i && Ready(ids, placed, remaining[k]) ==>
                  AtMost(OrderKey(remaining[best.value]), OrderKey(remaining[k]))
      invariant best.Some? ==> forall k :: 0 <= k < best.value && Ready(ids, placed, remaining[k]) ==>
                  !AtMost(OrderKey(remaining[k]), OrderKey(remaining[best.value]))
    {
      if Ready(ids, placed, remaining[i]) {
        if best.None? || !AtMost(OrderKey(remaining[best.value]), OrderKey(remaining[i])) {
          best := Some(i);
        }
      }
    }
    if best.Some? {
      idx := best.value;
      assert forall k :: 0 <= k < idx ==> remaining[k] in remaining;
      return;
    }
    idx := 0;
    for i := 0 to |remaining|
      invariant idx < |remaining|
      invariant forall k :: 0 <= k < i ==> AtMost(OrderKey(remaining[idx]), OrderKey(remaining[k]))
    {
      if !AtMost(OrderKey(remaining[idx]), OrderKey(remaining[i])) {
        idx := i;
      }
    }
    assert remaining[0] in remaining;
  }

  /** What the merge order is: everyone once, each picked rightly, and where nobody needs anybody,
      members of one key in their original order. */
  ghost predicate MergeOrder(members: seq<Member>, out: seq<Member>) {
    && multiset(out) == multiset(members)
    && Greedy(Elems(MemberIds(members)), out)
    && (PoolEdges(members) == {} ==> forall k :: WithKey(out, k) == WithKey(members, k))
  }

  lemma {:induction false} WithKeySplit(a: seq<Member>, b: seq<Member>, k: Key)
    ensures WithKey(a + b, k) == WithKey(a, k) + WithKey(b, k)
  {
    if b == [] {
      assert a + b == a;
    } else {
      var shorter := b[..|b| - 1];
      assert (a + b)[..|a + b| - 1] == a + shorter;
      WithKeySplit(a, shorter, k);
    }
  }

  lemma {:induction false} WithKeyNone(a: seq<Member>, k: Key)
    requires forall m :: m in a ==> OrderKey(m) != k
    ensures WithKey(a, k) == []
  {
    if a != [] {
      assert a[|a| - 1] in a;
      WithKeyNone(a[..|a| - 1], k);
    }
  }

  /** Taking out the first member of its key keeps every key's members in order. */
  lemma FirstOut(remaining: seq<Member>, idx: nat, k: Key)
    requires idx < |remaining|
    requires forall i :: 0 <= i < idx ==> OrderKey(remaining[i]) != OrderKey(remaining[idx])
    ensures WithKey(remaining, k) == WithKey([remaining[idx]], k) + WithKey(remaining[..idx] + remaining[idx + 1..], k)
  {
    var pre, x, post := remaining[..idx], remaining[idx], remaining[idx + 1..];
    assert remaining == pre + ([x] + post);
    WithKeySplit(pre, [x] + post, k);
    WithKeySplit([x], post, k);
    WithKeySplit(pre, post, k);
    if OrderKey(x) == k {
      WithKeyNone(pre, k);
    } else {
      WithKeyNone([x], k);
    }
    EmptyPassed(WithKey(pre, k), WithKey([x], k), WithKey(post, k));
  }

  lemma EmptyPassed<T>(a: seq<T>, b: seq<T>, c: seq<T>)
    requires a == [] || b == []
    ensures a + (b + c) == b + (a + c)
  {
  }

  lemma NeedIsEdge(members: seq<Member>, m: Member, p: Id)
    requires m in members && p in Needs(m) && p in Elems(MemberIds(members))
    ensures (p, m.id) in PoolEdges(members)
  {
  }

  lemma AllReady(members: seq<Member>, m: Member, placed: set<Id>)
    requires PoolEdges(members) == {} && m in members
    ensures Ready(Elems(MemberIds(members)), placed, m)
  {
    if p :| p in Needs(m) && p in Elems(MemberIds(members)) && p !in placed {
      NeedIsEdge(members, m, p);
      assert false;
    }
  }

  lemma AllRemainReady(members: seq<Member>, out: seq<Member>, remaining: seq<Member>, placed: set<Id>)
    requires PoolEdges(members) == {} && multiset(out) + multiset(remaining) == multiset(members)
    ensures forall m :: m in remaining ==> Ready(Elems(MemberIds(members)), placed, m)
  {
    forall m | m in remaining ensures Ready(Elems(MemberIds(members)), placed, m) {
      assert m in multiset(remaining) && m in multiset(members);
      AllReady(members, m, placed);
    }
  }

  /** Everyone placed was picked rightly over everyone remaining. */
  ghost predicate Ahead(ids: set<Id>, out: seq<Member>, remaining: seq<Member>) {
    forall i, m :: 0 <= i < |out| && m in remaining ==> PickedOver(ids, Elems(MemberIds(out[..i])), out[i], m)
  }

  lemma GreedyMore(ids: set<Id>, out: seq<Member>, x: Member, remaining: seq<Member>, rest: seq<Member>)
    requires Greedy(ids, out) && Ahead(ids, out, remaining) && x in remaining
    requires forall m :: m in rest ==> m in remaining
    requires forall m :: m in remaining ==> PickedOver(ids, Elems(MemberIds(out)), x, m)
    ensures Greedy(ids, out + [x]) && Ahead(ids, out + [x], rest)
  {
    var longer := out + [x];
    forall i | 0 <= i < |out| ensures longer[..i] == out[..i] {
    }
    assert longer[..|out|] == out;
  }

  ghost predicate KeysInOrder(members: seq<Member>, out: seq<Member>, remaining: seq<Member>) {
    forall k :: WithKey(out, k) + WithKey(remaining, k) == WithKey(members, k)
  }

  lemma KeysMore(members: seq<Member>, out: seq<Member>, remaining: seq<Member>, idx: nat)
    requires idx < |remaining| && KeysInOrder(members, out, remaining)
    requires forall i :: 0 <= i < idx ==> !AtMost(OrderKey(remaining[i]), OrderKey(remaining[idx]))
    ensures KeysInOrder(members, out + [remaining[idx]], remaining[..idx] + remaining[idx + 1..])
  {
    forall k
      ensures WithKey(out + [remaining[idx]], k) + WithKey(remaining[..idx] + remaining[idx + 1..], k) ==
              WithKey(members, k)
    {
      KeyMore(members, out, remaining, idx, k);
    }
  }

  lemma KeyMore(members: seq<Member>, out: seq<Member>, remaining: seq<Member>, idx: nat, k: Key)
    requires idx < |remaining| && KeysInOrder(members, out, remaining)
    requires forall i :: 0 <= i < idx ==> !AtMost(OrderKey(remaining[i]), OrderKey(remaining[idx]))
    ensures WithKey(out + [remaining[idx]], k) + WithKey(remaining[..idx] + remaining[idx + 1..], k) ==
            WithKey(members, k)
  {
    var rest := remaining[..idx] + remaining[idx + 1..];
    var x := WithKey([remaining[idx]], k);
    WithKeySplit(out, [remaining[idx]], k);
    FirstOut(remaining, idx, k);
    assert WithKey(out, k) + x + WithKey(rest, k) == WithKey(out, k) + (x + WithKey(rest, k));
    assert WithKey(out, k) + WithKey(remaining, k) == WithKey(members, k);
  }

  lemma TakenOut(members: seq<Member>, out: seq<Member>, remaining: seq<Member>, idx: nat)
    requires idx < |remaining| && multiset(out) + multiset(remaining) == multiset(members)
    ensures
      var rest := remaining[..idx] + remaining[idx + 1..];
      && multiset(out + [remaining[idx]]) + multiset(rest) == multiset(members)
      && (forall m :: m in rest ==> m in remaining)
      && MemberIds(out + [remaining[idx]]) == MemberIds(out) + [remaining[idx].id]
  {
    assert remaining == remaining[..idx] + [remaining[idx]] + remaining[idx + 1..];
  }

  /** Merge order: among the members with nothing left to wait for, the lowest key; where nobody is
      ready, the lowest key breaks the cycle. */
  method TopoOrder(members: seq<Member>) returns (out: seq<Member>)
    ensures MergeOrder(members, out)
  {
    var ids := Elems(MemberIds(members));
    var remaining, placed: set<Id> := members, {};
    out := [];
    while remaining != []
      invariant multiset(out) + multiset(remaining) == multiset(members)
      invariant placed == Elems(MemberIds(out))
      invariant Greedy(ids, out) && Ahead(ids, out, remaining)
      invariant PoolEdges(members) == {} ==> KeysInOrder(members, out, remaining)
      decreases |remaining|
    {
      var idx := Lowest(remaining, ids, placed);
      var picked := remaining[idx];
      var rest := remaining[..idx] + remaining[idx + 1..];
      if PoolEdges(members) == {} {
        AllRemainReady(members, out, remaining, placed);
        KeysMore(members, out, remaining, idx);
      }
      TakenOut(members, out, remaining, idx);
      GreedyMore(ids, out, picked, remaining, rest);
      remaining, placed, out := rest, placed + {picked.id}, out + [picked];
    }
  }

  // ----- what the order guarantees ---------------------------------------------------------

  /** Every in-pool prerequisite comes before the member that needs it. */
  ghost predicate PrerequisitesFirst(members: seq<Member>, out: seq<Member>) {
    forall j :: 0 <= j < |out| ==> Ready(Elems(MemberIds(members)), Elems(MemberIds(out[..j])), out[j])
  }

  lemma SamePool(members: seq<Member>, out: seq<Member>, m: Member)
    requires multiset(out) == multiset(members)
    ensures m in out <==> m in members
  {
    assert m in multiset(out) <==> m in out;
    assert m in multiset(members) <==> m in members;
  }

  /** Someone not ready waits for somebody not yet placed. */
  lemma WaitsFor(members: seq<Member>, out: seq<Member>, j: nat, m: Member) returns (p: Id)
    requires multiset(out) == multiset(members) && j <= |out| && m in members
    requires !Ready(Elems(MemberIds(members)), Elems(MemberIds(out[..j])), m)
    ensures (p, m.id) in PoolEdges(members)
    ensures p !in Elems(MemberIds(out[..j])) && p in Elems(MemberIds(out[j..]))
  {
    var ids, placed := Elems(MemberIds(members)), Elems(MemberIds(out[..j]));
    p :| p in Needs(m) && p in ids && p !in placed;
    var k := IdHas(members, p);
    SamePool(members, out, k);
    assert out == out[..j] + out[j..];
    if k in out[..j] {
      IdIn(out[..j], k);
      assert false;
    }
    IdIn(out[j..], k);
  }

  /** Without a cycle, the order puts every prerequisite first. */
  lemma AcyclicInOrder(members: seq<Member>, out: seq<Member>)
    requires MergeOrder(members, out) && Acyclic(PoolEdges(members))
    ensures PrerequisitesFirst(members, out)
  {
    var ids, e := Elems(MemberIds(members)), PoolEdges(members);
    forall j | 0 <= j < |out| ensures Ready(ids, Elems(MemberIds(out[..j])), out[j]) {
      var placed := Elems(MemberIds(out[..j]));
      if !Ready(ids, placed, out[j]) {
        var late := Elems(MemberIds(out[j..])) - placed;
        SamePool(members, out, out[j]);
        var p := WaitsFor(members, out, j, out[j]);
        assert p in late;
        forall id | id in late ensures HasSource(e, late, id) {
          var m := IdHas(out[j..], id);
          StillWaiting(members, out, j, m);
          var q := WaitsFor(members, out, j, m);
        }
        NoSourceMeansCycle(e, late);
        assert false;
      }
    }
  }

  /** When the one picked was not ready, nobody after it was. */
  lemma StillWaiting(members: seq<Member>, out: seq<Member>, j: nat, m: Member)
    requires MergeOrder(members, out) && j < |out| && m in out[j..]
    requires !Ready(Elems(MemberIds(members)), Elems(MemberIds(out[..j])), out[j])
    ensures m in members && !Ready(Elems(MemberIds(members)), Elems(MemberIds(out[..j])), m)
  {
    var k :| 0 <= k < |out[j..]| && out[j..][k] == m;
    assert out[j + k] == m && m in out;
    SamePool(members, out, m);
    if k > 0 {
      assert PickedOver(Elems(MemberIds(members)), Elems(MemberIds(out[..j])), out[j], out[j + k]);
    }
  }

  ghost function PlaceOf(ids: seq<Id>, id: Id): (r: nat)
    requires id in ids
    ensures r < |ids| && ids[r] == id
  {
    if ids[0] == id then 0 else PlaceOf(ids[1..], id) + 1
  }

  /** And only without a cycle: an order that puts every prerequisite first numbers the members
      upwards along every edge. */
  lemma InOrderAcyclic(members: seq<Member>, out: seq<Member>)
    requires Distinct(members) && multiset(out) == multiset(members) && PrerequisitesFirst(members, out)
    ensures Acyclic(PoolEdges(members))
  {
    var e, ids := PoolEdges(members), MemberIds(out);
    var rank := map id | id in ids :: PlaceOf(ids, id);
    DistinctOut(members, out);
    forall p, m | (p, m) in e ensures p in rank && m in rank && rank[p] < rank[m] {
      var k :| k in members && k.id == m && p in Needs(k) && p in Elems(MemberIds(members));
      SamePool(members, out, k);
      var j :| 0 <= j < |out| && out[j] == k;
      assert ids[j] == m;
      assert p in MemberIds(out[..j]);
      var i :| 0 <= i < |MemberIds(out[..j])| && MemberIds(out[..j])[i] == p;
      assert ids[i] == p;
    }
    forall path ensures !Cycle(e, path) {
      if Cycle(e, path) {
        RankRises(e, rank, path);
      }
    }
  }

  lemma DistinctOut(members: seq<Member>, out: seq<Member>)
    requires Distinct(members) && multiset(out) == multiset(members)
    ensures NoDup(MemberIds(out))
  {
    forall i, j | 0 <= i < j < |out| ensures out[i].id != out[j].id {
      if out[i].id == out[j].id {
        SamePool(members, out, out[i]);
        SamePool(members, out, out[j]);
        assert out[i] in out && out[j] in out;
        SameMember(members, out[i], out[j]);
        TwiceIn(out, i, j);
        OnceIn(members, out[i]);
        assert false;
      }
    }
  }

  lemma TwiceIn(s: seq<Member>, i: nat, j: nat)
    requires i < j < |s| && s[i] == s[j]
    ensures multiset(s)[s[i]] >= 2
  {
    assert s == s[..i] + [s[i]] + s[i + 1..j] + [s[j]] + s[j + 1..];
  }

  lemma {:induction false} OnceIn(members: seq<Member>, m: Member)
    requires Distinct(members)
    ensures multiset(members)[m] <= 1
  {
    if members != [] {
      var shorter, last := members[..|members| - 1], members[|members| - 1];
      assert members == shorter + [last];
      assert MemberIds(shorter) == MemberIds(members)[..|shorter|];
      OnceIn(shorter, m);
      forall i | 0 <= i < |shorter| ensures shorter[i] != last {
        assert MemberIds(members)[i] != MemberIds(members)[|members| - 1];
      }
    }
  }

  /** Merging prerequisites first is possible exactly when nothing waits for itself. */
  lemma InOrderIff(members: seq<Member>, out: seq<Member>)
    requires Distinct(members) && MergeOrder(members, out)
    ensures PrerequisitesFirst(members, out) <==> Acyclic(PoolEdges(members))
  {
    if PrerequisitesFirst(members, out) {
      InOrderAcyclic(members, out);
    }
    if Acyclic(PoolEdges(members)) {
      AcyclicInOrder(members, out);
    }
  }

  /** With nothing stacked, the order is the stable sort by key. */
  lemma UnstackedSorts(members: seq<Member>, out: seq<Member>)
    requires MergeOrder(members, out) && PoolEdges(members) == {}
    ensures forall i, j :: 0 <= i < j < |out| ==> AtMost(OrderKey(out[i]), OrderKey(out[j]))
    ensures forall k :: WithKey(out, k) == WithKey(members, k)
  {
    forall i, j | 0 <= i < j < |out| ensures AtMost(OrderKey(out[i]), OrderKey(out[j])) {
      SamePool(members, out, out[j]);
      AllReady(members, out[j], Elems(MemberIds(out[..i])));
      assert PickedOver(Elems(MemberIds(members)), Elems(MemberIds(out[..i])), out[i], out[j]);
    }
  }
}
