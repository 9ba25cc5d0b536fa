// What a merge round promises, over every sequence of passes: what it lands was judged, it
// comes to an end, and whoever it ejects is exactly who the owners take with them.

module RoundTheorems {
  import opened Prelude
  import opened Reach
  import opened Shapes
  import opened AttributionSpec
  import opened AttributionTheorems
  import opened AttributionDecision
  import opened Members
  import opened Driving
  import opened DecisionSuites
  import opened RoundSpec

  // ----- landing ---------------------------------------------------------------------------

  /** The last pass that ran `suite`. */
  ghost predicate LastAt(trace: seq<PassRecord>, suite: Suite, i: nat) {
    && i < |trace| && suite in trace[i].round.suites
    && forall j :: i < j < |trace| ==> suite !in trace[j].round.suites
  }

  /** The last time it ran, `suite` was green, flaky, or red on the base alone. */
  ghost predicate LastSafe(trace: seq<PassRecord>, suite: Suite) {
    exists i: nat :: LastAt(trace, suite, i) && Safe(trace[i], suite)
  }

  /** Red in a pass, and one member alone owns it. */
  ghost predicate SolelyIn(p: PassRecord, suite: Suite) {
    suite in p.v.suites && |OwnersOf(p.v, suite)| == 1
  }

  /** A suite an in-round fix leaves behind: owned by one member, so no part of the fix. */
  ghost predicate LeftByFix(p: PassRecord, suite: Suite) {
    p.onto.Go? && p.onto.how.ByFix? && suite in p.round.suites && SolelyIn(p, suite)
  }

  lemma IntegrationOf(p: PassRecord, suite: Suite)
    requires Judged(p) && p.settled.end.Ran? && p.settled.preempt.None?
    ensures suite in IntegrationSet(p.settled.decision) <==>
              suite in p.v.suites && (Unexplained(p.v, suite) || |OwnersOf(p.v, suite)| >= 2)
  {
    IntegrationSetIs(p.settled.decision, suite);
    IntegrationMeans(p.v, suite);
  }

  /** Whatever a pass did not clear is run again, but for what a fix leaves behind. */
  lemma Uncleared(p: PassRecord, suite: Suite)
    requires PassOk(p) && p.onto.Go? && suite in p.round.suites && !LeftByFix(p, suite)
    ensures suite in p.onto.round.suites || Safe(p, suite)
  {
    var d, next := p.settled.decision, p.onto.round;
    if p.settled.preempt.Some? {
      PreemptNotIntegration(p);
      PreemptShown(p);
      assert p.onto.how.ByEjection?;
      WithinElems(p.round.suites, Elems(p.round.suites) - p.greens);
      assert suite in Elems(p.round.suites);
    } else {
      VerdictShown(p, suite);
      if !Safe(p, suite) {
        IntegrationOf(p, suite);
        IntegrationSetIs(d, suite);
        assert suite in Elems(next.suites) ==> suite in next.suites;
        if suite in d.unattributed {
          assert p.onto.how.ByFix? || p.onto.how.ByRetry?;
        } else {
          OwnedAgain(p, suite);
        }
      }
    }
  }

  lemma OwnedAgain(p: PassRecord, suite: Suite)
    requires PassOk(p) && p.onto.Go? && p.settled.preempt.None? && suite in p.round.suites && !LeftByFix(p, suite)
    requires IsOwned(p.settled.decision, suite) && suite in p.v.suites && OwnersOf(p.v, suite) != []
    ensures suite in p.onto.round.suites
  {
    var d, next := p.settled.decision, p.onto.round;
    IntegrationOf(p, suite);
    IntegrationSetIs(d, suite);
    var x :| Charged(d.owners, x, suite);
    assert suite in Elems(next.suites) by {
      match p.onto.how
      case ByFix =>
      case ByRetry => assert false;
      case ByMending =>
      case ByEjection =>
    }
  }

  /** A pass never goes on to a suite it did not run. */
  lemma SuitesShrink(p: PassRecord)
    requires PassOk(p) && p.onto.Go?
    ensures Elems(p.onto.round.suites) <= Elems(p.round.suites)
  {
    var d := p.settled.decision;
    forall suite | suite in p.onto.round.suites ensures suite in p.round.suites {
      if p.settled.preempt.Some? {
        PreemptNotIntegration(p);
        PreemptShown(p);
        assert p.onto.how.ByEjection?;
        WithinElems(p.round.suites, Elems(p.round.suites) - p.greens);
      } else if p.onto.how.ByMending? {
        assert suite in Elems(p.onto.round.suites);
      } else {
        assert suite in Elems(p.onto.round.suites);
        ShownRan(p, suite);
      }
    }
  }

  lemma ShownRan(p: PassRecord, suite: Suite)
    requires Judged(p) && p.settled.end.Ran? && p.settled.preempt.None?
    requires suite in IntegrationSet(p.settled.decision) + OwnedSet(p.settled.decision)
              + Elems(p.settled.decision.unattributed)
    ensures suite in p.round.suites
  {
    var d, v := p.settled.decision, p.v;
    IntegrationSetIs(d, suite);
    IntegrationOf(p, suite);
    DecisionSorts(v, v.reds);
    if IsOwned(d, suite) {
      var x :| Charged(d.owners, x, suite);
      assert suite in v.reds;
    }
    assert suite in v.suites;
    assert suite in Elems(p.round.suites);
  }

  /** Every corpus suite will run again or was last seen safe. */
  ghost predicate Accounted(corpus: seq<Suite>, trace: seq<PassRecord>, next: seq<Suite>) {
    forall suite :: suite in corpus ==> suite in next || LastSafe(trace, suite)
  }

  lemma AccountedOneMore(corpus: seq<Suite>, trace: seq<PassRecord>, p: PassRecord, next: seq<Suite>)
    requires Accounted(corpus, trace, p.round.suites)
    requires forall suite :: suite in p.round.suites ==> suite in next || Safe(p, suite)
    ensures Accounted(corpus, trace + [p], next)
  {
    var longer := trace + [p];
    forall suite | suite in corpus ensures suite in next || LastSafe(longer, suite) {
      if suite in p.round.suites {
        if suite !in next {
          assert LastAt(longer, suite, |trace|) && Safe(longer[|trace|], suite);
        }
      } else {
        var i: nat :| LastAt(trace, suite, i) && Safe(trace[i], suite);
        assert LastAt(longer, suite, i) && Safe(longer[i], suite);
      }
    }
  }

  lemma {:induction false} AllAccounted(corpus: seq<Suite>, starting: seq<Member>, trace: seq<PassRecord>)
    requires Linked(corpus, starting, trace) && forall i :: 0 <= i < |trace| ==> trace[i].onto.Go?
    requires forall i, suite :: 0 <= i < |trace| ==> !LeftByFix(trace[i], suite)
    ensures Accounted(corpus, trace, StartOfNext(corpus, starting, trace).suites)
  {
    if trace != [] {
      var n := |trace| - 1;
      var shorter, p := trace[..n], trace[n];
      LinkedLast(corpus, starting, trace);
      AllAccounted(corpus, starting, shorter);
      forall suite | suite in p.round.suites ensures suite in p.onto.round.suites || Safe(p, suite) {
        Uncleared(p, suite);
      }
      AccountedOneMore(corpus, shorter, p, p.onto.round.suites);
      assert shorter + [p] == trace;
    }
  }

  /** What lands was judged: unless a fix left a solely owned suite behind, every suite of the
      corpus was green, flaky or red on the base alone in the last main run that had it. */
  lemma LandsSafe(corpus: seq<Suite>, starting: seq<Member>, trace: seq<PassRecord>, end: RoundEnd)
    requires RoundRan(corpus, starting, trace, end) && end.Land?
    requires forall i, suite :: 0 <= i < |trace| ==> !LeftByFix(trace[i], suite)
    ensures forall suite :: suite in corpus ==> LastSafe(trace, suite)
  {
    var n := |trace| - 1;
    var p := trace[n];
    LinkedLast(corpus, starting, trace);
    GoesUntil(corpus, starting, trace);
    forall i, suite | 0 <= i < |trace[..n]| ensures !LeftByFix(trace[..n][i], suite) {
      assert trace[..n][i] == trace[i];
    }
    AllAccounted(corpus, starting, trace[..n]);
    forall suite | suite in p.round.suites ensures Safe(p, suite) {
      LandedSafe(p, suite);
    }
    AccountedOneMore(corpus, trace[..n], p, []);
    assert trace[..n] + [p] == trace;
  }

  lemma GoesUntil(corpus: seq<Suite>, starting: seq<Member>, trace: seq<PassRecord>)
    requires Linked(corpus, starting, trace) && trace != []
    ensures forall i :: 0 <= i < |trace| - 1 ==> trace[i].onto.Go?
  {
    forall i | 0 <= i < |trace| - 1 ensures trace[i].onto.Go? {
      LinkedStep(corpus, starting, trace, i + 1);
    }
  }

  lemma LandedSafe(p: PassRecord, suite: Suite)
    requires PassOk(p) && p.onto.Ended? && p.onto.end.Land? && suite in p.round.suites
    ensures Safe(p, suite)
  {
    if p.settled.preempt.Some? {
      PreemptNotIntegration(p);
      assert false;
    }
    VerdictShown(p, suite);
    if IsOwned(p.settled.decision, suite) {
      assert false;
    }
  }

  ghost predicate Shrinks(trace: seq<PassRecord>) {
    forall i :: 0 <= i < |trace| - 1 ==> Elems(trace[i + 1].round.suites) <= Elems(trace[i].round.suites)
  }

  lemma LinkShrinks(corpus: seq<Suite>, starting: seq<Member>, trace: seq<PassRecord>, i: nat)
    requires Linked(corpus, starting, trace) && i + 1 < |trace|
    ensures Elems(trace[i + 1].round.suites) <= Elems(trace[i].round.suites)
  {
    LinkedStep(corpus, starting, trace, i + 1);
    LinkedAt(corpus, starting, trace, i);
    SuitesShrink(trace[i]);
  }

  lemma LinkedShrinks(corpus: seq<Suite>, starting: seq<Member>, trace: seq<PassRecord>)
    requires Linked(corpus, starting, trace)
    ensures Shrinks(trace)
  {
    forall i | 0 <= i < |trace| - 1 ensures Elems(trace[i + 1].round.suites) <= Elems(trace[i].round.suites) {
      LinkShrinks(corpus, starting, trace, i);
    }
  }

  lemma {:induction false} NeverAgain(trace: seq<PassRecord>, suite: Suite, i: nat, j: nat)
    requires Shrinks(trace) && i <= j < |trace| && suite !in trace[i].round.suites
    ensures suite !in trace[j].round.suites
  {
    if i < j {
      NeverAgain(trace, suite, i, j - 1);
      assert Elems(trace[j - 1 + 1].round.suites) <= Elems(trace[j - 1].round.suites);
      ElemsHas(trace[j].round.suites, suite);
    }
  }

  lemma LeftIsUnsafe(p: PassRecord, suite: Suite)
    requires PassOk(p) && LeftByFix(p, suite)
    ensures !Safe(p, suite) && suite !in p.onto.round.suites
  {
    if p.settled.preempt.Some? {
      PreemptNotIntegration(p);
      assert false;
    }
    IntegrationOf(p, suite);
    ElemsHas(p.onto.round.suites, suite);
  }

  lemma LeftHere(corpus: seq<Suite>, starting: seq<Member>, trace: seq<PassRecord>, suite: Suite, i: nat)
    requires Linked(corpus, starting, trace) && i < |trace| && LeftByFix(trace[i], suite)
    ensures !Safe(trace[i], suite) && suite !in trace[i].onto.round.suites
  {
    LinkedAt(corpus, starting, trace, i);
    LeftIsUnsafe(trace[i], suite);
  }

  lemma LeftNext(corpus: seq<Suite>, starting: seq<Member>, trace: seq<PassRecord>, suite: Suite, i: nat)
    requires Linked(corpus, starting, trace) && i < |trace| && LeftByFix(trace[i], suite)
    ensures !Safe(trace[i], suite) && (i + 1 < |trace| ==> suite !in trace[i + 1].round.suites)
  {
    LeftHere(corpus, starting, trace, suite, i);
    if i + 1 < |trace| {
      LinkedStep(corpus, starting, trace, i + 1);
    }
  }

  /** A suite a fix leaves behind is not run again: it was last seen owned. */
  lemma LeftUnsafe(corpus: seq<Suite>, starting: seq<Member>, trace: seq<PassRecord>, suite: Suite, i: nat)
    requires Linked(corpus, starting, trace) && i < |trace| && LeftByFix(trace[i], suite)
    ensures !LastSafe(trace, suite)
  {
    LinkedShrinks(corpus, starting, trace);
    LeftNext(corpus, starting, trace, suite, i);
    if j: nat :| LastAt(trace, suite, j) && Safe(trace[j], suite) {
      assert i <= j;
      if i < j {
        NeverAgain(trace, suite, i + 1, j);
      }
      assert false;
    }
  }

  /** A landed round is safe exactly when no in-round fix was taken over a solely owned suite. */
  lemma LandsSafeIff(corpus: seq<Suite>, starting: seq<Member>, trace: seq<PassRecord>, end: RoundEnd)
    requires RoundRan(corpus, starting, trace, end) && end.Land?
    ensures (forall suite :: suite in corpus ==> LastSafe(trace, suite)) <==>
              (forall i, suite :: 0 <= i < |trace| ==> !LeftByFix(trace[i], suite))
  {
    if forall i, suite :: 0 <= i < |trace| ==> !LeftByFix(trace[i], suite) {
      LandsSafe(corpus, starting, trace, end);
    } else {
      var i, suite :| 0 <= i < |trace| && LeftByFix(trace[i], suite);
      LeftUnsafe(corpus, starting, trace, suite, i);
      if suite !in corpus {
        LinkedShrinks(corpus, starting, trace);
        LinkedAt(corpus, starting, trace, 0);
        NeverAgain(trace, suite, 0, i);
        assert false;
      }
    }
  }

  // ----- coming to an end ------------------------------------------------------------------

  /** Members still in, and what the round may still do once. */
  ghost function Rank(r: Round): (n: nat) {
    |r.members| + (if r.fixed then 0 else 1) + (if r.retried then 0 else 1)
  }

  lemma {:induction false} SubListShorter<T>(sub: seq<T>, s: seq<T>)
    requires SubList(sub, s)
    ensures |sub| <= |s|
  {
    if sub != [] && s != [] {
      if sub[0] == s[0] {
        SubListShorter(sub[1..], s[1..]);
      } else {
        SubListShorter(sub, s[1..]);
      }
    }
  }

  lemma {:induction false} RemainingFewer(members: seq<Member>, gone: set<Id>)
    ensures |Remaining(members, gone)| <= |members|
    ensures (exists m :: m in members && m.id in gone) ==> |Remaining(members, gone)| < |members|
  {
    if members != [] {
      var shorter, last := members[..|members| - 1], members[|members| - 1];
      RemainingFewer(shorter, gone);
      assert members == shorter + [last];
    }
  }

  /** Ejecting owners always takes someone: owners are members of the round. */
  lemma EjectionShrinks(p: PassRecord)
    requires PassOk(p) && p.onto.Go? && p.onto.how.ByEjection?
    ensures 0 < |p.onto.round.members| < |p.round.members|
  {
    var owners := p.settled.decision.owners;
    var x :| x in owners;
    OwnersAreMembers(p);
    var m := IdHas(p.round.members, x);
    CarriedHoldsSeeds(StackedOn(p.round.members), owners.Keys);
    RemainingFewer(p.round.members, Out(p.round.members, owners.Keys));
    SubListShorter(p.onto.round.members, Remaining(p.round.members, Out(p.round.members, owners.Keys)));
  }

  /** Every way of going on but mending uses something up. */
  lemma GoesDown(p: PassRecord)
    requires PassOk(p) && p.onto.Go?
    ensures Rank(p.onto.round) + (if p.onto.how.ByMending? then 0 else 1) <= Rank(p.round)
    ensures |p.onto.round.members| <= |p.round.members|
    ensures p.onto.round.members == [] ==>
              p.round.members == [] || Rank(p.onto.round) + 2 <= Rank(p.round)
  {
    match p.onto.how
    case ByFix =>
    case ByRetry => SubListShorter(p.onto.round.members, p.round.members);
    case ByMending => SubListShorter(MemberIds(p.onto.round.members), MemberIds(p.round.members));
    case ByEjection => EjectionShrinks(p);
  }

  ghost function Mendings(trace: seq<PassRecord>): (n: nat) {
    if trace == [] then 0
    else
      Mendings(trace[..|trace| - 1])
      + (if trace[|trace| - 1].onto.Go? && trace[|trace| - 1].onto.how.ByMending? then 1 else 0)
  }

  lemma {:induction false} PassesCounted(corpus: seq<Suite>, starting: seq<Member>, trace: seq<PassRecord>)
    requires Linked(corpus, starting, trace) && forall i :: 0 <= i < |trace| ==> trace[i].onto.Go?
    ensures
      var r := StartOfNext(corpus, starting, trace);
      && |trace| + Rank(r) <= |starting| + 2 + Mendings(trace)
      && (r.members == [] && starting != [] ==> |trace| + Rank(r) <= |starting| + 1 + Mendings(trace))
  {
    if trace != [] {
      var n := |trace| - 1;
      LinkedLast(corpus, starting, trace);
      PassesCounted(corpus, starting, trace[..n]);
      GoesDown(trace[n]);
    }
  }

  /** A round that starts with a member and whose passes no mender owned never gives up: it ends
      by its own decision within the bound. */
  lemma NeverGivesUp(corpus: seq<Suite>, starting: seq<Member>, trace: seq<PassRecord>, end: RoundEnd)
    requires RoundRan(corpus, starting, trace, end) && starting != [] && Mendings(trace) == 0
    ensures !GaveUp(starting, trace, end) && trace[|trace| - 1].onto == Ended(end)
  {
    if trace[|trace| - 1].onto.Go? {
      AllGo(corpus, starting, trace);
      PassesCounted(corpus, starting, trace);
      assert false;
    }
  }

  lemma AllGo(corpus: seq<Suite>, starting: seq<Member>, trace: seq<PassRecord>)
    requires Linked(corpus, starting, trace) && trace != [] && trace[|trace| - 1].onto.Go?
    ensures forall i :: 0 <= i < |trace| ==> trace[i].onto.Go?
  {
    GoesUntil(corpus, starting, trace);
    forall i | 0 <= i < |trace| ensures trace[i].onto.Go? {
      if i < |trace| - 1 {
        assert trace[i].onto.Go?;
      }
    }
  }

  /** With no member to start with, giving up takes exactly one retry and one fix. */
  lemma EmptyGivesUp(corpus: seq<Suite>, trace: seq<PassRecord>, end: RoundEnd)
    requires RoundRan(corpus, [], trace, end) && GaveUp([], trace, end)
    ensures trace[0].onto.Go? && trace[0].onto.how.ByRetry? && trace[1].onto.Go? && trace[1].onto.how.ByFix?
  {
    AllGo(corpus, [], trace);
    LinkedAt(corpus, [], trace, 0);
    LinkedAt(corpus, [], trace, 1);
    GoesDown(trace[0]);
    GoesDown(trace[1]);
    NoOwnersWhenEmpty(trace[0]);
    NoOwnersWhenEmpty(trace[1]);
  }

  lemma NoOwnersWhenEmpty(p: PassRecord)
    requires PassOk(p) && p.onto.Go? && p.round.members == []
    ensures p.onto.how.ByFix? || p.onto.how.ByRetry?
  {
    OwnersAreMembers(p);
    assert p.settled.decision.owners.Keys == {};
  }

  // ----- ejection --------------------------------------------------------------------------

  /** A member is ejected exactly when some owner's removal set holds it. */
  lemma EjectedIsClosure(p: PassRecord, id: Id)
    requires PassOk(p) && p.onto.Go? && p.onto.how.ByEjection?
    ensures id in EjectedIds(p.ejected) <==>
              exists x :: x in p.settled.decision.owners && id in RemovalOf(p.v.shape, x)
  {
    var members, owners, ids := p.round.members, p.settled.decision.owners, MemberIds(p.round.members);
    OwnersAreMembers(p);
    CarriedInRound(members, owners.Keys);
    WithinElems(ids, Out(members, owners.Keys));
    CarriedUnion(RoundEdges(members), owners.Keys, id);
    forall x | x in owners
      ensures id in RemovalOf(p.v.shape, x) <==> id in ids && id in Carried(RoundEdges(members), {x})
    {
      ElemsHas(ids, x);
      WithinElems(ids, Carried(RoundEdges(members), {x}));
    }
  }

  /** No survivor is stacked on anyone who leaves. */
  lemma NoSurvivorStranded(p: PassRecord, m: Member, q: Id)
    requires PassOk(p) && p.onto.Go? && p.onto.how.ByEjection?
    requires m in p.round.members && m.id !in EjectedIds(p.ejected) && q in m.stack
    ensures q !in EjectedIds(p.ejected)
  {
    var members, owners := p.round.members, p.settled.decision.owners;
    WithinElems(MemberIds(members), Out(members, owners.Keys));
    IdIn(members, m);
    if q in Out(members, owners.Keys) {
      assert (q, m.id) in StackedOn(members);
      CarriedStep(StackedOn(members), owners.Keys, q, m.id);
    }
  }

  lemma {:induction false} RemainingIds(members: seq<Member>, gone: set<Id>)
    ensures MemberIds(Remaining(members, gone)) == Within(MemberIds(members), Elems(MemberIds(members)) - gone)
  {
    if members != [] {
      var shorter, last := members[..|members| - 1], members[|members| - 1];
      RemainingIds(shorter, gone);
      assert members == shorter + [last];
      assert MemberIds(members) == MemberIds(shorter) + [last.id];
      var ids, fewer := Elems(MemberIds(members)) - gone, Elems(MemberIds(shorter)) - gone;
      WithinSnoc(MemberIds(shorter), last.id, ids);
      WithinSame(MemberIds(shorter), fewer, ids);
      assert last.id in MemberIds(members);
      var rest := Remaining(shorter, gone);
      assert MemberIds(rest + [last]) == MemberIds(rest) + [last.id];
    }
  }

  /** When one member alone owns the reds, the survivors are exactly the tree each of them was
      seen green on. */
  lemma SoleSurvivorsTested(p: PassRecord, x: Id, suite: Suite)
    requires PassOk(p) && p.onto.Go? && p.onto.how.ByEjection?
    requires p.settled.decision.owners.Keys == {x} && Charged(p.settled.decision.owners, x, suite)
    ensures
      var ids := MemberIds(p.round.members);
      && MemberIds(Remaining(p.round.members, Out(p.round.members, {x}))) ==
         Within(ids, Elems(ids) - Elems(RemovalOf(p.v.shape, x)))
      && Heard(p.v.log, suite, Without(x), RemovalOf(p.v.shape, x), Green)
  {
    var members, ids, v := p.round.members, MemberIds(p.round.members), p.v;
    var carried := Carried(RoundEdges(members), {x});
    OwnersAreMembers(p);
    assert x in {x};
    ElemsHas(ids, x);
    CarriedInRound(members, {x});
    RemainingIds(members, Out(members, {x}));
    WithinElems(ids, carried);
    WithinSame(ids, Elems(ids) - carried, Elems(ids) - Elems(RemovalOf(v.shape, x)));
    var reds := if p.settled.preempt.Some? then OwnedBySole(v, p.settled.preempt.value.owner) else v.reds;
    DecisionSorts(v, reds);
    OwnerSound(v, suite, OwnersOf(v, suite));
  }
}
