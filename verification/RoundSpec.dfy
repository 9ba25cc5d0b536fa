// A whole merge round as its trace (batcher/src/drive.rs, attribute_round): one record per
// pass, each with what the main run decided and where the round went next.

module RoundSpec {
  import opened Prelude
  import opened Reach
  import opened AttributionSpec
  import opened AttributionTheorems
  import opened AttributionDecision
  import opened Members
  import opened Environment
  import opened Driving
  import opened DecisionSuites

  /** What the loop carries from pass to pass. */
  datatype Round = Round(members: seq<Member>, suites: seq<Suite>, kind: MainKind, fixed: bool, retried: bool)

  datatype RoundEnd = Land(members: seq<Member>, attributionSecs: Option<nat>) | Blocked(reason: string)

  /** Why a round goes on: an in-round fix, a moved base, mended members, or owners ejected. */
  datatype How = ByFix | ByRetry | ByMending | ByEjection

  datatype Onto = Go(how: How, round: Round) | Ended(end: RoundEnd)

  /** What the world answered where the way on depends on it: the suites counted as integration
      red, whether the fix took, the base if it moved, whom each flaky suite was said to touch, the
      suites no flip proof cleared, and what the menders made of the pass if they own it. */
  datatype Faced = Faced(
    integration: seq<Suite>,
    fixed: bool,
    moved: Option<string>,
    named: seq<Named>,
    unproven: seq<Suite>,
    mended: Option<Mended>)

  datatype PassRecord = PassRecord(
    round: Round,
    settled: Settled,
    v: State,
    greens: set<Suite>,
    ejected: seq<Ejection>,
    onto: Onto,
    faced: Faced,
    asks: seq<Ask>)

  ghost predicate Judged(p: PassRecord) {
    PassJudged(p.settled, p.v, p.round.members, p.round.suites, p.greens)
  }

  // ----- ejection --------------------------------------------------------------------------

  /** Everyone the owners take with them. */
  ghost function Out(members: seq<Member>, owners: set<Id>): (r: set<Id>) {
    Carried(StackedOn(members), owners)
  }

  function Remaining(members: seq<Member>, gone: set<Id>): (r: seq<Member>) {
    if members == [] then []
    else
      Remaining(members[..|members| - 1], gone)
      + (if members[|members| - 1].id in gone then [] else [members[|members| - 1]])
  }

  /** An owner leaves with its own suites; a dependent with those of an owner it is stacked on. */
  ghost predicate LeavesWith(members: seq<Member>, owners: map<Id, seq<Suite>>, id: Id, suites: seq<Suite>) {
    if id in owners then suites == owners[id]
    else exists x :: x in owners && id in Out(members, {x}) && suites == owners[x]
  }

  ghost function EjectedIds(ejected: seq<Ejection>): (r: seq<Id>) {
    seq(|ejected|, i requires 0 <= i < |ejected| => ejected[i].member.id)
  }

  ghost predicate EjectsOwners(p: PassRecord) {
    var owners := p.settled.decision.owners;
    && EjectedIds(p.ejected) == Within(MemberIds(p.round.members), Out(p.round.members, owners.Keys))
    && forall e :: e in p.ejected ==>
         e.member in p.round.members && (e.owner <==> e.member.id in owners)
         && LeavesWith(p.round.members, owners, e.member.id, e.suites)
  }

  /** Only round members are ejected, as owners exactly when they own a suite, and then for the
      suites they own. */
  ghost predicate EjectsFairly(p: PassRecord) {
    var owners := p.settled.decision.owners;
    forall e :: e in p.ejected ==>
      e.member in p.round.members && (e.owner <==> e.member.id in owners)
      && (e.owner ==> e.suites == owners[e.member.id])
  }

  // ----- how a pass may go on --------------------------------------------------------------

  /** The fix and the retry are each taken once; a later pass keeps their marks. */
  ghost predicate GoesByFix(p: PassRecord, next: Round) {
    var d := p.settled.decision;
    && !p.round.fixed && IntegrationSet(d) != {} && p.ejected == []
    && Elems(next.suites) == IntegrationSet(d)
    && next == p.round.(fixed := true, suites := next.suites, kind := Verify)
  }

  ghost predicate GoesByRetry(p: PassRecord, next: Round) {
    var d := p.settled.decision;
    && !p.round.retried && !p.round.fixed && d.unattributed != [] && d.owners == map[] && p.ejected == []
    && SubList(next.members, p.round.members)
    && next == Round(next.members, d.unattributed, Verify, p.round.fixed, true)
  }

  ghost predicate GoesByMending(p: PassRecord, next: Round) {
    var d := p.settled.decision;
    && p.settled.preempt.None? && d.unattributed == [] && d.owners != map[]
    && SubList(MemberIds(next.members), MemberIds(p.round.members)) && next.members != []
    && OwnedSet(d) <= Elems(next.suites) <= Elems(p.round.suites)
    && next == Round(next.members, next.suites, Verify, p.round.fixed, p.round.retried)
  }

  ghost predicate GoesByEjection(p: PassRecord, next: Round) {
    var d := p.settled.decision;
    && d.unattributed == [] && d.owners != map[] && EjectsOwners(p)
    && SubList(next.members, Remaining(p.round.members, Out(p.round.members, d.owners.Keys))) && next.members != []
    && (p.settled.preempt.Some? ==> next.suites == p.settled.preempt.value.rerun && next.kind == Corpus)
    && (p.settled.preempt.None? ==> Elems(next.suites) == OwnedSet(d) && next.kind == Verify)
    && next == Round(next.members, next.suites, next.kind, p.round.fixed, p.round.retried)
  }

  ghost predicate Lands(p: PassRecord, end: RoundEnd) {
    var d := p.settled.decision;
    && end.Land? && end.members == p.round.members
    && d.unattributed == [] && d.owners == map[] && p.ejected == []
  }

  ghost predicate PassOk(p: PassRecord) {
    && Judged(p) && Distinct(p.round.members) && EjectsFairly(p)
    && (p.onto.Go? || p.onto.end.Land? ==> p.settled.end.Ran?)
    && match p.onto
       case Go(ByFix, next) => GoesByFix(p, next)
       case Go(ByRetry, next) => GoesByRetry(p, next)
       case Go(ByMending, next) => GoesByMending(p, next)
       case Go(ByEjection, next) => GoesByEjection(p, next)
       case Ended(end) => end.Land? ==> Lands(p, end)
  }

  /** Where the pass after `trace` starts: the corpus on every starting member, or where the last
      pass led. */
  ghost function StartOfNext(corpus: seq<Suite>, starting: seq<Member>, trace: seq<PassRecord>): (r: Round)
    requires trace != [] ==> trace[|trace| - 1].onto.Go?
  {
    if trace == [] then Round(starting, corpus, Corpus, false, false) else trace[|trace| - 1].onto.round
  }

  ghost predicate StartsAt(corpus: seq<Suite>, starting: seq<Member>, trace: seq<PassRecord>, i: nat)
    requires i < |trace|
  {
    if i == 0 then trace[0].round == Round(starting, corpus, Corpus, false, false)
    else trace[i - 1].onto.Go? && trace[i].round == trace[i - 1].onto.round
  }

  ghost predicate LinkedThere(corpus: seq<Suite>, starting: seq<Member>, trace: seq<PassRecord>, i: nat)
    requires i < |trace|
  {
    PassOk(trace[i]) && StartsAt(corpus, starting, trace, i)
  }

  /** Every pass is a proper one, and each starts where the one before led. */
  ghost predicate Linked(corpus: seq<Suite>, starting: seq<Member>, trace: seq<PassRecord>) {
    forall i: nat :: i < |trace| ==> LinkedThere(corpus, starting, trace, i)
  }

  /** A round: passes up to the bound, ending where the last one says, or given up at the bound. */
  ghost predicate RoundRan(corpus: seq<Suite>, starting: seq<Member>, trace: seq<PassRecord>, end: RoundEnd) {
    && Linked(corpus, starting, trace)
    && 0 < |trace| <= |starting| + 2
    && match trace[|trace| - 1].onto
       case Ended(e) => end == e
       case Go(_, _) => GaveUp(starting, trace, end)
  }

  ghost predicate GaveUp(starting: seq<Member>, trace: seq<PassRecord>, end: RoundEnd) {
    |trace| == |starting| + 2 && trace[|trace| - 1].onto.Go? && end.Blocked?
  }

  lemma LinkedLast(corpus: seq<Suite>, starting: seq<Member>, trace: seq<PassRecord>)
    requires Linked(corpus, starting, trace) && trace != []
    ensures Linked(corpus, starting, trace[..|trace| - 1]) && PassOk(trace[|trace| - 1])
    ensures |trace| > 1 ==> trace[|trace| - 2].onto.Go?
    ensures trace[|trace| - 1].round == StartOfNext(corpus, starting, trace[..|trace| - 1])
  {
    var before := trace[..|trace| - 1];
    assert LinkedThere(corpus, starting, trace, |trace| - 1);
    forall i: nat | i < |before| ensures LinkedThere(corpus, starting, before, i) {
      assert LinkedThere(corpus, starting, trace, i);
    }
  }

  lemma LinkedAt(corpus: seq<Suite>, starting: seq<Member>, trace: seq<PassRecord>, i: nat)
    requires Linked(corpus, starting, trace) && i < |trace|
    ensures PassOk(trace[i])
    ensures i == 0 ==> trace[0].round == Round(starting, corpus, Corpus, false, false)
    ensures i > 0 ==> trace[i - 1].onto.Go? && trace[i - 1].onto.round == trace[i].round
  {
    assert LinkedThere(corpus, starting, trace, i);
  }

  lemma LinkedStep(corpus: seq<Suite>, starting: seq<Member>, trace: seq<PassRecord>, i: nat)
    requires Linked(corpus, starting, trace) && 0 < i < |trace|
    ensures trace[i - 1].onto.Go? && trace[i - 1].onto.round == trace[i].round
  {
    assert LinkedThere(corpus, starting, trace, i);
  }

  lemma LinkedMore(corpus: seq<Suite>, starting: seq<Member>, trace: seq<PassRecord>, p: PassRecord)
    requires Linked(corpus, starting, trace) && PassOk(p)
    requires trace != [] ==> trace[|trace| - 1].onto.Go?
    requires p.round == StartOfNext(corpus, starting, trace)
    ensures Linked(corpus, starting, trace + [p])
  {
    var longer := trace + [p];
    forall i: nat | i < |longer| ensures LinkedThere(corpus, starting, longer, i) {
      if i < |trace| {
        assert LinkedThere(corpus, starting, trace, i);
      }
    }
  }

  // ----- facts about one pass --------------------------------------------------------------

  ghost predicate Safe(p: PassRecord, suite: Suite) {
    || suite in p.greens
    || (suite in p.v.suites && (IsOutcome(p.v, suite, Flaky) || IsOutcome(p.v, suite, BaseRed)))
  }

  /** Every suite of a pass that ran out is green or has a settled verdict the decision shows. */
  lemma VerdictShown(p: PassRecord, suite: Suite)
    requires Judged(p) && p.settled.end.Ran? && p.settled.preempt.None? && suite in p.round.suites
    ensures
      var d := p.settled.decision;
      || Safe(p, suite)
      || suite in d.unattributed
      || (suite in p.v.suites && OwnersOf(p.v, suite) != [] && IsOwned(d, suite))
  {
    var v, d := p.v, p.settled.decision;
    DecisionSorts(v, v.reds);
    assert suite in Elems(p.round.suites);
    if suite !in p.greens {
      assert suite in v.suites;
      RedsKnown(v);
      if !Safe(p, suite) && suite !in d.unattributed {
        var ids := OwnersOf(v, suite);
        OwnerSound(v, suite, ids);
        assert OwnedBy(v, suite, ids[0]);
        assert Charged(d.owners, ids[0], suite);
      }
    }
  }

  /** A preempted pass charges its reds to one member, and shows nothing else. */
  lemma PreemptShown(p: PassRecord)
    requires Judged(p) && p.settled.preempt.Some?
    ensures
      var d, x := p.settled.decision, p.settled.preempt.value.owner;
      && d.unattributed == [] && d.flaky == [] && d.base == []
      && OwnedBySole(p.v, x) != [] && NoDup(OwnedBySole(p.v, x)) && d.owners == map[x := OwnedBySole(p.v, x)]
  {
    var v, x := p.v, p.settled.preempt.value.owner;
    var owned := OwnedBySole(v, x);
    PreemptDecision(v, owned, x);
    FirstSoleIs(v, v.reds);
    var suite :| suite in v.reds && SoleOf(v.suites[suite]) == FirstSole(v, v.reds);
    assert suite in owned;
    RedsKnown(v);
    SolelyOnce(v, v.reds, x);
  }

  lemma {:induction false} SolelyOnce(v: State, reds: seq<Suite>, x: Id)
    requires NoDup(reds) && forall suite :: suite in reds ==> suite in v.suites
    ensures NoDup(SolelyOwned(v, reds, x))
  {
    if reds != [] {
      var shorter, last := reds[..|reds| - 1], reds[|reds| - 1];
      SolelyOnce(v, shorter, x);
      SolelyOwnedElems(v, shorter, x);
      assert last !in shorter;
      NoDupAppend(SolelyOwned(v, shorter, x), [last]);
    }
  }

  lemma PreemptNotIntegration(p: PassRecord)
    requires Judged(p) && p.settled.preempt.Some?
    ensures IntegrationSet(p.settled.decision) == {} && p.settled.decision.owners != map[]
  {
    PreemptShown(p);
    var d, x := p.settled.decision, p.settled.preempt.value.owner;
    assert x in d.owners;
    forall s ensures s !in IntegrationSet(d) {
      IntegrationSetIs(d, s);
      if ChargedTwice(d.owners, s) {
        assert false;
      }
    }
  }

  /** Owners are members of the round. */
  lemma OwnersAreMembers(p: PassRecord)
    requires Judged(p) && p.settled.end.Ran?
    ensures p.settled.decision.owners.Keys <= Elems(MemberIds(p.round.members))
  {
    var v, d := p.v, p.settled.decision;
    var reds := if p.settled.preempt.Some? then OwnedBySole(v, p.settled.preempt.value.owner) else v.reds;
    DecisionSorts(v, reds);
    DecisionKeys(v, reds);
    forall x | x in d.owners ensures x in Elems(MemberIds(p.round.members)) {
      var suite := d.owners[x][0];
      assert Charged(d.owners, x, suite);
      OwnerSound(v, suite, OwnersOf(v, suite));
    }
  }
}
