// What the attributor promises over every run: what each verdict rests on, what later events
// may still change, and that work never stalls.

module AttributionTheorems {
  import opened Prelude
  import opened Shapes
  import opened AttributionSpec
  import opened SuiteLedger
  import opened AttributionProof
  import opened AttributionRuns
  import opened AttributionLaunches

  /** Some legal run of a fresh attributor ends in `s`. */
  ghost predicate Reachable(s: State) {
    exists budget, shape, mainTotal, events :: ReachedBy(s, budget, shape, mainTotal, events)
  }

  ghost predicate ReachedBy(s: State, budget: Budget, shape: Shape, mainTotal: nat, events: seq<Event>) {
    && ShapeOk(shape)
    && LegalRun(Initial(budget, shape, mainTotal), events)
    && s == Run(Initial(budget, shape, mainTotal), events)
  }

  lemma {:induction false} RunAudit(s: State, events: seq<Event>)
    requires Inv(s) && Audit(s) && LegalRun(s, events)
    ensures Audit(Run(s, events))
  {
    if events != [] {
      var before, e := events[..|events| - 1], events[|events| - 1];
      RunAudit(s, before);
      RunKeeps(s, before);
      assert e in events && Legal(s, e);
      StepAudit(Run(s, before), e);
    }
  }

  /** Every reachable state keeps the scheduler's invariant and accounts for every launch. */
  lemma ReachableKeeps(s: State)
    requires Reachable(s)
    ensures Inv(s) && Audit(s)
  {
    var budget, shape, mainTotal, events :| ReachedBy(s, budget, shape, mainTotal, events);
    InitialInv(budget, shape, mainTotal);
    InitialAudit(budget, shape, mainTotal);
    RunKeeps(Initial(budget, shape, mainTotal), events);
    RunAudit(Initial(budget, shape, mainTotal), events);
  }

  // ----- what a verdict rests on -----------------------------------------------------------

  /** The log holds an answer to this run of `suite`, on the tree without `removal`. */
  ghost predicate Heard(log: seq<Answer>, suite: Suite, p: Purpose, removal: seq<Id>, r: JobResult) {
    exists a :: a in log && a.job.suite == suite && a.job.purpose == p && a.job.removal == removal && a.result == r
  }

  ghost function Heardings(log: seq<Answer>, suite: Suite, p: Purpose, r: JobResult): (n: nat) {
    Count(HistoryOf(log, suite), p, r)
  }

  lemma {:induction false} CountedWasHeard(log: seq<Answer>, suite: Suite, p: Purpose, r: JobResult) returns (a: Answer)
    requires Heardings(log, suite, p, r) > 0
    ensures a in log && a.job.suite == suite && a.job.purpose == p && a.result == r
  {
    var shorter, last := log[..|log| - 1], log[|log| - 1];
    if last.job.suite == suite && last.job.purpose == p && last.result == r {
      a := last;
    } else {
      var h := HistoryOf(shorter, suite);
      assert Heardings(shorter, suite, p, r) > 0 by {
        if last.job.suite == suite {
          CountSnoc(h, last.job.purpose, last.result);
        } else {
          assert h + [] == h;
        }
      }
      a := CountedWasHeard(shorter, suite, p, r);
    }
  }

  lemma Counted(s: State, suite: Suite, p: Purpose, r: JobResult)
    requires Audit(s) && Heardings(s.log, suite, p, r) > 0
    ensures Heard(s.log, suite, p, RemovalFor(s.shape, p), r)
  {
    var a := CountedWasHeard(s.log, suite, p, r);
    assert a.job.removal == RemovalFor(s.shape, a.job.purpose);
  }

  ghost predicate SettledOn(s: State, suite: Suite, outcome: Outcome) {
    suite in s.suites && s.suites[suite].settled.Some? && s.suites[suite].settled.value.0 == outcome
  }

  /** The account of one suite, kept. */
  ghost predicate SuiteKept(s: State, suite: Suite) {
    suite in s.suites && exists w :: w == s && suite in w.suites && SuiteHolds(w, suite)
  }

  lemma ReachableSuite(s: State, suite: Suite)
    requires Reachable(s) && suite in s.suites
    ensures SuiteKept(s, suite) && ShapeOk(s.shape)
  {
    ReachableKeeps(s);
    assert SuiteHolds(s, suite);
  }

  lemma AuditReached(s: State)
    requires Reachable(s)
    ensures Audit(s)
  {
    ReachableKeeps(s);
  }

  lemma FlakyLedger(s: State, suite: Suite)
    requires SuiteKept(s, suite) && SettledOn(s, suite, Flaky)
    ensures Heardings(s.log, suite, Plain, Green) > 0
  {
  }

  /** Flaky: green alone with every member present. */
  lemma FlakySound(s: State, suite: Suite)
    requires Reachable(s) && SettledOn(s, suite, Flaky)
    ensures Heard(s.log, suite, Plain, [], Green)
  {
    ReachableSuite(s, suite);
    AuditReached(s);
    FlakyLedger(s, suite);
    Counted(s, suite, Plain, Green);
  }

  lemma PlainRedLedger(s: State, suite: Suite)
    requires SuiteKept(s, suite) && s.suites[suite].plainRed
    ensures Heardings(s.log, suite, Plain, Red) > 0
  {
  }

  lemma BaseLedger(s: State, suite: Suite) returns (p: Purpose)
    requires SuiteKept(s, suite) && SettledOn(s, suite, BaseRed)
    ensures s.suites[suite].plainRed
    ensures !p.Plain? && RemovalFor(s.shape, p) == s.shape.members && Heardings(s.log, suite, p, Red) > 0
  {
    var h := HistoryOf(s.log, suite);
    assert BaseSeenRed(s.shape, h);
    p :| !p.Plain? && RemovalFor(s.shape, p) == s.shape.members && Count(h, p, Red) == 1;
  }

  /** Base: red with every member removed, after a red plain rerun. */
  lemma BaseSound(s: State, suite: Suite)
    requires Reachable(s) && SettledOn(s, suite, BaseRed)
    ensures Heard(s.log, suite, Plain, [], Red)
    ensures exists p: Purpose :: !p.Plain? && Heard(s.log, suite, p, s.shape.members, Red)
  {
    ReachableSuite(s, suite);
    AuditReached(s);
    var p := BaseLedger(s, suite);
    PlainRedLedger(s, suite);
    Counted(s, suite, Plain, Red);
    Counted(s, suite, p, Red);
  }

  lemma OwnerLedger(s: State, suite: Suite, ids: seq<Id>)
    requires SuiteKept(s, suite) && SettledOn(s, suite, Owner(ids))
    ensures
      var st := s.suites[suite];
      st.plainRed && ids == Names(st.owners) && OwnersOk(s.shape, st, HistoryOf(s.log, suite))
    ensures forall m :: m in s.suites[suite].suspects ==> m in s.shape.members
  {
  }

  /** The owners a suite is settled on, as its ledger has them. */
  lemma OwnerAccount(s: State, suite: Suite, ids: seq<Id>) returns (owners: seq<(Id, seq<Id>)>)
    requires Reachable(s) && SettledOn(s, suite, Owner(ids))
    ensures ids == Names(owners) && owners != [] && Incomparable(owners)
    ensures forall o :: o in owners ==> o.1 == RemovalOf(s.shape, o.0) && o.0 in s.shape.members
    ensures forall o :: o in owners ==> Heardings(s.log, suite, Without(o.0), Green) == 1
    ensures forall y :: Heardings(s.log, suite, Without(y), Green) > 0 ==> Explained(s.shape, owners, y)
    ensures Heard(s.log, suite, Plain, [], Red)
    ensures ShapeOk(s.shape)
  {
    owners := s.suites[suite].owners;
    ReachableSuite(s, suite);
    OwnerLedger(s, suite, ids);
    PlainRedLedger(s, suite);
    AuditReached(s);
    Counted(s, suite, Plain, Red);
    forall o | o in owners ensures o.0 in s.shape.members {
      WantedMember(s.shape, s.suites[suite].suspects, o.0);
    }
  }

  /** Owned: each owner is a round member, the plain rerun was red, and the suite was green on
      the round without exactly that owner's removal set. */
  lemma OwnerSound(s: State, suite: Suite, ids: seq<Id>)
    requires Reachable(s) && SettledOn(s, suite, Owner(ids))
    ensures ids != [] && NoDup(ids) && Heard(s.log, suite, Plain, [], Red)
    ensures forall x :: x in ids ==>
              x in s.shape.members && Heard(s.log, suite, Without(x), RemovalOf(s.shape, x), Green)
  {
    var owners := OwnerAccount(s, suite, ids);
    forall i, j | 0 <= i < j < |ids| ensures ids[i] != ids[j] {
      assert owners[i] in owners && owners[j] in owners;
    }
    forall x | x in ids
      ensures x in s.shape.members && Heard(s.log, suite, Without(x), RemovalOf(s.shape, x), Green)
    {
      var i :| 0 <= i < |ids| && ids[i] == x;
      assert owners[i] in owners;
      GreenHeard(s, suite, x);
    }
  }

  lemma GreenHeard(s: State, suite: Suite, x: Id)
    requires Reachable(s) && Heardings(s.log, suite, Without(x), Green) > 0
    ensures Heard(s.log, suite, Without(x), RemovalOf(s.shape, x), Green)
  {
    ReachableKeeps(s);
    Counted(s, suite, Without(x), Green);
  }

  ghost predicate GreenInside(s: State, suite: Suite, x: Id) {
    exists y :: Heardings(s.log, suite, Without(y), Green) > 0
      && Elems(RemovalOf(s.shape, y)) < Elems(RemovalOf(s.shape, x))
  }

  lemma OwnersAreMinimal(s: State, suite: Suite, ids: seq<Id>, x: Id)
    requires Reachable(s) && SettledOn(s, suite, Owner(ids)) && x in ids
    ensures !GreenInside(s, suite, x)
  {
    var owners := OwnerAccount(s, suite, ids);
    var i :| 0 <= i < |ids| && ids[i] == x;
    assert owners[i] in owners;
    if y :| Heardings(s.log, suite, Without(y), Green) > 0
            && Elems(RemovalOf(s.shape, y)) < Elems(RemovalOf(s.shape, x)) {
      assert false;
    }
  }

  lemma MinimalAreOwners(s: State, suite: Suite, ids: seq<Id>, x: Id)
    requires Reachable(s) && SettledOn(s, suite, Owner(ids)) && x !in ids
    requires Heardings(s.log, suite, Without(x), Green) > 0
    ensures GreenInside(s, suite, x)
  {
    var owners := OwnerAccount(s, suite, ids);
    assert Explained(s.shape, owners, x);
    var j :| 0 <= j < |owners| && Elems(owners[j].1) <= Elems(RemovalOf(s.shape, x));
    var o := owners[j];
    assert o in owners && ids[j] == o.0;
    if Elems(o.1) == Elems(RemovalOf(s.shape, x)) {
      SameRemoval(s, suite, o.0, x);
      assert false;
    }
  }

  /** The owners are exactly the members the suite was green without whose removal sets are
      minimal: no other green removal set is strictly inside. */
  lemma OwnersMinimal(s: State, suite: Suite, ids: seq<Id>, x: Id)
    requires Reachable(s) && SettledOn(s, suite, Owner(ids))
    requires Heardings(s.log, suite, Without(x), Green) > 0
    ensures x in ids <==> !GreenInside(s, suite, x)
  {
    if x in ids {
      OwnersAreMinimal(s, suite, ids, x);
    } else {
      MinimalAreOwners(s, suite, ids, x);
    }
  }

  lemma WantedLedger(s: State, suite: Suite, p: Purpose)
    requires SuiteKept(s, suite) && !p.Plain? && Judged(HistoryOf(s.log, suite), p) > 0
    ensures p in Wanted(s.shape, s.suites[suite].suspects)
    ensures forall m :: m in s.suites[suite].suspects ==> m in s.shape.members
  {
  }

  lemma HeardIsKnown(s: State, suite: Suite, p: Purpose, r: JobResult)
    requires Reachable(s) && Heardings(s.log, suite, p, r) > 0
    ensures suite in s.suites
  {
    ReachableKeeps(s);
    if suite !in s.suites {
      HistoryAbsent(s.log, suite);
      assert false;
    }
  }

  lemma GreenWanted(s: State, suite: Suite, x: Id)
    requires Reachable(s) && Heardings(s.log, suite, Without(x), Green) > 0
    ensures suite in s.suites && Without(x) in Wanted(s.shape, s.suites[suite].suspects)
    ensures forall m :: m in s.suites[suite].suspects ==> m in s.shape.members
    ensures ShapeOk(s.shape)
  {
    HeardIsKnown(s, suite, Without(x), Green);
    ReachableSuite(s, suite);
    WantedLedger(s, suite, Without(x));
  }

  /** Of members with one removal set, only one is ever run without. */
  lemma SameRemoval(s: State, suite: Suite, x: Id, y: Id)
    requires Reachable(s)
    requires Heardings(s.log, suite, Without(x), Green) > 0 && Heardings(s.log, suite, Without(y), Green) > 0
    requires Elems(RemovalOf(s.shape, x)) == Elems(RemovalOf(s.shape, y))
    ensures x == y
  {
    GreenWanted(s, suite, x);
    GreenWanted(s, suite, y);
    if x != y {
      WantedDistinct(s.shape, s.suites[suite].suspects, x, y);
      WithinSame(s.shape.members, Elems(RemovalOf(s.shape, x)), Elems(RemovalOf(s.shape, y)));
    }
  }

  /** No two owners' removal sets are nested. */
  lemma OwnersIncomparable(s: State, suite: Suite, ids: seq<Id>, x: Id, y: Id)
    requires Reachable(s) && SettledOn(s, suite, Owner(ids)) && x in ids && y in ids && x != y
    ensures !(Elems(RemovalOf(s.shape, x)) <= Elems(RemovalOf(s.shape, y)))
  {
    var owners := OwnerAccount(s, suite, ids);
    var i :| 0 <= i < |ids| && ids[i] == x;
    var j :| 0 <= j < |ids| && ids[j] == y;
    assert owners[i] in owners && owners[j] in owners;
    assert !(Elems(owners[i].1) <= Elems(owners[j].1));
  }

  /** A run for `removal` that settled nothing: still red without it, or lost to two faults. */
  ghost predicate Lost(s: State, suite: Suite, p: Purpose) {
    Heardings(s.log, suite, p, Fault) == 2
  }

  ghost predicate StayedRed(s: State, suite: Suite, x: Id) {
    Heard(s.log, suite, Without(x), RemovalOf(s.shape, x), Red) && RemovalOf(s.shape, x) != s.shape.members
  }

  lemma KeptUnattributed(s: State, suite: Suite)
    requires SuiteKept(s, suite) && SettledOn(s, suite, Unattributed) && !Lost(s, suite, Plain)
    ensures s.suites[suite].plainRed
    ensures forall m :: m in s.suites[suite].suspects ==> m in s.shape.members
    ensures forall p :: p in Wanted(s.shape, s.suites[suite].suspects) ==> Spent(s.shape, HistoryOf(s.log, suite), p)
  {
  }

  lemma LedgerUnattributed(s: State, suite: Suite)
    requires Reachable(s) && SettledOn(s, suite, Unattributed) && !Lost(s, suite, Plain)
    ensures Heardings(s.log, suite, Plain, Red) > 0
    ensures forall m :: m in s.suites[suite].suspects ==> m in s.shape.members
    ensures forall p :: p in Wanted(s.shape, s.suites[suite].suspects) ==> Spent(s.shape, HistoryOf(s.log, suite), p)
  {
    ReachableSuite(s, suite);
    KeptUnattributed(s, suite);
    PlainRedLedger(s, suite);
  }

  lemma SpentIsGivenUp(s: State, suite: Suite, p: Purpose)
    requires Audit(s) && Spent(s.shape, HistoryOf(s.log, suite), p)
    ensures GivenUp(s, suite, p)
  {
    if !Lost(s, suite, p) {
      Counted(s, suite, p, if p.Base? then Green else Red);
    }
  }

  /** What an unattributed suite's ledger says of its wanted runs. */
  lemma UnattributedAccount(s: State, suite: Suite)
    requires Reachable(s) && SettledOn(s, suite, Unattributed) && !Lost(s, suite, Plain)
    ensures Heard(s.log, suite, Plain, [], Red)
    ensures forall m :: m in s.suites[suite].suspects ==> m in s.shape.members
    ensures forall p :: p in Wanted(s.shape, s.suites[suite].suspects) ==> GivenUp(s, suite, p)
  {
    LedgerUnattributed(s, suite);
    AuditReached(s);
    Counted(s, suite, Plain, Red);
    forall p | p in Wanted(s.shape, s.suites[suite].suspects) ensures GivenUp(s, suite, p) {
      SpentIsGivenUp(s, suite, p);
    }
  }

  ghost predicate GivenUp(s: State, suite: Suite, p: Purpose) {
    || Lost(s, suite, p)
    || (p.Base? && Heard(s.log, suite, Base, s.shape.members, Green))
    || (p.Without? && StayedRed(s, suite, p.suspect))
  }

  /** Unattributed: the plain rerun was lost; or it was red, every member's removal set was tried
      and stayed red or was lost, and the base, unless some removal set was already the whole
      round, was green or lost. */
  lemma UnattributedSound(s: State, suite: Suite)
    requires Reachable(s) && SettledOn(s, suite, Unattributed)
    ensures Lost(s, suite, Plain) || UnattributedRed(s, suite)
  {
    if !Lost(s, suite, Plain) {
      UnattributedAccount(s, suite);
      var suspects := s.suites[suite].suspects;
      forall x | x in s.shape.members ensures TriedWithout(s, suite, x) {
        WantedFor(s.shape, suspects, x);
        var y :| Without(y) in Wanted(s.shape, suspects) && RemovalOf(s.shape, y) == RemovalOf(s.shape, x);
        assert GivenUp(s, suite, Without(y));
      }
      if forall x :: x in s.shape.members ==> RemovalOf(s.shape, x) != s.shape.members {
        BaseWanted(s.shape, suspects);
        assert GivenUp(s, suite, Base);
      }
    }
  }

  ghost predicate TriedWithout(s: State, suite: Suite, x: Id) {
    exists y :: RemovalOf(s.shape, y) == RemovalOf(s.shape, x) && (Lost(s, suite, Without(y)) || StayedRed(s, suite, y))
  }

  ghost predicate UnattributedRed(s: State, suite: Suite) {
    && Heard(s.log, suite, Plain, [], Red)
    && (forall x :: x in s.shape.members ==> TriedWithout(s, suite, x))
    && ((forall x :: x in s.shape.members ==> RemovalOf(s.shape, x) != s.shape.members) ==>
          Lost(s, suite, Base) || Heard(s.log, suite, Base, s.shape.members, Green))
  }

  lemma WantedFor(shape: Shape, suspects: seq<Id>, x: Id)
    requires x in shape.members
    ensures exists y :: Without(y) in Wanted(shape, suspects) && RemovalOf(shape, y) == RemovalOf(shape, x)
  {
    var ids := suspects + shape.members;
    var ws, wants := Withouts(shape, ids), Wants(shape, suspects);
    WithoutsFacts(shape, ids);
    WithoutsCover(shape, ids, x);
    var w :| w in ws && w.1 == RemovalOf(shape, x);
    var i :| 0 <= i < |ws| && ws[i] == w;
    var n := |wants| - |ws|;
    assert wants[n + i] == (Without(w.0), w.1);
    assert wants[n + i] in wants;
    assert Without(w.0) in Wanted(shape, suspects);
  }

  lemma BaseWanted(shape: Shape, suspects: seq<Id>)
    requires forall m :: m in suspects ==> m in shape.members
    requires forall x :: x in shape.members ==> RemovalOf(shape, x) != shape.members
    ensures Base in Wanted(shape, suspects)
  {
    var wants := Wants(shape, suspects);
    WithoutsFacts(shape, suspects + shape.members);
    assert wants[0] == (Base, shape.members);
    assert wants[0] in wants;
  }
}
