// One red suite under attribution: the account its state keeps of the answers it has had.
// Every event on a suite is one of the case lemmas below, each taking the account from one
// consistent position to the next; AttributionProof.dfy puts them together.

module SuiteLedger {
  import opened Prelude
  import opened Shapes
  import opened AttributionSpec

  /** The answers a suite has had, oldest first. */
  type History = seq<(Purpose, JobResult)>

  ghost function Count(h: History, p: Purpose, r: JobResult): (n: nat) {
    if h == [] then 0
    else Count(h[..|h| - 1], p, r) + (if h[|h| - 1] == (p, r) then 1 else 0)
  }

  lemma CountSnoc(h: History, q: Purpose, s: JobResult)
    ensures forall p, r :: Count(h + [(q, s)], p, r) == Count(h, p, r) + (if (q, s) == (p, r) then 1 else 0)
  {
    assert (h + [(q, s)])[..|h|] == h;
  }

  /** How often a purpose was answered by a run, green or red. */
  ghost function Judged(h: History, p: Purpose): (n: nat) {
    Count(h, p, Green) + Count(h, p, Red)
  }

  function RemovalFor(shape: Shape, p: Purpose): (r: seq<Id>) {
    match p
    case Plain => []
    case Base => shape.members
    case Without(x) => RemovalOf(shape, x)
  }

  /** The purposes of the attribution runs a red plain rerun calls for. */
  ghost function Wanted(shape: Shape, suspects: seq<Id>): (r: set<Purpose>) {
    set w | w in Wants(shape, suspects) :: w.0
  }

  ghost predicate Live(live: set<Job>, p: Purpose) {
    exists j :: j in live && j.purpose == p
  }

  ghost function Ids(live: set<Job>): (r: set<nat>) {
    set j | j in live :: j.id
  }

  lemma IdsPlus(live: set<Job>, job: Job)
    ensures Ids(live + {job}) == Ids(live) + {job.id}
  {
    assert job in live + {job};
    forall id | id in Ids(live) ensures id in Ids(live + {job}) {
      var j :| j in live && j.id == id;
      assert j in live + {job};
    }
  }

  /** A wanted run that can no longer clear the suite: it faulted twice, or the base was green,
      or the suite stayed red without the suspect although something was left in the tree. */
  ghost predicate Spent(shape: Shape, h: History, p: Purpose) {
    || Count(h, p, Fault) == 2
    || (p.Base? && Count(h, p, Green) == 1)
    || (p.Without? && Count(h, p, Red) == 1 && RemovalFor(shape, p) != shape.members)
  }

  /** The queued and running jobs of the suite are the ones it counts, each for a purpose of
      its own, on the tree that purpose calls for. */
  ghost predicate JobsOk(shape: Shape, suite: Suite, st: SuiteState, live: set<Job>) {
    && st.outstanding == Ids(live)
    && (forall j :: j in live ==>
          j.suite == suite && j.removal == RemovalFor(shape, j.purpose)
          && (j.purpose.Plain? || j.purpose in Wanted(shape, st.suspects)))
    && (forall j, k :: j in live && k in live && j.purpose == k.purpose ==> j == k)
  }

  /** No purpose is answered more than once, nor retried after a second fault. */
  ghost predicate LedgerOk(shape: Shape, st: SuiteState, live: set<Job>, h: History) {
    forall p: Purpose ::
      && FaultsOf(st, p) == Count(h, p, Fault)
      && Count(h, p, Fault) <= 2
      && Judged(h, p) <= 1
      && (Count(h, p, Fault) == 2 ==> Judged(h, p) == 0)
      && (Live(live, p) ==> Judged(h, p) == 0 && Count(h, p, Fault) < 2)
      && (Judged(h, p) + Count(h, p, Fault) > 0 && !p.Plain? ==> st.plainRed && p in Wanted(shape, st.suspects))
  }

  /** Where an unsettled suite stands: its plain rerun is still to be judged, or was red and
      every wanted run is live or spent. */
  ghost predicate Pending(shape: Shape, st: SuiteState, live: set<Job>, h: History) {
    && st.owners == []
    && Count(h, Plain, Green) == 0
    && (!st.plainRed ==> Live(live, Plain))
    && (st.plainRed ==> forall p :: p in Wanted(shape, st.suspects) ==> Live(live, p) || Spent(shape, h, p))
    && (forall x :: Count(h, Without(x), Green) == 0)
  }

  /** The owners are the members without whom the suite was green and whose removal sets no
      other such set undercuts: pairwise incomparable, and below every green removal. */
  ghost predicate OwnersOk(shape: Shape, st: SuiteState, h: History) {
    && st.owners != []
    && (forall o :: o in st.owners ==>
          o.1 == RemovalOf(shape, o.0) && Without(o.0) in Wanted(shape, st.suspects)
          && Count(h, Without(o.0), Green) == 1)
    && Incomparable(st.owners)
    && (forall y :: Count(h, Without(y), Green) > 0 ==> Explained(shape, st.owners, y))
  }

  ghost predicate Incomparable(owners: seq<(Id, seq<Id>)>) {
    forall i, j :: 0 <= i < |owners| && 0 <= j < |owners| && i != j ==>
      !(Elems(owners[i].1) <= Elems(owners[j].1))
  }

  ghost predicate Explained(shape: Shape, owners: seq<(Id, seq<Id>)>, y: Id) {
    exists o :: o in owners && Elems(o.1) <= Elems(RemovalOf(shape, y))
  }

  ghost predicate BaseSeenRed(shape: Shape, h: History) {
    exists p: Purpose :: !p.Plain? && RemovalFor(shape, p) == shape.members && Count(h, p, Red) == 1
  }

  ghost predicate Exhausted(shape: Shape, st: SuiteState, h: History) {
    || Count(h, Plain, Fault) == 2
    || (st.plainRed && forall p :: p in Wanted(shape, st.suspects) ==> Spent(shape, h, p))
  }

  /** What each settled outcome rests on. */
  ghost predicate VerdictOk(shape: Shape, st: SuiteState, live: set<Job>, h: History) {
    match st.settled
    case None => Pending(shape, st, live, h)
    case Some((Flaky, _)) => st.owners == [] && Count(h, Plain, Green) == 1
    case Some((BaseRed, _)) => st.owners == [] && st.plainRed && BaseSeenRed(shape, h)
    case Some((Unattributed, _)) => st.owners == [] && live == {} && Exhausted(shape, st, h)
    case Some((Owner(ids), _)) => st.plainRed && ids == Names(st.owners) && OwnersOk(shape, st, h)
  }

  /** The account but for the last clause: an unsettled suite may have run out of jobs. */
  ghost predicate AccountOk(shape: Shape, suite: Suite, st: SuiteState, live: set<Job>, h: History) {
    && JobsOk(shape, suite, st, live)
    && LedgerOk(shape, st, live, h)
    && (st.plainRed <==> Count(h, Plain, Red) == 1)
    && (!st.plainRed ==> forall j :: j in live ==> j.purpose.Plain?)
    && VerdictOk(shape, st, live, h)
  }

  ghost predicate SuiteOk(shape: Shape, suite: Suite, st: SuiteState, live: set<Job>, h: History) {
    && AccountOk(shape, suite, st, live, h)
    && (st.settled.None? ==> live != {})
  }

  // ----- the case lemmas -------------------------------------------------------------------

  lemma FreshSuiteOk(shape: Shape, suite: Suite, suspects: seq<Id>, now: nat, job: Job)
    requires job == Job(job.id, suite, [], Plain)
    ensures SuiteOk(shape, suite, FreshSuite(suspects, now).(outstanding := {job.id}), {job}, [])
  {
    assert job in {job};
    assert Live({job}, Plain);
  }

  /** A settled suite stays consistent whatever of its jobs is cancelled. */
  lemma Cancelled(shape: Shape, suite: Suite, st: SuiteState, live: set<Job>, h: History, rest: set<Job>)
    requires AccountOk(shape, suite, st, live, h) && st.settled.Some?
    requires rest <= live
    ensures SuiteOk(shape, suite, st.(outstanding := Ids(rest)), rest, h)
  {
    forall p | Live(rest, p) ensures Live(live, p) {
      var j :| j in rest && j.purpose == p;
      assert j in live;
    }
    var st' := st.(outstanding := Ids(rest));
    assert forall p :: FaultsOf(st', p) == FaultsOf(st, p);
  }

  lemma PlainAlone(shape: Shape, suite: Suite, st: SuiteState, live: set<Job>, h: History, j: Job)
    requires SuiteOk(shape, suite, st, live, h) && j in live && j.purpose.Plain?
    ensures live == {j} && !st.plainRed && st.settled.None?
  {
    assert Live(live, Plain);
    assert Judged(h, Plain) == 0;
    forall k | k in live ensures k == j {
      assert k.purpose.Plain?;
    }
  }

  /** The suite's state once `j` has been answered: `j` is no longer outstanding. */
  ghost predicate Answered(st: SuiteState, live: set<Job>, j: Job, st0: SuiteState) {
    j in live && st0 == st.(outstanding := Ids(live - {j}))
  }

  lemma PlainGreen(shape: Shape, suite: Suite, st: SuiteState, live: set<Job>, h: History, j: Job, st0: SuiteState,
                   now: nat)
    requires SuiteOk(shape, suite, st, live, h) && Answered(st, live, j, st0) && j.purpose.Plain?
    ensures AccountOk(shape, suite, SettledAs(st0, Flaky, now), live - {j}, h + [(Plain, Green)])
  {
    PlainAlone(shape, suite, st, live, h, j);
    assert live - {j} == {};
    CountSnoc(h, Plain, Green);
    assert Live(live, Plain);
    assert forall p :: FaultsOf(SettledAs(st0, Flaky, now), p) == FaultsOf(st, p);
  }

  /** The plain rerun was red: its place is taken by one job for every wanted run. */
  lemma PlainRed(shape: Shape, suite: Suite, st: SuiteState, live: set<Job>, h: History, j: Job, st0: SuiteState,
                 added: set<Job>)
    requires SuiteOk(shape, suite, st, live, h) && Answered(st, live, j, st0) && j.purpose.Plain?
    requires MeetsWants(added, shape, suite, st.suspects)
    ensures SuiteOk(shape, suite, st0.(plainRed := true, outstanding := st0.outstanding + Ids(added)),
                    live - {j} + added, h + [(Plain, Red)])
  {
    PlainAlone(shape, suite, st, live, h, j);
    assert live - {j} + added == added && live - {j} == {};
    assert Ids(live - {j}) + Ids(added) == Ids(added);
    CountSnoc(h, Plain, Red);
    assert Live(live, Plain);
    var st' := st0.(plainRed := true, outstanding := st0.outstanding + Ids(added));
    assert forall p :: FaultsOf(st', p) == FaultsOf(st, p);
    assert Wanted(shape, st'.suspects) == Wanted(shape, st.suspects);
    WantedNotPlain(shape, st.suspects);
    forall p | Live(added, p) ensures p in Wanted(shape, st.suspects) {
      var k :| k in added && k.purpose == p;
    }
    var p :| p in Wanted(shape, st.suspects);
    assert Live(added, p);
  }

  /** `added` holds one new job for every wanted run, and nothing else. */
  ghost predicate MeetsWants(added: set<Job>, shape: Shape, suite: Suite, suspects: seq<Id>) {
    && (forall k :: k in added ==>
          k.suite == suite && k.removal == RemovalFor(shape, k.purpose) && k.purpose in Wanted(shape, suspects))
    && (forall k, l :: k in added && l in added && k.purpose == l.purpose ==> k == l)
    && (forall p :: p in Wanted(shape, suspects) ==> Live(added, p))
  }

  lemma WantedNotPlain(shape: Shape, suspects: seq<Id>)
    ensures Plain !in Wanted(shape, suspects) && Wanted(shape, suspects) != {}
  {
    var wants := Wants(shape, suspects);
    assert wants[0] in wants && wants[0].0 in Wanted(shape, suspects);
  }

  ghost function Faulted(st: SuiteState, p: Purpose): (r: SuiteState) {
    st.(faults := st.faults[p := FaultsOf(st, p) + 1])
  }

  lemma RetryJobs(shape: Shape, suite: Suite, st: SuiteState, live: set<Job>, j: Job, again: Job, st': SuiteState)
    requires JobsOk(shape, suite, st, live) && j in live && again !in live && again == j.(id := again.id)
    requires st'.outstanding == Ids(live - {j}) + {again.id} && st'.suspects == st.suspects
    ensures JobsOk(shape, suite, st', live - {j} + {again})
  {
    IdsPlus(live - {j}, again);
  }

  lemma RetryLedger(shape: Shape, st: SuiteState, live: set<Job>, h: History, p: Purpose, live': set<Job>,
                    st': SuiteState)
    requires LedgerOk(shape, st, live, h) && Live(live, p) && forall q :: Live(live', q) <==> Live(live, q)
    requires FaultsOf(st, p) == 0 && st'.plainRed == st.plainRed && st'.suspects == st.suspects
    requires forall q :: FaultsOf(st', q) == FaultsOf(st, q) + (if q == p then 1 else 0)
    requires (st.plainRed && p in Wanted(shape, st.suspects)) || p.Plain?
    ensures LedgerOk(shape, st', live', h + [(p, Fault)])
  {
    CountSnoc(h, p, Fault);
  }

  lemma RetryPending(shape: Shape, st: SuiteState, live: set<Job>, h: History, p: Purpose, live': set<Job>,
                     st': SuiteState)
    requires Pending(shape, st, live, h) && LedgerOk(shape, st, live, h) && FaultsOf(st, p) == 0
    requires forall q :: Live(live', q) <==> Live(live, q)
    requires st'.plainRed == st.plainRed && st'.suspects == st.suspects && st'.owners == st.owners
    ensures Pending(shape, st', live', h + [(p, Fault)])
  {
    CountSnoc(h, p, Fault);
    forall q | Spent(shape, h, q) ensures Spent(shape, h + [(p, Fault)], q) {
      assert Count(h, q, Fault) <= 2 && FaultsOf(st, p) == Count(h, p, Fault);
    }
  }

  /** A first fault: the same run is queued again under a new id. */
  lemma FaultRetried(shape: Shape, suite: Suite, st: SuiteState, live: set<Job>, h: History, j: Job, st0: SuiteState,
                     again: Job)
    requires SuiteOk(shape, suite, st, live, h) && Answered(st, live, j, st0) && again !in live
    requires again == j.(id := again.id)
    requires st.settled.None? && FaultsOf(st, j.purpose) == 0
    ensures SuiteOk(shape, suite, Faulted(st0, j.purpose).(outstanding := st0.outstanding + {again.id}),
                    live - {j} + {again}, h + [(j.purpose, Fault)])
  {
    var live', st' := live - {j} + {again}, Faulted(st0, j.purpose).(outstanding := st0.outstanding + {again.id});
    assert again in live' && Live(live, j.purpose);
    LiveSwapped(live, j, again);
    CountSnoc(h, j.purpose, Fault);
    RetryJobs(shape, suite, st, live, j, again, st');
    RetryLedger(shape, st, live, h, j.purpose, live', st');
    RetryPending(shape, st, live, h, j.purpose, live', st');
  }

  lemma LiveSwapped(live: set<Job>, j: Job, again: Job)
    requires j in live && again.purpose == j.purpose
    ensures forall p :: Live(live - {j} + {again}, p) <==> Live(live, p)
  {
    var live' := live - {j} + {again};
    forall p ensures Live(live', p) <==> Live(live, p) {
      if Live(live', p) {
        var k :| k in live' && k.purpose == p;
        assert (if k == again then j else k) in live;
      }
      if Live(live, p) {
        var k :| k in live && k.purpose == p;
        assert (if k == j then again else k) in live';
      }
    }
  }

  lemma LiveWithout(live: set<Job>, j: Job)
    requires j in live && forall k :: k in live && k.purpose == j.purpose ==> k == j
    ensures forall p :: Live(live - {j}, p) <==> Live(live, p) && p != j.purpose
  {
    forall p ensures Live(live - {j}, p) <==> Live(live, p) && p != j.purpose {
      if Live(live, p) && p != j.purpose {
        var k :| k in live && k.purpose == p;
        assert k in live - {j};
      }
      if Live(live - {j}, p) {
        var k :| k in live - {j} && k.purpose == p;
        assert k in live;
      }
    }
  }

  /** A second fault of an attribution run, or any fault once settled: the run is dropped. */
  lemma FaultDropped(shape: Shape, suite: Suite, st: SuiteState, live: set<Job>, h: History, j: Job, st0: SuiteState)
    requires SuiteOk(shape, suite, st, live, h) && Answered(st, live, j, st0) && !j.purpose.Plain?
    requires st.settled.Some? || FaultsOf(st, j.purpose) >= 1
    ensures AccountOk(shape, suite, Faulted(st0, j.purpose), live - {j}, h + [(j.purpose, Fault)])
  {
    CountSnoc(h, j.purpose, Fault);
    assert Live(live, j.purpose);
    LiveWithout(live, j);
    assert forall p :: FaultsOf(Faulted(st0, j.purpose), p) == FaultsOf(st, p) + (if p == j.purpose then 1 else 0);
    SameVerdict(shape, st, live, h, j, Fault);
  }

  /** An answer that neither clears the suite nor settles it leaves the verdict standing. */
  lemma SameVerdict(shape: Shape, st: SuiteState, live: set<Job>, h: History, j: Job, r: JobResult)
    requires VerdictOk(shape, st, live, h) && LedgerOk(shape, st, live, h) && j in live
    requires forall k :: k in live && k.purpose == j.purpose ==> k == j
    requires !j.purpose.Plain? && !(j.purpose.Without? && r.Green?)
    requires st.settled.None? ==> Spent(shape, h + [(j.purpose, r)], j.purpose)
    ensures VerdictOk(shape, st, live - {j}, h + [(j.purpose, r)])
  {
    var h' := h + [(j.purpose, r)];
    CountSnoc(h, j.purpose, r);
    LiveWithout(live, j);
    assert Live(live, j.purpose);
    forall p | p != j.purpose && Spent(shape, h, p) ensures Spent(shape, h', p) {
    }
    if BaseSeenRed(shape, h) {
      var p: Purpose :| !p.Plain? && RemovalFor(shape, p) == shape.members && Count(h, p, Red) == 1;
      assert p != j.purpose;
      assert Count(h', p, Red) == 1;
    }
  }

  /** The plain rerun faulted twice: the suite is unattributed. */
  lemma PlainFaultedTwice(shape: Shape, suite: Suite, st: SuiteState, live: set<Job>, h: History, j: Job,
                          st0: SuiteState, now: nat)
    requires SuiteOk(shape, suite, st, live, h) && Answered(st, live, j, st0) && j.purpose.Plain?
    requires FaultsOf(st, Plain) >= 1
    ensures AccountOk(shape, suite, SettledAs(Faulted(st0, Plain), Unattributed, now), live - {j}, h + [(Plain, Fault)])
  {
    PlainAlone(shape, suite, st, live, h, j);
    assert live - {j} == {};
    CountSnoc(h, Plain, Fault);
    assert Live(live, Plain);
    var st' := SettledAs(Faulted(st0, Plain), Unattributed, now);
    assert forall p :: FaultsOf(st', p) == FaultsOf(st, p) + (if p.Plain? then 1 else 0);
  }

  /** Booking one judged attribution run keeps the jobs and the ledger in order. */
  lemma RunBooked(shape: Shape, suite: Suite, st: SuiteState, st': SuiteState, live: set<Job>, h: History, j: Job,
                  r: JobResult)
    requires SuiteOk(shape, suite, st, live, h) && j in live && !j.purpose.Plain? && !r.Fault?
    requires st'.outstanding == Ids(live - {j}) && st'.faults == st.faults
    requires st'.plainRed == st.plainRed && st'.suspects == st.suspects
    requires VerdictOk(shape, st', live - {j}, h + [(j.purpose, r)])
    ensures AccountOk(shape, suite, st', live - {j}, h + [(j.purpose, r)])
  {
    CountSnoc(h, j.purpose, r);
    assert Live(live, j.purpose);
    LiveWithout(live, j);
    assert forall p :: FaultsOf(st', p) == FaultsOf(st, p);
  }

  /** An attribution run judged without settling anything: the base green, or the suite red
      although only part of the round was removed. */
  lemma RunSpent(shape: Shape, suite: Suite, st: SuiteState, live: set<Job>, h: History, j: Job, st0: SuiteState,
                 r: JobResult)
    requires SuiteOk(shape, suite, st, live, h) && Answered(st, live, j, st0) && !j.purpose.Plain? && !r.Fault?
    requires j.purpose.Base? ==> r.Green?
    requires j.purpose.Without? ==> r.Red? && j.removal != shape.members
    ensures AccountOk(shape, suite, st0, live - {j}, h + [(j.purpose, r)])
  {
    CountSnoc(h, j.purpose, r);
    assert Live(live, j.purpose);
    SameVerdict(shape, st, live, h, j, r);
    RunBooked(shape, suite, st, st0, live, h, j, r);
  }

  lemma NoteBaseGreen(shape: Shape, suite: Suite, st: SuiteState, live: set<Job>, h: History)
    requires AccountOk(shape, suite, st, live, h)
    ensures AccountOk(shape, suite, st.(baseGreen := true), live, h)
  {
    assert forall p :: FaultsOf(st.(baseGreen := true), p) == FaultsOf(st, p);
  }

  ghost function SettledAs(st: SuiteState, outcome: Outcome, now: nat): (r: SuiteState) {
    if st.settled.None? then st.(settled := Some((outcome, now))) else st
  }

  /** Red with every member removed: the base's, unless the suite already settled. */
  lemma BaseRedSeen(shape: Shape, suite: Suite, st: SuiteState, live: set<Job>, h: History, j: Job, st0: SuiteState,
                    now: nat)
    requires SuiteOk(shape, suite, st, live, h) && Answered(st, live, j, st0) && !j.purpose.Plain?
    requires j.removal == shape.members
    ensures AccountOk(shape, suite, SettledAs(st0, BaseRed, now), live - {j}, h + [(j.purpose, Red)])
  {
    var h' := h + [(j.purpose, Red)];
    CountSnoc(h, j.purpose, Red);
    assert Live(live, j.purpose);
    if st.settled.None? {
      assert RemovalFor(shape, j.purpose) == shape.members && Count(h', j.purpose, Red) == 1;
      assert BaseSeenRed(shape, h');
    } else {
      SameVerdict(shape, st, live, h, j, Red);
    }
    RunBooked(shape, suite, st, SettledAs(st0, BaseRed, now), live, h, j, Red);
  }

  /** Nothing left to run and still unsettled: unattributed; otherwise the account is whole. */
  lemma ExhaustedOrNot(shape: Shape, suite: Suite, st: SuiteState, live: set<Job>, h: History, now: nat)
    requires AccountOk(shape, suite, st, live, h)
    ensures (live == {} <==> st.outstanding == {})
    ensures st.settled.None? && live == {} ==>
              st.plainRed && SuiteOk(shape, suite, st.(settled := Some((Unattributed, now))), live, h)
    ensures !(st.settled.None? && live == {}) ==> SuiteOk(shape, suite, st, live, h)
  {
    if live != {} {
      var j :| j in live;
      assert j.id in Ids(live);
    }
    if st.settled.None? && live == {} {
      var st' := st.(settled := Some((Unattributed, now)));
      assert forall p :: FaultsOf(st', p) == FaultsOf(st, p);
      assert forall p :: !Live(live, p);
    }
  }

  // ----- owners ----------------------------------------------------------------------------

  lemma {:induction false} WithoutsFacts(shape: Shape, ids: seq<Id>)
    ensures forall w :: w in Withouts(shape, ids) ==> w.0 in ids && w.1 == RemovalOf(shape, w.0)
    ensures forall v, w :: v in Withouts(shape, ids) && w in Withouts(shape, ids) && v.1 == w.1 ==> v == w
    ensures NoDup(Withouts(shape, ids))
  {
    if ids != [] {
      WithoutsFacts(shape, ids[..|ids| - 1]);
      assert ids == ids[..|ids| - 1] + [ids[|ids| - 1]];
    }
  }

  lemma {:induction false} WithoutsCover(shape: Shape, ids: seq<Id>, x: Id)
    requires x in ids
    ensures HasRemoval(Withouts(shape, ids), RemovalOf(shape, x))
  {
    var shorter := ids[..|ids| - 1];
    var last := ids[|ids| - 1];
    var before := Withouts(shape, shorter);
    assert ids == shorter + [last];
    if x in shorter {
      WithoutsCover(shape, shorter, x);
      var w :| w in before && w.1 == RemovalOf(shape, x);
      assert w in Withouts(shape, ids);
    } else if !HasRemoval(before, RemovalOf(shape, last)) {
      assert (last, RemovalOf(shape, last)) in Withouts(shape, ids);
    }
  }

  lemma WantsAt(shape: Shape, suspects: seq<Id>, i: nat)
    requires i < |Wants(shape, suspects)|
    ensures
      var ws, wants := Withouts(shape, suspects + shape.members), Wants(shape, suspects);
      var n := |wants| - |ws|;
      && 0 <= n <= 1 && (i < n ==> wants[i] == (Base, shape.members) && !HasRemoval(ws, shape.members))
      && (i >= n ==> wants[i] == (Without(ws[i - n].0), ws[i - n].1))
  {
  }

  lemma WantsEach(shape: Shape, suspects: seq<Id>, i: nat)
    requires i < |Wants(shape, suspects)|
    ensures
      var w := Wants(shape, suspects)[i];
      && !w.0.Plain? && w.1 == RemovalFor(shape, w.0)
      && (w.0.Without? ==> w.0.suspect in suspects + shape.members)
  {
    var ws := Withouts(shape, suspects + shape.members);
    WantsAt(shape, suspects, i);
    WithoutsFacts(shape, suspects + shape.members);
    var n := |Wants(shape, suspects)| - |ws|;
    if i >= n {
      assert ws[i - n] in ws;
    }
  }

  lemma WantsApart(shape: Shape, suspects: seq<Id>, i: nat, j: nat)
    requires i < j < |Wants(shape, suspects)|
    ensures Wants(shape, suspects)[i].1 != Wants(shape, suspects)[j].1
  {
    var ws := Withouts(shape, suspects + shape.members);
    WantsAt(shape, suspects, i);
    WantsAt(shape, suspects, j);
    WithoutsFacts(shape, suspects + shape.members);
    var n := |Wants(shape, suspects)| - |ws|;
    assert ws[j - n] in ws;
  }

  lemma WantsFacts(shape: Shape, suspects: seq<Id>)
    ensures forall w :: w in Wants(shape, suspects) ==>
              !w.0.Plain? && w.1 == RemovalFor(shape, w.0)
              && (w.0.Without? ==> w.0.suspect in suspects + shape.members)
    ensures forall v, w :: v in Wants(shape, suspects) && w in Wants(shape, suspects) && v.1 == w.1 ==> v == w
    ensures NoDup(Wants(shape, suspects))
  {
    var wants := Wants(shape, suspects);
    forall i, j | 0 <= i < j < |wants| ensures wants[i].1 != wants[j].1 {
      WantsApart(shape, suspects, i, j);
    }
    forall w | w in wants
      ensures !w.0.Plain? && w.1 == RemovalFor(shape, w.0)
      ensures w.0.Without? ==> w.0.suspect in suspects + shape.members
    {
      var i :| 0 <= i < |wants| && wants[i] == w;
      WantsEach(shape, suspects, i);
    }
  }

  lemma WantedDistinct(shape: Shape, suspects: seq<Id>, x: Id, y: Id)
    requires Without(x) in Wanted(shape, suspects) && Without(y) in Wanted(shape, suspects) && x != y
    requires forall m :: m in suspects ==> m in shape.members
    ensures x in shape.members && y in shape.members
    ensures RemovalOf(shape, x) != RemovalOf(shape, y)
  {
    WantsFacts(shape, suspects);
  }

  lemma WantedMember(shape: Shape, suspects: seq<Id>, x: Id)
    requires Without(x) in Wanted(shape, suspects)
    requires forall m :: m in suspects ==> m in shape.members
    ensures x in shape.members
  {
    WantsFacts(shape, suspects);
  }

  /** For removal sets, being strictly inside is strict inclusion. */
  lemma InsideIsInclusion(shape: Shape, x: Id, y: Id)
    requires ShapeOk(shape) && x in shape.members && y in shape.members
    ensures StrictlyInside(RemovalOf(shape, x), RemovalOf(shape, y)) ==>
              Elems(RemovalOf(shape, x)) <= Elems(RemovalOf(shape, y))
    ensures Elems(RemovalOf(shape, x)) <= Elems(RemovalOf(shape, y)) ==>
              RemovalOf(shape, x) == RemovalOf(shape, y) || StrictlyInside(RemovalOf(shape, x), RemovalOf(shape, y))
  {
    var a, b := RemovalOf(shape, x), RemovalOf(shape, y);
    assert x in shape.closure && y in shape.closure;
    if Elems(a) <= Elems(b) {
      WithinMonotone(shape.members, Elems(a), Elems(b));
      forall m | m in a ensures m in b {
        assert m in Elems(a);
      }
    }
  }

  lemma {:induction false} NotWiderFacts(owners: seq<(Id, seq<Id>)>, removal: seq<Id>)
    ensures forall o :: o in NotWider(owners, removal) <==> o in owners && !StrictlyInside(removal, o.1)
    ensures Incomparable(owners) ==> Incomparable(NotWider(owners, removal))
  {
    if owners != [] {
      var rest := NotWider(owners[1..], removal);
      NotWiderFacts(owners[1..], removal);
      assert owners == [owners[0]] + owners[1..];
      if Incomparable(owners) {
        forall i, j | 0 <= i < |owners[1..]| && 0 <= j < |owners[1..]| && i != j
          ensures !(Elems(owners[1..][i].1) <= Elems(owners[1..][j].1))
        {
          assert owners[1..][i] == owners[i + 1] && owners[1..][j] == owners[j + 1];
        }
        forall o | o in rest
          ensures !(Elems(owners[0].1) <= Elems(o.1)) && !(Elems(o.1) <= Elems(owners[0].1))
        {
          assert o in owners[1..];
          var k :| 0 <= k < |owners[1..]| && owners[1..][k] == o;
          assert owners[k + 1] == o;
        }
        var all := NotWider(owners, removal);
        if !StrictlyInside(removal, owners[0].1) {
          assert all == [owners[0]] + rest;
          forall i, j | 0 <= i < |all| && 0 <= j < |all| && i != j
            ensures !(Elems(all[i].1) <= Elems(all[j].1))
          {
            if i == 0 {
              assert all[j] == rest[j - 1];
            } else if j == 0 {
              assert all[i] == rest[i - 1];
            } else {
              assert all[i] == rest[i - 1] && all[j] == rest[j - 1];
            }
          }
        }
      }
    }
  }

  lemma IncomparableSnoc(owners: seq<(Id, seq<Id>)>, o: (Id, seq<Id>))
    requires Incomparable(owners)
    requires forall p :: p in owners ==> !(Elems(p.1) <= Elems(o.1)) && !(Elems(o.1) <= Elems(p.1))
    ensures Incomparable(owners + [o])
  {
    var all := owners + [o];
    forall i, j | 0 <= i < |all| && 0 <= j < |all| && i != j
      ensures !(Elems(all[i].1) <= Elems(all[j].1))
    {
      if i < |owners| { assert all[i] in owners; }
      if j < |owners| { assert all[j] in owners; }
    }
  }

  lemma VerdictUnmoved(shape: Shape, st: SuiteState, st0: SuiteState, live: set<Job>, h: History)
    requires VerdictOk(shape, st, live, h) && st0 == st.(outstanding := st0.outstanding) && st.settled.Some?
    ensures VerdictOk(shape, st0, live, h)
  {
  }

  lemma OwnerNamed(shape: Shape, st: SuiteState, st0: SuiteState, live: set<Job>, h: History, x: Id, removal: seq<Id>,
                   now: nat)
    requires st0 == st.(outstanding := st0.outstanding) && st.plainRed
    requires st.settled.None? ==> st.owners == []
    requires st.settled.Some? ==> st.settled.value.0.Owner? && st.settled.value.0.owners == Names(st.owners)
    requires OwnersOk(shape, WithOwner(st, x, removal, now), h)
    ensures
      var st' := WithOwner(st0, x, removal, now);
      VerdictOk(shape, st', live, h) && st'.settled.Some?
  {
    assert WithOwner(st0, x, removal, now).owners == WithOwner(st, x, removal, now).owners;
  }

  /** Green without `x`: the owners stay the minimal removal sets answered green. */
  lemma OwnerVerdict(shape: Shape, suite: Suite, st: SuiteState, live: set<Job>, h: History, j: Job, st0: SuiteState,
                     now: nat)
    requires ShapeOk(shape) && forall m :: m in st.suspects ==> m in shape.members
    requires SuiteOk(shape, suite, st, live, h) && Answered(st, live, j, st0) && j.purpose.Without?
    ensures
      var st' := WithOwner(st0, j.purpose.suspect, j.removal, now);
      VerdictOk(shape, st', live - {j}, h + [(j.purpose, Green)]) && st'.settled.Some?
  {
    assert Live(live, j.purpose);
    if st.settled.Some? && !st.settled.value.0.Owner? {
      OtherVerdictStands(shape, st, live, h, j);
      VerdictUnmoved(shape, st, st0, live - {j}, h + [(j.purpose, Green)]);
    } else {
      OwnersGrow(shape, st, h, j.purpose.suspect, now);
      OwnerNamed(shape, st, st0, live - {j}, h + [(j.purpose, Green)], j.purpose.suspect, j.removal, now);
    }
  }

  lemma WithOwnerRest(st0: SuiteState, x: Id, removal: seq<Id>, now: nat)
    ensures
      var st' := WithOwner(st0, x, removal, now);
      && st'.outstanding == st0.outstanding && st'.faults == st0.faults
      && st'.plainRed == st0.plainRed && st'.suspects == st0.suspects
  {
  }

  lemma OwnerFound(shape: Shape, suite: Suite, st: SuiteState, live: set<Job>, h: History, j: Job, st0: SuiteState,
                   now: nat)
    requires ShapeOk(shape) && forall m :: m in st.suspects ==> m in shape.members
    requires SuiteOk(shape, suite, st, live, h) && Answered(st, live, j, st0) && j.purpose.Without?
    ensures WithOwner(st0, j.purpose.suspect, j.removal, now).settled.Some?
    ensures AccountOk(shape, suite, WithOwner(st0, j.purpose.suspect, j.removal, now), live - {j}, h + [(j.purpose,
              Green)])
  {
    OwnerVerdict(shape, suite, st, live, h, j, st0, now);
    WithOwnerRest(st0, j.purpose.suspect, j.removal, now);
    RunBooked(shape, suite, st, WithOwner(st0, j.purpose.suspect, j.removal, now), live, h, j, Green);
  }

  lemma OtherVerdictStands(shape: Shape, st: SuiteState, live: set<Job>, h: History, j: Job)
    requires VerdictOk(shape, st, live, h) && LedgerOk(shape, st, live, h) && j in live && j.purpose.Without?
    requires st.settled.Some? && !st.settled.value.0.Owner?
    ensures VerdictOk(shape, st, live - {j}, h + [(j.purpose, Green)])
  {
    CountSnoc(h, j.purpose, Green);
    if BaseSeenRed(shape, h) {
      var p: Purpose :| !p.Plain? && RemovalFor(shape, p) == shape.members && Count(h, p, Red) == 1;
      assert Count(h + [(j.purpose, Green)], p, Red) == 1;
    }
  }

  lemma OwnerVersus(shape: Shape, st: SuiteState, h: History, x: Id, o: (Id, seq<Id>))
    requires ShapeOk(shape) && forall m :: m in st.suspects ==> m in shape.members
    requires Without(x) in Wanted(shape, st.suspects) && Count(h, Without(x), Green) == 0
    requires OwnersOk(shape, st, h) && o in st.owners
    ensures StrictlyInside(o.1, RemovalOf(shape, x)) <==> Elems(o.1) <= Elems(RemovalOf(shape, x))
    ensures StrictlyInside(RemovalOf(shape, x), o.1) <==> Elems(RemovalOf(shape, x)) <= Elems(o.1)
  {
    WantedDistinct(shape, st.suspects, o.0, x);
    InsideIsInclusion(shape, o.0, x);
    InsideIsInclusion(shape, x, o.0);
  }

  lemma OwnersGrow(shape: Shape, st: SuiteState, h: History, x: Id, now: nat)
    requires ShapeOk(shape) && forall m :: m in st.suspects ==> m in shape.members
    requires Without(x) in Wanted(shape, st.suspects) && Count(h, Without(x), Green) == 0
    requires st.settled.None? ==> st.owners == [] && forall y :: Count(h, Without(y), Green) == 0
    requires st.settled.Some? ==> st.settled.value.0.Owner? && OwnersOk(shape, st, h)
    ensures OwnersOk(shape, WithOwner(st, x, RemovalOf(shape, x), now), h + [(Without(x), Green)])
  {
    CountSnoc(h, Without(x), Green);
    var removal := RemovalOf(shape, x);
    if o :| o in st.owners && StrictlyInside(o.1, removal) {
      OwnerVersus(shape, st, h, x, o);
      assert Explained(shape, st.owners, x);
    } else {
      OwnersReplaced(shape, st, h, x, now);
    }
  }

  lemma ReplacedIncomparable(shape: Shape, st: SuiteState, h: History, x: Id)
    requires ShapeOk(shape) && forall m :: m in st.suspects ==> m in shape.members
    requires Without(x) in Wanted(shape, st.suspects) && Count(h, Without(x), Green) == 0
    requires st.owners == [] || OwnersOk(shape, st, h)
    requires forall o :: o in st.owners ==> !StrictlyInside(o.1, RemovalOf(shape, x))
    ensures Incomparable(NotWider(st.owners, RemovalOf(shape, x)) + [(x, RemovalOf(shape, x))])
  {
    var removal := RemovalOf(shape, x);
    var kept := NotWider(st.owners, removal);
    NotWiderFacts(st.owners, removal);
    forall o | o in kept ensures !(Elems(o.1) <= Elems(removal)) && !(Elems(removal) <= Elems(o.1)) {
      OwnerVersus(shape, st, h, x, o);
    }
    IncomparableSnoc(kept, (x, removal));
  }

  /** What an owner explained before, it or the narrower newcomer explains now. */
  lemma StillExplained(shape: Shape, st: SuiteState, h: History, x: Id, y: Id)
    requires ShapeOk(shape) && forall m :: m in st.suspects ==> m in shape.members
    requires Without(x) in Wanted(shape, st.suspects) && Count(h, Without(x), Green) == 0
    requires OwnersOk(shape, st, h) && Explained(shape, st.owners, y)
    ensures Explained(shape, NotWider(st.owners, RemovalOf(shape, x)) + [(x, RemovalOf(shape, x))], y)
  {
    var removal := RemovalOf(shape, x);
    var owners := NotWider(st.owners, removal) + [(x, removal)];
    var o :| o in st.owners && Elems(o.1) <= Elems(RemovalOf(shape, y));
    NotWiderFacts(st.owners, removal);
    OwnerVersus(shape, st, h, x, o);
    if StrictlyInside(removal, o.1) {
      assert (x, removal) in owners && Elems(removal) <= Elems(RemovalOf(shape, y));
    } else {
      assert o in owners;
    }
  }

  /** Each owner kept, and the new one, is a wanted removal set that was green once. */
  lemma ReplacedEach(shape: Shape, st: SuiteState, h: History, x: Id)
    requires Without(x) in Wanted(shape, st.suspects) && Count(h, Without(x), Green) == 0
    requires st.owners == [] || OwnersOk(shape, st, h)
    ensures
      var removal := RemovalOf(shape, x);
      forall o :: o in NotWider(st.owners, removal) + [(x, removal)] ==>
        o.1 == RemovalOf(shape, o.0) && Without(o.0) in Wanted(shape, st.suspects)
        && Count(h + [(Without(x), Green)], Without(o.0), Green) == 1
  {
    CountSnoc(h, Without(x), Green);
    NotWiderFacts(st.owners, RemovalOf(shape, x));
  }

  lemma OwnersReplaced(shape: Shape, st: SuiteState, h: History, x: Id, now: nat)
    requires ShapeOk(shape) && forall m :: m in st.suspects ==> m in shape.members
    requires Without(x) in Wanted(shape, st.suspects) && Count(h, Without(x), Green) == 0
    requires st.settled.None? ==> st.owners == [] && forall y :: Count(h, Without(y), Green) == 0
    requires st.settled.Some? ==> st.settled.value.0.Owner? && OwnersOk(shape, st, h)
    requires forall o :: o in st.owners ==> !StrictlyInside(o.1, RemovalOf(shape, x))
    ensures OwnersOk(shape, WithOwner(st, x, RemovalOf(shape, x), now), h + [(Without(x), Green)])
  {
    var removal := RemovalOf(shape, x);
    var owners := NotWider(st.owners, removal) + [(x, removal)];
    CountSnoc(h, Without(x), Green);
    ReplacedIncomparable(shape, st, h, x);
    ReplacedEach(shape, st, h, x);
    forall y | Count(h + [(Without(x), Green)], Without(y), Green) > 0 ensures Explained(shape, owners, y) {
      if y == x {
        assert (x, removal) in owners && removal == RemovalOf(shape, y);
      } else {
        StillExplained(shape, st, h, x, y);
      }
    }
  }
}
