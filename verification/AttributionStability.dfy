// What later events may still change of a verdict, and that attribution never stalls: the two
// facts the round relies on when it stops a main run early and when it waits.

module AttributionStability {
  import opened Prelude
  import opened AttributionSpec
  import opened SuiteLedger
  import opened AttributionProof
  import opened AttributionRuns
  import opened AttributionTheorems

  /** How a suite's state may move: once settled, its time stays, and its outcome too unless
      owners are refined; once every rerun of an owned suite is back, nothing moves. */
  ghost predicate Onward(st: SuiteState, later: SuiteState) {
    && later.redAt == st.redAt && later.suspects == st.suspects
    && (st.settled.Some? ==> later.settled.Some? && later.settled.value.1 == st.settled.value.1)
    && (st.settled.Some? && !st.settled.value.0.Owner? ==> later.settled == st.settled)
    && (st.settled.Some? && st.settled.value.0.Owner? ==> later.settled.value.0.Owner?)
    && (st.settled.Some? && st.outstanding == {} ==> later == st)
  }

  ghost predicate Later(s: State, t: State) {
    forall suite :: suite in s.suites ==> suite in t.suites && Onward(s.suites[suite], t.suites[suite])
  }

  lemma LaterTwice(a: State, b: State, c: State)
    requires Later(a, b) && Later(b, c)
    ensures Later(a, c)
  {
  }

  /** Only one suite's state moves, and it has work outstanding. */
  lemma OneMoves(s: State, t: State, suite: Suite)
    requires suite in s.suites && suite in t.suites && s.suites[suite].outstanding != {}
    requires forall other :: other in s.suites && other != suite ==>
              other in t.suites && t.suites[other] == s.suites[other]
    requires Onward(s.suites[suite].(outstanding := {1}), t.suites[suite])
    ensures Later(s, t)
  {
  }

  /** A suite's state after cancelling: as before, but for the ids. */
  ghost predicate Alike(st: SuiteState, later: SuiteState) {
    later.(outstanding := st.outstanding) == st
  }

  lemma SettleState(t: State, suite: Suite, outcome: Outcome, now: nat)
    requires suite in t.suites
    ensures
      var u := Settle(t, suite, outcome, now);
      && u.suites.Keys == t.suites.Keys
      && Alike(SettledAs(t.suites[suite], outcome, now), u.suites[suite])
      && forall other :: other in t.suites && other != suite ==> u.suites[other] == t.suites[other]
  {
  }

  /** What handling an answer of `suite` makes of the states. */
  ghost predicate Moves(t: State, u: State, suite: Suite) {
    && suite in t.suites && u.suites.Keys == t.suites.Keys
    && Onward(t.suites[suite].(outstanding := {1}), u.suites[suite])
    && forall other :: other in t.suites && other != suite ==> u.suites[other] == t.suites[other]
  }

  lemma ExhaustMoves(t: State, u: State, suite: Suite, now: nat)
    requires Moves(t, u, suite)
    ensures Moves(t, MaybeExhausted(u, suite, now), suite)
  {
    SettleState(u, suite, Unattributed, now);
  }

  lemma FaultMoves(t: State, job: Job, now: nat)
    requires job.suite in t.suites
    ensures Moves(t, OnFault(t, job, now), job.suite)
  {
    var st1 := Faulted(t.suites[job.suite], job.purpose);
    var t1 := t.(suites := t.suites[job.suite := st1]);
    OnFaultIs(t, job, now);
    SettleState(t1, job.suite, Unattributed, now);
    ExhaustMoves(t, t1, job.suite, now);
  }

  lemma VerdictMoves(t: State, job: Job, green: bool, now: nat)
    requires job.suite in t.suites
    ensures Moves(t, OnVerdict(t, job, green, now), job.suite)
  {
    var st := t.suites[job.suite];
    match job.purpose
    case Plain =>
      SettleState(t, job.suite, Flaky, now);
    case Base =>
      SettleState(t, job.suite, BaseRed, now);
      ExhaustMoves(t, t.(suites := t.suites[job.suite := st.(baseGreen := true)]), job.suite, now);
    case Without(x) =>
      SettleState(t, job.suite, BaseRed, now);
      ExhaustMoves(t, t, job.suite, now);
      OwnerMoves(t, job.suite, x, job.removal, now);
  }

  lemma OwnerMoves(t: State, suite: Suite, x: Id, removal: seq<Id>, now: nat)
    requires suite in t.suites
    ensures Moves(t, AddOwner(t, suite, x, removal, now), suite)
  {
    var st1 := WithOwner(t.suites[suite], x, removal, now);
    if !OwnsNothingNew(t.suites[suite], removal) {
      var u := AddOwner(t, suite, x, removal, now);
      assert Alike(st1, u.suites[suite]);
    }
  }

  lemma AnsweredMoves(s: State, id: nat, result: JobResult, now: nat)
    requires id in s.running && s.running[id].suite in s.suites
    ensures Moves(TakeAnswer(s, id, result), JobAnswered(s, id, result, now), s.running[id].suite)
  {
    var job := s.running[id];
    if result.Fault? {
      FaultMoves(TakeAnswer(s, id, result), job, now);
    } else {
      VerdictMoves(TakeAnswer(s, id, result), job, result.Green?, now);
    }
  }

  lemma AnsweredLater(s: State, id: nat, result: JobResult, now: nat)
    requires Inv(s)
    ensures Later(s, JobAnswered(s, id, result, now))
  {
    if id in s.running {
      assert s.running[id] in RunningJobs(s);
      BusySuite(s, s.running[id]);
      TakenLater(s, id, result, now);
    }
  }

  lemma TakenLater(s: State, id: nat, result: JobResult, now: nat)
    requires id in s.running && s.running[id].suite in s.suites && s.suites[s.running[id].suite].outstanding != {}
    ensures Later(s, JobAnswered(s, id, result, now))
  {
    AnsweredMoves(s, id, result, now);
    OneMoves(s, JobAnswered(s, id, result, now), s.running[id].suite);
  }

  /** A suite with a live job has work outstanding. */
  lemma BusySuite(s: State, job: Job)
    requires Inv(s) && job in Jobs(s)
    ensures job.suite in s.suites && s.suites[job.suite].outstanding != {}
  {
    assert SuiteHolds(s, job.suite);
    assert job in LiveOf(s, job.suite);
    assert job.id in Ids(LiveOf(s, job.suite));
  }

  lemma LaunchLater(s: State)
    requires Inv(s) && NextReady(s)
    ensures Later(s, LaunchNext(s))
  {
    LaunchJobs(s);
    BusySuite(s, NextJob(s));
    OneMoves(s, LaunchNext(s), NextJob(s).suite);
  }

  lemma {:induction false} NextJobsLater(s: State)
    requires Inv(s)
    ensures Later(s, NextJobs(s))
    decreases |s.plainQ| + |s.attrQ|
  {
    if Spare(s) > 0 && NextReady(s) {
      LaunchLater(s);
      LaunchKeeps(s);
      NextJobsLater(LaunchNext(s));
      LaterTwice(s, LaunchNext(s), NextJobs(s));
    }
  }

  lemma MainResultLater(s: State, suite: Suite, green: bool, suspects: seq<Id>, now: nat)
    requires RedsOk(s)
    ensures Later(s, MainResult(s, suite, green, suspects, now))
  {
  }

  lemma StepLater(s: State, e: Event)
    requires Inv(s) && Legal(s, e)
    ensures Later(s, Step(s, e))
  {
    match e
    case MainReported(suite, green, suspects, at) => MainResultLater(s, suite, green, suspects, at);
    case MainEnded(at) =>
    case HandedOut => NextJobsLater(s);
    case Answered(id, result, at) => AnsweredLater(s, id, result, at);
  }

  /** Over any further run, verdicts other than ownership stand, ownership is refined but never
      withdrawn or re-timed. */
  lemma {:induction false} RunLater(s: State, events: seq<Event>)
    requires Inv(s) && LegalRun(s, events)
    ensures Later(s, Run(s, events))
  {
    if events != [] {
      var before, e := events[..|events| - 1], events[|events| - 1];
      RunLater(s, before);
      RunKeeps(s, before);
      assert e in events && Legal(s, e);
      StepLater(Run(s, before), e);
      LaterTwice(s, Run(s, before), Run(s, events));
    }
  }

  /** The member a red is solely owned by when its reruns are all back still owns it, alone,
      after any further events: stopping the main run on it is safe. */
  lemma SoleOwnerStands(s: State, events: seq<Event>, suite: Suite)
    requires Reachable(s) && LegalRun(s, events)
    requires suite in s.suites && SoleOf(s.suites[suite]).Some?
    ensures suite in Run(s, events).suites && Run(s, events).suites[suite] == s.suites[suite]
  {
    ReachableKeeps(s);
    RunLater(s, events);
    assert Onward(s.suites[suite], Run(s, events).suites[suite]);
  }

  // ----- progress --------------------------------------------------------------------------

  /** Handing out stops only for want of slots or of work. */
  lemma {:induction false} NextJobsDrains(s: State)
    ensures Spare(NextJobs(s)) == 0 || !NextReady(NextJobs(s))
    ensures NextJobs(s).mainEndAt == s.mainEndAt && NextJobs(s).suites.Keys == s.suites.Keys
    ensures forall suite :: suite in s.suites ==> NextJobs(s).suites[suite].settled == s.suites[suite].settled
    decreases |s.plainQ| + |s.attrQ|
  {
    if Spare(s) > 0 && NextReady(s) {
      NextJobsDrains(LaunchNext(s));
    }
  }

  /** Every unsettled red has a job queued or running. */
  lemma UnsettledHasWork(s: State, suite: Suite)
    requires Reachable(s) && suite in s.suites && s.suites[suite].settled.None?
    ensures s.suites[suite].outstanding != {}
    ensures forall id :: id in s.suites[suite].outstanding <==>
              exists j :: j in Jobs(s) && j.suite == suite && j.id == id
  {
    ReachableKeeps(s);
    assert SuiteHolds(s, suite);
    var j :| j in LiveOf(s, suite);
    assert j.id in Ids(LiveOf(s, suite));
    forall id
      ensures id in s.suites[suite].outstanding <==> exists j :: j in Jobs(s) && j.suite == suite && j.id == id
    {
      if id in s.suites[suite].outstanding {
        var k :| k in LiveOf(s, suite) && k.id == id;
      }
      if k :| k in Jobs(s) && k.suite == suite && k.id == id {
        assert k in LiveOf(s, suite);
      }
    }
  }

  lemma LiveRuns(s: State, suite: Suite)
    requires LiveOf(s, suite) != {} && !NextReady(s)
    ensures |s.running| > 0
  {
    var j :| j in LiveOf(s, suite);
    assert s.running.Keys != {};
  }

  lemma UnsettledLive(s: State, suite: Suite)
    requires Inv(s) && suite in s.suites && s.suites[suite].settled.None?
    ensures LiveOf(s, suite) != {}
  {
    assert SuiteHolds(s, suite);
  }

  /** Once the main run is over, a round with an undecided red always has a job running after
      the next hand-out: waiting is never for nothing. */
  lemma WorkGoesOn(s: State)
    requires Inv(s) && s.mainEndAt.Some? && s.budget.slots >= 1 && !RoundSettled(s)
    ensures |NextJobs(s).running| > 0
  {
    var t := NextJobs(s);
    NextJobsKeeps(s);
    NextJobsDrains(s);
    NextJobsShape(s);
    var suite :| suite in s.suites && s.suites[suite].settled.None?;
    UnsettledLive(t, suite);
    if !NextReady(t) {
      LiveRuns(t, suite);
    }
  }

  /** Attribution never takes a slot the main run is owed. */
  lemma SlotsRespected(s: State)
    requires Reachable(s) && |s.running| > 0
    ensures |s.running| + MainInFlight(s) <= s.budget.slots
  {
    ReachableKeeps(s);
  }
}
