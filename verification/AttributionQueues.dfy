// The order attribution works in (batcher/src/attrib.rs): what a hand-out launches and what it
// leaves waiting, that no run is left waiting for a settled red, and that every rerun is counted.

module AttributionQueues {
  import opened Prelude
  import opened Shapes
  import opened AttributionSpec
  import opened SuiteLedger
  import opened AttributionProof
  import opened AttributionRuns
  import opened AttributionTheorems
  import opened AttributionIds

  // ----- hand-outs -------------------------------------------------------------------------

  /** The jobs waiting, in the order they will be launched. */
  function Waiting(s: State): (r: seq<Job>) {
    s.plainQ + s.attrQ
  }

  /** Ids are unique among the jobs waiting, and none is running. */
  ghost predicate Apart(waiting: seq<Job>, running: map<nat, Job>) {
    && (forall i :: 0 <= i < |waiting| ==> waiting[i].id !in running)
    && (forall i, j :: 0 <= i < j < |waiting| ==> waiting[i].id != waiting[j].id)
  }

  lemma WaitingAt(s: State, i: nat)
    requires i < |Waiting(s)|
    ensures Waiting(s)[i] == if i < |s.plainQ| then s.plainQ[i] else s.attrQ[i - |s.plainQ|]
    ensures Waiting(s)[i] in QueuedJobs(s)
  {
  }

  lemma WaitingDiffer(s: State, i: nat, j: nat)
    requires QueuesOk(s) && i < j < |Waiting(s)|
    ensures Waiting(s)[i] != Waiting(s)[j]
  {
    WaitingAt(s, i);
    WaitingAt(s, j);
    if i < |s.plainQ| && |s.plainQ| <= j {
      assert s.plainQ[i] in s.plainQ && s.attrQ[j - |s.plainQ|] in s.attrQ;
    }
  }

  lemma QueuedApart(s: State)
    requires QueuesOk(s)
    ensures Apart(Waiting(s), s.running)
  {
    forall i | 0 <= i < |Waiting(s)| ensures Waiting(s)[i].id !in s.running {
      WaitingAt(s, i);
    }
    forall i, j | 0 <= i < j < |Waiting(s)| ensures Waiting(s)[i].id != Waiting(s)[j].id {
      WaitingAt(s, i);
      WaitingAt(s, j);
      WaitingDiffer(s, i, j);
    }
  }

  lemma LaunchTakesASlot(s: State)
    requires Apart(Waiting(s), s.running) && Waiting(s) != [] && Spare(s) > 0
    ensures
      var t, job := LaunchNext(s), Waiting(s)[0];
      && Waiting(t) == Waiting(s)[1..] && Apart(Waiting(t), t.running)
      && t.launched == s.launched + [job] && Spare(t) == Spare(s) - 1
  {
    MoreRunning(s.running, Waiting(s)[0]);
    assert Waiting(LaunchNext(s)) == Waiting(s)[1..];
  }

  function HandOut(s: State): (k: nat) {
    if Spare(s) < |Waiting(s)| then Spare(s) else |Waiting(s)|
  }

  lemma OneOff<T>(a: seq<T>, b: seq<T>, k: nat)
    requires 0 < k <= |b|
    ensures a + b[..k] == a + [b[0]] + b[1..][..k - 1] && b[k..] == b[1..][k - 1..]
  {
  }

  lemma {:induction false} HandsOut(s: State)
    requires Apart(Waiting(s), s.running)
    ensures NextJobs(s).launched == s.launched + Waiting(s)[..HandOut(s)]
    ensures Waiting(NextJobs(s)) == Waiting(s)[HandOut(s)..]
    decreases |s.plainQ| + |s.attrQ|
  {
    if Spare(s) > 0 && Waiting(s) != [] {
      LaunchTakesASlot(s);
      HandsOut(LaunchNext(s));
      OneOff(s.launched, Waiting(s), HandOut(s));
    }
  }

  /** A hand-out launches as many jobs as there are spare slots, plain reruns before attribution
      runs, each in the order it was queued; the rest wait in that order. */
  lemma HandedOutInOrder(s: State)
    requires Reachable(s)
    ensures NextJobs(s).launched == s.launched + (s.plainQ + s.attrQ)[..HandOut(s)]
    ensures NextJobs(s).plainQ + NextJobs(s).attrQ == (s.plainQ + s.attrQ)[HandOut(s)..]
  {
    ReachableKeeps(s);
    QueuedApart(s);
    HandsOut(s);
  }

  /** The first fault of a run costs a red nothing: the same run heads its queue again. */
  lemma FaultRetriedFirst(s: State, id: nat, now: nat)
    requires id in s.running
    requires s.running[id].suite in s.suites && s.suites[s.running[id].suite].settled.None?
    requires FaultsOf(s.suites[s.running[id].suite], s.running[id].purpose) == 0
    ensures
      var job, t := s.running[id], JobAnswered(s, id, Fault, now);
      var again := Job(s.nextId, job.suite, job.removal, job.purpose);
      && t.plainQ == (if job.purpose.Plain? then [again] else []) + s.plainQ
      && t.attrQ == (if job.purpose.Plain? then [] else [again]) + s.attrQ
      && t.suites[job.suite].settled.None?
  {
    var job, t := s.running[id], TakeAnswer(s, id, Fault);
    OnFaultIs(t, job, now);
    assert [] + s.plainQ == s.plainQ && [] + s.attrQ == s.attrQ;
  }

  /** The suspects' removal sets are tried before anyone else's, in suspect order. */
  lemma {:induction false} SuspectsTriedFirst(shape: Shape, suspects: seq<Id>, others: seq<Id>)
    ensures Withouts(shape, suspects) <= Withouts(shape, suspects + others)
  {
    if others == [] {
      assert suspects + others == suspects;
    } else {
      var all := suspects + others;
      assert all[..|all| - 1] == suspects + others[..|others| - 1];
      SuspectsTriedFirst(shape, suspects, others[..|others| - 1]);
    }
  }

  // ----- nothing runs for a settled red ----------------------------------------------------

  /** Only unsettled reds have jobs waiting. */
  ghost predicate OnlyUnsettledWait(s: State) {
    forall j :: j in QueuedJobs(s) ==> j.suite in s.suites && s.suites[j.suite].settled.None?
  }

  lemma CancelWaits(t: State, suite: Suite)
    requires forall j :: j in QueuedJobs(t) && j.suite != suite ==>
              j.suite in t.suites && t.suites[j.suite].settled.None?
    ensures OnlyUnsettledWait(CancelQueued(t, suite))
  {
    WithoutSuiteFacts(t.plainQ, suite);
    WithoutSuiteFacts(t.attrQ, suite);
  }

  lemma SettleWaits(t: State, suite: Suite, outcome: Outcome, now: nat)
    requires OnlyUnsettledWait(t)
    ensures OnlyUnsettledWait(Settle(t, suite, outcome, now))
  {
    var t1 :=
      if suite in t.suites && t.suites[suite].settled.None?
      then t.(suites := t.suites[suite := t.suites[suite].(settled := Some((outcome, now)))])
      else t;
    assert QueuedJobs(t1) == QueuedJobs(t);
    CancelWaits(t1, suite);
  }

  lemma OwnerWaits(t: State, suite: Suite, x: Id, removal: seq<Id>, now: nat)
    requires OnlyUnsettledWait(t)
    ensures OnlyUnsettledWait(AddOwner(t, suite, x, removal, now))
  {
    if suite in t.suites && !OwnsNothingNew(t.suites[suite], removal) {
      var t1 := t.(suites := t.suites[suite := WithOwner(t.suites[suite], x, removal, now)]);
      assert QueuedJobs(t1) == QueuedJobs(t);
      CancelWaits(t1, suite);
    }
  }

  lemma EnqueueWaits(t: State, suite: Suite, removal: seq<Id>, purpose: Purpose, front: bool)
    requires OnlyUnsettledWait(t) && suite in t.suites && t.suites[suite].settled.None?
    ensures OnlyUnsettledWait(Enqueue(t, suite, removal, purpose, front))
  {
    var u := Enqueue(t, suite, removal, purpose, front);
    forall j | j in QueuedJobs(u) ensures j.suite in u.suites && u.suites[j.suite].settled.None? {
      assert j in QueuedJobs(t) || j == Job(t.nextId, suite, removal, purpose);
    }
  }

  lemma EnqueueAllWaits(t: State, suite: Suite, wants: seq<(Purpose, seq<Id>)>)
    requires OnlyUnsettledWait(t) && suite in t.suites && t.suites[suite].settled.None?
    ensures OnlyUnsettledWait(EnqueueAll(t, suite, wants))
  {
    var u := EnqueueAll(t, suite, wants);
    forall j | j in QueuedJobs(u) ensures j.suite in u.suites && u.suites[j.suite].settled.None? {
      assert j in QueuedJobs(t) || j in NewJobs(wants, suite, t.nextId);
    }
  }

  lemma ExhaustWaits(t: State, suite: Suite, now: nat)
    requires OnlyUnsettledWait(t)
    ensures OnlyUnsettledWait(MaybeExhausted(t, suite, now))
  {
    SettleWaits(t, suite, Unattributed, now);
  }

  lemma FaultWaits(t: State, job: Job, now: nat)
    requires OnlyUnsettledWait(t) && job.suite in t.suites
    ensures OnlyUnsettledWait(OnFault(t, job, now))
  {
    var suite, st := job.suite, t.suites[job.suite];
    var t1 := t.(suites := t.suites[suite := Faulted(st, job.purpose)]);
    assert QueuedJobs(t1) == QueuedJobs(t);
    OnFaultIs(t, job, now);
    if FaultsOf(st, job.purpose) == 0 && st.settled.None? {
      EnqueueWaits(t1, suite, job.removal, job.purpose, true);
    } else {
      SettleWaits(t1, suite, Unattributed, now);
      ExhaustWaits(t1, suite, now);
    }
  }

  lemma VerdictWaits(t: State, job: Job, green: bool, now: nat)
    requires OnlyUnsettledWait(t) && job.suite in t.suites
    requires job.purpose.Plain? && !green ==> t.suites[job.suite].settled.None?
    ensures OnlyUnsettledWait(OnVerdict(t, job, green, now))
  {
    var suite, st := job.suite, t.suites[job.suite];
    match job.purpose
    case Plain =>
      var t1 := t.(suites := t.suites[suite := st.(plainRed := true)]);
      assert QueuedJobs(t1) == QueuedJobs(t);
      if green {
        SettleWaits(t, suite, Flaky, now);
      } else {
        EnqueueAllWaits(t1, suite, Wants(t.shape, st.suspects));
      }
    case Base =>
      var t1 := t.(suites := t.suites[suite := st.(baseGreen := true)]);
      assert QueuedJobs(t1) == QueuedJobs(t);
      ExhaustWaits(t1, suite, now);
      SettleWaits(t, suite, BaseRed, now);
    case Without(x) =>
      OwnerWaits(t, suite, x, job.removal, now);
      SettleWaits(t, suite, BaseRed, now);
      ExhaustWaits(t, suite, now);
  }

  /** A red whose plain rerun is still out has no verdict yet. */
  lemma PlainOutUnsettled(s: State, id: nat)
    requires Inv(s) && id in s.running && s.running[id].purpose.Plain?
    ensures s.running[id].suite in s.suites && s.suites[s.running[id].suite].settled.None?
  {
    var job := s.running[id];
    PlainFirst(s, id);
    assert job in RunningJobs(s);
    assert SuiteHolds(s, job.suite) && job in LiveOf(s, job.suite);
    assert Live(LiveOf(s, job.suite), Plain);
  }

  lemma AnsweredWaits(s: State, id: nat, result: JobResult, now: nat)
    requires Inv(s) && OnlyUnsettledWait(s)
    ensures OnlyUnsettledWait(JobAnswered(s, id, result, now))
  {
    if id in s.running {
      PlainFirst(s, id);
      if s.running[id].purpose.Plain? {
        PlainOutUnsettled(s, id);
      }
      TakenWaits(s, id, result, now);
    }
  }

  lemma TakenWaits(s: State, id: nat, result: JobResult, now: nat)
    requires OnlyUnsettledWait(s) && id in s.running && s.running[id].suite in s.suites
    requires s.running[id].purpose.Plain? ==> s.suites[s.running[id].suite].settled.None?
    ensures OnlyUnsettledWait(JobAnswered(s, id, result, now))
  {
    var job, t := s.running[id], TakeAnswer(s, id, result);
    assert QueuedJobs(t) == QueuedJobs(s);
    if result.Fault? {
      FaultWaits(t, job, now);
    } else {
      VerdictWaits(t, job, result.Green?, now);
    }
  }

  lemma LaunchWaits(s: State)
    requires OnlyUnsettledWait(s) && NextReady(s)
    ensures OnlyUnsettledWait(LaunchNext(s))
  {
    var t := LaunchNext(s);
    forall j | j in QueuedJobs(t) ensures j in QueuedJobs(s) {
    }
  }

  lemma {:induction false} NextJobsWaits(s: State)
    requires OnlyUnsettledWait(s)
    ensures OnlyUnsettledWait(NextJobs(s))
    decreases |s.plainQ| + |s.attrQ|
  {
    if Spare(s) > 0 && NextReady(s) {
      LaunchWaits(s);
      NextJobsWaits(LaunchNext(s));
    }
  }

  lemma MainResultWaits(s: State, suite: Suite, green: bool, suspects: seq<Id>, now: nat)
    requires OnlyUnsettledWait(s)
    ensures OnlyUnsettledWait(MainResult(s, suite, green, suspects, now))
  {
    if suite !in s.mainSeen && !green {
      var t := s.(mainSeen := s.mainSeen + {suite}, reds := s.reds + [suite],
                  suites := s.suites[suite := FreshSuite(suspects, now)]);
      assert QueuedJobs(t) == QueuedJobs(s);
      EnqueueWaits(t, suite, [], Plain, false);
    }
  }

  lemma StepWaits(s: State, e: Event)
    requires Inv(s) && OnlyUnsettledWait(s)
    ensures OnlyUnsettledWait(Step(s, e))
  {
    match e
    case MainReported(suite, green, suspects, at) => MainResultWaits(s, suite, green, suspects, at);
    case MainEnded(at) => assert QueuedJobs(MainDone(s, at)) == QueuedJobs(s);
    case HandedOut => NextJobsWaits(s);
    case Answered(id, result, at) => AnsweredWaits(s, id, result, at);
  }

  lemma {:induction false} RunWaits(s: State, events: seq<Event>)
    requires Inv(s) && OnlyUnsettledWait(s) && LegalRun(s, events)
    ensures OnlyUnsettledWait(Run(s, events))
  {
    if events != [] {
      var before := events[..|events| - 1];
      RunWaits(s, before);
      RunKeeps(s, before);
      StepWaits(Run(s, before), events[|events| - 1]);
    }
  }

  /** Once a red has its verdict, none of its runs is left waiting: no slot is ever spent on it
      again, beyond the runs already out. */
  lemma SettledNeverWaits(s: State, j: Job)
    requires Reachable(s) && j in s.plainQ + s.attrQ
    ensures j.suite in s.suites && s.suites[j.suite].settled.None?
  {
    var budget, shape, mainTotal, events :| ReachedBy(s, budget, shape, mainTotal, events);
    InitialInv(budget, shape, mainTotal);
    RunWaits(Initial(budget, shape, mainTotal), events);
    assert j in QueuedJobs(s);
  }

  // ----- every rerun counts ----------------------------------------------------------------

  function LaunchesOf(launched: seq<Job>, suite: Suite): (n: nat) {
    if launched == [] then 0
    else LaunchesOf(launched[..|launched| - 1], suite) + (if launched[|launched| - 1].suite == suite then 1 else 0)
  }

  /** A red's rerun count is the number of its runs handed out. */
  ghost predicate RerunsCounted(s: State) {
    forall suite :: LaunchesOf(s.launched, suite) == if suite in s.suites then s.suites[suite].reruns else 0
  }

  lemma LaunchCounts(s: State)
    requires RerunsCounted(s) && NextReady(s) && NextJob(s).suite in s.suites
    ensures RerunsCounted(LaunchNext(s))
  {
    var t := LaunchNext(s);
    assert t.launched[..|t.launched| - 1] == s.launched;
  }

  lemma {:induction false} NextJobsCounts(s: State)
    requires RerunsCounted(s) && forall j :: j in QueuedJobs(s) ==> j.suite in s.suites
    ensures RerunsCounted(NextJobs(s))
    decreases |s.plainQ| + |s.attrQ|
  {
    if Spare(s) > 0 && NextReady(s) {
      assert NextJob(s) in QueuedJobs(s);
      LaunchCounts(s);
      forall j | j in QueuedJobs(LaunchNext(s)) ensures j in QueuedJobs(s) {
      }
      NextJobsCounts(LaunchNext(s));
    }
  }

  ghost predicate SameReruns(t: State, u: State) {
    && u.launched == t.launched && u.suites.Keys == t.suites.Keys
    && forall suite :: suite in t.suites ==> u.suites[suite].reruns == t.suites[suite].reruns
  }

  lemma FaultCounts(t: State, job: Job, now: nat)
    requires job.suite in t.suites
    ensures SameReruns(t, OnFault(t, job, now))
  {
    OnFaultIs(t, job, now);
  }

  lemma PlainCounts(t: State, job: Job, green: bool, now: nat)
    requires job.suite in t.suites && job.purpose.Plain?
    ensures SameReruns(t, OnVerdict(t, job, green, now))
  {
  }

  lemma BaseCounts(t: State, job: Job, green: bool, now: nat)
    requires job.suite in t.suites && job.purpose.Base?
    ensures SameReruns(t, OnVerdict(t, job, green, now))
  {
  }

  lemma VerdictCounts(t: State, job: Job, green: bool, now: nat)
    requires job.suite in t.suites
    ensures SameReruns(t, OnVerdict(t, job, green, now))
  {
    if job.purpose.Plain? {
      PlainCounts(t, job, green, now);
    } else if job.purpose.Base? {
      BaseCounts(t, job, green, now);
    }
  }

  lemma AnsweredCounts(s: State, id: nat, result: JobResult, now: nat)
    requires id in s.running && s.running[id].suite in s.suites
    ensures SameReruns(s, JobAnswered(s, id, result, now))
  {
    var job, t := s.running[id], TakeAnswer(s, id, result);
    assert SameReruns(s, t);
    if result.Fault? {
      FaultCounts(t, job, now);
    } else {
      VerdictCounts(t, job, result.Green?, now);
    }
  }

  lemma CountsAlike(s: State, t: State)
    requires RerunsCounted(s) && SameReruns(s, t)
    ensures RerunsCounted(t)
  {
  }

  lemma MainResultCounts(s: State, suite: Suite, green: bool, suspects: seq<Id>, now: nat)
    requires RerunsCounted(s) && s.suites.Keys <= s.mainSeen
    ensures RerunsCounted(MainResult(s, suite, green, suspects, now))
  {
  }

  lemma StepCounts(s: State, e: Event)
    requires Inv(s) && RerunsCounted(s)
    ensures RerunsCounted(Step(s, e))
  {
    match e
    case MainReported(suite, green, suspects, at) => MainResultCounts(s, suite, green, suspects, at);
    case MainEnded(at) =>
    case HandedOut => NextJobsCounts(s);
    case Answered(id, result, at) =>
      if id in s.running {
        PlainFirst(s, id);
        AnsweredCounts(s, id, result, at);
        CountsAlike(s, Step(s, e));
      }
  }

  lemma {:induction false} RunCounts(s: State, events: seq<Event>)
    requires Inv(s) && RerunsCounted(s) && LegalRun(s, events)
    ensures RerunsCounted(Run(s, events))
  {
    if events != [] {
      var before := events[..|events| - 1];
      RunCounts(s, before);
      RunKeeps(s, before);
      StepCounts(Run(s, before), events[|events| - 1]);
    }
  }

  /** The rerun count a red is reported with is how often it was handed out. */
  lemma RerunsAreLaunches(s: State, suite: Suite)
    requires Reachable(s) && suite in s.suites
    ensures s.suites[suite].reruns == LaunchesOf(s.launched, suite)
  {
    var budget, shape, mainTotal, events :| ReachedBy(s, budget, shape, mainTotal, events);
    InitialInv(budget, shape, mainTotal);
    RunCounts(Initial(budget, shape, mainTotal), events);
  }
}
