// Whole runs of the attributor: any sequence of main-run results, the main run's end, hand-outs
// of jobs and answers to them, in any order, with any faults.

module AttributionRuns {
  import opened Prelude
  import opened Shapes
  import opened AttributionSpec
  import opened SuiteLedger
  import opened AttributionProof

  datatype Event =
    | MainReported(suite: Suite, green: bool, suspects: seq<Id>, at: nat)
    | MainEnded(at: nat)
    | HandedOut
    | Answered(id: nat, result: JobResult, at: nat)

  /** A red's suspects are some order of round members. */
  ghost predicate Legal(s: State, e: Event) {
    e.MainReported? && !e.green ==> forall m :: m in e.suspects ==> m in s.shape.members
  }

  function Step(s: State, e: Event): (r: State) {
    match e
    case MainReported(suite, green, suspects, at) => MainResult(s, suite, green, suspects, at)
    case MainEnded(at) => MainDone(s, at)
    case HandedOut => NextJobs(s)
    case Answered(id, result, at) => JobAnswered(s, id, result, at)
  }

  ghost predicate LegalRun(s: State, events: seq<Event>) {
    forall e :: e in events ==> Legal(s, e)
  }

  function Run(s: State, events: seq<Event>): (r: State) {
    if events == [] then s else Step(Run(s, events[..|events| - 1]), events[|events| - 1])
  }

  // ----- each step keeps the invariant -----------------------------------------------------

  /** What an answer, once taken, never touches. */
  ghost predicate SameBooks(t: State, u: State) {
    && u.shape == t.shape && u.budget == t.budget && u.mainTotal == t.mainTotal && u.mainSeen == t.mainSeen
    && u.mainEndAt == t.mainEndAt && u.reds == t.reds && u.running == t.running && u.launched == t.launched
    && u.log == t.log && u.suites.Keys == t.suites.Keys
  }

  lemma FaultBooks(t: State, job: Job, now: nat)
    requires job.suite in t.suites
    ensures SameBooks(t, OnFault(t, job, now))
  {
    OnFaultIs(t, job, now);
  }

  lemma VerdictBooks(t: State, job: Job, green: bool, now: nat)
    requires job.suite in t.suites
    ensures SameBooks(t, OnVerdict(t, job, green, now))
  {
  }

  lemma AnswerRepaired(s: State, id: nat, result: JobResult, now: nat)
    requires Inv(s) && id in s.running
    ensures Repaired(JobAnswered(s, id, result, now))
    ensures SameBooks(TakeAnswer(s, id, result), JobAnswered(s, id, result, now))
  {
    var job := s.running[id];
    var t := TakeAnswer(s, id, result);
    TakeEffect(s, id, result);
    var st, live, h := s.suites[job.suite], LiveOf(s, job.suite), HistoryOf(s.log, job.suite);
    if result.Fault? {
      FaultBooks(t, job, now);
      FaultKept(t, job, s.shape, st, live, h, now);
    } else {
      VerdictBooks(t, job, result.Green?, now);
      VerdictRepaired(t, job, s.shape, st, live, h, result, now);
    }
  }

  lemma VerdictRepaired(t: State, job: Job, shape: Shape, st: SuiteState, live: set<Job>, h: History,
                        result: JobResult, now: nat)
    requires Answering(t, job, shape, st, live, h, result) && !result.Fault?
    ensures Repaired(OnVerdict(t, job, result.Green?, now))
  {
    match job.purpose
    case Plain =>
      if result.Green? {
        PlainGreenKept(t, job, shape, st, live, h, now);
      } else {
        PlainRedKept(t, job, shape, st, live, h, now);
      }
    case Base => BaseKept(t, job, shape, st, live, h, result.Green?, now);
    case Without(_) =>
      if result.Green? {
        OwnerKept(t, job, shape, st, live, h, now);
      } else {
        WithoutRedKept(t, job, shape, st, live, h, now);
      }
  }

  lemma BooksKept(t: State, u: State)
    requires RedsOk(t) && BudgetOk(t) && SameBooks(t, u)
    ensures RedsOk(u) && BudgetOk(u)
  {
  }

  lemma TakeReds(s: State, id: nat, result: JobResult)
    requires RedsOk(s) && QueuesOk(s) && id in s.running
    ensures RedsOk(TakeAnswer(s, id, result))
  {
    assert s.running[id] in Jobs(s);
  }

  lemma FewerRunning(running: map<nat, Job>, id: nat)
    requires id in running
    ensures |running - {id}| == |running| - 1
  {
    var rest := running - {id};
    assert rest.Keys == running.Keys - {id};
    assert |rest| == |rest.Keys| && |running| == |running.Keys|;
  }

  lemma TakeBudget(s: State, id: nat, result: JobResult)
    requires BudgetOk(s) && id in s.running
    ensures BudgetOk(TakeAnswer(s, id, result))
  {
    FewerRunning(s.running, id);
  }

  lemma AnswerBooked(s: State, id: nat, result: JobResult, u: State)
    requires RedsOk(s) && QueuesOk(s) && BudgetOk(s) && id in s.running
    requires SameBooks(TakeAnswer(s, id, result), u)
    ensures RedsOk(u) && BudgetOk(u) && u.shape == s.shape
  {
    TakeReds(s, id, result);
    TakeBudget(s, id, result);
    BooksKept(TakeAnswer(s, id, result), u);
  }

  lemma AnsweredKeeps(s: State, id: nat, result: JobResult, now: nat)
    requires Inv(s)
    ensures Inv(JobAnswered(s, id, result, now))
  {
    if id in s.running {
      var u := JobAnswered(s, id, result, now);
      AnswerRepaired(s, id, result, now);
      AnswerBooked(s, id, result, u);
    }
  }

  lemma {:induction false} HistoryAbsent(log: seq<Answer>, suite: Suite)
    requires forall a :: a in log ==> a.job.suite != suite
    ensures HistoryOf(log, suite) == []
  {
    if log != [] {
      HistoryAbsent(log[..|log| - 1], suite);
    }
  }

  lemma SeenMore(s: State, suite: Suite)
    ensures MainInFlight(s.(mainSeen := s.mainSeen + {suite})) <= MainInFlight(s)
  {
    assert |s.mainSeen + {suite}| >= |s.mainSeen| by {
      SameSizeSame(s.mainSeen, s.mainSeen + {suite});
    }
  }

  lemma SeenKeeps(s: State, suite: Suite)
    requires Inv(s)
    ensures Inv(s.(mainSeen := s.mainSeen + {suite}))
  {
    var t := s.(mainSeen := s.mainSeen + {suite});
    SeenMore(s, suite);
    assert Jobs(t) == Jobs(s);
    forall other | other in t.suites ensures SuiteHolds(t, other) {
      assert SuiteHolds(s, other) && LiveOf(t, other) == LiveOf(s, other);
    }
  }

  /** A suite just gone red, before its plain rerun is queued. */
  lemma RedOthers(s: State, suite: Suite, st: SuiteState)
    requires QueuesOk(s) && suite !in s.suites
    ensures
      var t := s.(reds := s.reds + [suite], suites := s.suites[suite := st]);
      OthersAlike(s, t, suite) && QueuesOk(t) && LiveOf(t, suite) == {}
  {
    var t := s.(reds := s.reds + [suite], suites := s.suites[suite := st]);
    assert Jobs(t) == Jobs(s);
  }

  lemma RedJoins(s: State, suite: Suite, st: SuiteState)
    requires Inv(s) && suite !in s.suites
    ensures
      var t := s.(reds := s.reds + [suite], suites := s.suites[suite := st]);
      Workable(t, suite) && LiveOf(t, suite) == {} && HistoryOf(t.log, suite) == []
  {
    HistoryAbsent(s.log, suite);
    RedOthers(s, suite, st);
    RestKept(s, s.(reds := s.reds + [suite], suites := s.suites[suite := st]), suite);
  }

  lemma RedListed(s: State, suite: Suite, st: SuiteState)
    requires RedsOk(s) && suite !in s.suites && suite in s.mainSeen
    ensures RedsOk(s.(reds := s.reds + [suite], suites := s.suites[suite := st]))
  {
    var t := s.(reds := s.reds + [suite], suites := s.suites[suite := st]);
    assert suite !in s.reds by {
      assert suite in s.reds ==> suite in Elems(s.reds);
    }
    NoDupAppend(s.reds, [suite]);
    assert Elems(t.reds) == Elems(s.reds) + {suite};
  }

  lemma RedQueued(t: State, suite: Suite, suspects: seq<Id>, now: nat)
    requires Workable(t, suite) && LiveOf(t, suite) == {} && HistoryOf(t.log, suite) == []
    requires t.suites[suite] == FreshSuite(suspects, now)
    requires forall m :: m in suspects ==> m in t.shape.members
    ensures Repaired(Enqueue(t, suite, [], Plain, false))
  {
    var u := Enqueue(t, suite, [], Plain, false);
    var job := Job(t.nextId, suite, [], Plain);
    var st := FreshSuite(suspects, now).(outstanding := {job.id});
    EnqueueEffect(t, suite, [], Plain, false);
    FreshSuiteOk(t.shape, suite, suspects, now, job);
    assert u.suites[suite] == st && LiveOf(u, suite) == {job} && HistoryOf(u.log, suite) == [];
    SuiteJoins(u, suite, t.shape, st, {job}, []);
  }

  lemma EnqueueBooks(t: State, suite: Suite, removal: seq<Id>, purpose: Purpose, front: bool)
    requires suite in t.suites
    ensures SameBooks(t, Enqueue(t, suite, removal, purpose, front))
  {
  }

  function WithRed(s: State, suite: Suite, suspects: seq<Id>, now: nat): (r: State) {
    s.(reds := s.reds + [suite], suites := s.suites[suite := FreshSuite(suspects, now)])
  }

  lemma RedRepaired(s: State, suite: Suite, suspects: seq<Id>, now: nat)
    requires Inv(s) && suite !in s.suites && forall m :: m in suspects ==> m in s.shape.members
    ensures Repaired(Enqueue(WithRed(s, suite, suspects, now), suite, [], Plain, false))
  {
    RedJoins(s, suite, FreshSuite(suspects, now));
    RedQueued(WithRed(s, suite, suspects, now), suite, suspects, now);
  }

  lemma RedBooked(s: State, suite: Suite, suspects: seq<Id>, now: nat)
    requires RedsOk(s) && BudgetOk(s) && suite !in s.suites && suite in s.mainSeen
    ensures
      var u := Enqueue(WithRed(s, suite, suspects, now), suite, [], Plain, false);
      RedsOk(u) && BudgetOk(u) && u.shape == s.shape
  {
    var t := WithRed(s, suite, suspects, now);
    RedListed(s, suite, FreshSuite(suspects, now));
    EnqueueBooks(t, suite, [], Plain, false);
    BooksKept(t, Enqueue(t, suite, [], Plain, false));
  }

  lemma MainResultKeeps(s: State, suite: Suite, green: bool, suspects: seq<Id>, now: nat)
    requires Inv(s) && (!green ==> forall m :: m in suspects ==> m in s.shape.members)
    ensures Inv(MainResult(s, suite, green, suspects, now))
  {
    SeenKeeps(s, suite);
    if suite !in s.mainSeen && !green {
      RedRepaired(s.(mainSeen := s.mainSeen + {suite}), suite, suspects, now);
      RedBooked(s.(mainSeen := s.mainSeen + {suite}), suite, suspects, now);
    }
  }

  lemma MainDoneKeeps(s: State, now: nat)
    requires Inv(s)
    ensures Inv(MainDone(s, now))
  {
    var t := MainDone(s, now);
    assert Jobs(t) == Jobs(s);
    forall other | other in t.suites ensures SuiteHolds(t, other) {
      assert SuiteHolds(s, other) && LiveOf(t, other) == LiveOf(s, other);
    }
  }

  lemma RerunCounted(shape: Shape, suite: Suite, st: SuiteState, live: set<Job>, h: History)
    requires SuiteOk(shape, suite, st, live, h)
    ensures SuiteOk(shape, suite, st.(reruns := st.reruns + 1), live, h)
  {
    assert forall p :: FaultsOf(st.(reruns := st.reruns + 1), p) == FaultsOf(st, p);
  }

  predicate NextReady(s: State) {
    s.plainQ != [] || s.attrQ != []
  }

  function NextJob(s: State): (r: Job)
    requires NextReady(s)
  {
    if s.plainQ != [] then s.plainQ[0] else s.attrQ[0]
  }

  lemma HeadOff(q: seq<Job>)
    requires NoDup(q) && q != []
    ensures NoDup(q[1..]) && q[0] !in q[1..] && Elems(q) == Elems(q[1..]) + {q[0]}
  {
    assert q == [q[0]] + q[1..];
    forall i, j | 0 <= i < j < |q[1..]| ensures q[1..][i] != q[1..][j] {
      assert q[i + 1] != q[j + 1];
    }
    forall i | 0 <= i < |q[1..]| ensures q[1..][i] != q[0] {
      assert q[i + 1] != q[0];
    }
  }

  lemma LaunchJobs(s: State)
    requires QueuesOk(s) && NextReady(s)
    ensures NextJob(s) in Jobs(s) && NextJob(s).id !in s.running
    ensures RunningJobs(LaunchNext(s)) == RunningJobs(s) + {NextJob(s)}
    ensures QueuedJobs(LaunchNext(s)) == QueuedJobs(s) - {NextJob(s)}
    ensures Jobs(LaunchNext(s)) == Jobs(s)
  {
    var t := LaunchNext(s);
    var job := NextJob(s);
    HeadOff(if s.plainQ != [] then s.plainQ else s.attrQ);
    assert job in QueuedJobs(s);
    forall j | j in RunningJobs(s) + {job} ensures j in RunningJobs(t) {
      assert j.id in t.running && t.running[j.id] == j;
    }
    assert job !in s.attrQ || s.plainQ == [];
  }

  lemma LaunchQueues(s: State)
    requires QueuesOk(s) && NextReady(s)
    ensures QueuesOk(LaunchNext(s))
  {
    LaunchJobs(s);
    HeadOff(if s.plainQ != [] then s.plainQ else s.attrQ);
    var t := LaunchNext(s);
    assert t.suites.Keys == s.suites.Keys;
    forall j | j in QueuedJobs(t) ensures j.id !in t.running {
      assert j in Jobs(s) && NextJob(s) in Jobs(s);
    }
  }

  lemma LaunchSuite(s: State, suite: Suite)
    requires QueuesOk(s) && NextReady(s)
    requires suite in s.suites && SuiteHolds(s, suite)
    ensures SuiteHolds(LaunchNext(s), suite)
  {
    LaunchLive(s, suite);
    LaunchAccount(s, suite);
  }

  lemma LaunchLive(s: State, suite: Suite)
    requires QueuesOk(s) && NextReady(s)
    ensures LiveOf(LaunchNext(s), suite) == LiveOf(s, suite)
  {
    LaunchJobs(s);
  }

  lemma LaunchAccount(s: State, suite: Suite)
    requires NextReady(s) && suite in s.suites
    requires SuiteOk(s.shape, suite, s.suites[suite], LiveOf(s, suite), HistoryOf(s.log, suite))
    ensures suite in LaunchNext(s).suites && LaunchNext(s).suites[suite].suspects == s.suites[suite].suspects
    ensures SuiteOk(s.shape, suite, LaunchNext(s).suites[suite], LiveOf(s, suite), HistoryOf(s.log, suite))
  {
    RerunCounted(s.shape, suite, s.suites[suite], LiveOf(s, suite), HistoryOf(s.log, suite));
  }

  lemma LaunchSuites(s: State)
    requires QueuesOk(s) && SuitesOk(s) && NextReady(s)
    ensures SuitesOk(LaunchNext(s))
  {
    LaunchJobs(s);
    assert LaunchNext(s).suites.Keys == s.suites.Keys;
    forall suite | suite in s.suites ensures SuiteHolds(LaunchNext(s), suite) {
      LaunchSuite(s, suite);
    }
  }

  lemma MoreRunning(running: map<nat, Job>, job: Job)
    requires job.id !in running
    ensures |running[job.id := job]| == |running| + 1
  {
    var more := running[job.id := job];
    assert more.Keys == running.Keys + {job.id};
    assert |more| == |more.Keys| && |running| == |running.Keys|;
  }

  lemma LaunchReds(s: State)
    requires RedsOk(s) && NextReady(s) && NextJob(s).suite in s.suites
    ensures RedsOk(LaunchNext(s))
  {
    assert LaunchNext(s).suites.Keys == s.suites.Keys;
  }

  lemma LaunchBudget(s: State)
    requires NextReady(s) && NextJob(s).id !in s.running && Spare(s) > 0
    ensures BudgetOk(LaunchNext(s))
  {
    MoreRunning(s.running, NextJob(s));
  }

  lemma LaunchKeeps(s: State)
    requires Inv(s) && NextReady(s) && Spare(s) > 0
    ensures Inv(LaunchNext(s))
  {
    LaunchJobs(s);
    LaunchReds(s);
    LaunchBudget(s);
    LaunchQueues(s);
    LaunchSuites(s);
  }

  lemma {:induction false} NextJobsKeeps(s: State)
    requires Inv(s)
    ensures Inv(NextJobs(s))
    decreases |s.plainQ| + |s.attrQ|
  {
    if Spare(s) > 0 && NextReady(s) {
      LaunchKeeps(s);
      NextJobsKeeps(LaunchNext(s));
    }
  }

  lemma InitialInv(budget: Budget, shape: Shape, mainTotal: nat)
    requires ShapeOk(shape)
    ensures Inv(Initial(budget, shape, mainTotal))
  {
    var s := Initial(budget, shape, mainTotal);
    assert Jobs(s) == {};
  }

  lemma StepKeeps(s: State, e: Event)
    requires Inv(s) && Legal(s, e)
    ensures Inv(Step(s, e))
  {
    match e
    case MainReported(suite, green, suspects, at) => MainResultKeeps(s, suite, green, suspects, at);
    case MainEnded(at) => MainDoneKeeps(s, at);
    case HandedOut => NextJobsKeeps(s);
    case Answered(id, result, at) => AnsweredKeeps(s, id, result, at);
  }

  /** No step changes what the round is. */
  lemma StepShape(s: State, e: Event)
    ensures Step(s, e).shape == s.shape && Step(s, e).budget == s.budget
  {
    if e.HandedOut? { NextJobsShape(s); }
    if e.Answered? && e.id in s.running {
      var job := s.running[e.id];
      var t := TakeAnswer(s, e.id, e.result);
      if job.suite in s.suites {
        if e.result.Fault? {
          FaultBooks(t, job, e.at);
        } else {
          VerdictBooks(t, job, e.result.Green?, e.at);
        }
      }
    }
  }

  lemma {:induction false} NextJobsShape(s: State)
    ensures NextJobs(s).shape == s.shape && NextJobs(s).budget == s.budget
    decreases |s.plainQ| + |s.attrQ|
  {
    if Spare(s) > 0 && NextReady(s) {
      NextJobsShape(LaunchNext(s));
    }
  }

  /** Every reachable state, under any interleaving and any faults, satisfies the invariant. */
  lemma {:induction false} RunKeeps(s: State, events: seq<Event>)
    requires Inv(s) && LegalRun(s, events)
    ensures Inv(Run(s, events)) && Run(s, events).shape == s.shape && Run(s, events).budget == s.budget
  {
    if events != [] {
      var before, e := events[..|events| - 1], events[|events| - 1];
      RunKeeps(s, before);
      assert e in events && Legal(s, e);
      StepKeeps(Run(s, before), e);
      StepShape(Run(s, before), e);
    }
  }
}
