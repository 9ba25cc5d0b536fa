// How often the attributor hands out work: every launch is accounted for by an answer or a
// running job, so no run is launched more than twice and a round's launches are bounded.

module AttributionLaunches {
  import opened Prelude
  import opened Reach
  import opened Shapes
  import opened AttributionSpec
  import opened SuiteLedger
  import opened AttributionProof
  import opened AttributionRuns

  /** What a job is for: its suite and purpose. */
  type Aim = (Suite, Purpose)

  function Aims(jobs: seq<Job>): (r: seq<Aim>) {
    seq(|jobs|, i requires 0 <= i < |jobs| => (jobs[i].suite, jobs[i].purpose))
  }

  ghost function Launches(s: State, a: Aim): (n: nat) {
    multiset(Aims(s.launched))[a]
  }

  ghost predicate RunsNow(s: State, a: Aim) {
    Aimed(RunningJobs(s), a)
  }

  ghost predicate Aimed(jobs: set<Job>, a: Aim) {
    exists j :: j in jobs && (j.suite, j.purpose) == a
  }

  lemma AimedWithout(jobs: set<Job>, job: Job, a: Aim)
    requires job in jobs && forall j :: j in jobs && (j.suite, j.purpose) == (job.suite, job.purpose) ==> j == job
    ensures Aimed(jobs, (job.suite, job.purpose))
    ensures Aimed(jobs - {job}, a) <==> Aimed(jobs, a) && a != (job.suite, job.purpose)
  {
    if Aimed(jobs - {job}, a) {
      var j :| j in jobs - {job} && (j.suite, j.purpose) == a;
      assert j in jobs;
    }
    if Aimed(jobs, a) && a != (job.suite, job.purpose) {
      var j :| j in jobs && (j.suite, j.purpose) == a;
      assert j in jobs - {job};
    }
  }

  ghost function Answers(s: State, a: Aim): (n: nat) {
    var h := HistoryOf(s.log, a.0);
    Judged(h, a.1) + Count(h, a.1, Fault)
  }

  /** Every launch has been answered or is running. */
  ghost predicate LaunchesOk(s: State) {
    forall a: Aim :: AimOk(s, a)
  }

  /** Every answered job ran on the tree its purpose calls for. */
  ghost predicate LogOk(s: State) {
    forall a :: a in s.log ==> a.job.removal == RemovalFor(s.shape, a.job.purpose)
  }

  ghost predicate Audit(s: State) {
    LaunchesOk(s) && LogOk(s) && |s.log| + |s.running| == |s.launched|
  }

  lemma AimsSnoc(jobs: seq<Job>, job: Job)
    ensures multiset(Aims(jobs + [job])) == multiset(Aims(jobs)) + multiset{(job.suite, job.purpose)}
  {
    assert Aims(jobs + [job]) == Aims(jobs) + [(job.suite, job.purpose)];
  }

  lemma AnswersSnoc(s: State, id: nat, result: JobResult, a: Aim)
    requires id in s.running
    ensures Answers(TakeAnswer(s, id, result), a) ==
            Answers(s, a) + (if (s.running[id].suite, s.running[id].purpose) == a then 1 else 0)
  {
    var h, h' := HistoryOf(s.log, a.0), HistoryOf(TakeAnswer(s, id, result).log, a.0);
    TakeHistory(s, id, result, a.0);
    if s.running[id].suite == a.0 {
      assert h' == h + [(s.running[id].purpose, result)];
      CountSnoc(h, s.running[id].purpose, result);
    } else {
      assert h' == h;
    }
  }

  /** Two live jobs with one aim are one job. */
  lemma AimUnique(s: State, j: Job, k: Job)
    requires Inv(s) && j in Jobs(s) && k in Jobs(s) && j.suite == k.suite && j.purpose == k.purpose
    ensures j == k && j.suite in s.suites && j.removal == RemovalFor(s.shape, j.purpose)
  {
    assert SuiteHolds(s, j.suite);
    assert j in LiveOf(s, j.suite) && k in LiveOf(s, j.suite);
  }

  /** One aim's launches are all answered or running. */
  ghost predicate AimOk(s: State, a: Aim) {
    Launches(s, a) == Answers(s, a) + (if RunsNow(s, a) then 1 else 0)
  }

  lemma LaunchAim(s: State, a: Aim)
    requires Inv(s) && NextReady(s) && AimOk(s, a)
    ensures AimOk(LaunchNext(s), a)
  {
    var t := LaunchNext(s);
    var job := NextJob(s);
    LaunchJobs(s);
    AimsSnoc(s.launched, job);
    assert job in RunningJobs(t);
    if RunsNow(s, a) {
      var j :| j in RunningJobs(s) && (j.suite, j.purpose) == a;
      assert j in RunningJobs(t);
      if a == (job.suite, job.purpose) {
        AimUnique(s, j, job);
        assert false;
      }
    }
  }

  lemma LaunchAudit(s: State)
    requires Inv(s) && Audit(s) && NextReady(s)
    ensures Audit(LaunchNext(s))
  {
    LaunchJobs(s);
    MoreRunning(s.running, NextJob(s));
    forall a: Aim ensures AimOk(LaunchNext(s), a) {
      assert AimOk(s, a);
      LaunchAim(s, a);
    }
  }

  /** Once its job is answered an aim runs no longer, and no other aim is touched. */
  lemma TakeRuns(s: State, id: nat, result: JobResult, a: Aim)
    requires Inv(s) && id in s.running
    ensures RunsNow(s, (s.running[id].suite, s.running[id].purpose))
    ensures RunsNow(TakeAnswer(s, id, result), a) <==>
            RunsNow(s, a) && a != (s.running[id].suite, s.running[id].purpose)
  {
    var job := s.running[id];
    TakeJobs(s, id, result);
    forall j | j in RunningJobs(s) && (j.suite, j.purpose) == (job.suite, job.purpose) ensures j == job {
      AimUnique(s, j, job);
    }
    AimedWithout(RunningJobs(s), job, a);
  }

  lemma TakeAim(s: State, id: nat, result: JobResult, a: Aim)
    requires Inv(s) && id in s.running && AimOk(s, a)
    ensures AimOk(TakeAnswer(s, id, result), a)
  {
    AnswersSnoc(s, id, result, a);
    TakeRuns(s, id, result, a);
  }

  lemma TakeAudit(s: State, id: nat, result: JobResult)
    requires Inv(s) && Audit(s) && id in s.running
    ensures Audit(TakeAnswer(s, id, result))
  {
    TakeJobs(s, id, result);
    AimUnique(s, s.running[id], s.running[id]);
    FewerRunning(s.running, id);
    forall a: Aim ensures AimOk(TakeAnswer(s, id, result), a) {
      assert AimOk(s, a);
      TakeAim(s, id, result, a);
    }
  }

  lemma AuditSame(s: State, t: State)
    requires Audit(s) && t.shape == s.shape && t.running == s.running && t.log == s.log && t.launched == s.launched
    ensures Audit(t)
  {
    assert RunningJobs(t) == RunningJobs(s);
    forall a: Aim ensures AimOk(t, a) {
      assert AimOk(s, a);
      assert RunsNow(t, a) <==> RunsNow(s, a);
    }
  }

  lemma AnsweredAudit(s: State, id: nat, result: JobResult, now: nat)
    requires Inv(s) && Audit(s)
    ensures Audit(JobAnswered(s, id, result, now))
  {
    if id in s.running {
      AnswerRepaired(s, id, result, now);
      TakeAudit(s, id, result);
      AuditSame(TakeAnswer(s, id, result), JobAnswered(s, id, result, now));
    }
  }

  lemma {:induction false} NextJobsAudit(s: State)
    requires Inv(s) && Audit(s)
    ensures Audit(NextJobs(s))
    decreases |s.plainQ| + |s.attrQ|
  {
    if Spare(s) > 0 && NextReady(s) {
      LaunchKeeps(s);
      LaunchAudit(s);
      NextJobsAudit(LaunchNext(s));
    }
  }

  lemma MainResultAudit(s: State, suite: Suite, green: bool, suspects: seq<Id>, now: nat)
    requires Audit(s)
    ensures Audit(MainResult(s, suite, green, suspects, now))
  {
    AuditSame(s, MainResult(s, suite, green, suspects, now));
  }

  lemma MainDoneAudit(s: State, now: nat)
    requires Audit(s)
    ensures Audit(MainDone(s, now))
  {
    AuditSame(s, MainDone(s, now));
  }

  lemma StepAudit(s: State, e: Event)
    requires Inv(s) && Audit(s) && Legal(s, e)
    ensures Audit(Step(s, e))
  {
    match e
    case MainReported(suite, green, suspects, at) => MainResultAudit(s, suite, green, suspects, at);
    case MainEnded(at) => MainDoneAudit(s, at);
    case HandedOut => NextJobsAudit(s);
    case Answered(id, result, at) => AnsweredAudit(s, id, result, at);
  }

  lemma InitialAudit(budget: Budget, shape: Shape, mainTotal: nat)
    ensures Audit(Initial(budget, shape, mainTotal))
  {
  }

  // ----- the bound -------------------------------------------------------------------------

  lemma AimTwice(s: State, a: Aim)
    requires Inv(s) && Audit(s)
    ensures Launches(s, a) <= 2
    ensures Launches(s, a) > 0 ==>
              a.0 in s.suites && (a.1.Plain? || a.1 in Wanted(s.shape, s.suites[a.0].suspects))
  {
    var h := HistoryOf(s.log, a.0);
    assert AimOk(s, a);
    if RunsNow(s, a) {
      var j :| j in RunningJobs(s) && (j.suite, j.purpose) == a;
      assert j in Jobs(s) && SuiteHolds(s, a.0) && j in LiveOf(s, a.0);
      assert Live(LiveOf(s, a.0), a.1);
    } else if a.0 in s.suites {
      assert SuiteHolds(s, a.0);
    } else {
      HistoryAbsent(s.log, a.0);
    }
  }

  lemma {:induction false} TwiceEach(m: multiset<Aim>, u: set<Aim>)
    requires forall a :: a in m ==> a in u && m[a] <= 2
    ensures |m| <= 2 * |u|
  {
    if u == {} {
      assert m == multiset{};
    } else {
      var a :| a in u;
      var rest := m[a := 0];
      TwiceEach(rest, u - {a});
      assert |m| == |rest| + m[a];
    }
  }

  lemma {:induction false} ElemsSmall<T>(s: seq<T>)
    ensures |Elems(s)| <= |s|
  {
    if s != [] {
      var shorter := s[..|s| - 1];
      ElemsSmall(shorter);
      assert s == shorter + [s[|s| - 1]];
      assert Elems(s) == Elems(shorter) + {s[|s| - 1]};
    }
  }

  /** At most one run per member and the base run. */
  lemma WantsSmall(shape: Shape, suspects: seq<Id>)
    requires forall m :: m in suspects ==> m in shape.members
    ensures |Wants(shape, suspects)| <= |shape.members| + 1
  {
    var ids := suspects + shape.members;
    var ws := Withouts(shape, ids);
    WithoutsFacts(shape, ids);
    var names := seq(|ws|, i requires 0 <= i < |ws| => ws[i].0);
    forall i, j | 0 <= i < j < |names| ensures names[i] != names[j] {
      assert ws[i] in ws && ws[j] in ws;
    }
    forall i | 0 <= i < |names| ensures names[i] in Elems(shape.members) {
      assert ws[i] in ws;
    }
    Pigeonhole(names, Elems(shape.members));
    ElemsSmall(shape.members);
  }

  lemma WantedSmall(shape: Shape, suspects: seq<Id>)
    requires forall m :: m in suspects ==> m in shape.members
    ensures |Wanted(shape, suspects)| <= |shape.members| + 1
  {
    var wants := Wants(shape, suspects);
    WantsSmall(shape, suspects);
    var kinds := seq(|wants|, i requires 0 <= i < |wants| => wants[i].0);
    forall p | p in Wanted(shape, suspects) ensures p in Elems(kinds) {
      var w :| w in wants && w.0 == p;
      var i :| 0 <= i < |wants| && wants[i] == w;
      assert kinds[i] == p;
    }
    ElemsSmall(kinds);
    SameSizeSame(Wanted(shape, suspects), Elems(kinds));
  }

  lemma {:induction false} PairsSmall(suite: Suite, ps: set<Purpose>)
    ensures |set p | p in ps :: (suite, p)| <= |ps|
  {
    if ps != {} {
      var p :| p in ps;
      var rest := ps - {p};
      PairsSmall(suite, rest);
      assert (set q | q in ps :: (suite, q)) == (set q | q in rest :: (suite, q)) + {(suite, p)};
    }
  }

  /** Everything a list of reds may ever be rerun for. */
  ghost function AimsOf(s: State, reds: seq<Suite>): (r: set<Aim>)
    requires forall suite :: suite in reds ==> suite in s.suites
  {
    if reds == [] then {}
    else
      var suite := reds[|reds| - 1];
      AimsOf(s, reds[..|reds| - 1])
      + (set p | p in {Plain} + Wanted(s.shape, s.suites[suite].suspects) :: (suite, p))
  }

  lemma {:induction false} AimsOfHolds(s: State, reds: seq<Suite>, a: Aim)
    requires forall suite :: suite in reds ==> suite in s.suites
    requires a.0 in reds && (a.1.Plain? || a.1 in Wanted(s.shape, s.suites[a.0].suspects))
    ensures a in AimsOf(s, reds)
  {
    var shorter := reds[..|reds| - 1];
    assert reds == shorter + [reds[|reds| - 1]];
    if a.0 in shorter {
      AimsOfHolds(s, shorter, a);
    } else {
      assert a.1 in {Plain} + Wanted(s.shape, s.suites[a.0].suspects);
    }
  }

  lemma {:induction false} AimsOfSmall(s: State, reds: seq<Suite>)
    requires forall suite :: suite in reds ==> suite in s.suites
    requires forall suite, m :: suite in s.suites && m in s.suites[suite].suspects ==> m in s.shape.members
    ensures |AimsOf(s, reds)| <= |reds| * (|s.shape.members| + 2)
  {
    if reds != [] {
      var suite := reds[|reds| - 1];
      var ps := {Plain} + Wanted(s.shape, s.suites[suite].suspects);
      AimsOfSmall(s, reds[..|reds| - 1]);
      WantedSmall(s.shape, s.suites[suite].suspects);
      PairsSmall(suite, ps);
      assert |AimsOf(s, reds)| <= |AimsOf(s, reds[..|reds| - 1])| + |set p | p in ps :: (suite, p)|;
      assert |reds| * (|s.shape.members| + 2) == (|reds| - 1) * (|s.shape.members| + 2) + (|s.shape.members| + 2);
    }
  }

  /** Over a whole round: every run launched at most twice, so no more than two launches for
      each red's plain rerun, its base run and one run per member. */
  lemma LaunchesBounded(s: State)
    requires Inv(s) && Audit(s)
    ensures |s.launched| <= 2 * (|s.reds| * (|s.shape.members| + 2))
    ensures |s.log| + |s.running| == |s.launched|
  {
    var m := multiset(Aims(s.launched));
    forall suite | suite in s.reds ensures suite in s.suites {
      assert suite in Elems(s.reds);
    }
    forall a | a in m ensures a in AimsOf(s, s.reds) && m[a] <= 2 {
      AimTwice(s, a);
      assert Launches(s, a) == m[a];
      assert a.0 in Elems(s.reds);
      AimsOfHolds(s, s.reds, a);
    }
    forall suite | suite in s.suites ensures forall x :: x in s.suites[suite].suspects ==> x in s.shape.members {
      assert SuiteHolds(s, suite);
    }
    TwiceEach(m, AimsOf(s, s.reds));
    AimsOfSmall(s, s.reds);
    assert |m| == |Aims(s.launched)|;
  }
}
