// One main run with concurrent attribution (batcher/src/drive.rs, drive): the runner's results
// and answers go into the attributor, the jobs it hands out go to the runner, until every red
// is settled or one member alone owns a red.

module Driving {
  import opened Prelude
  import opened Reach
  import opened Shapes
  import opened AttributionSpec
  import opened AttributionProof
  import opened AttributionRuns
  import opened AttributionLaunches
  import opened AttributionTheorems
  import opened AttributionStability
  import opened AttributionDecision
  import opened AttributionIds
  import opened Attributors
  import opened Members
  import opened Environment

  datatype Preempt = Preempt(owner: Id, unreached: seq<Suite>, rerun: seq<Suite>)

  datatype Settled = Settled(
    preempt: Option<Preempt>,
    decision: Decision,
    end: MainEnd,
    mainEndAt: nat,
    settledAt: nat)

  // ----- what one event leaves alone -------------------------------------------------------

  /** The main run's part of the state. */
  ghost predicate SameMain(s: State, t: State) {
    && t.shape == s.shape && t.budget == s.budget && t.mainSeen == s.mainSeen && t.mainEndAt == s.mainEndAt
    && t.reds == s.reds && t.suites.Keys == s.suites.Keys
    && (RoundSettled(s) ==> RoundSettled(t))
  }

  lemma AnsweredBooks(s: State, id: nat, result: JobResult, now: nat)
    requires Reachable(s) && id in s.running
    ensures s.running[id].suite in s.suites
    ensures SameBooks(TakeAnswer(s, id, result), JobAnswered(s, id, result, now))
    ensures Later(s, JobAnswered(s, id, result, now))
  {
    ReachableKeeps(s);
    AnswerRepaired(s, id, result, now);
    AnsweredLater(s, id, result, now);
    TakeRest(s, id, result);
  }

  lemma AnsweredFrame(s: State, id: nat, result: JobResult, now: nat)
    requires Reachable(s)
    ensures
      var t := JobAnswered(s, id, result, now);
      && SameMain(s, t) && t.launched == s.launched && t.running == s.running - {id}
      && t.log == s.log + (if id in s.running then [Answer(s.running[id], result)] else [])
  {
    if id in s.running {
      AnsweredBooks(s, id, result, now);
      SettledStays(s, JobAnswered(s, id, result, now));
    } else {
      assert s.running - {id} == s.running;
    }
  }

  lemma SettledStays(s: State, t: State)
    requires Later(s, t) && t.suites.Keys == s.suites.Keys && t.mainEndAt == s.mainEndAt
    ensures RoundSettled(s) ==> RoundSettled(t)
  {
    if RoundSettled(s) {
      forall suite | suite in t.suites ensures t.suites[suite].settled.Some? {
        assert suite in s.suites && Onward(s.suites[suite], t.suites[suite]);
      }
    }
  }

  /** The jobs handed out, each running under its own id. */
  ghost predicate HandedOver(s: State, t: State, out: seq<Job>) {
    && t.launched == s.launched + out
    && t.running.Keys == s.running.Keys + (set j | j in out :: j.id)
    && (forall id :: id in s.running ==> t.running[id] == s.running[id])
    && (forall j :: j in out ==> j.id !in s.running && t.running[j.id] == j)
    && (forall i, k :: 0 <= i < k < |out| ==> out[i].id != out[k].id)
  }

  lemma {:induction false} NextJobsHands(s: State) returns (out: seq<Job>)
    requires Inv(s)
    ensures HandedOver(s, NextJobs(s), out)
    ensures NextJobs(s).log == s.log && NextJobs(s).mainSeen == s.mainSeen && NextJobs(s).reds == s.reds
    decreases |s.plainQ| + |s.attrQ|
  {
    if Spare(s) > 0 && NextReady(s) {
      var job, t := NextJob(s), LaunchNext(s);
      LaunchJobs(s);
      LaunchKeeps(s);
      var rest := NextJobsHands(t);
      out := [job] + rest;
      OneMore(s, t, NextJobs(s), job, rest);
    } else {
      out := [];
    }
  }

  lemma IdsApart(job: Job, rest: seq<Job>)
    requires forall i, k :: 0 <= i < k < |rest| ==> rest[i].id != rest[k].id
    requires forall j :: j in rest ==> j.id != job.id
    ensures
      var out := [job] + rest;
      && (set j | j in out :: j.id) == {job.id} + (set j | j in rest :: j.id)
      && forall i, k :: 0 <= i < k < |out| ==> out[i].id != out[k].id
  {
    var out := [job] + rest;
    assert out[0] == job;
    forall j | j in rest ensures j in out {
      var i :| 0 <= i < |rest| && rest[i] == j;
      assert out[i + 1] == j;
    }
    forall i, k | 0 <= i < k < |out| ensures out[i].id != out[k].id {
      assert out[k] == rest[k - 1] && rest[k - 1] in rest;
      if i > 0 {
        assert out[i] == rest[i - 1];
      }
    }
  }

  lemma OneMore(s: State, t: State, u: State, job: Job, rest: seq<Job>)
    requires HandedOver(t, u, rest) && job.id !in s.running
    requires t.running == s.running[job.id := job] && t.launched == s.launched + [job]
    ensures HandedOver(s, u, [job] + rest)
  {
    IdsApart(job, rest);
    assert u.launched == s.launched + ([job] + rest);
    assert t.running.Keys == s.running.Keys + {job.id};
  }

  lemma HandedFrame(s: State) returns (out: seq<Job>)
    requires Reachable(s)
    ensures HandedOver(s, NextJobs(s), out) && SameMain(s, NextJobs(s)) && NextJobs(s).log == s.log
    ensures s.mainEndAt.Some? && s.budget.slots >= 1 && !RoundSettled(s) && s.running == map[] ==> out != []
  {
    ReachableKeeps(s);
    out := NextJobsHands(s);
    NextJobsShape(s);
    NextJobsLater(s);
    NextJobsDrains(s);
    SettledStays(s, NextJobs(s));
    if s.mainEndAt.Some? && s.budget.slots >= 1 && !RoundSettled(s) && s.running == map[] {
      WorkGoesOn(s);
      assert out == [] ==> NextJobs(s).running.Keys == {};
    }
  }

  // ----- the bound that makes the loop end -------------------------------------------------

  ghost function Cap(suites: seq<Suite>, members: nat): (n: nat) {
    |Elems(suites)| * (members + 2)
  }

  lemma TimesMonotone(a: nat, b: nat, c: nat)
    requires a <= b
    ensures a * c <= b * c
  {
  }

  /** However the run goes, its launches and its ids stay under what its suites and members allow. */
  lemma RunCapped(s: State, suites: seq<Suite>)
    requires Reachable(s) && s.mainSeen <= Elems(suites)
    ensures |s.log| <= |s.launched| <= 2 * Cap(suites, |s.shape.members|)
    ensures s.nextId <= 1 + 3 * Cap(suites, |s.shape.members|)
    ensures forall id :: id in s.running ==> id < s.nextId
  {
    ReachableKeeps(s);
    LaunchesBounded(s);
    IdsBounded(s);
    forall i | 0 <= i < |s.reds| ensures s.reds[i] in Elems(suites) {
      assert s.reds[i] in Elems(s.reds);
    }
    Pigeonhole(s.reds, Elems(suites));
    TimesMonotone(|s.reds|, |Elems(suites)|, |s.shape.members| + 2);
  }

  lemma LimitCapped(s: State, suites: seq<Suite>)
    requires Reachable(s) && s.mainSeen <= Elems(suites)
    ensures Limit(s) <= 1 + 3 * Cap(suites, |s.shape.members|)
  {
    ReachableKeeps(s);
    forall i | 0 <= i < |s.reds| ensures s.reds[i] in Elems(suites) {
      assert s.reds[i] in Elems(s.reds);
    }
    Pigeonhole(s.reds, Elems(suites));
    TimesMonotone(|s.reds|, |Elems(suites)|, |s.shape.members| + 2);
  }

  // ----- the object and its environment ----------------------------------------------------

  /** Every running job is in flight, under its own id. */
  ghost predicate Tracks(a: Attributor, runner: Runner)
    reads a, runner
  {
    forall id :: id in a.running ==> id in runner.inFlight && runner.inFlight[id] == a.running[id]
  }

  /** No answer is made up: each one the runner gave to that very job since the main run began,
      or the launch was refused. */
  ghost predicate Genuine(log: seq<Answer>, heard: seq<Answer>) {
    forall x :: x in log ==> x in heard
  }

  /** What the loop knows of the main run: which suites were taken green, and which red. */
  ghost predicate Books(v: State, seen: set<Suite>, greens: set<Suite>, verdicts: map<Suite, bool>) {
    && v.mainSeen == seen && greens <= seen && verdicts.Keys <= seen
    && v.suites.Keys == seen - greens
    && (forall suite :: suite in greens <==> suite in verdicts && verdicts[suite])
    && (v.mainEndAt.None? ==> seen == verdicts.Keys)
  }

  /** A result for a suite not yet seen. */
  lemma ResultFrame(s: State, suite: Suite, green: bool, suspects: seq<Id>, now: nat)
    requires suite !in s.mainSeen
    ensures
      var t := MainResult(s, suite, green, suspects, now);
      && t.mainSeen == s.mainSeen + {suite} && t.suites.Keys == s.suites.Keys + (if green then {} else {suite})
      && t.running == s.running && t.log == s.log && t.launched == s.launched && t.mainEndAt == s.mainEndAt
  {
  }

  ghost predicate Booked(v: State, seen: set<Suite>, greens: set<Suite>, verdicts: map<Suite, bool>) {
    exists w :: w == v && Books(w, seen, greens, verdicts)
  }

  method TakeResult(a: Attributor, ops: Ops, suite: Suite, green: bool, ids: seq<Id>, now: nat,
                    seen0: set<Suite>, greens0: set<Suite>, ghost verdicts: map<Suite, bool>)
    returns (seen: set<Suite>, greens: set<Suite>)
    requires a.Valid() && a.shape.members == ids && (a.mainEndAt.Some? ==> suite in seen0)
    requires Booked(a.Value(), seen0, greens0, verdicts)
    modifies a
    ensures a.Valid() && Booked(a.Value(), seen, greens, Reports(a.mainEndAt.Some?, verdicts, [(suite, green)]))
    ensures seen == seen0 + {suite}
    ensures a.running == old(a.running) && a.log == old(a.log) && a.launched == old(a.launched)
    ensures a.mainEndAt == old(a.mainEndAt)
    ensures a.mainEndAt.Some? ==> a.Value() == old(a.Value())
  {
    seen, greens := seen0, greens0;
    OneReport(verdicts, suite, green);
    if suite !in seen {
      seen := seen + {suite};
      var order: seq<Id> := [];
      if green {
        greens := greens + {suite};
      } else {
        order := ops.Suspects(suite, ids);
      }
      ResultFrame(a.Value(), suite, green, order, now);
      a.OnMainResult(suite, green, order, now);
    }
    assert Books(a.Value(), seen, greens, Reports(a.mainEndAt.Some?, verdicts, [(suite, green)]));
  }

  lemma OneReport(known: map<Suite, bool>, suite: Suite, green: bool)
    ensures FirstReports(known, [(suite, green)]) == FirstReport(known, (suite, green))
  {
    assert [(suite, green)][..0] == [];
  }

  lemma ReportsMore(ended: bool, known: map<Suite, bool>, results: seq<(Suite, bool)>, i: nat)
    requires i < |results|
    ensures Reports(ended, known, results[..i + 1]) == Reports(ended, Reports(ended, known, results[..i]), [results[i]])
  {
    TakeOneMore(results, i);
    OneReport(FirstReports(known, results[..i]), results[i].0, results[i].1);
  }

  /** Feeds the results that became final since the last poll. */
  method TakeResults(a: Attributor, ops: Ops, results: seq<(Suite, bool)>, ids: seq<Id>, now: nat,
                     seen0: set<Suite>, greens0: set<Suite>, ghost verdicts: map<Suite, bool>)
    returns (seen: set<Suite>, greens: set<Suite>)
    requires a.Valid() && a.shape.members == ids
    requires a.mainEndAt.Some? ==> forall p :: p in results ==> p.0 in seen0
    requires Booked(a.Value(), seen0, greens0, verdicts)
    modifies a
    ensures a.Valid() && Booked(a.Value(), seen, greens, Reports(a.mainEndAt.Some?, verdicts, results))
    ensures seen == seen0 + (set p | p in results :: p.0)
    ensures a.running == old(a.running) && a.log == old(a.log) && a.launched == old(a.launched)
    ensures a.mainEndAt == old(a.mainEndAt)
    ensures a.mainEndAt.Some? ==> a.Value() == old(a.Value())
  {
    seen, greens := seen0, greens0;
    ghost var ended := a.mainEndAt.Some?;
    for i := 0 to |results|
      invariant a.Valid() && Booked(a.Value(), seen, greens, Reports(ended, verdicts, results[..i]))
      invariant seen == seen0 + (set p | p in results[..i] :: p.0)
      invariant a.running == old(a.running) && a.log == old(a.log) && a.launched == old(a.launched)
      invariant a.mainEndAt == old(a.mainEndAt)
      invariant ended ==> a.Value() == old(a.Value())
    {
      TakeOneMore(results, i);
      SuitesSnoc(results[..i], results[i]);
      ReportsMore(ended, verdicts, results, i);
      assert results[i] in results;
      ghost var known := Reports(ended, verdicts, results[..i]);
      seen, greens := TakeResult(a, ops, results[i].0, results[i].1, ids, now, seen, greens, known);
    }
    assert results[..|results|] == results;
  }

  lemma SuitesSnoc(results: seq<(Suite, bool)>, p: (Suite, bool))
    ensures (set q | q in results + [p] :: q.0) == (set q | q in results :: q.0) + {p.0}
  {
    assert p in results + [p];
    forall q | q in results ensures q in results + [p] {
    }
  }

  /** A suite the main run never reported. */
  method TakeAbsent(a: Attributor, ops: Ops, suite: Suite, ids: seq<Id>, now: nat)
    requires a.Valid() && a.shape.members == ids && suite !in a.mainSeen
    modifies a
    ensures a.Valid() && a.mainSeen == old(a.mainSeen) + {suite} && a.suites.Keys == old(a.suites).Keys + {suite}
    ensures a.running == old(a.running) && a.log == old(a.log) && a.launched == old(a.launched)
    ensures a.mainEndAt == old(a.mainEndAt)
  {
    var order := ops.Suspects(suite, ids);
    ResultFrame(a.Value(), suite, false, order, now);
    a.OnMainResult(suite, false, order, now);
  }

  /** Absence is never green: a selected suite with no result is red. */
  method CloseMain(a: Attributor, ops: Ops, suites: seq<Suite>, ids: seq<Id>, now: nat,
                   seen0: set<Suite>, greens: set<Suite>, ghost verdicts: map<Suite, bool>)
    returns (seen: set<Suite>)
    requires a.Valid() && a.shape.members == ids && a.mainEndAt.None?
    requires Books(a.Value(), seen0, greens, verdicts)
    modifies a
    ensures a.Valid() && Books(a.Value(), seen, greens, verdicts)
    ensures seen == seen0 + Elems(suites) && a.mainEndAt == Some(now)
    ensures a.running == old(a.running) && a.log == old(a.log) && a.launched == old(a.launched)
  {
    seen := seen0;
    ghost var v := a.Value();
    for i := 0 to |suites|
      invariant a.Valid() && a.mainEndAt.None?
      invariant a.mainSeen == seen && greens <= seen && a.suites.Keys == seen - greens
      invariant seen == seen0 + Elems(suites[..i])
      invariant a.running == old(a.running) && a.log == old(a.log) && a.launched == old(a.launched)
    {
      TakeOneMore(suites, i);
      if suites[i] !in seen {
        TakeAbsent(a, ops, suites[i], ids, now);
        seen := seen + {suites[i]};
      }
    }
    assert suites[..|suites|] == suites;
    a.OnMainDone(now);
  }

  /** One answer, which the runner gave to the job in flight under that id. */
  method HearAnswer(a: Attributor, id: nat, result: JobResult, now: nat, ghost job: Job, ghost heard: seq<Answer>)
    requires a.Valid() && Genuine(a.log, heard) && Answer(job, result) in heard
    requires id in a.running ==> a.running[id] == job
    modifies a
    ensures a.Valid() && SameMain(old(a.Value()), a.Value()) && a.launched == old(a.launched)
    ensures a.running == old(a.running) - {id} && Genuine(a.log, heard)
    ensures |a.log| == |old(a.log)| + |old(a.running)| - |a.running|
  {
    AnsweredFrame(a.Value(), id, result, now);
    if id in a.running {
      FewerRunning(a.running, id);
    } else {
      assert a.running - {id} == a.running;
    }
    a.OnJobResult(id, result, now);
  }

  lemma SameMainTwice(s: State, t: State, u: State)
    requires SameMain(s, t) && SameMain(t, u)
    ensures SameMain(s, u)
  {
  }

  /** Feeds the answers of one poll. */
  method HearAnswers(a: Attributor, out: seq<(nat, JobResult)>, now: nat, ghost before: map<nat, Job>,
                     ghost heard: seq<Answer>)
    requires a.Valid() && Genuine(a.log, heard)
    requires forall p :: p in out ==> p.0 in before && Answer(before[p.0], p.1) in heard
    requires forall id :: id in a.running ==> id in before && before[id] == a.running[id]
    modifies a
    ensures a.Valid() && SameMain(old(a.Value()), a.Value()) && a.launched == old(a.launched)
    ensures a.running == old(a.running) - IdsAnswered(out) && Genuine(a.log, heard)
    ensures |a.log| == |old(a.log)| + |old(a.running)| - |a.running|
  {
    ghost var v := a.Value();
    for i := 0 to |out|
      invariant a.Valid() && SameMain(v, a.Value()) && a.launched == v.launched
      invariant a.running == v.running - IdsAnswered(out[..i])
      invariant Genuine(a.log, heard)
      invariant |a.log| == |v.log| + |v.running| - |a.running|
    {
      TakeOneMore(out, i);
      IdsAnsweredSnoc(out[..i], out[i].0, out[i].1);
      MinusOneMore(v.running, IdsAnswered(out[..i]), out[i].0);
      ghost var w := a.Value();
      HearAnswer(a, out[i].0, out[i].1, now, before[out[i].0], heard);
      SameMainTwice(v, w, a.Value());
    }
    assert out[..|out|] == out;
  }

  /** Asks the runner what it has finished, and feeds that to the attributor. */
  method PollAnswers(a: Attributor, runner: Runner, now: nat)
    requires a.Valid() && Tracks(a, runner) && Genuine(a.log, runner.heard)
    modifies a, runner`inFlight, runner`heard, runner`loads
    ensures a.Valid() && SameMain(old(a.Value()), a.Value()) && a.launched == old(a.launched)
    ensures Tracks(a, runner) && Genuine(a.log, runner.heard)
    ensures a.running.Keys <= old(a.running).Keys && runner.inFlight.Keys <= old(runner.inFlight).Keys
    ensures |a.log| == |old(a.log)| + |old(a.running)| - |a.running| >= |old(a.log)|
    ensures runner.patience == 0 ==> a.running == map[]
  {
    ghost var before, heard := runner.inFlight, runner.heard;
    var out := runner.PollJobs();
    assert forall x :: x in heard ==> x in runner.heard;
    forall p | p in out ensures Answer(before[p.0], p.1) in runner.heard {
      var i :| 0 <= i < |out| && out[i] == p;
      assert AnswersTo(before, out)[i] == Answer(before[p.0], p.1);
      assert AnswersTo(before, out)[i] in AnswersTo(before, out);
    }
    ghost var was := a.running;
    HearAnswers(a, out, now, before, runner.heard);
    SameSizeSame(a.running.Keys, was.Keys);
    assert |a.running| == |a.running.Keys| && |was| == |was.Keys|;
  }

  /** Launches one job handed out; one that will not launch has faulted. */
  method LaunchOne(a: Attributor, runner: Runner, job: Job, now: nat)
    requires a.Valid() && Genuine(a.log, runner.heard)
    requires job.id in a.running && a.running[job.id] == job
    modifies a, runner`inFlight, runner`heard, runner`loads
    ensures a.Valid() && SameMain(old(a.Value()), a.Value()) && a.launched == old(a.launched)
    ensures Genuine(a.log, runner.heard) && |a.log| >= |old(a.log)|
    ensures (a.running == old(a.running) && runner.inFlight == old(runner.inFlight)[job.id := job])
            || (a.running == old(a.running) - {job.id} && runner.inFlight == old(runner.inFlight))
  {
    ghost var heard := runner.heard;
    var r := runner.Launch(job);
    assert forall x :: x in heard ==> x in runner.heard;
    if r.Err? {
      assert Answer(job, Fault) in runner.heard;
      AnsweredFrame(a.Value(), job.id, Fault, now);
      a.OnJobResult(job.id, Fault, now);
    }
  }

  /** Each running job is in flight or among those still to launch. */
  ghost predicate Covered(running: map<nat, Job>, inFlight: map<nat, Job>, jobs: seq<Job>) {
    && (forall i, k :: 0 <= i < k < |jobs| ==> jobs[i].id != jobs[k].id)
    && (forall j :: j in jobs ==> j.id in running && running[j.id] == j)
    && (forall id :: id in running ==> (id in inFlight && inFlight[id] == running[id]) || AmongIds(jobs, id))
  }

  ghost predicate AmongIds(jobs: seq<Job>, id: nat) {
    exists j :: j in jobs && j.id == id
  }

  lemma HeadAndRest(jobs: seq<Job>)
    requires jobs != [] && forall i, k :: 0 <= i < k < |jobs| ==> jobs[i].id != jobs[k].id
    ensures forall j :: j in jobs <==> j == jobs[0] || j in jobs[1..]
    ensures forall j :: j in jobs[1..] ==> j.id != jobs[0].id
  {
    assert jobs == [jobs[0]] + jobs[1..];
    forall j | j in jobs[1..] ensures j.id != jobs[0].id {
      var i :| 0 <= i < |jobs[1..]| && jobs[1..][i] == j;
      assert jobs[i + 1] == j;
    }
  }

  lemma CoveredStep(running: map<nat, Job>, inFlight: map<nat, Job>, jobs: seq<Job>, running': map<nat, Job>,
                    inFlight': map<nat, Job>)
    requires jobs != [] && Covered(running, inFlight, jobs)
    requires (running' == running && inFlight' == inFlight[jobs[0].id := jobs[0]])
             || (running' == running - {jobs[0].id} && inFlight' == inFlight)
    ensures Covered(running', inFlight', jobs[1..])
  {
    var rest := jobs[1..];
    HeadAndRest(jobs);
    forall j | j in rest ensures j.id in running' && running'[j.id] == j {
      assert j in jobs && j.id != jobs[0].id;
    }
    forall id | id in running' ensures (id in inFlight' && inFlight'[id] == running'[id]) || AmongIds(rest, id) {
      assert running'[id] == running[id];
      if j :| j in jobs && j.id == id {
        assert j == jobs[0] || j in rest;
      }
    }
  }

  method LaunchAll(a: Attributor, runner: Runner, jobs: seq<Job>, now: nat)
    requires a.Valid() && Genuine(a.log, runner.heard)
    requires Covered(a.running, runner.inFlight, jobs)
    modifies a, runner`inFlight, runner`heard, runner`loads
    ensures a.Valid() && SameMain(old(a.Value()), a.Value()) && a.launched == old(a.launched)
    ensures Tracks(a, runner) && Genuine(a.log, runner.heard) && |a.log| >= |old(a.log)|
    ensures forall id :: id in runner.inFlight ==> id in old(runner.inFlight) || id in old(a.running)
  {
    ghost var v := a.Value();
    assert jobs[0..] == jobs;
    for i := 0 to |jobs|
      invariant a.Valid() && SameMain(v, a.Value()) && a.launched == v.launched
      invariant a.running.Keys <= v.running.Keys
      invariant Covered(a.running, runner.inFlight, jobs[i..])
      invariant Genuine(a.log, runner.heard) && |a.log| >= |v.log|
      invariant forall id :: id in runner.inFlight ==> id in old(runner.inFlight) || id in v.running
    {
      ghost var w, flying := a.Value(), runner.inFlight;
      assert jobs[i..][0] == jobs[i] && jobs[i..][1..] == jobs[i + 1..];
      assert jobs[i] in jobs[i..];
      LaunchOne(a, runner, jobs[i], now);
      SameMainTwice(v, w, a.Value());
      CoveredStep(w.running, flying, jobs[i..], a.running, runner.inFlight);
    }
  }

  /** Of the jobs running after a hand-out, those that ran before are in flight, the rest to launch. */
  lemma HandedCovered(v: State, w: State, jobs: seq<Job>, inFlight: map<nat, Job>)
    requires HandedOver(v, w, jobs)
    requires forall id :: id in v.running ==> id in inFlight && inFlight[id] == v.running[id]
    ensures Covered(w.running, inFlight, jobs)
  {
    forall id | id in w.running
      ensures (id in inFlight && inFlight[id] == w.running[id]) || AmongIds(jobs, id)
    {
      if id !in v.running {
        var j :| j in jobs && j.id == id;
      }
    }
  }

  lemma SameTail<T>(s: seq<T>, a: seq<T>, b: seq<T>)
    requires s + a == s + b
    ensures a == b
  {
    assert a == (s + a)[|s|..] && b == (s + b)[|s|..];
  }

  /** Above every id the attributor may hand out. */
  ghost function Limit(s: State): (n: nat) {
    1 + 3 * (|s.reds| * (|s.shape.members| + 2))
  }

  lemma RunningUnderLimit(s: State)
    requires Reachable(s)
    ensures forall id :: id in s.running ==> id < Limit(s)
  {
    IdsBounded(s);
  }

  lemma SameLimit(s: State, t: State)
    requires SameMain(s, t)
    ensures Limit(t) == Limit(s)
  {
  }

  /** Hands out what the slots allow: something, where waiting would otherwise be for nothing. */
  method HandOver(a: Attributor) returns (jobs: seq<Job>)
    requires a.Valid()
    modifies a
    ensures a.Valid() && SameMain(old(a.Value()), a.Value()) && a.log == old(a.log)
    ensures HandedOver(old(a.Value()), a.Value(), jobs)
    ensures a.mainEndAt.Some? && a.budget.slots >= 1 && old(a.running) == map[] && !RoundSettled(a.Value()) ==>
              jobs != []
  {
    ghost var v := a.Value();
    ghost var out := HandedFrame(v);
    jobs := a.NextJobs();
    SameTail(v.launched, jobs, out);
  }

  /** Hands out what the slots allow and launches it. */
  method LaunchNextJobs(a: Attributor, runner: Runner, now: nat)
    requires a.Valid() && Tracks(a, runner) && Genuine(a.log, runner.heard)
    modifies a, runner`inFlight, runner`heard, runner`loads
    ensures a.Valid() && SameMain(old(a.Value()), a.Value())
    ensures Tracks(a, runner) && Genuine(a.log, runner.heard)
    ensures |a.log| >= |old(a.log)| && |a.launched| >= |old(a.launched)|
    ensures a.mainEndAt.Some? && a.budget.slots >= 1 && old(a.running) == map[] && !RoundSettled(a.Value()) ==>
              |a.launched| > |old(a.launched)|
    ensures forall id :: id in runner.inFlight ==> id in old(runner.inFlight) || id < Limit(a.Value())
  {
    ghost var v := a.Value();
    var jobs := HandOver(a);
    ghost var w := a.Value();
    RunningUnderLimit(w);
    HandedCovered(v, w, jobs, runner.inFlight);
    LaunchAll(a, runner, jobs, now);
    SameMainTwice(v, w, a.Value());
    SameLimit(w, a.Value());
  }

  /** The suites not in `drop`, in order. */
  function Except(suites: seq<Suite>, drop: set<Suite>): (r: seq<Suite>) {
    Within(suites, Elems(suites) - drop)
  }

  /** A round's removal sets and the suites taken green or red, behind one settled main run. */
  ghost predicate Watched(v: State, members: seq<Member>, suites: seq<Suite>, greens: set<Suite>) {
    && Reachable(v) && v.shape.members == MemberIds(members) && ClosesOver(v.shape, RoundEdges(members))
    && greens <= v.mainSeen <= Elems(suites) && v.suites.Keys == v.mainSeen - greens
    && (forall red :: red in v.reds ==> red in v.suites)
  }

  ghost function OwnedBySole(v: State, x: Id): (r: seq<Suite>)
    requires forall red :: red in v.reds ==> red in v.suites
    ensures forall suite :: suite in r <==> suite in v.reds && SoleOf(v.suites[suite]) == Some(x)
  {
    SolelyOwnedElems(v, v.reds, x);
    SolelyOwned(v, v.reds, x)
  }

  /** A main run that ran out decides every red; one stopped early decides exactly the reds of
      the member that alone owns the first of them, and says what the survivors still owe. */
  ghost predicate PassJudged(s: Settled, v: State, members: seq<Member>, suites: seq<Suite>, greens: set<Suite>) {
    && Watched(v, members, suites, greens)
    && (s.end.WorkspaceBuild? ==> s.preempt.None? && s.decision == NoDecision && s.mainEndAt == s.settledAt)
    && (s.end.Ran? && s.preempt.None? ==>
          && RoundSettled(v) && v.mainSeen == Elems(suites) && s.decision == DecisionOf(v, v.reds)
          && v.mainEndAt == Some(s.mainEndAt))
    && (s.preempt.Some? ==>
          && s.mainEndAt == s.settledAt
          && s.end.Ran? && v.mainEndAt.None?
          && FirstSole(v, v.reds) == Some(s.preempt.value.owner)
          && s.decision == DecisionOf(v, OwnedBySole(v, s.preempt.value.owner))
          && s.preempt.value.unreached == Except(suites, v.mainSeen)
          && s.preempt.value.rerun == Except(suites, greens))
  }

  ghost predicate WasJudged(s: Settled, v: State, members: seq<Member>, suites: seq<Suite>, greens: set<Suite>) {
    exists w :: w == v && PassJudged(s, w, members, suites, greens)
  }

  lemma ResultsWithin(results: seq<(Suite, bool)>, suites: set<Suite>)
    requires forall p :: p in results ==> p.0 in suites
    ensures (set p | p in results :: p.0) <= suites
  {
  }

  /** One poll of the main run, to the point where its results, and if it ended the suites it
      never reported, are with the attributor. */
  method PollRun(a: Attributor, runner: Runner, ops: Ops, suites: seq<Suite>, ids: seq<Id>, seen0: set<Suite>,
                 greens0: set<Suite>)
    returns (r: Result<bool>, now: nat, seen: set<Suite>, greens: set<Suite>)
    requires a.Valid() && a.shape.members == ids
    requires Books(a.Value(), seen0, greens0, runner.verdicts) && (runner.ended <==> a.mainEndAt.Some?)
    requires seen0 <= Elems(suites) == runner.mainSuites && (a.mainEndAt.Some? ==> seen0 == Elems(suites))
    modifies a, runner`verdicts, runner`ended
    ensures r.Ok? && !r.value ==> (runner.ended <==> a.mainEndAt.Some?)
    ensures a.Valid() && (r.Ok? ==> Books(a.Value(), seen, greens, runner.verdicts))
    ensures r.Ok? ==> seen <= Elems(suites) && (a.mainEndAt.Some? ==> seen == Elems(suites))
    ensures a.running == old(a.running) && a.log == old(a.log) && a.launched == old(a.launched)
    ensures old(a.mainEndAt).Some? ==> a.Value() == old(a.Value())
    ensures r.Ok? && !r.value && runner.patience == 0 ==> a.mainEndAt.Some?
    ensures r.Ok? && r.value && old(a.mainEndAt).None? ==> a.mainEndAt.None?
    ensures now == runner.clock && (a.mainEndAt == old(a.mainEndAt) || a.mainEndAt == Some(now))
  {
    seen, greens := seen0, greens0;
    ghost var verdicts := runner.verdicts;
    now := runner.Now();
    var poll := runner.PollMain();
    if poll.Err? {
      return Err(poll.error), now, seen, greens;
    }
    ResultsWithin(poll.value.results, Elems(suites));
    assert Books(a.Value(), seen, greens, verdicts);
    seen, greens := TakeResults(a, ops, poll.value.results, ids, now, seen, greens, verdicts);
    if poll.value.done.Some? {
      if poll.value.done.value.WorkspaceBuild? {
        return Ok(true), now, seen, greens;
      }
      if a.mainEndAt.None? {
        seen := CloseMain(a, ops, suites, ids, now, seen, greens, runner.verdicts);
      }
    }
    r := Ok(false);
  }

  /** Stops the main run if one member alone owns a red, or ends with every red settled. */
  method Conclude(a: Attributor, runner: Runner, suites: seq<Suite>, members: seq<Member>, seen: set<Suite>,
                  greens: set<Suite>, now: nat)
    returns (r: Result<Option<Settled>>)
    requires a.Valid() && a.shape.members == MemberIds(members) && ClosesOver(a.shape, RoundEdges(members))
    requires greens <= a.mainSeen <= Elems(suites) && a.suites.Keys == a.mainSeen - greens && a.mainSeen == seen
    requires a.mainEndAt.Some? ==> seen == Elems(suites) && a.mainEndAt.value <= now
    modifies runner`inFlight
    ensures r.Ok? && r.value.Some? ==> WasJudged(r.value.value, a.Value(), members, suites, greens)
    ensures r.Ok? && r.value.Some? ==> r.value.value.mainEndAt <= r.value.value.settledAt == now
    ensures r.Ok? && r.value.None? ==> !RoundSettled(a.Value()) && runner.inFlight == old(runner.inFlight)
    ensures forall id :: id in runner.inFlight ==> id in old(runner.inFlight)
  {
    RedsKnown(a.Value());
    if a.mainEndAt.None? {
      var sole := a.SoleOwner();
      if sole.Some? {
        var stopped := runner.StopMain();
        if stopped.Err? {
          return Err(stopped.error);
        }
        SolelyOwnedElems(a.Value(), a.reds, sole.value.0);
        var d := a.DecideOf(sole.value.1);
        var preempt := Preempt(sole.value.0, Except(suites, seen), Except(suites, greens));
        r := Ok(Some(Settled(Some(preempt), d, Ran, now, now)));
        assert PassJudged(r.value.value, a.Value(), members, suites, greens);
        return;
      }
    }
    if a.Settled() {
      var d := a.Decide();
      var mainEnd := if a.mainEndAt.Some? then a.mainEndAt.value else now;
      r := Ok(Some(Settled(None, d, Ran, mainEnd, now)));
      assert PassJudged(r.value.value, a.Value(), members, suites, greens);
      return;
    }
    r := Ok(None);
  }

  /** Work seen so far: it only grows, and never past a bound set before the run. */
  ghost function Worked(a: Attributor): (n: nat)
    reads a
  {
    |a.log| + |a.launched|
  }

  /** Takes the answers that are in and hands out what the slots allow. Once the main run is over
      and all patience spent, this gets somewhere unless every red is settled. */
  method Attend(a: Attributor, runner: Runner, now: nat, ghost suites: seq<Suite>)
    requires a.Valid() && Tracks(a, runner) && Genuine(a.log, runner.heard) && a.budget.slots >= 1
    requires a.mainSeen <= Elems(suites)
    modifies a, runner`inFlight, runner`heard, runner`loads
    ensures a.Valid() && SameMain(old(a.Value()), a.Value())
    ensures Tracks(a, runner) && Genuine(a.log, runner.heard)
    ensures old(Worked(a)) <= Worked(a) <= 4 * Cap(suites, |a.shape.members|)
    ensures runner.patience == 0 && a.mainEndAt.Some? && !RoundSettled(a.Value()) ==> Worked(a) > old(Worked(a))
    ensures forall id :: id in runner.inFlight ==>
              id in old(runner.inFlight) || id <= 1 + 3 * Cap(suites, |a.shape.members|)
  {
    ghost var v := a.Value();
    PollAnswers(a, runner, now);
    ghost var w := a.Value();
    LaunchNextJobs(a, runner, now);
    SameMainTwice(v, w, a.Value());
    RunCapped(a.Value(), suites);
    LimitCapped(a.Value(), suites);
    assert v.running != map[] && w.running == map[] ==> |w.log| > |v.log| by {
      assert v.running != map[] ==> v.running.Keys != {};
    }
  }

  /** What holds at the head of every turn of the loop, `v` being the attributor's value. */
  ghost predicate InStep(v: State, a: Attributor, runner: Runner, suites: seq<Suite>, members: seq<Member>,
                         seen: set<Suite>, greens: set<Suite>)
    reads a, runner
  {
    && v == a.Value() && a.Valid() && Tracks(a, runner) && Genuine(a.log, runner.heard)
    && a.budget.slots >= 1 && a.shape.members == MemberIds(members) && ClosesOver(a.shape, RoundEdges(members))
    && Books(v, seen, greens, runner.verdicts) && (runner.ended <==> a.mainEndAt.Some?)
    && seen <= Elems(suites) == runner.mainSuites && (a.mainEndAt.Some? ==> seen == Elems(suites))
    && runner.members == members && (a.mainEndAt.Some? ==> a.mainEndAt.value <= runner.clock)
  }

  ghost predicate Underway(a: Attributor, runner: Runner, suites: seq<Suite>, members: seq<Member>, seen: set<Suite>,
                           greens: set<Suite>)
    reads a, runner
  {
    exists v :: InStep(v, a, runner, suites, members, seen, greens)
  }

  lemma UnderwayWatched(v: State, members: seq<Member>, suites: seq<Suite>, seen: set<Suite>, greens: set<Suite>,
                        verdicts: map<Suite, bool>)
    requires Reachable(v) && v.shape.members == MemberIds(members) && ClosesOver(v.shape, RoundEdges(members))
    requires Books(v, seen, greens, verdicts) && seen <= Elems(suites)
    ensures Watched(v, members, suites, greens)
  {
    RedsKnown(v);
  }

  /** The run's evidence is what the runner showed: every answer taken was given, and the suites
      taken green are exactly those reported green before the run ended. */
  ghost predicate Borne(v: State, greens: set<Suite>, session: Session) {
    && Genuine(v.log, session.heard)
    && forall suite :: suite in greens <==> suite in session.verdicts && session.verdicts[suite]
  }

  /** The rest of a turn, the main run's results taken: answers, hand-outs, and whether to stop. */
  method Proceed(a: Attributor, runner: Runner, suites: seq<Suite>, members: seq<Member>, seen: set<Suite>,
                 greens: set<Suite>, now: nat)
    returns (r: Result<Option<Settled>>)
    requires Underway(a, runner, suites, members, seen, greens) && now == runner.clock
    modifies a, runner`inFlight, runner`heard, runner`loads
    ensures r.Ok? && r.value.None? ==> Underway(a, runner, suites, members, seen, greens)
    ensures r.Ok? && r.value.Some? ==> WasJudged(r.value.value, a.Value(), members, suites, greens)
    ensures r.Ok? && r.value.Some? ==> r.value.value.mainEndAt <= r.value.value.settledAt == runner.clock
    ensures r.Ok? ==> Borne(a.Value(), greens, runner.Current()) && a.mainEndAt == old(a.mainEndAt)
    ensures forall id :: id in runner.inFlight ==> id in old(runner.inFlight) || id <= 1 + 3 * Cap(suites, |members|)
    ensures r.Ok? && r.value.None? ==> old(Worked(a)) <= Worked(a) <= 4 * Cap(suites, |members|)
    ensures r.Ok? && r.value.None? && runner.patience == 0 && a.mainEndAt.Some? ==> Worked(a) > old(Worked(a))
  {
    Attend(a, runner, now, suites);
    ghost var v := a.Value();
    r := Conclude(a, runner, suites, members, seen, greens, now);
    assert a.Value() == v;
    if r.Ok? && r.value.None? {
      assert InStep(v, a, runner, suites, members, seen, greens);
    }
  }

  /** One turn: poll the main run, take answers, hand out jobs, and see whether the round may end. */
  method Turn(a: Attributor, runner: Runner, ops: Ops, suites: seq<Suite>, members: seq<Member>, seen0: set<Suite>,
              greens0: set<Suite>)
    returns (r: Result<Option<Settled>>, seen: set<Suite>, greens: set<Suite>)
    requires Underway(a, runner, suites, members, seen0, greens0)
    modifies a, runner`verdicts, runner`ended, runner`inFlight, runner`heard, runner`loads
    ensures r.Ok? && r.value.None? ==> Underway(a, runner, suites, members, seen, greens)
    ensures r.Ok? && r.value.Some? ==> WasJudged(r.value.value, a.Value(), members, suites, greens)
    ensures r.Ok? && r.value.Some? ==> r.value.value.mainEndAt <= r.value.value.settledAt == runner.clock
    ensures r.Ok? ==> Borne(a.Value(), greens, runner.Current())
    ensures forall id :: id in runner.inFlight ==> id in old(runner.inFlight) || id <= 1 + 3 * Cap(suites, |members|)
    ensures r.Ok? && r.value.None? ==> old(Worked(a)) <= Worked(a) <= 4 * Cap(suites, |members|)
    ensures r.Ok? && r.value.None? && old(a.mainEndAt).Some? ==> a.mainEndAt.Some?
    ensures r.Ok? && r.value.None? && runner.patience == 0 ==>
              a.mainEndAt.Some? && (old(a.mainEndAt).Some? ==> Worked(a) > old(Worked(a)))
  {
    var built, now;
    built, now, seen, greens := PollRun(a, runner, ops, suites, MemberIds(members), seen0, greens0);
    if built.Err? {
      return Err(built.error), seen, greens;
    }
    if built.value {
      UnderwayWatched(a.Value(), members, suites, seen, greens, runner.verdicts);
      r := Ok(Some(Settled(None, NoDecision, WorkspaceBuild, now, now)));
      assert PassJudged(r.value.value, a.Value(), members, suites, greens);
      return;
    }
    assert InStep(a.Value(), a, runner, suites, members, seen, greens);
    r := Proceed(a, runner, suites, members, seen, greens, now);
  }

  /** One session of the runner, started on these members and suites, bears a run's evidence. */
  ghost predicate Witnessed(v: State, greens: set<Suite>, kind: MainKind, members: seq<Member>, suites: seq<Suite>,
                            session: Session) {
    session.kind == kind && session.members == members && session.suites == Elems(suites) && Borne(v, greens, session)
  }

  /** The attributor for a round, and the main run it attributes, begun. */
  method Begin(runner: Runner, kind: MainKind, suites: seq<Suite>, members: seq<Member>, budget: Budget)
    returns (r: Result<()>, a: Attributor)
    requires Distinct(members) && budget.slots >= 1
    modifies runner`members, runner`mainKind, runner`mainMembers, runner`mainSuites, runner`verdicts, runner`ended,
        runner`heard, runner`sessions
    ensures fresh(a) && runner.members == members
    ensures r.Ok? ==> runner.mainKind == kind && runner.mainMembers == members && runner.sessions == old(runner.Shown())
    ensures r.Ok? ==> Underway(a, runner, suites, members, {}, {})
  {
    var ids := MemberIds(members);
    var prereqs := Prereqs(members);
    var shape := Shapes.New(ids, prereqs);
    ClosesOverIsOk(shape, RoundEdges(members));
    a := new Attributor(budget, shape, |suites|);
    runner.SetMembers(members);
    r := runner.StartMain(kind, suites);
    if r.Ok? {
      assert InStep(a.Value(), a, runner, suites, members, {}, {});
    }
  }

  /** The main run to its end, and every red to its verdict. */
  method RunOut(a: Attributor, runner: Runner, ops: Ops, suites: seq<Suite>, members: seq<Member>)
    returns (r: Result<Settled>, ghost greens: set<Suite>)
    requires Underway(a, runner, suites, members, {}, {})
    modifies a, runner`verdicts, runner`ended, runner`inFlight, runner`heard, runner`loads, runner`patience,
        runner`clock
    ensures r.Ok? ==> WasJudged(r.value, a.Value(), members, suites, greens)
    ensures r.Ok? ==> r.value.mainEndAt <= r.value.settledAt == runner.clock
    ensures r.Ok? ==> Borne(a.Value(), greens, runner.Current())
    ensures forall id :: id in runner.inFlight ==> id in old(runner.inFlight) || id <= 1 + 3 * Cap(suites, |members|)
  {
    var seen: set<Suite>, greenSuites: set<Suite> := {}, {};
    greens := {};
    ghost var cap := Cap(suites, |members|);
    while true
      invariant Underway(a, runner, suites, members, seen, greenSuites)
      invariant forall id :: id in runner.inFlight ==> id in old(runner.inFlight) || id <= 1 + 3 * cap
      decreases runner.patience, if a.mainEndAt.None? then 1 else 0, 4 * cap - Worked(a)
    {
      var ended;
      ended, seen, greenSuites := Turn(a, runner, ops, suites, members, seen, greenSuites);
      greens := greenSuites;
      if ended.Err? {
        return Err(ended.error), greens;
      }
      if ended.value.Some? {
        return Ok(ended.value.value), greens;
      }
      runner.Wait();
      assert InStep(a.Value(), a, runner, suites, members, seen, greenSuites);
    }
  }

  /** One main run with concurrent attribution, to the point where every red is settled. */
  method Drive(runner: Runner, ops: Ops, kind: MainKind, suites: seq<Suite>, members: seq<Member>, budget: Budget)
    returns (r: Result<Settled>, ghost v: State, ghost greens: set<Suite>)
    requires Distinct(members) && budget.slots >= 1
    modifies runner
    ensures r.Ok? ==> PassJudged(r.value, v, members, suites, greens)
    ensures r.Ok? ==> r.value.mainEndAt <= r.value.settledAt == runner.clock
    ensures r.Ok? ==> Witnessed(v, greens, kind, members, suites, runner.Current())
    ensures r.Ok? ==> runner.sessions == old(runner.Shown()) && runner.members == members
    ensures runner.base == old(runner.base)
    ensures forall id :: id in runner.inFlight ==> id in old(runner.inFlight) || id <= 1 + 3 * Cap(suites, |members|)
  {
    var begun, a := Begin(runner, kind, suites, members, budget);
    v, greens := a.Value(), {};
    if begun.Err? {
      return Err(begun.error), v, greens;
    }
    r, greens := RunOut(a, runner, ops, suites, members);
    v := a.Value();
  }
}
