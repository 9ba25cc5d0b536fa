// A flip is deleted only when proved (batcher/src/drive.rs, remove_flips): every flaky suite
// green alone twice on the round tree, alone on the base, and alone on every member that
// touches it together with exactly what that member is stacked on.

module Flips {
  import opened Prelude
  import opened Reach
  import opened AttributionSpec
  import opened Members
  import opened Environment

  const FLIP_JOB_BASE: nat := RERUN_ID_BASE

  /** `suite` once more on the round tree with every member present, to the end. */
  method RerunWithMembers(runner: Runner, suite: Suite, n: nat) returns (r: Option<JobResult>)
    modifies runner`inFlight, runner`heard, runner`loads, runner`patience, runner`clock
    ensures r.Some? ==> !r.value.Fault? && Answer(Job(RERUN_ID_BASE + n, suite, [], Plain), r.value) in runner.heard
    ensures forall id :: id in runner.inFlight ==> id in old(runner.inFlight)
    ensures forall x :: x in old(runner.heard) ==> x in runner.heard
  {
    var job := Job(RERUN_ID_BASE + n, suite, [], Plain);
    var launched := runner.Launch(job);
    if launched.Err? {
      return None;
    }
    while true
      invariant job.id in runner.inFlight && runner.inFlight[job.id] == job
      invariant forall id :: id in runner.inFlight ==> id in old(runner.inFlight) || id == job.id
      invariant forall x :: x in old(runner.heard) ==> x in runner.heard
      decreases runner.patience
    {
      ghost var before := runner.inFlight;
      var out := runner.PollJobs();
      for i := 0 to |out|
        invariant forall k :: 0 <= k < i ==> out[k].0 != job.id
      {
        if out[i].0 == job.id {
          assert AnswersTo(before, out)[i] in AnswersTo(before, out);
          assert job.id in IdsAnswered(out);
          return if out[i].1.Fault? then None else Some(out[i].1);
        }
      }
      assert job.id !in IdsAnswered(out);
      runner.Wait();
    }
  }

  // ----- the proof obligations -------------------------------------------------------------

  /** Edges from each member to what it is stacked on. */
  ghost function Below(members: seq<Member>): (e: Edges) {
    set x | x in RoundEdges(members) :: (x.1, x.0)
  }

  /** A member's tree: itself and everything in the round it is stacked on, however far down. */
  ghost function Foundation(members: seq<Member>, x: Id): (r: set<Id>) {
    Carried(Below(members), {x})
  }

  lemma BelowEdge(members: seq<Member>, m: Member, p: Id)
    requires m in members && p in m.stack && p in MemberIds(members)
    ensures (m.id, p) in Below(members)
  {
    assert p in Elems(MemberIds(members));
    assert (p, m.id) in RoundEdges(members);
  }

  /** Grows a member by its prerequisites, one at a time. */
  method KeepFor(members: seq<Member>, x: Id) returns (keep: set<Id>)
    ensures keep == Foundation(members, x)
  {
    var ids := MemberIds(members);
    CarriedHoldsSeeds(Below(members), {x});
    keep := {x};
    while exists m, p :: m in members && m.id in keep && p in m.stack && p in ids && p !in keep
      invariant {x} <= keep <= Foundation(members, x)
      decreases Foundation(members, x) - keep
    {
      var m, p :| m in members && m.id in keep && p in m.stack && p in ids && p !in keep;
      BelowEdge(members, m, p);
      CarriedStep(Below(members), {x}, m.id, p);
      keep := keep + {p};
    }
    forall m, p | (m, p) in Below(members) && m in keep ensures p in keep {
      assert (p, m) in RoundEdges(members);
      var k :| k in members && k.id == m && p in k.stack && p in Elems(ids);
    }
    FixpointIsCarried(Below(members), {x}, keep);
  }

  /** What one flaky suite must be shown green on: purpose and the members left out. */
  datatype Trial = Trial(suite: Suite, removal: seq<Id>, purpose: Purpose)

  /** Everyone but a member and what it is stacked on. */
  ghost function AllBut(members: seq<Member>, x: Id): (r: seq<Id>) {
    var ids := MemberIds(members);
    Within(ids, Elems(ids) - Foundation(members, x))
  }

  ghost function TrialsOf(members: seq<Member>, n: Named): (r: seq<Trial>) {
    [Trial(n.0, [], Plain), Trial(n.0, [], Plain), Trial(n.0, MemberIds(members), Base)]
    + seq(|n.1|, i requires 0 <= i < |n.1| => Trial(n.0, AllBut(members, n.1[i]), Without(n.1[i])))
  }

  ghost function Trials(members: seq<Member>, named: seq<Named>): (r: seq<Trial>) {
    if named == [] then []
    else Trials(members, named[..|named| - 1]) + TrialsOf(members, named[|named| - 1])
  }

  /** One job per trial, numbered from the flip base. */
  ghost predicate JobsFor(queue: seq<Job>, trials: seq<Trial>) {
    && |queue| == |trials|
    && forall i :: 0 <= i < |queue| ==>
         queue[i] == Job(FLIP_JOB_BASE + i, trials[i].suite, trials[i].removal, trials[i].purpose)
  }

  lemma TrialsMore(members: seq<Member>, named: seq<Named>, n: Named)
    ensures Trials(members, named + [n]) == Trials(members, named) + TrialsOf(members, n)
  {
    assert (named + [n])[..|named|] == named;
  }

  lemma TrialMore(members: seq<Member>, suite: Suite, xs: seq<Id>, k: nat)
    requires k < |xs|
    ensures TrialsOf(members, (suite, xs[..k + 1])) ==
            TrialsOf(members, (suite, xs[..k])) + [Trial(suite, AllBut(members, xs[k]), Without(xs[k]))]
  {
  }

  /** Queues one suite's trials: twice alone, on the base, and once per touching member. */
  method QueueSuite(ops: Ops, suite: Suite, members: seq<Member>, queue0: seq<Job>, ghost trials0: seq<Trial>)
    returns (queue: seq<Job>, ghost n: Named)
    requires JobsFor(queue0, trials0)
    modifies ops`asked
    ensures n.0 == suite && (forall x :: x in n.1 ==> x in MemberIds(members))
    ensures JobsFor(queue, trials0 + TrialsOf(members, n))
    ensures ops.asked == old(ops.asked) + [TouchingNamed(n)]
  {
    var ids := MemberIds(members);
    var next := FLIP_JOB_BASE + |queue0|;
    queue := queue0 + [Job(next, suite, [], Plain), Job(next + 1, suite, [], Plain), Job(next + 2, suite, ids, Base)];
    var xs := ops.Touching(suite, ids);
    n := (suite, xs);
    for k := 0 to |xs|
      invariant JobsFor(queue, trials0 + TrialsOf(members, (suite, xs[..k])))
      invariant ops.asked == old(ops.asked) + [TouchingNamed(n)]
    {
      var keep := KeepFor(members, xs[k]);
      TrialMore(members, suite, xs, k);
      queue := queue + [Job(FLIP_JOB_BASE + |queue|, suite, Within(ids, Elems(ids) - keep), Without(xs[k]))];
    }
    assert xs[..|xs|] == xs;
  }

  method QueueTrials(ops: Ops, flaky: seq<Suite>, members: seq<Member>)
    returns (queue: seq<Job>, ghost named: seq<Named>)
    modifies ops`asked
    ensures NamesFor(named, flaky) && JobsFor(queue, Trials(members, named))
    ensures forall n :: n in named ==> forall x :: x in n.1 ==> x in MemberIds(members)
    ensures ops.asked == old(ops.asked) + NamingAsks(named)
  {
    queue, named := [], [];
    for i := 0 to |flaky|
      invariant NamesFor(named, flaky[..i]) && JobsFor(queue, Trials(members, named))
      invariant forall n :: n in named ==> forall x :: x in n.1 ==> x in MemberIds(members)
      invariant ops.asked == old(ops.asked) + NamingAsks(named)
    {
      ghost var n;
      queue, n := QueueSuite(ops, flaky[i], members, queue, Trials(members, named));
      TrialsMore(members, named, n);
      TakeOneMore(flaky, i);
      assert NamingAsks(named + [n]) == NamingAsks(named) + [TouchingNamed(n)];
      named := named + [n];
    }
    assert flaky[..|flaky|] == flaky;
  }

  // ----- running the proof -----------------------------------------------------------------

  /** The flip jobs now in flight. */
  ghost function Flying(runner: Runner): (r: set<nat>)
    reads runner
  {
    OwnJobs(runner.inFlight)
  }

  /** Where the proof stands: the jobs before `popped` have been launched and answered green, or
      are in flight, or their suite is no longer to be deleted. */
  ghost predicate Proving(runner: Runner, jobs: seq<Job>, popped: nat, unproven: set<Suite>)
    reads runner
  {
    && popped <= |jobs|
    && (forall i :: 0 <= i < |jobs| ==> jobs[i].id == FLIP_JOB_BASE + i)
    && (forall id :: id in Flying(runner) ==>
          id - FLIP_JOB_BASE < popped && runner.inFlight[id] == jobs[id - FLIP_JOB_BASE])
    && (forall i :: 0 <= i < popped ==>
          jobs[i].suite in unproven || jobs[i].id in Flying(runner) || Answer(jobs[i], Green) in runner.heard)
  }

  ghost predicate NotGreen(job: Job, heard: seq<Answer>) {
    exists r: JobResult :: !r.Green? && Answer(job, r) in heard
  }

  /** One of the suite's proofs did not come back green. */
  ghost predicate Disproved(jobs: seq<Job>, suite: Suite, heard: seq<Answer>) {
    exists i :: 0 <= i < |jobs| && jobs[i].suite == suite && NotGreen(jobs[i], heard)
  }

  ghost predicate AllDisproved(jobs: seq<Job>, unproven: set<Suite>, heard: seq<Answer>) {
    forall suite :: suite in unproven ==> Disproved(jobs, suite, heard)
  }

  lemma DisprovedStays(jobs: seq<Job>, unproven: set<Suite>, heard: seq<Answer>, later: seq<Answer>)
    requires AllDisproved(jobs, unproven, heard) && forall x :: x in heard ==> x in later
    ensures AllDisproved(jobs, unproven, later)
  {
    forall suite | suite in unproven ensures Disproved(jobs, suite, later) {
      var i :| 0 <= i < |jobs| && jobs[i].suite == suite && NotGreen(jobs[i], heard);
      var r: JobResult :| !r.Green? && Answer(jobs[i], r) in heard;
      assert NotGreen(jobs[i], later);
    }
  }

  /** Launches the next proof; one that will not launch disproves its suite. */
  method LaunchProof(runner: Runner, jobs: seq<Job>, i: nat, running0: nat, unproven0: set<Suite>)
    returns (running: nat, unproven: set<Suite>)
    requires i < |jobs| && Proving(runner, jobs, i, unproven0) && AllDisproved(jobs, unproven0, runner.heard)
    requires running0 == |Flying(runner)|
    modifies runner`inFlight, runner`heard, runner`loads
    ensures Proving(runner, jobs, i + 1, unproven) && AllDisproved(jobs, unproven, runner.heard)
    ensures running0 <= running == |Flying(runner)| <= running0 + 1 && unproven0 <= unproven
    ensures runner.loads == old(runner.loads) || runner.loads == old(runner.loads) + [running]
    ensures forall x :: x in old(runner.heard) ==> x in runner.heard
  {
    running, unproven := running0, unproven0;
    ghost var flying, heard := Flying(runner), runner.heard;
    var launched := runner.Launch(jobs[i]);
    DisprovedStays(jobs, unproven, heard, runner.heard);
    if launched.Ok? {
      assert Flying(runner) == flying + {jobs[i].id};
      running := running + 1;
    } else {
      assert Flying(runner) == flying;
      assert Answer(jobs[i], Fault) in runner.heard;
      assert NotGreen(jobs[i], runner.heard);
      unproven := unproven + {jobs[i].suite};
    }
  }

  /** Launches into free slots, skipping suites already found unproven. */
  method FillSlots(runner: Runner, jobs: seq<Job>, popped0: nat, running0: nat, unproven0: set<Suite>, slots: nat)
    returns (popped: nat, running: nat, unproven: set<Suite>)
    requires Proving(runner, jobs, popped0, unproven0) && running0 == |Flying(runner)| <= slots
    requires AllDisproved(jobs, unproven0, runner.heard)
    modifies runner`inFlight, runner`heard, runner`loads
    ensures Proving(runner, jobs, popped, unproven) && running == |Flying(runner)| <= slots
    ensures AllDisproved(jobs, unproven, runner.heard)
    ensures popped0 <= popped && (popped == popped0 && popped < |jobs| ==> running0 == slots && running == running0)
    ensures popped == popped0 ==> running == running0
    ensures old(runner.loads) <= runner.loads && LoadsWithin(runner.loads, |old(runner.loads)|, slots)
    ensures unproven0 <= unproven
    ensures forall x :: x in old(runner.heard) ==> x in runner.heard
  {
    popped, running, unproven := popped0, running0, unproven0;
    while running < slots
      invariant Proving(runner, jobs, popped, unproven) && running == |Flying(runner)| <= slots
      invariant AllDisproved(jobs, unproven, runner.heard)
      invariant popped0 <= popped && unproven0 <= unproven
      invariant popped == popped0 ==> running == running0
      invariant old(runner.loads) <= runner.loads && LoadsWithin(runner.loads, |old(runner.loads)|, slots)
      invariant forall x :: x in old(runner.heard) ==> x in runner.heard
      decreases |jobs| - popped
    {
      if popped == |jobs| {
        break;
      }
      popped := popped + 1;
      if jobs[popped - 1].suite in unproven {
        continue;
      }
      running, unproven := LaunchProof(runner, jobs, popped - 1, running, unproven);
    }
  }

  /** The suites found unproven by the answers so far. */
  ghost predicate Noted(jobs: seq<Job>, flying: set<nat>, out: seq<(nat, JobResult)>, unproven: set<Suite>) {
    forall p :: p in out && p.0 in flying && FLIP_JOB_BASE <= p.0 < FLIP_JOB_BASE + |jobs| && !p.1.Green? ==>
      jobs[p.0 - FLIP_JOB_BASE].suite in unproven
  }

  lemma NotedAnswer(jobs: seq<Job>, i: nat, before: map<nat, Job>, flying: set<nat>, out: seq<(nat, JobResult)>,
                    unproven: set<Suite>)
    requires i < |jobs| && jobs[i].id == FLIP_JOB_BASE + i
    requires jobs[i].id in before && before[jobs[i].id] == jobs[i] && jobs[i].id in flying
    requires forall p :: p in out ==> p.0 in before
    requires Noted(jobs, flying, out, unproven) && jobs[i].id in IdsAnswered(out)
    ensures jobs[i].suite in unproven || Answer(jobs[i], Green) in AnswersTo(before, out)
  {
    var p :| p in out && p.0 == jobs[i].id;
    var k :| 0 <= k < |out| && out[k] == p;
    assert AnswersTo(before, out)[k] == Answer(jobs[i], p.1);
  }

  lemma TallyOne(flying: set<nat>, out: seq<(nat, JobResult)>, i: nat)
    requires forall i, j :: 0 <= i < j < |out| ==> out[i].0 != out[j].0
    requires i < |out|
    ensures |flying - IdsAnswered(out[..i + 1])| ==
            |flying - IdsAnswered(out[..i])| - (if out[i].0 in flying then 1 else 0)
  {
    TakeOneMore(out, i);
    IdsAnsweredSnoc(out[..i], out[i].0, out[i].1);
    var left := flying - IdsAnswered(out[..i]);
    assert flying - IdsAnswered(out[..i + 1]) == left - {out[i].0};
    if out[i].0 in IdsAnswered(out[..i]) {
      assert false;
    }
  }

  lemma NotedOne(jobs: seq<Job>, flying: set<nat>, out: seq<(nat, JobResult)>, i: nat, unproven: set<Suite>,
                 more: set<Suite>)
    requires i < |out| && unproven <= more && Noted(jobs, flying, out[..i], unproven)
    requires FLIP_JOB_BASE <= out[i].0 < FLIP_JOB_BASE + |jobs| && !out[i].1.Green? ==>
               jobs[out[i].0 - FLIP_JOB_BASE].suite in more
    ensures Noted(jobs, flying, out[..i + 1], more)
  {
    TakeOneMore(out, i);
  }

  ghost predicate AnsweredRed(jobs: seq<Job>, out: seq<(nat, JobResult)>, suite: Suite) {
    exists k :: 0 <= k < |out| && FLIP_JOB_BASE <= out[k].0 < FLIP_JOB_BASE + |jobs|
      && jobs[out[k].0 - FLIP_JOB_BASE].suite == suite && !out[k].1.Green?
  }

  lemma RedDisproves(jobs: seq<Job>, before: map<nat, Job>, out: seq<(nat, JobResult)>, suite: Suite,
                     heard: seq<Answer>)
    requires forall p :: p in out ==> p.0 in before
    requires forall id :: id in before && FLIP_JOB_BASE <= id < FLIP_JOB_BASE + |jobs| ==>
              before[id] == jobs[id - FLIP_JOB_BASE]
    requires AnsweredRed(jobs, out, suite) && forall x :: x in AnswersTo(before, out) ==> x in heard
    ensures Disproved(jobs, suite, heard)
  {
    var k :| 0 <= k < |out| && FLIP_JOB_BASE <= out[k].0 < FLIP_JOB_BASE + |jobs|
             && jobs[out[k].0 - FLIP_JOB_BASE].suite == suite && !out[k].1.Green?;
    assert out[k] in out;
    assert AnswersTo(before, out)[k] == Answer(jobs[out[k].0 - FLIP_JOB_BASE], out[k].1);
    assert AnswersTo(before, out)[k] in heard;
    assert NotGreen(jobs[out[k].0 - FLIP_JOB_BASE], heard);
  }

  /** What one answer makes of the tally. */
  method TallyAnswer(jobs: seq<Job>, out: seq<(nat, JobResult)>, i: nat, running0: nat, unproven0: set<Suite>,
                     ghost flying: set<nat>)
    returns (running: nat, unproven: set<Suite>)
    requires i < |out| && (forall i, j :: 0 <= i < j < |out| ==> out[i].0 != out[j].0)
    requires forall id :: id in flying ==> FLIP_JOB_BASE <= id < FLIP_JOB_BASE + |jobs|
    requires out[i].0 >= FLIP_JOB_BASE ==> out[i].0 in flying
    requires running0 == |flying - IdsAnswered(out[..i])| && Noted(jobs, flying, out[..i], unproven0)
    ensures running == |flying - IdsAnswered(out[..i + 1])| <= running0
    ensures Noted(jobs, flying, out[..i + 1], unproven)
    ensures unproven == unproven0 || exists suite :: AnsweredRed(jobs, out, suite) && unproven == unproven0 + {suite}
  {
    running, unproven := running0, unproven0;
    TallyOne(flying, out, i);
    if FLIP_JOB_BASE <= out[i].0 < FLIP_JOB_BASE + |jobs| {
      running := Minus(running, 1);
      if !out[i].1.Green? {
        var suite := jobs[out[i].0 - FLIP_JOB_BASE].suite;
        assert AnsweredRed(jobs, out, suite);
        unproven := unproven + {suite};
      }
    }
    NotedOne(jobs, flying, out, i, unproven0, unproven);
  }

  /** Counts down the flip jobs answered and notes the suites not answered green. */
  method TallyAnswers(jobs: seq<Job>, out: seq<(nat, JobResult)>, running0: nat, unproven0: set<Suite>,
                      ghost flying: set<nat>)
    returns (running: nat, unproven: set<Suite>)
    requires forall i, j :: 0 <= i < j < |out| ==> out[i].0 != out[j].0
    requires running0 == |flying| && forall id :: id in flying ==> FLIP_JOB_BASE <= id < FLIP_JOB_BASE + |jobs|
    requires forall p :: p in out && p.0 >= FLIP_JOB_BASE ==> p.0 in flying
    ensures running == |flying - IdsAnswered(out)| <= running0
    ensures unproven0 <= unproven && Noted(jobs, flying, out, unproven)
    ensures forall suite :: suite in unproven ==> suite in unproven0 || AnsweredRed(jobs, out, suite)
  {
    running, unproven := running0, unproven0;
    assert flying - IdsAnswered([]) == flying;
    for i := 0 to |out|
      invariant running == |flying - IdsAnswered(out[..i])| <= running0
      invariant unproven0 <= unproven && Noted(jobs, flying, out[..i], unproven)
      invariant forall suite :: suite in unproven ==> suite in unproven0 || AnsweredRed(jobs, out, suite)
    {
      assert out[i] in out;
      running, unproven := TallyAnswer(jobs, out, i, running, unproven, flying);
    }
    assert out[..|out|] == out;
  }

  /** Of the proofs launched, each is still in flight, or green, or its suite is unproven. */
  lemma ProofsHeard(jobs: seq<Job>, popped: nat, before: map<nat, Job>, flying: set<nat>, out: seq<(nat, JobResult)>,
                    heard: seq<Answer>, later: seq<Answer>, unproven0: set<Suite>, unproven: set<Suite>)
    requires popped <= |jobs| && forall i :: 0 <= i < |jobs| ==> jobs[i].id == FLIP_JOB_BASE + i
    requires forall id :: id in flying ==>
               id in before && FLIP_JOB_BASE <= id && id - FLIP_JOB_BASE < popped
                   && before[id] == jobs[id - FLIP_JOB_BASE]
    requires forall i :: 0 <= i < popped ==>
               jobs[i].suite in unproven0 || jobs[i].id in flying || Answer(jobs[i], Green) in heard
    requires forall p :: p in out ==> p.0 in before
    requires later == heard + AnswersTo(before, out) && unproven0 <= unproven && Noted(jobs, flying, out, unproven)
    ensures forall i :: 0 <= i < popped ==>
              jobs[i].suite in unproven || jobs[i].id in flying - IdsAnswered(out) || Answer(jobs[i], Green) in later
  {
    forall i | 0 <= i < popped
      ensures jobs[i].suite in unproven || jobs[i].id in flying - IdsAnswered(out) || Answer(jobs[i], Green) in later
    {
      if Answer(jobs[i], Green) !in heard && jobs[i].id in flying && jobs[i].id in IdsAnswered(out) {
        NotedAnswer(jobs, i, before, flying, out, unproven);
      }
    }
  }

  /** Takes the answers that are in: anything but green leaves the suite unproven. */
  method TakeProofs(runner: Runner, jobs: seq<Job>, popped: nat, running0: nat, unproven0: set<Suite>)
    returns (running: nat, unproven: set<Suite>)
    requires Proving(runner, jobs, popped, unproven0) && running0 == |Flying(runner)|
    requires AllDisproved(jobs, unproven0, runner.heard)
    modifies runner`inFlight, runner`heard
    ensures AllDisproved(jobs, unproven, runner.heard)
    ensures Proving(runner, jobs, popped, unproven) && running == |Flying(runner)| <= running0
    ensures runner.patience == 0 ==> running == 0
    ensures unproven0 <= unproven
    ensures forall x :: x in old(runner.heard) ==> x in runner.heard
  {
    ghost var before, flying, heard := runner.inFlight, Flying(runner), runner.heard;
    var out := runner.PollJobs();
    running, unproven := TallyAnswers(jobs, out, running0, unproven0, flying);
    assert Flying(runner) == flying - IdsAnswered(out);
    DisprovedStays(jobs, unproven0, heard, runner.heard);
    forall suite | suite in unproven ensures Disproved(jobs, suite, runner.heard) {
      if suite !in unproven0 {
        RedDisproves(jobs, before, out, suite, runner.heard);
      }
    }
    ProofsHeard(jobs, popped, before, flying, out, heard, runner.heard, unproven0, unproven);
  }

  // ----- what a proof comes to -------------------------------------------------------------

  ghost predicate WasGreen(heard: seq<Answer>, id: nat, suite: Suite, removal: seq<Id>, p: Purpose) {
    Answer(Job(id, suite, removal, p), Green) in heard
  }

  ghost predicate RanGreen(heard: seq<Answer>, suite: Suite, removal: seq<Id>, p: Purpose) {
    exists id :: id >= FLIP_JOB_BASE && WasGreen(heard, id, suite, removal, p)
  }

  ghost predicate TwiceGreen(heard: seq<Answer>, suite: Suite) {
    exists a, b ::
      FLIP_JOB_BASE <= a < b && WasGreen(heard, a, suite, [], Plain) && WasGreen(heard, b, suite, [], Plain)
  }

  /** A suite proved to flip, by runs of the proof's own: two separate runs of it on the round
      tree were green, one on the base, and one on each touching member with exactly what that
      member is stacked on. */
  ghost predicate FlipProven(members: seq<Member>, n: Named, heard: seq<Answer>) {
    && TwiceGreen(heard, n.0)
    && RanGreen(heard, n.0, MemberIds(members), Base)
    && forall x :: x in n.1 ==> RanGreen(heard, n.0, AllBut(members, x), Without(x))
  }

  /** Every suite asked about, with the members named as touching it, was proved to flip. */
  ghost predicate FlipsProven(members: seq<Member>, named: seq<Named>, heard: seq<Answer>) {
    forall n :: n in named ==> FlipProven(members, n, heard)
  }

  /** Each of these suites has a proof that was answered red or faulted, or did not launch. */
  ghost predicate NoFlips(members: seq<Member>, named: seq<Named>, unproven: seq<Suite>, heard: seq<Answer>) {
    exists jobs ::
      JobsFor(jobs, Trials(members, named)) && AllDisproved(jobs, Elems(unproven), heard)
  }

  ghost predicate AllGreen(jobs: seq<Job>, from: nat, heard: seq<Answer>) {
    forall i :: from <= i < |jobs| ==> Answer(jobs[i], Green) in heard
  }

  lemma OneProven(members: seq<Member>, n: Named, jobs: seq<Job>, before: seq<Trial>, heard: seq<Answer>)
    requires JobsFor(jobs, before + TrialsOf(members, n)) && AllGreen(jobs, |before|, heard)
    ensures FlipProven(members, n, heard)
  {
    var k, all := |before|, before + TrialsOf(members, n);
    assert all[k] == Trial(n.0, [], Plain) && all[k + 1] == Trial(n.0, [], Plain);
    assert jobs[k] == Job(FLIP_JOB_BASE + k, n.0, [], Plain);
    assert jobs[k + 1] == Job(FLIP_JOB_BASE + k + 1, n.0, [], Plain);
    assert WasGreen(heard, FLIP_JOB_BASE + k, n.0, [], Plain) && WasGreen(heard, FLIP_JOB_BASE + k + 1, n.0, [], Plain);
    assert all[k + 2] == Trial(n.0, MemberIds(members), Base);
    assert WasGreen(heard, jobs[k + 2].id, n.0, MemberIds(members), Base);
    forall x | x in n.1 ensures RanGreen(heard, n.0, AllBut(members, x), Without(x)) {
      var i :| 0 <= i < |n.1| && n.1[i] == x;
      assert all[k + 3 + i] == Trial(n.0, AllBut(members, x), Without(x));
      assert WasGreen(heard, jobs[k + 3 + i].id, n.0, AllBut(members, x), Without(x));
    }
  }

  lemma {:induction false} AllProven(members: seq<Member>, named: seq<Named>, jobs: seq<Job>, heard: seq<Answer>)
    requires JobsFor(jobs, Trials(members, named)) && AllGreen(jobs, 0, heard)
    ensures FlipsProven(members, named, heard)
  {
    if named != [] {
      var shorter, last := named[..|named| - 1], named[|named| - 1];
      var before := Trials(members, shorter);
      AllProven(members, shorter, jobs[..|before|], heard);
      OneProven(members, last, jobs, before, heard);
      assert named == shorter + [last];
    }
  }

  /** In flight after each launch since: never more than `slots`. */
  ghost predicate LoadsWithin(loads: seq<nat>, since: nat, slots: nat) {
    forall i :: since <= i < |loads| ==> loads[i] <= slots
  }

  /** Launches and hears every proof, never more than `slots` at a time. */
  method Prove(runner: Runner, jobs: seq<Job>, slots: nat) returns (unproven: set<Suite>)
    requires slots >= 1 && Proving(runner, jobs, 0, {}) && Flying(runner) == {}
    modifies runner`inFlight, runner`heard, runner`loads, runner`patience, runner`clock
    ensures AllDisproved(jobs, unproven, runner.heard)
    ensures old(runner.loads) <= runner.loads && LoadsWithin(runner.loads, |old(runner.loads)|, slots)
    ensures forall x :: x in old(runner.heard) ==> x in runner.heard
    ensures forall i :: 0 <= i < |jobs| ==> jobs[i].suite in unproven || Answer(jobs[i], Green) in runner.heard
  {
    var popped, running := 0, 0;
    unproven := {};
    while popped < |jobs| || running > 0
      invariant Proving(runner, jobs, popped, unproven) && running == |Flying(runner)| <= slots
      invariant AllDisproved(jobs, unproven, runner.heard)
      invariant old(runner.loads) <= runner.loads && LoadsWithin(runner.loads, |old(runner.loads)|, slots)
      invariant forall x :: x in old(runner.heard) ==> x in runner.heard
      decreases |jobs| - popped, runner.patience, running
    {
      popped, running, unproven := FillSlots(runner, jobs, popped, running, unproven, slots);
      running, unproven := TakeProofs(runner, jobs, popped, running, unproven);
      if running > 0 {
        runner.Wait();
      }
    }
    assert Flying(runner) == {};
  }

  /** Proves every flaky suite a flip and deletes them, or says which are not and blocks the
      round. No more than the round's slots are ever taken by the proof. */
  method RemoveFlips(runner: Runner, ops: Ops, flaky: seq<Suite>, members: seq<Member>, budget: Budget)
    returns (r: Result<()>, ghost named: seq<Named>, ghost unproven: seq<Suite>)
    requires budget.slots >= 1
    requires forall id :: id in runner.inFlight ==> id < FLIP_JOB_BASE
    modifies runner`inFlight, runner`heard, runner`loads, runner`patience, runner`clock, ops`deletions, ops`asked
    ensures NamesFor(named, flaky)
    ensures unproven == [] ==> FlipsProven(members, named, runner.heard) && ops.deletions == old(ops.deletions) + flaky
    ensures unproven != [] ==>
              NoFlips(members, named, unproven, runner.heard) && ops.deletions == old(ops.deletions) && r.Err?
    ensures ops.asked == old(ops.asked) + NamingAsks(named)
                         + (if unproven == [] then [] else [Raised("unattributed", unproven)])
    ensures old(runner.loads) <= runner.loads && LoadsWithin(runner.loads, |old(runner.loads)|, budget.slots)
    ensures forall x :: x in old(runner.heard) ==> x in runner.heard
  {
    var jobs;
    jobs, named := QueueTrials(ops, flaky, members);
    assert Flying(runner) == {};
    var reds := Prove(runner, jobs, budget.slots);
    var listed := Listed(reds);
    unproven := listed;
    ElemsNone(unproven);
    if reds != {} {
      ops.Incident("unattributed", listed);
      return Err("red that is not a flip"), named, unproven;
    }
    AllProven(members, named, jobs, runner.heard);
    r := ops.DeleteFlips(flaky);
  }
}
