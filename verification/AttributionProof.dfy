// What every state of the attributor keeps, whatever the order in which the main run's
// results, the jobs handed out and the answers to them arrive.

module AttributionProof {
  import opened Prelude
  import opened Shapes
  import opened AttributionSpec
  import opened SuiteLedger

  ghost function HistoryOf(log: seq<Answer>, suite: Suite): (h: History) {
    if log == [] then []
    else
      var a := log[|log| - 1];
      HistoryOf(log[..|log| - 1], suite) + (if a.job.suite == suite then [(a.job.purpose, a.result)] else [])
  }

  lemma HistorySnoc(log: seq<Answer>, a: Answer, suite: Suite)
    ensures HistoryOf(log + [a], suite) ==
            HistoryOf(log, suite) + (if a.job.suite == suite then [(a.job.purpose, a.result)] else [])
  {
    assert (log + [a])[..|log|] == log;
  }

  ghost function RunningJobs(s: State): (r: set<Job>) {
    set id | id in s.running :: s.running[id]
  }

  ghost function QueuedJobs(s: State): (r: set<Job>) {
    Elems(s.plainQ) + Elems(s.attrQ)
  }

  ghost function Jobs(s: State): (r: set<Job>) {
    QueuedJobs(s) + RunningJobs(s)
  }

  /** The queued and running jobs of one suite. */
  ghost function LiveOf(s: State, suite: Suite): (r: set<Job>) {
    set j | j in Jobs(s) && j.suite == suite
  }

  ghost predicate QueuesOk(s: State) {
    && NoDup(s.plainQ) && NoDup(s.attrQ)
    && (forall j :: j in s.plainQ ==> j.purpose.Plain?)
    && (forall j :: j in s.attrQ ==> !j.purpose.Plain?)
    && (forall j :: j in Jobs(s) ==> j.id < s.nextId && j.suite in s.suites)
    && (forall j, k :: j in Jobs(s) && k in Jobs(s) && j.id == k.id ==> j == k)
    && (forall id :: id in s.running ==> s.running[id].id == id)
    && (forall j :: j in QueuedJobs(s) ==> j.id !in s.running)
  }

  ghost predicate RedsOk(s: State) {
    && Elems(s.reds) == s.suites.Keys
    && NoDup(s.reds)
    && s.suites.Keys <= s.mainSeen
    && (forall a :: a in s.log ==> a.job.suite in s.suites)
  }

  ghost predicate SuiteHolds(s: State, suite: Suite)
    requires suite in s.suites
  {
    && (forall m :: m in s.suites[suite].suspects ==> m in s.shape.members)
    && SuiteOk(s.shape, suite, s.suites[suite], LiveOf(s, suite), HistoryOf(s.log, suite))
  }

  ghost predicate SuitesOk(s: State) {
    forall suite :: suite in s.suites ==> SuiteHolds(s, suite)
  }

  /** Attribution only ever runs in slots the main run is not owed. */
  ghost predicate BudgetOk(s: State) {
    |s.running| > 0 ==> |s.running| + MainInFlight(s) <= s.budget.slots
  }

  ghost predicate Inv(s: State) {
    ShapeOk(s.shape) && QueuesOk(s) && RedsOk(s) && SuitesOk(s) && BudgetOk(s)
  }

  // ----- one suite at a time ---------------------------------------------------------------

  /** Every suite but `suite` is consistent. */
  ghost predicate RestOk(s: State, suite: Suite) {
    forall other :: other in s.suites && other != suite ==> SuiteHolds(s, other)
  }

  ghost predicate Workable(s: State, suite: Suite) {
    QueuesOk(s) && suite in s.suites && RestOk(s, suite)
  }

  /** Nothing about any suite but `suite` differs between two states. */
  ghost predicate OthersAlike(s: State, t: State, suite: Suite) {
    && t.shape == s.shape
    && (forall other :: other in t.suites && other != suite ==>
          other in s.suites && t.suites[other] == s.suites[other] && LiveOf(t, other) == LiveOf(s, other)
          && HistoryOf(t.log, other) == HistoryOf(s.log, other))
  }

  lemma RestKept(s: State, t: State, suite: Suite)
    requires RestOk(s, suite) && OthersAlike(s, t, suite)
    ensures RestOk(t, suite)
  {
    forall other | other in t.suites && other != suite ensures SuiteHolds(t, other) {
      assert SuiteHolds(s, other);
    }
  }

  /** A suite whose account is in order joins the rest. */
  lemma SuiteJoins(t: State, suite: Suite, shape: Shape, st: SuiteState, live: set<Job>, h: History)
    requires RestOk(t, suite) && suite in t.suites
    requires shape == t.shape && st == t.suites[suite] && live == LiveOf(t, suite) && h == HistoryOf(t.log, suite)
    requires forall m :: m in st.suspects ==> m in shape.members
    requires SuiteOk(shape, suite, st, live, h)
    ensures SuitesOk(t)
  {
    assert SuiteHolds(t, suite);
  }

  lemma EnqueueJobs(s: State, suite: Suite, removal: seq<Id>, purpose: Purpose, front: bool)
    ensures
      var t := Enqueue(s, suite, removal, purpose, front);
      Jobs(t) == Jobs(s) + {Job(s.nextId, suite, removal, purpose)}
  {
    var t := Enqueue(s, suite, removal, purpose, front);
    var job := Job(s.nextId, suite, removal, purpose);
    assert Elems(Push(s.plainQ, job, front)) == Elems(s.plainQ) + {job};
    assert Elems(Push(s.attrQ, job, front)) == Elems(s.attrQ) + {job};
    assert RunningJobs(t) == RunningJobs(s);
  }

  lemma PushFacts(q: seq<Job>, job: Job, front: bool)
    requires NoDup(q) && job !in q
    ensures NoDup(Push(q, job, front)) && Elems(Push(q, job, front)) == Elems(q) + {job}
  {
    NoDupAppend(q, [job]);
    NoDupAppend([job], q);
  }

  lemma EnqueueQueues(s: State, suite: Suite, removal: seq<Id>, purpose: Purpose, front: bool)
    requires QueuesOk(s) && suite in s.suites
    ensures QueuesOk(Enqueue(s, suite, removal, purpose, front))
    ensures Job(s.nextId, suite, removal, purpose) !in Jobs(s)
  {
    var t := Enqueue(s, suite, removal, purpose, front);
    var job := Job(s.nextId, suite, removal, purpose);
    assert job !in Jobs(s);
    PushFacts(if purpose.Plain? then s.plainQ else s.attrQ, job, front);
    EnqueueJobs(s, suite, removal, purpose, front);
    forall id | id in s.running ensures id < s.nextId {
      assert s.running[id] in Jobs(s);
    }
  }

  lemma EnqueueOthers(s: State, suite: Suite, removal: seq<Id>, purpose: Purpose, front: bool)
    requires QueuesOk(s) && suite in s.suites
    ensures OthersAlike(s, Enqueue(s, suite, removal, purpose, front), suite)
  {
    EnqueueJobs(s, suite, removal, purpose, front);
  }

  lemma EnqueueEffect(s: State, suite: Suite, removal: seq<Id>, purpose: Purpose, front: bool)
    requires Workable(s, suite)
    ensures
      var t := Enqueue(s, suite, removal, purpose, front);
      var job := Job(s.nextId, suite, removal, purpose);
      && Workable(t, suite) && job !in Jobs(s) && LiveOf(t, suite) == LiveOf(s, suite) + {job}
  {
    var t := Enqueue(s, suite, removal, purpose, front);
    EnqueueQueues(s, suite, removal, purpose, front);
    EnqueueJobs(s, suite, removal, purpose, front);
    EnqueueOthers(s, suite, removal, purpose, front);
    RestKept(s, t, suite);
  }

  lemma {:induction false} WithoutSuiteFacts(q: seq<Job>, suite: Suite)
    ensures forall j :: j in WithoutSuite(q, suite) <==> j in q && j.suite != suite
    ensures NoDup(q) ==> NoDup(WithoutSuite(q, suite))
  {
    if q != [] {
      WithoutSuiteFacts(q[1..], suite);
      assert q == [q[0]] + q[1..];
      if NoDup(q) {
        assert NoDup(q[1..]) by {
          forall i, j | 0 <= i < j < |q[1..]| ensures q[1..][i] != q[1..][j] {
            assert q[i + 1] != q[j + 1];
          }
        }
        forall j | j in q[1..] ensures j != q[0] {
          var i :| 0 <= i < |q[1..]| && q[1..][i] == j;
          assert q[i + 1] != q[0];
        }
      }
    }
  }

  lemma CancelJobs(s: State, suite: Suite)
    requires QueuesOk(s)
    ensures
      var t := CancelQueued(s, suite);
      && RunningJobs(t) == RunningJobs(s)
      && forall j :: j in Jobs(t) <==> j in Jobs(s) && (j.suite != suite || j in RunningJobs(s))
  {
    var t := CancelQueued(s, suite);
    WithoutSuiteFacts(s.plainQ, suite);
    WithoutSuiteFacts(s.attrQ, suite);
    assert RunningJobs(t) == RunningJobs(s);
    forall j | j in RunningJobs(s) ensures j !in QueuedJobs(s) {
      assert j.id in s.running;
    }
  }

  lemma CancelIds(s: State, suite: Suite)
    requires QueuesOk(s)
    ensures Ids(LiveOf(s, suite)) - (IdsOf(s.attrQ, suite) + IdsOf(s.plainQ, suite)) ==
            Ids(LiveOf(s, suite) * RunningJobs(s))
  {
    var live := LiveOf(s, suite);
    var dropped := IdsOf(s.attrQ, suite) + IdsOf(s.plainQ, suite);
    forall id | id in Ids(live) - dropped ensures id in Ids(live * RunningJobs(s)) {
      var j :| j in live && j.id == id;
      assert j in live * RunningJobs(s);
    }
    forall id | id in Ids(live * RunningJobs(s)) ensures id in Ids(live) - dropped {
      var j :| j in live * RunningJobs(s) && j.id == id;
      assert id in s.running;
      assert id !in dropped;
    }
  }

  lemma CancelQueues(s: State, suite: Suite)
    requires QueuesOk(s)
    ensures QueuesOk(CancelQueued(s, suite))
  {
    var t := CancelQueued(s, suite);
    CancelJobs(s, suite);
    WithoutSuiteFacts(s.plainQ, suite);
    WithoutSuiteFacts(s.attrQ, suite);
    assert t.suites.Keys == s.suites.Keys;
    assert Jobs(t) <= Jobs(s) && QueuedJobs(t) <= QueuedJobs(s);
  }

  lemma CancelOthers(s: State, suite: Suite)
    requires QueuesOk(s)
    ensures OthersAlike(s, CancelQueued(s, suite), suite)
    ensures LiveOf(CancelQueued(s, suite), suite) == LiveOf(s, suite) * RunningJobs(s)
  {
    CancelJobs(s, suite);
  }

  /** Cancelling leaves a suite exactly its running jobs. */
  lemma CancelEffect(s: State, suite: Suite)
    requires Workable(s, suite)
    ensures
      var t := CancelQueued(s, suite);
      && Workable(t, suite) && LiveOf(t, suite) == LiveOf(s, suite) * RunningJobs(s)
  {
    CancelQueues(s, suite);
    CancelOthers(s, suite);
    RestKept(s, CancelQueued(s, suite), suite);
  }

  /** A settled suite's account stays whole when what is still queued is cancelled. */
  lemma CancelSettled(s: State, suite: Suite, st: SuiteState, live: set<Job>, h: History)
    requires Workable(s, suite)
    requires st == s.suites[suite] && live == LiveOf(s, suite) && h == HistoryOf(s.log, suite)
    requires st.settled.Some? && forall m :: m in st.suspects ==> m in s.shape.members
    requires AccountOk(s.shape, suite, st, live, h)
    ensures QueuesOk(CancelQueued(s, suite)) && SuitesOk(CancelQueued(s, suite))
  {
    var t := CancelQueued(s, suite);
    var rest := live * RunningJobs(s);
    CancelEffect(s, suite);
    CancelIds(s, suite);
    Cancelled(s.shape, suite, st, live, h, rest);
    SuiteJoins(t, suite, s.shape, st.(outstanding := Ids(rest)), rest, h);
  }

  /** Replacing one suite's state disturbs no queue and no other suite. */
  lemma StateReplaced(t: State, suite: Suite, st: SuiteState)
    requires Workable(t, suite)
    ensures
      var u := t.(suites := t.suites[suite := st]);
      Workable(u, suite) && LiveOf(u, suite) == LiveOf(t, suite)
  {
    var u := t.(suites := t.suites[suite := st]);
    assert Jobs(u) == Jobs(t);
    RestKept(t, u, suite);
  }

  lemma SettleEffect(t: State, suite: Suite, st: SuiteState, live: set<Job>, h: History, outcome: Outcome, now: nat)
    requires Workable(t, suite)
    requires st == SettledAs(t.suites[suite], outcome, now) && live == LiveOf(t, suite) && h == HistoryOf(t.log, suite)
    requires forall m :: m in st.suspects ==> m in t.shape.members
    requires AccountOk(t.shape, suite, st, live, h)
    ensures QueuesOk(Settle(t, suite, outcome, now)) && SuitesOk(Settle(t, suite, outcome, now))
  {
    if t.suites[suite].settled.None? {
      StateReplaced(t, suite, st);
      CancelSettled(t.(suites := t.suites[suite := st]), suite, st, live, h);
    } else {
      CancelSettled(t, suite, st, live, h);
    }
  }

  lemma ExhaustEffect(t: State, suite: Suite, st: SuiteState, live: set<Job>, h: History, now: nat)
    requires Workable(t, suite)
    requires st == t.suites[suite] && live == LiveOf(t, suite) && h == HistoryOf(t.log, suite)
    requires forall m :: m in st.suspects ==> m in t.shape.members
    requires AccountOk(t.shape, suite, st, live, h)
    ensures QueuesOk(MaybeExhausted(t, suite, now)) && SuitesOk(MaybeExhausted(t, suite, now))
  {
    ExhaustedOrNot(t.shape, suite, st, live, h, now);
    if st.settled.None? && live == {} {
      SettleEffect(t, suite, SettledAs(st, Unattributed, now), live, h, Unattributed, now);
    } else {
      SuiteJoins(t, suite, t.shape, st, live, h);
    }
  }

  // ----- queueing the attribution runs -----------------------------------------------------

  lemma NewJobsMeetWants(shape: Shape, suite: Suite, suspects: seq<Id>, firstId: nat)
    ensures MeetsWants(Elems(NewJobs(Wants(shape, suspects), suite, firstId)), shape, suite, suspects)
  {
    var wants := Wants(shape, suspects);
    var jobs := NewJobs(wants, suite, firstId);
    WantsFacts(shape, suspects);
    forall k | k in jobs
      ensures k.suite == suite && k.removal == RemovalFor(shape, k.purpose) && k.purpose in Wanted(shape, suspects)
      ensures 0 <= k.id - firstId < |jobs| && jobs[k.id - firstId] == k
    {
      var i :| 0 <= i < |jobs| && jobs[i] == k;
      assert wants[i] in wants;
    }
    forall p | p in Wanted(shape, suspects) ensures Live(Elems(jobs), p) {
      var w :| w in wants && w.0 == p;
      var i :| 0 <= i < |wants| && wants[i] == w;
      assert jobs[i] in Elems(jobs) && jobs[i].purpose == p;
    }
    forall k, l | k in jobs && l in jobs && k.purpose == l.purpose ensures k == l {
      var i, j := k.id - firstId, l.id - firstId;
      assert wants[i] in wants && wants[j] in wants;
      assert wants[i].1 == wants[j].1;
    }
  }

  lemma NewJobAt(suite: Suite, wants: seq<(Purpose, seq<Id>)>, firstId: nat, j: Job)
    requires forall w :: w in wants ==> !w.0.Plain?
    requires j in NewJobs(wants, suite, firstId)
    ensures firstId <= j.id < firstId + |wants| && !j.purpose.Plain? && j.suite == suite
    ensures j == Job(j.id, suite, wants[j.id - firstId].1, wants[j.id - firstId].0)
  {
    var jobs := NewJobs(wants, suite, firstId);
    var i :| 0 <= i < |jobs| && jobs[i] == j;
    assert wants[i] in wants;
  }

  lemma NewJobsFacts(suite: Suite, wants: seq<(Purpose, seq<Id>)>, firstId: nat)
    requires forall w :: w in wants ==> !w.0.Plain?
    ensures
      var jobs := NewJobs(wants, suite, firstId);
      && NoDup(jobs)
      && (forall j :: j in jobs ==> firstId <= j.id < firstId + |jobs| && !j.purpose.Plain? && j.suite == suite)
      && (forall j, k :: j in jobs && k in jobs && j.id == k.id ==> j == k)
  {
    var jobs := NewJobs(wants, suite, firstId);
    forall j | j in jobs ensures firstId <= j.id < firstId + |jobs| && !j.purpose.Plain? && j.suite == suite {
      NewJobAt(suite, wants, firstId, j);
    }
    forall j, k | j in jobs && k in jobs && j.id == k.id ensures j == k {
      NewJobAt(suite, wants, firstId, j);
      NewJobAt(suite, wants, firstId, k);
    }
  }

  lemma EnqueueAllJobs(s: State, suite: Suite, wants: seq<(Purpose, seq<Id>)>)
    requires suite in s.suites
    ensures Jobs(EnqueueAll(s, suite, wants)) == Jobs(s) + Elems(NewJobs(wants, suite, s.nextId))
  {
    var t := EnqueueAll(s, suite, wants);
    var jobs := NewJobs(wants, suite, s.nextId);
    assert RunningJobs(t) == RunningJobs(s);
    assert Elems(t.attrQ) == Elems(s.attrQ) + Elems(jobs);
  }

  lemma EnqueueAllQueues(s: State, suite: Suite, wants: seq<(Purpose, seq<Id>)>)
    requires QueuesOk(s) && suite in s.suites
    requires forall w :: w in wants ==> !w.0.Plain?
    ensures QueuesOk(EnqueueAll(s, suite, wants))
  {
    var jobs := NewJobs(wants, suite, s.nextId);
    NewJobsFacts(suite, wants, s.nextId);
    EnqueueAllJobs(s, suite, wants);
    assert forall j :: j in s.attrQ ==> j in Jobs(s);
    NoDupAppend(s.attrQ, jobs);
    forall id | id in s.running ensures id < s.nextId {
      assert s.running[id] in Jobs(s);
    }
  }

  lemma EnqueueAllState(s: State, suite: Suite, wants: seq<(Purpose, seq<Id>)>, added: set<Job>)
    requires suite in s.suites && added == Elems(NewJobs(wants, suite, s.nextId))
    ensures
      var st := s.suites[suite];
      EnqueueAll(s, suite, wants).suites[suite] == st.(outstanding := st.outstanding + Ids(added))
  {
  }

  lemma EnqueueAllEffect(s: State, suite: Suite, wants: seq<(Purpose, seq<Id>)>)
    requires Workable(s, suite)
    requires forall w :: w in wants ==> !w.0.Plain?
    ensures Workable(EnqueueAll(s, suite, wants), suite)
    ensures LiveOf(EnqueueAll(s, suite, wants), suite) == LiveOf(s, suite) + Elems(NewJobs(wants, suite, s.nextId))
  {
    NewJobsFacts(suite, wants, s.nextId);
    EnqueueAllJobs(s, suite, wants);
    EnqueueAllQueues(s, suite, wants);
    RestKept(s, EnqueueAll(s, suite, wants), suite);
  }

  // ----- one answer ------------------------------------------------------------------------

  lemma TakeJobs(s: State, id: nat, result: JobResult)
    requires QueuesOk(s) && id in s.running
    ensures s.running[id] in Jobs(s)
    ensures RunningJobs(TakeAnswer(s, id, result)) == RunningJobs(s) - {s.running[id]}
    ensures Jobs(TakeAnswer(s, id, result)) == Jobs(s) - {s.running[id]}
  {
    var job := s.running[id];
    var t := TakeAnswer(s, id, result);
    assert RunningJobs(t) == RunningJobs(s) - {job} by {
      forall j | j in RunningJobs(s) - {job} ensures j in RunningJobs(t) {
        assert j.id in t.running;
      }
      forall j | j in RunningJobs(t) ensures j in RunningJobs(s) - {job} {
        assert j.id in t.running && s.running[j.id] == j;
      }
    }
    assert job !in QueuedJobs(s);
  }

  lemma IdsLess(live: set<Job>, job: Job)
    requires job in live && forall j, k :: j in live && k in live && j.id == k.id ==> j == k
    ensures Ids(live) - {job.id} == Ids(live - {job})
  {
    forall k | k in Ids(live) - {job.id} ensures k in Ids(live - {job}) {
      var j :| j in live && j.id == k;
      assert j in live - {job};
    }
  }

  /** Where a suite stands just after `job` was answered `result`: its account lacks that entry. */
  ghost predicate Answering(t: State, job: Job, shape: Shape, st: SuiteState, live: set<Job>, h: History,
                            result: JobResult) {
    && Workable(t, job.suite) && shape == t.shape && ShapeOk(shape)
    && (forall m :: m in st.suspects ==> m in shape.members)
    && SuiteOk(shape, job.suite, st, live, h)
    && job in live && job.id < t.nextId
    && (forall j :: j in live ==> j.id < t.nextId)
    && LiveOf(t, job.suite) == live - {job}
    && t.suites[job.suite] == st.(outstanding := Ids(live - {job}))
    && HistoryOf(t.log, job.suite) == h + [(job.purpose, result)]
  }

  lemma TakeQueues(s: State, id: nat, result: JobResult)
    requires QueuesOk(s) && id in s.running
    ensures QueuesOk(TakeAnswer(s, id, result))
  {
    TakeJobs(s, id, result);
    assert TakeAnswer(s, id, result).suites.Keys == s.suites.Keys;
  }

  lemma TakeHistory(s: State, id: nat, result: JobResult, suite: Suite)
    requires id in s.running
    ensures HistoryOf(TakeAnswer(s, id, result).log, suite) ==
            HistoryOf(s.log, suite) + (if s.running[id].suite == suite then [(s.running[id].purpose, result)] else [])
  {
    HistorySnoc(s.log, Answer(s.running[id], result), suite);
  }

  lemma TakeOthers(s: State, id: nat, result: JobResult)
    requires QueuesOk(s) && id in s.running
    ensures OthersAlike(s, TakeAnswer(s, id, result), s.running[id].suite)
  {
    var job := s.running[id];
    var t := TakeAnswer(s, id, result);
    TakeJobs(s, id, result);
    forall other | other != job.suite ensures HistoryOf(t.log, other) == HistoryOf(s.log, other) {
      TakeHistory(s, id, result, other);
    }
  }

  lemma TakeRest(s: State, id: nat, result: JobResult)
    requires Inv(s) && id in s.running
    ensures s.running[id].suite in s.suites
    ensures RestOk(TakeAnswer(s, id, result), s.running[id].suite)
  {
    assert s.running[id] in Jobs(s);
    TakeOthers(s, id, result);
    RestKept(s, TakeAnswer(s, id, result), s.running[id].suite);
  }

  lemma TakeEffect(s: State, id: nat, result: JobResult)
    requires Inv(s) && id in s.running
    ensures
      var job := s.running[id];
      job.suite in s.suites &&
      Answering(TakeAnswer(s, id, result), job, s.shape, s.suites[job.suite],
                LiveOf(s, job.suite), HistoryOf(s.log, job.suite), result)
  {
    var job := s.running[id];
    TakeJobs(s, id, result);
    TakeQueues(s, id, result);
    TakeRest(s, id, result);
    TakeHistory(s, id, result, job.suite);
    assert SuiteHolds(s, job.suite);
    IdsLess(LiveOf(s, job.suite), job);
  }

  ghost predicate Repaired(u: State) {
    QueuesOk(u) && SuitesOk(u)
  }

  /** The three ways OnFault ends. */
  lemma OnFaultIs(t: State, job: Job, now: nat)
    requires job.suite in t.suites
    ensures
      var suite := job.suite;
      var st := t.suites[suite];
      var t1 := t.(suites := t.suites[suite := Faulted(st, job.purpose)]);
      && (FaultsOf(st, job.purpose) == 0 && st.settled.None? ==>
            OnFault(t, job, now) == Enqueue(t1, suite, job.removal, job.purpose, true))
      && (!(FaultsOf(st, job.purpose) == 0 && st.settled.None?) && job.purpose.Plain? ==>
            OnFault(t, job, now) == Settle(t1, suite, Unattributed, now))
      && (!(FaultsOf(st, job.purpose) == 0 && st.settled.None?) && !job.purpose.Plain? ==>
            OnFault(t, job, now) == MaybeExhausted(t1, suite, now))
  {
    var suite := job.suite;
    var st := t.suites[suite];
    var t1 := t.(suites := t.suites[suite := Faulted(st, job.purpose)]);
    if FaultsOf(st, job.purpose) == 0 && st.settled.None? {
      var t2 := Enqueue(t1, suite, job.removal, job.purpose, true);
      assert t.nextId in t2.suites[suite].outstanding;
    } else if job.purpose.Plain? {
      assert Settle(t1, suite, Unattributed, now).suites[suite].settled.Some?;
    }
  }

  lemma EnqueueJoins(t: State, suite: Suite, removal: seq<Id>, purpose: Purpose, shape: Shape, st: SuiteState,
                     live: set<Job>, h: History)
    requires Workable(t, suite) && shape == t.shape && h == HistoryOf(t.log, suite)
    requires live == LiveOf(t, suite) + {Job(t.nextId, suite, removal, purpose)}
    requires st == t.suites[suite].(outstanding := t.suites[suite].outstanding + {t.nextId})
    requires forall m :: m in st.suspects ==> m in shape.members
    requires SuiteOk(shape, suite, st, live, h)
    ensures Repaired(Enqueue(t, suite, removal, purpose, true))
  {
    EnqueueEffect(t, suite, removal, purpose, true);
    SuiteJoins(Enqueue(t, suite, removal, purpose, true), suite, shape, st, live, h);
  }

  lemma RetryKept(t: State, job: Job, shape: Shape, st: SuiteState, live: set<Job>, h: History, now: nat)
    requires Answering(t, job, shape, st, live, h, Fault)
    requires FaultsOf(st, job.purpose) == 0 && st.settled.None?
    ensures Repaired(OnFault(t, job, now))
  {
    var suite := job.suite;
    var st0 := t.suites[suite];
    var st1 := Faulted(st0, job.purpose);
    var t1 := t.(suites := t.suites[suite := st1]);
    var again := Job(t.nextId, suite, job.removal, job.purpose);
    OnFaultIs(t, job, now);
    StateReplaced(t, suite, st1);
    FaultRetried(shape, suite, st, live, h, job, st0, again);
    EnqueueJoins(t1, suite, job.removal, job.purpose, shape, st1.(outstanding := st0.outstanding + {t.nextId}),
                 live - {job} + {again}, h + [(job.purpose, Fault)]);
  }

  lemma PlainLostKept(t: State, job: Job, shape: Shape, st: SuiteState, live: set<Job>, h: History, now: nat)
    requires Answering(t, job, shape, st, live, h, Fault) && job.purpose.Plain?
    requires FaultsOf(st, Plain) >= 1
    ensures Repaired(OnFault(t, job, now))
  {
    var suite := job.suite;
    var st1 := Faulted(t.suites[suite], Plain);
    OnFaultIs(t, job, now);
    StateReplaced(t, suite, st1);
    PlainFaultedTwice(shape, suite, st, live, h, job, t.suites[suite], now);
    SettleEffect(t.(suites := t.suites[suite := st1]), suite, SettledAs(st1, Unattributed, now), live - {job},
                 h + [(Plain, Fault)], Unattributed, now);
  }

  lemma RunLostKept(t: State, job: Job, shape: Shape, st: SuiteState, live: set<Job>, h: History, now: nat)
    requires Answering(t, job, shape, st, live, h, Fault) && !job.purpose.Plain?
    requires FaultsOf(st, job.purpose) >= 1 || st.settled.Some?
    ensures Repaired(OnFault(t, job, now))
  {
    var suite := job.suite;
    var st1 := Faulted(t.suites[suite], job.purpose);
    OnFaultIs(t, job, now);
    StateReplaced(t, suite, st1);
    FaultDropped(shape, suite, st, live, h, job, t.suites[suite]);
    ExhaustEffect(t.(suites := t.suites[suite := st1]), suite, st1, live - {job}, h + [(job.purpose, Fault)], now);
  }

  lemma FaultKept(t: State, job: Job, shape: Shape, st: SuiteState, live: set<Job>, h: History, now: nat)
    requires Answering(t, job, shape, st, live, h, Fault)
    ensures Repaired(OnFault(t, job, now))
  {
    if FaultsOf(st, job.purpose) == 0 && st.settled.None? {
      RetryKept(t, job, shape, st, live, h, now);
    } else if job.purpose.Plain? {
      PlainAlone(shape, job.suite, st, live, h, job);
      PlainLostKept(t, job, shape, st, live, h, now);
    } else {
      RunLostKept(t, job, shape, st, live, h, now);
    }
  }

  lemma PlainGreenKept(t: State, job: Job, shape: Shape, st: SuiteState, live: set<Job>, h: History, now: nat)
    requires Answering(t, job, shape, st, live, h, Green) && job.purpose.Plain?
    ensures Repaired(OnVerdict(t, job, true, now))
  {
    var st0 := t.suites[job.suite];
    PlainGreen(shape, job.suite, st, live, h, job, st0, now);
    SettleEffect(t, job.suite, SettledAs(st0, Flaky, now), live - {job}, h + [(Plain, Green)], Flaky, now);
  }

  lemma PlainRedKept(t: State, job: Job, shape: Shape, st: SuiteState, live: set<Job>, h: History, now: nat)
    requires Answering(t, job, shape, st, live, h, Red) && job.purpose.Plain?
    ensures Repaired(OnVerdict(t, job, false, now))
  {
    var suite := job.suite;
    var st1 := t.suites[suite].(plainRed := true);
    var t1 := t.(suites := t.suites[suite := st1]);
    StateReplaced(t, suite, st1);
    var wants := Wants(shape, st.suspects);
    var added := Elems(NewJobs(wants, suite, t.nextId));
    WantsFacts(shape, st.suspects);
    EnqueueAllEffect(t1, suite, wants);
    EnqueueAllState(t1, suite, wants, added);
    NewJobsMeetWants(shape, suite, st.suspects, t.nextId);
    PlainRed(shape, suite, st, live, h, job, t.suites[suite], added);
    SuiteJoins(EnqueueAll(t1, suite, wants), suite, shape, st1.(outstanding := st1.outstanding + Ids(added)),
               live - {job} + added, h + [(Plain, Red)]);
  }

  lemma BaseKept(t: State, job: Job, shape: Shape, st: SuiteState, live: set<Job>, h: History, green: bool, now: nat)
    requires Answering(t, job, shape, st, live, h, if green then Green else Red) && job.purpose.Base?
    ensures Repaired(OnVerdict(t, job, green, now))
  {
    var suite := job.suite;
    var st0 := t.suites[suite];
    if green {
      RunSpent(shape, suite, st, live, h, job, st0, Green);
      var st1 := st0.(baseGreen := true);
      StateReplaced(t, suite, st1);
      NoteBaseGreen(shape, suite, st0, live - {job}, h + [(Base, Green)]);
      ExhaustEffect(t.(suites := t.suites[suite := st1]), suite, st1, live - {job}, h + [(Base, Green)], now);
    } else {
      BaseRedSeen(shape, suite, st, live, h, job, st0, now);
      SettleEffect(t, suite, SettledAs(st0, BaseRed, now), live - {job}, h + [(Base, Red)], BaseRed, now);
    }
  }

  lemma WithoutRedKept(t: State, job: Job, shape: Shape, st: SuiteState, live: set<Job>, h: History, now: nat)
    requires Answering(t, job, shape, st, live, h, Red) && job.purpose.Without?
    ensures Repaired(OnVerdict(t, job, false, now))
  {
    var suite := job.suite;
    var st0 := t.suites[suite];
    WantedMember(shape, st.suspects, job.purpose.suspect);
    WithinAll(shape.members, Elems(RemovalOf(shape, job.purpose.suspect)));
    if |job.removal| == |shape.members| {
      BaseRedSeen(shape, suite, st, live, h, job, st0, now);
      SettleEffect(t, suite, SettledAs(st0, BaseRed, now), live - {job}, h + [(job.purpose, Red)], BaseRed, now);
    } else {
      RunSpent(shape, suite, st, live, h, job, st0, Red);
      ExhaustEffect(t, suite, st0, live - {job}, h + [(job.purpose, Red)], now);
    }
  }

  lemma OwnerKept(t: State, job: Job, shape: Shape, st: SuiteState, live: set<Job>, h: History, now: nat)
    requires Answering(t, job, shape, st, live, h, Green) && job.purpose.Without?
    ensures Repaired(AddOwner(t, job.suite, job.purpose.suspect, job.removal, now))
  {
    var suite := job.suite;
    var st0 := t.suites[suite];
    var x := job.purpose.suspect;
    var st1 := WithOwner(st0, x, job.removal, now);
    OwnerFound(shape, suite, st, live, h, job, st0, now);
    if OwnsNothingNew(st0, job.removal) {
      SuiteJoins(t, suite, shape, st1, live - {job}, h + [(job.purpose, Green)]);
    } else {
      StateReplaced(t, suite, st1);
      CancelSettled(t.(suites := t.suites[suite := st1]), suite, st1, live - {job}, h + [(job.purpose, Green)]);
    }
  }
}
