// Job ids are handed out from 1 up and stay under a bound the round knows beforehand, so they
// never run into the ids the driver keeps for its own reruns and flip proofs.

module AttributionIds {
  import opened Prelude
  import opened AttributionSpec
  import opened SuiteLedger
  import opened AttributionProof
  import opened AttributionRuns
  import opened AttributionLaunches
  import opened AttributionTheorems

  /** One plain rerun per red, and once that was red at most one run per member and the base's. */
  ghost function Allowance(s: State, suite: Suite): (n: nat) {
    1 + if suite in s.suites && s.suites[suite].plainRed then |s.shape.members| + 1 else 0
  }

  ghost function Room(s: State, reds: seq<Suite>): (n: nat) {
    if reds == [] then 0 else Room(s, reds[..|reds| - 1]) + Allowance(s, reds[|reds| - 1])
  }

  /** Ids beyond the allowances are retries, one per fault answered. */
  ghost predicate IdsOk(s: State) {
    s.nextId <= 1 + Room(s, s.reds) + |s.log|
  }

  lemma {:induction false} RoomSame(s: State, t: State, reds: seq<Suite>)
    requires t.shape == s.shape
    requires forall suite :: suite in reds ==> Allowance(t, suite) == Allowance(s, suite)
    ensures Room(t, reds) == Room(s, reds)
  {
    if reds != [] {
      assert reds == reds[..|reds| - 1] + [reds[|reds| - 1]];
      RoomSame(s, t, reds[..|reds| - 1]);
    }
  }

  lemma {:induction false} RoomGrows(s: State, t: State, reds: seq<Suite>, suite: Suite)
    requires t.shape == s.shape && NoDup(reds) && suite in reds
    requires forall other :: other in reds && other != suite ==> Allowance(t, other) == Allowance(s, other)
    requires Allowance(t, suite) == Allowance(s, suite) + |s.shape.members| + 1
    ensures Room(t, reds) == Room(s, reds) + |s.shape.members| + 1
  {
    var shorter, last := reds[..|reds| - 1], reds[|reds| - 1];
    assert reds == shorter + [last];
    if last == suite {
      forall other | other in shorter ensures Allowance(t, other) == Allowance(s, other) {
        assert other != suite;
      }
      RoomSame(s, t, shorter);
    } else {
      RoomGrows(s, t, shorter, suite);
    }
  }

  lemma {:induction false} RoomSmall(s: State, reds: seq<Suite>)
    ensures Room(s, reds) <= |reds| * (|s.shape.members| + 2)
  {
    if reds != [] {
      RoomSmall(s, reds[..|reds| - 1]);
      assert |reds| * (|s.shape.members| + 2) == (|reds| - 1) * (|s.shape.members| + 2) + (|s.shape.members| + 2);
    }
  }

  /** Nothing about plain reruns changed. */
  ghost predicate PlainsAlike(s: State, t: State) {
    && t.shape == s.shape && t.reds == s.reds && t.suites.Keys == s.suites.Keys
    && forall suite :: suite in s.suites ==> t.suites[suite].plainRed == s.suites[suite].plainRed
  }

  lemma AlikeIds(s: State, t: State)
    requires IdsOk(s) && PlainsAlike(s, t)
    requires t.nextId + |s.log| <= s.nextId + |t.log|
    ensures IdsOk(t)
  {
    RoomSame(s, t, s.reds);
  }

  lemma FaultIds(t: State, job: Job, now: nat)
    requires job.suite in t.suites
    ensures PlainsAlike(t, OnFault(t, job, now)) && OnFault(t, job, now).nextId <= t.nextId + 1
  {
    OnFaultIs(t, job, now);
  }

  lemma OwnerIds(t: State, suite: Suite, x: Id, removal: seq<Id>, now: nat)
    ensures PlainsAlike(t, AddOwner(t, suite, x, removal, now))
    ensures AddOwner(t, suite, x, removal, now).nextId == t.nextId
  {
  }

  lemma VerdictIds(t: State, job: Job, green: bool, now: nat)
    requires job.suite in t.suites && !(job.purpose.Plain? && !green)
    ensures PlainsAlike(t, OnVerdict(t, job, green, now)) && OnVerdict(t, job, green, now).nextId == t.nextId
  {
    if job.purpose.Without? && green {
      OwnerIds(t, job.suite, job.purpose.suspect, job.removal, now);
    }
  }

  lemma PlainRedIds(t: State, job: Job, now: nat)
    requires job.suite in t.suites && job.purpose.Plain? && !t.suites[job.suite].plainRed
    requires RedsOk(t) && IdsOk(t)
    requires forall m :: m in t.suites[job.suite].suspects ==> m in t.shape.members
    ensures IdsOk(OnVerdict(t, job, false, now))
  {
    var u := OnVerdict(t, job, false, now);
    var suspects := t.suites[job.suite].suspects;
    WantsSmall(t.shape, suspects);
    assert job.suite in Elems(t.reds);
    RoomGrows(t, u, t.reds, job.suite);
    assert u.nextId == t.nextId + |Wants(t.shape, suspects)|;
  }

  lemma PlainFirst(s: State, id: nat)
    requires Inv(s) && id in s.running
    ensures s.running[id].suite in s.suites
    ensures s.running[id].purpose.Plain? ==> !s.suites[s.running[id].suite].plainRed
    ensures forall m :: m in s.suites[s.running[id].suite].suspects ==> m in s.shape.members
  {
    var job := s.running[id];
    assert job in Jobs(s);
    assert SuiteHolds(s, job.suite);
    if job.purpose.Plain? {
      PlainAlone(s.shape, job.suite, s.suites[job.suite], LiveOf(s, job.suite), HistoryOf(s.log, job.suite), job);
    }
  }

  lemma AnsweredIds(s: State, id: nat, result: JobResult, now: nat)
    requires Inv(s) && IdsOk(s)
    ensures IdsOk(JobAnswered(s, id, result, now))
  {
    if id in s.running {
      PlainFirst(s, id);
      TakeReds(s, id, result);
      TakenIds(s, id, result, now);
    }
  }

  lemma TakenIds(s: State, id: nat, result: JobResult, now: nat)
    requires id in s.running && IdsOk(s) && RedsOk(TakeAnswer(s, id, result))
    requires s.running[id].suite in s.suites
    requires s.running[id].purpose.Plain? ==> !s.suites[s.running[id].suite].plainRed
    requires forall m :: m in s.suites[s.running[id].suite].suspects ==> m in s.shape.members
    ensures IdsOk(JobAnswered(s, id, result, now))
  {
    var t, job := TakeAnswer(s, id, result), s.running[id];
    assert PlainsAlike(s, t);
    if result.Fault? {
      FaultIds(t, job, now);
      FaultBooks(t, job, now);
      AlikeIds(s, OnFault(t, job, now));
    } else if job.purpose.Plain? && result.Red? {
      AlikeIds(s, t);
      PlainRedIds(t, job, now);
    } else {
      VerdictIds(t, job, result.Green?, now);
      VerdictBooks(t, job, result.Green?, now);
      AlikeIds(s, OnVerdict(t, job, result.Green?, now));
    }
  }

  lemma MainResultIds(s: State, suite: Suite, green: bool, suspects: seq<Id>, now: nat)
    requires RedsOk(s) && IdsOk(s)
    ensures IdsOk(MainResult(s, suite, green, suspects, now))
  {
    var t := MainResult(s, suite, green, suspects, now);
    if suite in s.mainSeen || green {
      AlikeIds(s, t);
    } else {
      assert t.reds[..|t.reds| - 1] == s.reds;
      forall other | other in s.reds ensures Allowance(t, other) == Allowance(s, other) {
        assert other in Elems(s.reds);
      }
      RoomSame(s, t, s.reds);
    }
  }

  lemma {:induction false} NextJobsIds(s: State)
    ensures PlainsAlike(s, NextJobs(s)) && NextJobs(s).nextId == s.nextId && NextJobs(s).log == s.log
    decreases |s.plainQ| + |s.attrQ|
  {
    if Spare(s) > 0 && NextReady(s) {
      NextJobsIds(LaunchNext(s));
    }
  }

  lemma StepIds(s: State, e: Event)
    requires Inv(s) && IdsOk(s) && Legal(s, e)
    ensures IdsOk(Step(s, e))
  {
    match e
    case MainReported(suite, green, suspects, at) => MainResultIds(s, suite, green, suspects, at);
    case MainEnded(at) => AlikeIds(s, Step(s, e));
    case HandedOut =>
      NextJobsIds(s);
      AlikeIds(s, NextJobs(s));
    case Answered(id, result, at) => AnsweredIds(s, id, result, at);
  }

  lemma {:induction false} RunIds(s: State, events: seq<Event>)
    requires Inv(s) && IdsOk(s) && LegalRun(s, events)
    ensures IdsOk(Run(s, events))
  {
    if events != [] {
      var before, e := events[..|events| - 1], events[|events| - 1];
      RunIds(s, before);
      RunKeeps(s, before);
      assert e in events && Legal(s, e);
      StepIds(Run(s, before), e);
    }
  }

  /** Every job of a round is numbered below a bound set by its reds and members. */
  lemma IdsBounded(s: State)
    requires Reachable(s)
    ensures s.nextId <= 1 + 3 * (|s.reds| * (|s.shape.members| + 2))
    ensures forall id :: id in s.running ==> id < s.nextId
  {
    var budget, shape, mainTotal, events :| ReachedBy(s, budget, shape, mainTotal, events);
    InitialInv(budget, shape, mainTotal);
    RunIds(Initial(budget, shape, mainTotal), events);
    ReachableKeeps(s);
    RoomSmall(s, s.reds);
    LaunchesBounded(s);
    forall id | id in s.running ensures id < s.nextId {
      assert s.running[id] in Jobs(s);
    }
  }
}
