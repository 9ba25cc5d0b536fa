// The order in which a red's attribution runs are launched (batcher/src/attrib.rs,
// queue_attribution and next_jobs): the base first, then the suspects' removal sets, then the rest,
// over any run, whatever faults are retried in between and whatever else is queued.

module AttributionOrder {
  import opened Prelude
  import opened Shapes
  import opened AttributionSpec
  import opened SuiteLedger
  import opened AttributionProof
  import opened AttributionRuns
  import opened AttributionTheorems
  import opened AttributionIds
  import opened AttributionQueues
  import opened Attributors

  // ----- lines of jobs ---------------------------------------------------------------------

  ghost predicate Is(job: Job, suite: Suite, p: Purpose) {
    job.suite == suite && job.purpose == p
  }

  ghost predicate EarlierIn(line: seq<Job>, suite: Suite, p: Purpose, j: nat) {
    exists i :: 0 <= i < j && i < |line| && Is(line[i], suite, p)
  }

  /** Whatever of the suite's purposes stands in the line, those before it stand earlier. */
  ghost predicate InTurn(line: seq<Job>, suite: Suite, ps: seq<Purpose>) {
    forall j, a, b :: 0 <= j < |line| && 0 <= a < b < |ps| && Is(line[j], suite, ps[b]) ==>
      EarlierIn(line, suite, ps[a], j)
  }

  lemma EarlierShift(line: seq<Job>, longer: seq<Job>, suite: Suite, p: Purpose, at: nat, j: nat)
    requires at <= |line| && |longer| == |line| + 1 && EarlierIn(line, suite, p, j)
    requires longer[..at] == line[..at] && longer[at + 1..] == line[at..]
    ensures EarlierIn(longer, suite, p, if j <= at then j else j + 1)
  {
    var i :| 0 <= i < j && i < |line| && Is(line[i], suite, p);
    if i < at {
      assert longer[..at][i] == line[..at][i];
    } else {
      assert longer[at + 1..][i - at] == line[at..][i - at];
      assert Is(longer[i + 1], suite, p);
    }
  }

  lemma EarlierUnshift(line: seq<Job>, longer: seq<Job>, suite: Suite, p: Purpose, at: nat, j: nat)
    requires at <= |line| && |longer| == |line| + 1 && longer[at].suite != suite && j != at
    requires longer[..at] == line[..at] && longer[at + 1..] == line[at..]
    requires EarlierIn(longer, suite, p, j)
    ensures EarlierIn(line, suite, p, if j < at then j else j - 1)
  {
    var i :| 0 <= i < j && i < |longer| && Is(longer[i], suite, p);
    if i < at {
      assert longer[..at][i] == line[..at][i];
    } else {
      assert longer[at + 1..][i - at - 1] == line[at..][i - at - 1];
      assert Is(line[i - 1], suite, p);
    }
  }

  /** One more job in the line, behind all its suite's earlier purposes. */
  lemma InsertInTurn(front: seq<Job>, x: Job, back: seq<Job>, suite: Suite, ps: seq<Purpose>)
    requires InTurn(front + back, suite, ps)
    requires forall a, b :: 0 <= a < b < |ps| && Is(x, suite, ps[b]) ==> EarlierIn(front, suite, ps[a], |front|)
    ensures InTurn(front + [x] + back, suite, ps)
  {
    var line, longer, at := front + back, front + [x] + back, |front|;
    assert longer[..at] == line[..at] && longer[at + 1..] == line[at..];
    forall j, a, b | 0 <= j < |longer| && 0 <= a < b < |ps| && Is(longer[j], suite, ps[b])
      ensures EarlierIn(longer, suite, ps[a], j)
    {
      if j == at {
        var i :| 0 <= i < |front| && Is(front[i], suite, ps[a]);
        assert Is(longer[i], suite, ps[a]);
      } else {
        var k := if j < at then j else j - 1;
        assert longer[j] == line[k];
        EarlierShift(line, longer, suite, ps[a], at, k);
      }
    }
  }

  lemma DropInTurn(front: seq<Job>, x: Job, back: seq<Job>, suite: Suite, ps: seq<Purpose>)
    requires x.suite != suite && InTurn(front + [x] + back, suite, ps)
    ensures InTurn(front + back, suite, ps)
  {
    var line, longer, at := front + back, front + [x] + back, |front|;
    assert longer[..at] == line[..at] && longer[at + 1..] == line[at..];
    forall k, a, b | 0 <= k < |line| && 0 <= a < b < |ps| && Is(line[k], suite, ps[b])
      ensures EarlierIn(line, suite, ps[a], k)
    {
      var j := if k < at then k else k + 1;
      assert longer[j] == line[k];
      EarlierUnshift(line, longer, suite, ps[a], at, j);
    }
  }

  lemma FrontInTurn(front: seq<Job>, back: seq<Job>, suite: Suite, ps: seq<Purpose>)
    requires InTurn(front + back, suite, ps)
    ensures InTurn(front, suite, ps)
  {
    forall j, a, b | 0 <= j < |front| && 0 <= a < b < |ps| && Is(front[j], suite, ps[b])
      ensures EarlierIn(front, suite, ps[a], j)
    {
      assert (front + back)[j] == front[j] && EarlierIn(front + back, suite, ps[a], j);
      var i :| 0 <= i < j && i < |front + back| && Is((front + back)[i], suite, ps[a]);
      assert Is(front[i], suite, ps[a]);
    }
  }

  lemma OfFront(front: seq<Job>, back: seq<Job>, suite: Suite, j: nat)
    requires j < |front + back| && (front + back)[j].suite == suite && forall x :: x in back ==> x.suite != suite
    ensures j < |front|
  {
  }

  lemma AppendOthers(front: seq<Job>, back: seq<Job>, suite: Suite, ps: seq<Purpose>)
    requires InTurn(front, suite, ps) && forall x :: x in back ==> x.suite != suite
    ensures InTurn(front + back, suite, ps)
  {
    var line := front + back;
    forall j, a, b | 0 <= j < |line| && 0 <= a < b < |ps| && Is(line[j], suite, ps[b])
      ensures EarlierIn(line, suite, ps[a], j)
    {
      OfFront(front, back, suite, j);
      assert Is(front[j], suite, ps[b]) && EarlierIn(front, suite, ps[a], j);
      var i :| 0 <= i < j && i < |front| && Is(front[i], suite, ps[a]);
      assert Is(line[i], suite, ps[a]);
    }
  }

  /** A suite's runs queued in turn, where none of them stood before. */
  lemma AppendTurns(front: seq<Job>, back: seq<Job>, suite: Suite, ps: seq<Purpose>)
    requires forall x :: x in front && x.suite == suite ==> x.purpose.Plain?
    requires |back| == |ps| && NoDup(ps) && forall p :: p in ps ==> !p.Plain?
    requires forall k :: 0 <= k < |back| ==> Is(back[k], suite, ps[k])
    ensures InTurn(front + back, suite, ps)
  {
    var line := front + back;
    forall j, a, b | 0 <= j < |line| && 0 <= a < b < |ps| && Is(line[j], suite, ps[b])
      ensures EarlierIn(line, suite, ps[a], j)
    {
      assert ps[b] in ps;
      if j < |front| {
        assert false;
      }
      assert line[j] == back[j - |front|];
      assert j - |front| == b;
      assert Is(line[|front| + a], suite, ps[a]);
    }
  }

  lemma {:induction false} WithoutInTurn(front: seq<Job>, back: seq<Job>, gone: Suite, suite: Suite, ps: seq<Purpose>)
    requires InTurn(front + back, suite, ps)
    ensures InTurn(front + WithoutSuite(back, gone), suite, ps)
    decreases |back|
  {
    if suite == gone {
      FrontInTurn(front, back, suite, ps);
      WithoutSuiteFacts(back, gone);
      AppendOthers(front, WithoutSuite(back, gone), suite, ps);
    } else if back != [] {
      assert front + back == front + [back[0]] + back[1..];
      if back[0].suite == gone {
        DropInTurn(front, back[0], back[1..], suite, ps);
        WithoutInTurn(front, back[1..], gone, suite, ps);
        assert WithoutSuite(back, gone) == WithoutSuite(back[1..], gone);
      } else {
        WithoutInTurn(front + [back[0]], back[1..], gone, suite, ps);
        assert front + WithoutSuite(back, gone) == front + [back[0]] + WithoutSuite(back[1..], gone);
      }
    }
  }

  // ----- the line of a state ---------------------------------------------------------------

  /** The runs launched so far, then the attribution runs waiting. */
  ghost function Line(s: State): (r: seq<Job>) {
    s.launched + s.attrQ
  }

  function PurposesOf(shape: Shape, suspects: seq<Id>): (r: seq<Purpose>) {
    var wants := Wants(shape, suspects);
    seq(|wants|, i requires 0 <= i < |wants| => wants[i].0)
  }

  lemma PurposesDiffer(shape: Shape, suspects: seq<Id>)
    ensures NoDup(PurposesOf(shape, suspects)) && forall p :: p in PurposesOf(shape, suspects) ==> !p.Plain?
  {
    var wants, ps := Wants(shape, suspects), PurposesOf(shape, suspects);
    WantsFacts(shape, suspects);
    forall i | 0 <= i < |ps| ensures !ps[i].Plain? {
      assert wants[i] in wants;
    }
    forall i, j | 0 <= i < j < |ps| ensures ps[i] != ps[j] {
      assert wants[i] in wants && wants[j] in wants;
    }
  }

  /** Every job in the line is of a known red, an attribution run of one red alone; every running
      job has been launched. */
  ghost predicate LineKnown(s: State) {
    && (forall x :: x in Line(s) ==> x.suite in s.suites)
    && (forall x :: x in Line(s) && !x.purpose.Plain? ==> s.suites[x.suite].plainRed)
    && (forall id :: id in s.running ==> s.running[id] in s.launched)
  }

  ghost predicate LineInTurn(s: State) {
    forall suite :: suite in s.suites ==> InTurn(Line(s), suite, PurposesOf(s.shape, s.suites[suite].suspects))
  }

  /** Nothing the line depends on differs, but for more reds that were red alone. */
  ghost predicate SameLine(s: State, t: State) {
    && t.shape == s.shape && t.launched == s.launched && t.attrQ == s.attrQ && t.suites.Keys == s.suites.Keys
    && t.running.Items <= s.running.Items
    && forall suite :: suite in s.suites ==>
         t.suites[suite].suspects == s.suites[suite].suspects && (s.suites[suite].plainRed ==> t.suites[suite].plainRed)
  }

  lemma SameLineKept(s: State, t: State)
    requires LineKnown(s) && LineInTurn(s) && SameLine(s, t)
    ensures LineKnown(t) && LineInTurn(t)
  {
    forall id | id in t.running ensures t.running[id] in t.launched {
      assert (id, t.running[id]) in t.running.Items;
      assert (id, t.running[id]) in s.running.Items;
    }
  }

  // ----- what each step does to the line ---------------------------------------------------

  lemma CancelLine(s: State, gone: Suite)
    requires LineKnown(s) && LineInTurn(s)
    ensures LineKnown(CancelQueued(s, gone)) && LineInTurn(CancelQueued(s, gone))
  {
    var t := CancelQueued(s, gone);
    WithoutSuiteFacts(s.attrQ, gone);
    forall x | x in Line(t) ensures x in Line(s) {
    }
    forall suite | suite in t.suites ensures InTurn(Line(t), suite, PurposesOf(t.shape, t.suites[suite].suspects)) {
      WithoutInTurn(s.launched, s.attrQ, gone, suite, PurposesOf(s.shape, s.suites[suite].suspects));
    }
  }

  lemma SettleLine(s: State, suite: Suite, outcome: Outcome, now: nat)
    requires LineKnown(s) && LineInTurn(s)
    ensures LineKnown(Settle(s, suite, outcome, now)) && LineInTurn(Settle(s, suite, outcome, now))
  {
    var t :=
      if suite in s.suites && s.suites[suite].settled.None?
      then s.(suites := s.suites[suite := s.suites[suite].(settled := Some((outcome, now)))])
      else s;
    SameLineKept(s, t);
    CancelLine(t, suite);
  }

  lemma OwnerLine(s: State, suite: Suite, x: Id, removal: seq<Id>, now: nat)
    requires LineKnown(s) && LineInTurn(s)
    ensures LineKnown(AddOwner(s, suite, x, removal, now)) && LineInTurn(AddOwner(s, suite, x, removal, now))
  {
    if suite in s.suites && !OwnsNothingNew(s.suites[suite], removal) {
      var t := s.(suites := s.suites[suite := WithOwner(s.suites[suite], x, removal, now)]);
      SameLineKept(s, t);
      CancelLine(t, suite);
    }
  }

  lemma ExhaustLine(s: State, suite: Suite, now: nat)
    requires LineKnown(s) && LineInTurn(s)
    ensures LineKnown(MaybeExhausted(s, suite, now)) && LineInTurn(MaybeExhausted(s, suite, now))
  {
    SettleLine(s, suite, Unattributed, now);
  }

  /** A plain rerun queued: the line is as it was. */
  lemma PlainLine(s: State, suite: Suite, removal: seq<Id>, front: bool)
    requires LineKnown(s) && LineInTurn(s)
    ensures LineKnown(Enqueue(s, suite, removal, Plain, front)) && LineInTurn(Enqueue(s, suite, removal, Plain, front))
  {
    SameLineKept(s, Enqueue(s, suite, removal, Plain, front));
  }

  lemma LaunchedBefore(s: State, job: Job, a: nat, b: nat)
    requires LineInTurn(s) && job in s.launched && job.suite in s.suites
    requires
      var ps := PurposesOf(s.shape, s.suites[job.suite].suspects);
      a < b < |ps| && job.purpose == ps[b]
    ensures EarlierIn(s.launched, job.suite, PurposesOf(s.shape, s.suites[job.suite].suspects)[a], |s.launched|)
  {
    var ps := PurposesOf(s.shape, s.suites[job.suite].suspects);
    var j :| 0 <= j < |s.launched| && s.launched[j] == job;
    assert Line(s)[j] == job && Is(Line(s)[j], job.suite, ps[b]);
    assert EarlierIn(Line(s), job.suite, ps[a], j);
    var i :| 0 <= i < j && i < |Line(s)| && Is(Line(s)[i], job.suite, ps[a]);
    assert Is(s.launched[i], job.suite, ps[a]);
  }

  /** A run already launched goes back to the head of the queue: its turn has come. */
  lemma RetryLine(s: State, job: Job)
    requires LineKnown(s) && LineInTurn(s) && job in s.launched && job.suite in s.suites && !job.purpose.Plain?
    ensures
      var t := Enqueue(s, job.suite, job.removal, job.purpose, true);
      LineKnown(t) && LineInTurn(t)
  {
    var t := Enqueue(s, job.suite, job.removal, job.purpose, true);
    var again := Job(s.nextId, job.suite, job.removal, job.purpose);
    assert Line(t) == s.launched + [again] + s.attrQ;
    assert job in Line(s);
    forall x | x in Line(t) ensures x == again || x in Line(s) {
    }
    forall suite | suite in t.suites ensures InTurn(Line(t), suite, PurposesOf(t.shape, t.suites[suite].suspects)) {
      var ps := PurposesOf(s.shape, s.suites[suite].suspects);
      forall a, b | 0 <= a < b < |ps| && Is(again, suite, ps[b])
        ensures EarlierIn(s.launched, suite, ps[a], |s.launched|)
      {
        LaunchedBefore(s, job, a, b);
      }
      InsertInTurn(s.launched, again, s.attrQ, suite, ps);
    }
  }

  lemma FaultLine(s: State, job: Job, now: nat)
    requires LineKnown(s) && LineInTurn(s) && job in s.launched && job.suite in s.suites
    ensures LineKnown(OnFault(s, job, now)) && LineInTurn(OnFault(s, job, now))
  {
    var suite, st := job.suite, s.suites[job.suite];
    var t := s.(suites := s.suites[suite := Faulted(st, job.purpose)]);
    SameLineKept(s, t);
    OnFaultIs(s, job, now);
    if FaultsOf(st, job.purpose) == 0 && st.settled.None? {
      if job.purpose.Plain? {
        PlainLine(t, suite, job.removal, true);
      } else {
        RetryLine(t, job);
      }
    } else if job.purpose.Plain? {
      SettleLine(t, suite, Unattributed, now);
    } else {
      ExhaustLine(t, suite, now);
    }
  }

  ghost function PlainRedState(s: State, suite: Suite): (t: State)
    requires suite in s.suites
  {
    var st := s.suites[suite];
    EnqueueAll(s.(suites := s.suites[suite := st.(plainRed := true)]), suite, Wants(s.shape, st.suspects))
  }

  lemma PlainRedTurns(s: State, suite: Suite, other: Suite)
    requires LineKnown(s) && LineInTurn(s) && suite in s.suites && !s.suites[suite].plainRed && other in s.suites
    ensures InTurn(Line(PlainRedState(s, suite)), other, PurposesOf(s.shape, s.suites[other].suspects))
  {
    var st := s.suites[suite];
    var jobs := NewJobs(Wants(s.shape, st.suspects), suite, s.nextId);
    assert Line(PlainRedState(s, suite)) == Line(s) + jobs;
    if other == suite {
      PurposesDiffer(s.shape, st.suspects);
      AppendTurns(Line(s), jobs, suite, PurposesOf(s.shape, st.suspects));
    } else {
      AppendOthers(Line(s), jobs, other, PurposesOf(s.shape, s.suites[other].suspects));
    }
  }

  lemma PlainRedKnown(s: State, suite: Suite)
    requires LineKnown(s) && suite in s.suites
    ensures LineKnown(PlainRedState(s, suite))
  {
    var jobs, t := NewJobs(Wants(s.shape, s.suites[suite].suspects), suite, s.nextId), PlainRedState(s, suite);
    assert Line(t) == Line(s) + jobs;
    forall x | x in Line(t) ensures x.suite in t.suites && (!x.purpose.Plain? ==> t.suites[x.suite].plainRed) {
      if x !in Line(s) {
        assert x in jobs && x.suite == suite;
      }
    }
  }

  /** The runs a red plain rerun calls for, queued in turn. */
  lemma PlainRedLine(s: State, suite: Suite)
    requires LineKnown(s) && LineInTurn(s) && suite in s.suites && !s.suites[suite].plainRed
    ensures LineKnown(PlainRedState(s, suite)) && LineInTurn(PlainRedState(s, suite))
  {
    var t := PlainRedState(s, suite);
    PlainRedKnown(s, suite);
    forall other | other in t.suites ensures InTurn(Line(t), other, PurposesOf(t.shape, t.suites[other].suspects)) {
      PlainRedTurns(s, suite, other);
    }
  }

  lemma VerdictLine(s: State, job: Job, green: bool, now: nat)
    requires LineKnown(s) && LineInTurn(s) && job.suite in s.suites
    requires job.purpose.Plain? ==> !s.suites[job.suite].plainRed
    ensures LineKnown(OnVerdict(s, job, green, now)) && LineInTurn(OnVerdict(s, job, green, now))
  {
    var suite, st := job.suite, s.suites[job.suite];
    match job.purpose
    case Plain =>
      if green {
        SettleLine(s, suite, Flaky, now);
      } else {
        PlainRedLine(s, suite);
      }
    case Base =>
      if green {
        SameLineKept(s, s.(suites := s.suites[suite := st.(baseGreen := true)]));
        ExhaustLine(s.(suites := s.suites[suite := st.(baseGreen := true)]), suite, now);
      } else {
        SettleLine(s, suite, BaseRed, now);
      }
    case Without(x) =>
      if green {
        OwnerLine(s, suite, x, job.removal, now);
      } else if |job.removal| == |s.shape.members| {
        SettleLine(s, suite, BaseRed, now);
      } else {
        ExhaustLine(s, suite, now);
      }
  }

  lemma TakeLine(s: State, id: nat, result: JobResult)
    requires LineKnown(s) && LineInTurn(s) && id in s.running
    ensures LineKnown(TakeAnswer(s, id, result)) && LineInTurn(TakeAnswer(s, id, result))
  {
    SameLineKept(s, TakeAnswer(s, id, result));
  }

  lemma AnsweredLine(s: State, id: nat, result: JobResult, now: nat)
    requires LineKnown(s) && LineInTurn(s)
    requires id in s.running && s.running[id].purpose.Plain? ==>
               s.running[id].suite in s.suites && !s.suites[s.running[id].suite].plainRed
    ensures LineKnown(JobAnswered(s, id, result, now)) && LineInTurn(JobAnswered(s, id, result, now))
  {
    if id in s.running {
      var job, t := s.running[id], TakeAnswer(s, id, result);
      TakeLine(s, id, result);
      assert job in s.launched && job in Line(s);
      if result.Fault? {
        FaultLine(t, job, now);
      } else {
        VerdictLine(t, job, result.Green?, now);
      }
    }
  }

  lemma LaunchLine(s: State)
    requires LineKnown(s) && LineInTurn(s) && NextReady(s)
    requires s.plainQ != [] ==> s.plainQ[0].purpose.Plain? && s.plainQ[0].suite in s.suites
    ensures LineKnown(LaunchNext(s)) && LineInTurn(LaunchNext(s))
  {
    var t, job := LaunchNext(s), NextJob(s);
    if s.plainQ != [] {
      assert Line(t) == s.launched + [job] + s.attrQ;
      forall suite | suite in t.suites ensures InTurn(Line(t), suite, PurposesOf(t.shape, t.suites[suite].suspects)) {
        PurposesDiffer(s.shape, s.suites[suite].suspects);
        InsertInTurn(s.launched, job, s.attrQ, suite, PurposesOf(s.shape, s.suites[suite].suspects));
      }
    } else {
      assert Line(t) == Line(s);
    }
    forall x | x in Line(t) ensures x == job || x in Line(s) {
    }
    forall id | id in t.running ensures t.running[id] in t.launched {
    }
  }

  ghost predicate PlainsKnown(s: State) {
    forall j :: j in s.plainQ ==> j.purpose.Plain? && j.suite in s.suites
  }

  lemma {:induction false} NextJobsLine(s: State)
    requires LineKnown(s) && LineInTurn(s) && PlainsKnown(s)
    ensures LineKnown(NextJobs(s)) && LineInTurn(NextJobs(s))
    decreases |s.plainQ| + |s.attrQ|
  {
    if Spare(s) > 0 && NextReady(s) {
      LaunchLine(s);
      forall j | j in LaunchNext(s).plainQ ensures j in s.plainQ {
      }
      NextJobsLine(LaunchNext(s));
    }
  }

  lemma MainResultLine(s: State, suite: Suite, green: bool, suspects: seq<Id>, now: nat)
    requires LineKnown(s) && LineInTurn(s) && s.suites.Keys <= s.mainSeen
    ensures LineKnown(MainResult(s, suite, green, suspects, now))
    ensures LineInTurn(MainResult(s, suite, green, suspects, now))
  {
    if suite in s.mainSeen || green {
      SameLineKept(s, MainResult(s, suite, green, suspects, now));
    } else {
      var t := s.(mainSeen := s.mainSeen + {suite}, reds := s.reds + [suite],
                  suites := s.suites[suite := FreshSuite(suspects, now)]);
      assert Line(t) == Line(s);
      forall j | 0 <= j < |Line(t)| ensures Line(t)[j].suite != suite {
        assert Line(t)[j] in Line(s);
      }
      PlainLine(t, suite, [], false);
    }
  }

  lemma StepLine(s: State, e: Event)
    requires Inv(s) && LineKnown(s) && LineInTurn(s)
    ensures LineKnown(Step(s, e)) && LineInTurn(Step(s, e))
  {
    match e
    case MainReported(suite, green, suspects, at) => MainResultLine(s, suite, green, suspects, at);
    case MainEnded(at) => SameLineKept(s, MainDone(s, at));
    case HandedOut =>
      PlainsQueued(s);
      NextJobsLine(s);
    case Answered(id, result, at) =>
      if id in s.running {
        PlainFirst(s, id);
      }
      AnsweredLine(s, id, result, at);
  }

  lemma PlainsQueued(s: State)
    requires QueuesOk(s)
    ensures PlainsKnown(s)
  {
    forall j | j in s.plainQ ensures j.suite in s.suites {
      assert j in Jobs(s);
    }
  }

  lemma {:induction false} RunLine(s: State, events: seq<Event>)
    requires Inv(s) && LegalRun(s, events) && LineKnown(s) && LineInTurn(s)
    ensures LineKnown(Run(s, events)) && LineInTurn(Run(s, events))
  {
    if events != [] {
      var before := events[..|events| - 1];
      RunLine(s, before);
      RunKeeps(s, before);
      StepLine(Run(s, before), events[|events| - 1]);
    }
  }

  lemma ReachableLine(s: State)
    requires Reachable(s)
    ensures LineInTurn(s)
  {
    var budget, shape, mainTotal, events :| ReachedBy(s, budget, shape, mainTotal, events);
    InitialInv(budget, shape, mainTotal);
    RunLine(Initial(budget, shape, mainTotal), events);
  }

  // ----- launches in turn ------------------------------------------------------------------

  /** In every reachable state, whatever attribution run of a red was launched, the runs its red
      plain rerun called for before it had been launched before. */
  lemma LaunchedInTurn(s: State, suite: Suite)
    requires Reachable(s) && suite in s.suites
    ensures InTurn(s.launched, suite, PurposesOf(s.shape, s.suites[suite].suspects))
  {
    ReachableLine(s);
    FrontInTurn(s.launched, s.attrQ, suite, PurposesOf(s.shape, s.suites[suite].suspects));
  }

  /** Where the base run is called for: no member's removal set is the whole round. */
  predicate BaseCalledFor(shape: Shape, suspects: seq<Id>) {
    !HasRemoval(Withouts(shape, suspects + shape.members), shape.members)
  }

  /** The place of a member's run among those called for. */
  lemma PlaceOfRun(shape: Shape, suspects: seq<Id>, b: nat)
    requires b < |Withouts(shape, suspects + shape.members)|
    ensures
      var ps, n := PurposesOf(shape, suspects), if BaseCalledFor(shape, suspects) then 1 else 0;
      && n + b < |ps| && ps[n + b] == Without(Withouts(shape, suspects + shape.members)[b].0)
      && (n == 1 ==> ps[0] == Base)
  {
    WantsLayout(shape, suspects);
  }

  lemma RunsBefore(launched: seq<Job>, suite: Suite, shape: Shape, suspects: seq<Id>, j: nat, a: nat, b: nat)
    requires InTurn(launched, suite, PurposesOf(shape, suspects)) && j < |launched|
    requires a < b < |Withouts(shape, suspects + shape.members)|
    requires Is(launched[j], suite, Without(Withouts(shape, suspects + shape.members)[b].0))
    ensures EarlierIn(launched, suite, Without(Withouts(shape, suspects + shape.members)[a].0), j)
  {
    var ps, n := PurposesOf(shape, suspects), if BaseCalledFor(shape, suspects) then 1 else 0;
    PlaceOfRun(shape, suspects, a);
    PlaceOfRun(shape, suspects, b);
    assert Is(launched[j], suite, ps[n + b]);
  }

  lemma BaseBefore(launched: seq<Job>, suite: Suite, shape: Shape, suspects: seq<Id>, j: nat, b: nat)
    requires InTurn(launched, suite, PurposesOf(shape, suspects)) && j < |launched| && BaseCalledFor(shape, suspects)
    requires b < |Withouts(shape, suspects + shape.members)|
    requires Is(launched[j], suite, Without(Withouts(shape, suspects + shape.members)[b].0))
    ensures EarlierIn(launched, suite, Base, j)
  {
    PlaceOfRun(shape, suspects, b);
    assert Is(launched[j], suite, PurposesOf(shape, suspects)[1 + b]);
  }

  /** In every reachable state, no removal set of anyone but a suspect has been tried before every
      suspect's, and none at all before the base, where the base is called for. */
  lemma SuspectsLaunchedFirst(s: State, suite: Suite, j: nat, b: nat)
    requires Reachable(s) && suite in s.suites && j < |s.launched|
    requires
      var all := Withouts(s.shape, s.suites[suite].suspects + s.shape.members);
      b < |all| && Is(s.launched[j], suite, Without(all[b].0))
    ensures
      var ws := Withouts(s.shape, s.suites[suite].suspects);
      b >= |ws| ==> forall a :: 0 <= a < |ws| ==> EarlierIn(s.launched, suite, Without(ws[a].0), j)
    ensures BaseCalledFor(s.shape, s.suites[suite].suspects) ==> EarlierIn(s.launched, suite, Base, j)
  {
    var suspects := s.suites[suite].suspects;
    var ws := Withouts(s.shape, suspects);
    LaunchedInTurn(s, suite);
    SuspectsTriedFirst(s.shape, suspects, s.shape.members);
    if b >= |ws| {
      forall a | 0 <= a < |ws| ensures EarlierIn(s.launched, suite, Without(ws[a].0), j) {
        RunsBefore(s.launched, suite, s.shape, suspects, j, a, b);
      }
    }
    if BaseCalledFor(s.shape, suspects) {
      BaseBefore(s.launched, suite, s.shape, suspects, j, b);
    }
  }

  // ----- retries ---------------------------------------------------------------------------

  lemma RoomAfterFault(s: State, id: nat, now: nat)
    requires BudgetOk(s) && id in s.running && s.running[id].suite in s.suites
    ensures Spare(JobAnswered(s, id, Fault, now)) >= 1
  {
    FaultBooks(TakeAnswer(s, id, Fault), s.running[id], now);
    FewerRunning(s.running, id);
  }

  /** A red's run that faulted for the first time is the very next to be handed out, a plain rerun
      before everything and an attribution run before every other one; and a slot is free for it. */
  lemma FaultRelaunchedNext(s: State, id: nat, now: nat)
    requires Reachable(s) && id in s.running && s.running[id].suite in s.suites
    requires s.suites[s.running[id].suite].settled.None?
    requires FaultsOf(s.suites[s.running[id].suite], s.running[id].purpose) == 0
    ensures
      var job, t := s.running[id], JobAnswered(s, id, Fault, now);
      var again := Job(s.nextId, job.suite, job.removal, job.purpose);
      var ahead := if job.purpose.Plain? then 0 else |s.plainQ|;
      && HandOut(t) >= 1
      && (ahead < HandOut(t) ==>
            |s.launched| + ahead < |NextJobs(t).launched| && NextJobs(t).launched[|s.launched| + ahead] == again)
  {
    var job, t := s.running[id], JobAnswered(s, id, Fault, now);
    ReachableStep(s, Answered(id, Fault, now));
    FaultRetriedFirst(s, id, now);
    HandedOutInOrder(t);
    ReachableBudget(s);
    RoomAfterFault(s, id, now);
    FaultBooks(TakeAnswer(s, id, Fault), job, now);
    var ahead := if job.purpose.Plain? then 0 else |s.plainQ|;
    AheadIn(s.launched, t.plainQ + t.attrQ, HandOut(t), ahead);
  }

  lemma AheadIn(launched: seq<Job>, waiting: seq<Job>, k: nat, ahead: nat)
    requires ahead < |waiting| && k <= |waiting|
    ensures ahead < k ==>
              && |launched| + ahead < |launched + waiting[..k]|
              && (launched + waiting[..k])[|launched| + ahead] == waiting[ahead]
  {
  }

  lemma ReachableBudget(s: State)
    requires Reachable(s)
    ensures BudgetOk(s)
  {
    ReachableKeeps(s);
  }
}
