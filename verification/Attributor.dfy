// The attributor as it runs (batcher/src/attrib.rs): two job queues, the running set and one
// state per red suite, all updated in place. Each method is proved to take the object's value
// where the functions of AttributionSpec say, so every theorem about runs holds of the object.

module Attributors {
  import opened Prelude
  import opened Shapes
  import opened AttributionSpec
  import opened AttributionRuns
  import opened AttributionTheorems
  import opened AttributionDecision

  lemma ReachableFresh(budget: Budget, shape: Shape, mainTotal: nat)
    requires ShapeOk(shape)
    ensures Reachable(Initial(budget, shape, mainTotal))
  {
    assert ReachedBy(Initial(budget, shape, mainTotal), budget, shape, mainTotal, []);
  }

  lemma ReachableStep(s: State, e: Event)
    requires Reachable(s) && Legal(s, e)
    ensures Reachable(Step(s, e))
  {
    var budget, shape, mainTotal, events :| ReachedBy(s, budget, shape, mainTotal, events);
    var longer := events + [e];
    assert longer[..|longer| - 1] == events;
    var first := Initial(budget, shape, mainTotal);
    assert Legal(first, e) by {
      SameShape(first, events);
    }
    assert ReachedBy(Step(s, e), budget, shape, mainTotal, longer);
  }

  lemma {:induction false} SameShape(s: State, events: seq<Event>)
    ensures Run(s, events).shape == s.shape
  {
    if events != [] {
      SameShape(s, events[..|events| - 1]);
      StepShape(Run(s, events[..|events| - 1]), events[|events| - 1]);
    }
  }

  lemma EnqueueAllNone(s: State, suite: Suite)
    requires suite in s.suites
    ensures EnqueueAll(s, suite, []) == s
  {
    assert NewJobs([], suite, s.nextId) == [];
    var st := s.suites[suite];
    assert st.outstanding + (set j | j in NewJobs([], suite, s.nextId) :: j.id) == st.outstanding;
    assert s.suites[suite := st] == s.suites;
    assert s.attrQ + [] == s.attrQ;
  }

  /** Queueing runs one after another is queueing them all. */
  lemma IdsSnoc(jobs: seq<Job>, job: Job)
    ensures (set j | j in jobs + [job] :: j.id) == (set j | j in jobs :: j.id) + {job.id}
  {
    var ids, more := set j | j in jobs :: j.id, set j | j in jobs + [job] :: j.id;
    assert job in jobs + [job];
    forall id | id in ids ensures id in more {
      var j :| j in jobs && j.id == id;
      assert j in jobs + [job];
    }
  }

  lemma EnqueueAllSnoc(s: State, suite: Suite, wants: seq<(Purpose, seq<Id>)>, w: (Purpose, seq<Id>))
    requires suite in s.suites && !w.0.Plain?
    ensures Enqueue(EnqueueAll(s, suite, wants), suite, w.1, w.0, false) == EnqueueAll(s, suite, wants + [w])
  {
    var jobs := NewJobs(wants, suite, s.nextId);
    var job := Job(s.nextId + |wants|, suite, w.1, w.0);
    assert NewJobs(wants + [w], suite, s.nextId) == jobs + [job];
    var ids, ids' := set j | j in jobs :: j.id, set j | j in jobs + [job] :: j.id;
    IdsSnoc(jobs, job);
    assert s.suites[suite].outstanding + ids + {job.id} == s.suites[suite].outstanding + ids';
  }

  /** The base run first, when one is wanted, then the runs without each removal set. */
  lemma WantsLayout(shape: Shape, suspects: seq<Id>)
    ensures
      var ws, wants := Withouts(shape, suspects + shape.members), Wants(shape, suspects);
      var n := if HasRemoval(ws, shape.members) then 0 else 1;
      && |wants| == n + |ws|
      && (n == 1 ==> wants[0] == (Base, shape.members))
      && forall i :: 0 <= i < |ws| ==> wants[n + i] == (Without(ws[i].0), ws[i].1)
  {
    var ws := Withouts(shape, suspects + shape.members);
    var tail := seq(|ws|, i requires 0 <= i < |ws| => (Without(ws[i].0), ws[i].1));
    var head: seq<(Purpose, seq<Id>)> := if HasRemoval(ws, shape.members) then [] else [(Base, shape.members)];
    assert Wants(shape, suspects) == head + tail;
  }

  class Attributor {
    const budget: Budget
    const shape: Shape
    const mainTotal: nat
    var mainSeen: set<Suite>
    var mainEndAt: Option<nat>
    var suites: map<Suite, SuiteState>
    var reds: seq<Suite>
    var plainQ: seq<Job>
    var attrQ: seq<Job>
    var running: map<nat, Job>
    var nextId: nat
    var launched: seq<Job>
    ghost var log: seq<Answer>

    ghost function Value(): (s: State)
      reads this
    {
      State(budget, shape, mainTotal, mainSeen, mainEndAt, suites, reds, plainQ, attrQ, running, nextId, launched, log)
    }

    ghost predicate Valid()
      reads this
    {
      Reachable(Value())
    }

    constructor (budget: Budget, shape: Shape, mainTotal: nat)
      requires ShapeOk(shape)
      ensures Valid() && Value() == Initial(budget, shape, mainTotal)
    {
      this.budget, this.shape, this.mainTotal := budget, shape, mainTotal;
      mainSeen, mainEndAt, suites, reds := {}, None, map[], [];
      plainQ, attrQ, running, nextId, launched, log := [], [], map[], 1, [], [];
      ReachableFresh(budget, shape, mainTotal);
    }

    function MainInFlight(): (r: nat)
      reads this
      ensures r == AttributionSpec.MainInFlight(Value())
    {
      if mainEndAt.Some? then 0
      else
        var left := Minus(mainTotal, |mainSeen|);
        if left < budget.maxpar then left else budget.maxpar
    }

    function Spare(): (r: nat)
      reads this
      ensures r == AttributionSpec.Spare(Value())
    {
      Minus(Minus(budget.slots, MainInFlight()), |running|)
    }

    method Enqueue(suite: Suite, removal: seq<Id>, purpose: Purpose, front: bool)
      modifies this
      ensures Value() == AttributionSpec.Enqueue(old(Value()), suite, removal, purpose, front)
    {
      var id := nextId;
      nextId := nextId + 1;
      var job := Job(id, suite, removal, purpose);
      if suite in suites {
        suites := suites[suite := suites[suite].(outstanding := suites[suite].outstanding + {id})];
      }
      if purpose.Plain? {
        plainQ := Push(plainQ, job, front);
      } else {
        attrQ := Push(attrQ, job, front);
      }
    }

    /** One final result of the main run; `suspects` is only read on red. */
    method OnMainResult(suite: Suite, green: bool, suspects: seq<Id>, now: nat)
      requires Valid()
      requires !green ==> forall m :: m in suspects ==> m in shape.members
      modifies this
      ensures Valid() && Value() == MainResult(old(Value()), suite, green, suspects, now)
    {
      ReachableStep(Value(), MainReported(suite, green, suspects, now));
      var seen := suite in mainSeen;
      mainSeen := mainSeen + {suite};
      if seen || green {
        return;
      }
      reds := reds + [suite];
      suites := suites[suite := FreshSuite(suspects, now)];
      Enqueue(suite, [], Plain, false);
    }

    method OnMainDone(now: nat)
      requires Valid()
      modifies this
      ensures Valid() && Value() == MainDone(old(Value()), now)
    {
      ReachableStep(Value(), MainEnded(now));
      if mainEndAt.None? {
        mainEndAt := Some(now);
      }
    }

    /** The head of the plain queue, else of the attribution queue, starts running. */
    method Launch() returns (job: Job)
      requires plainQ != [] || attrQ != []
      modifies this
      ensures Value() == LaunchNext(old(Value())) && launched == old(launched) + [job]
    {
      if plainQ != [] {
        job, plainQ := plainQ[0], plainQ[1..];
      } else {
        job, attrQ := attrQ[0], attrQ[1..];
      }
      if job.suite in suites {
        suites := suites[job.suite := suites[job.suite].(reruns := suites[job.suite].reruns + 1)];
      }
      running := running[job.id := job];
      launched := launched + [job];
    }

    /** Hands out queued jobs while slots are spare, plain reruns first, each queue in order. */
    method NextJobs() returns (out: seq<Job>)
      requires Valid()
      modifies this
      ensures Valid() && Value() == AttributionSpec.NextJobs(old(Value()))
      ensures launched == old(launched) + out
    {
      ReachableStep(Value(), HandedOut);
      out := [];
      while Spare() > 0
        invariant AttributionSpec.NextJobs(Value()) == AttributionSpec.NextJobs(old(Value()))
        invariant launched == old(launched) + out
        decreases |plainQ| + |attrQ|
      {
        if plainQ == [] && attrQ == [] {
          break;
        }
        var job := Launch();
        out := out + [job];
      }
    }

    method CancelQueued(suite: Suite)
      modifies this
      ensures Value() == AttributionSpec.CancelQueued(old(Value()), suite)
    {
      var dropped := IdsOf(attrQ, suite) + IdsOf(plainQ, suite);
      attrQ := WithoutSuite(attrQ, suite);
      plainQ := WithoutSuite(plainQ, suite);
      if suite in suites {
        suites := suites[suite := suites[suite].(outstanding := suites[suite].outstanding - dropped)];
      }
    }

    method Settle(suite: Suite, outcome: Outcome, now: nat)
      modifies this
      ensures Value() == AttributionSpec.Settle(old(Value()), suite, outcome, now)
    {
      if suite in suites && suites[suite].settled.None? {
        suites := suites[suite := suites[suite].(settled := Some((outcome, now)))];
      }
      CancelQueued(suite);
    }

    method MaybeExhausted(suite: Suite, now: nat)
      modifies this
      ensures Value() == AttributionSpec.MaybeExhausted(old(Value()), suite, now)
    {
      if suite in suites {
        var st := suites[suite];
        if st.settled.None? && st.outstanding == {} && st.plainRed {
          Settle(suite, Unattributed, now);
        }
      }
    }

    /** The distinct removal sets of `ids`, each with the first id it belongs to. */
    method Distinct(ids: seq<Id>) returns (seen: set<seq<Id>>, withouts: seq<(Id, seq<Id>)>)
      ensures withouts == Withouts(shape, ids)
      ensures forall removal :: removal in seen <==> HasRemoval(withouts, removal)
    {
      seen, withouts := {}, [];
      for i := 0 to |ids|
        invariant withouts == Withouts(shape, ids[..i])
        invariant forall removal :: removal in seen <==> HasRemoval(withouts, removal)
      {
        assert ids[..i + 1][..i] == ids[..i];
        var removal := RemovalOf(shape, ids[i]);
        if removal !in seen {
          seen := seen + {removal};
          withouts := withouts + [(ids[i], removal)];
          assert withouts[|withouts| - 1].1 == removal;
        }
      }
      assert ids[..|ids|] == ids;
    }

    method EnqueueWithouts(suite: Suite, withouts: seq<(Id, seq<Id>)>, ghost s: State,
                           ghost wants: seq<(Purpose, seq<Id>)>)
      requires suite in s.suites && |wants| >= |withouts|
      requires Value() == EnqueueAll(s, suite, wants[..|wants| - |withouts|])
      requires forall i :: 0 <= i < |withouts| ==>
                 wants[|wants| - |withouts| + i] == (Without(withouts[i].0), withouts[i].1)
      modifies this
      ensures Value() == EnqueueAll(s, suite, wants)
    {
      ghost var n := |wants| - |withouts|;
      for i := 0 to |withouts|
        invariant Value() == EnqueueAll(s, suite, wants[..n + i])
      {
        assert wants[n + i] == (Without(withouts[i].0), withouts[i].1);
        assert wants[..n + i + 1] == wants[..n + i] + [wants[n + i]];
        EnqueueAllSnoc(s, suite, wants[..n + i], wants[n + i]);
        Enqueue(suite, withouts[i].1, Without(withouts[i].0), false);
      }
      assert wants[..n + |withouts|] == wants;
    }

    /** The base run, unless some removal set is the whole round, and one run per distinct set. */
    method QueueAttribution(suite: Suite, suspects: seq<Id>)
      requires suite in suites
      modifies this
      ensures Value() == EnqueueAll(old(Value()), suite, Wants(shape, suspects))
    {
      var seen, withouts := Distinct(suspects + shape.members);
      ghost var wants := Wants(shape, suspects);
      EnqueueAllNone(Value(), suite);
      WantsLayout(shape, suspects);
      assert wants[..0] == [];
      if shape.members !in seen {
        assert wants[..1] == wants[..0] + [wants[0]];
        EnqueueAllSnoc(Value(), suite, wants[..0], wants[0]);
        Enqueue(suite, shape.members, Base, false);
      }
      EnqueueWithouts(suite, withouts, old(Value()), wants);
    }

    /** Green without `x`: kept as an owner unless a narrower one explains it, in place of wider ones. */
    method AddOwner(suite: Suite, x: Id, removal: seq<Id>, now: nat)
      modifies this
      ensures Value() == AttributionSpec.AddOwner(old(Value()), suite, x, removal, now)
    {
      if suite !in suites {
        return;
      }
      var st := suites[suite];
      if st.settled.Some? && !st.settled.value.0.Owner? {
        return;
      }
      if exists o :: o in st.owners && StrictlyInside(o.1, removal) {
        return;
      }
      var owners := NotWider(st.owners, removal) + [(x, removal)];
      var at := if st.settled.Some? then st.settled.value.1 else now;
      suites := suites[suite := st.(owners := owners, settled := Some((Owner(Names(owners)), at)))];
      CancelQueued(suite);
    }

    method OnFault(job: Job, now: nat)
      requires job.suite in suites
      modifies this
      ensures Value() == AttributionSpec.OnFault(old(Value()), job, now)
    {
      var suite := job.suite;
      var st := suites[suite];
      var n := FaultsOf(st, job.purpose) + 1;
      ghost var s1 := Value().(suites := suites[suite := st.(faults := st.faults[job.purpose := n])]);
      suites := suites[suite := st.(faults := st.faults[job.purpose := n])];
      assert Value() == s1;
      if n < 2 && st.settled.None? {
        Enqueue(suite, job.removal, job.purpose, true);
      } else if job.purpose.Plain? {
        Settle(suite, Unattributed, now);
      }
      MaybeExhausted(suite, now);
    }

    method OnVerdict(job: Job, green: bool, now: nat)
      requires job.suite in suites
      modifies this
      ensures Value() == AttributionSpec.OnVerdict(old(Value()), job, green, now)
    {
      var suite := job.suite;
      var st := suites[suite];
      match job.purpose {
        case Plain =>
          if green {
            Settle(suite, Flaky, now);
          } else {
            suites := suites[suite := st.(plainRed := true)];
            QueueAttribution(suite, st.suspects);
          }
        case Base =>
          if green {
            suites := suites[suite := st.(baseGreen := true)];
            MaybeExhausted(suite, now);
          } else {
            Settle(suite, BaseRed, now);
          }
        case Without(x) =>
          var isEverything := |job.removal| == |shape.members|;
          if green {
            AddOwner(suite, x, job.removal, now);
          } else if isEverything {
            Settle(suite, BaseRed, now);
          } else {
            MaybeExhausted(suite, now);
          }
      }
    }

    method OnJobResult(jobId: nat, result: JobResult, now: nat)
      requires Valid()
      modifies this
      ensures Valid() && Value() == JobAnswered(old(Value()), jobId, result, now)
    {
      ReachableStep(Value(), Answered(jobId, result, now));
      if jobId !in running {
        return;
      }
      var job := running[jobId];
      running := running - {jobId};
      log := log + [Answer(job, result)];
      if job.suite !in suites {
        return;
      }
      suites := suites[job.suite := suites[job.suite].(outstanding := suites[job.suite].outstanding - {jobId})];
      if result.Fault? {
        OnFault(job, now);
      } else {
        OnVerdict(job, result.Green?, now);
      }
    }

    predicate Settled()
      reads this
      ensures Settled() <==> RoundSettled(Value())
    {
      mainEndAt.Some? && forall suite :: suite in suites ==> suites[suite].settled.Some?
    }

    /** Everything this run decided about its reds. */
    method Decide() returns (d: Decision)
      requires Valid()
      ensures forall suite :: suite in reds ==> suite in suites
      ensures d == DecisionOf(Value(), reds)
    {
      RedsKnown(Value());
      d := DecideOf(reds);
    }

    method DecideOf(some: seq<Suite>) returns (d: Decision)
      requires forall suite :: suite in some ==> suite in suites
      ensures d == DecisionOf(Value(), some)
    {
      d := NoDecision;
      for i := 0 to |some|
        invariant d == DecisionOf(Value(), some[..i])
      {
        assert some[..i + 1][..i] == some[..i];
        var suite := some[i];
        var st := suites[suite];
        var settledAt := if st.settled.Some? then Some(st.settled.value.1) else None;
        if st.settled.None? {
          d := d.(unattributed := d.unattributed + [suite]);
        } else {
          match st.settled.value.0 {
            case Owner(ids) =>
              var owners := d.owners;
              for k := 0 to |ids|
                invariant owners == Charge(d.owners, ids[..k], suite)
              {
                assert ids[..k + 1][..k] == ids[..k];
                owners := owners[ids[k] := (if ids[k] in owners then owners[ids[k]] else []) + [suite]];
              }
              assert ids[..|ids|] == ids;
              d := d.(owners := owners);
            case Flaky => d := d.(flaky := d.flaky + [suite]);
            case BaseRed => d := d.(base := d.base + [suite]);
            case Unattributed => d := d.(unattributed := d.unattributed + [suite]);
          }
        }
        d := d.(records := d.records + [RedRecord(
          suite, if st.settled.Some? then Some(st.settled.value.0) else None, st.redAt, settledAt, st.reruns,
          settledAt.Some? && (mainEndAt.None? || settledAt.value <= mainEndAt.value))]);
      }
      assert some[..|some|] == some;
    }

    method SolelyOwnedBy(owner: Id) returns (owned: seq<Suite>)
      requires forall suite :: suite in reds ==> suite in suites
      ensures owned == SolelyOwned(Value(), reds, owner)
    {
      owned := [];
      for k := 0 to |reds|
        invariant owned == SolelyOwned(Value(), reds[..k], owner)
      {
        assert reds[..k + 1][..k] == reds[..k];
        if SoleOf(suites[reds[k]]) == Some(owner) {
          owned := owned + [reds[k]];
        }
      }
      assert reds[..|reds|] == reds;
    }

    method FirstSoleOwner() returns (r: Option<Id>)
      requires forall suite :: suite in reds ==> suite in suites
      ensures r == FirstSole(Value(), reds)
    {
      for i := 0 to |reds|
        invariant FirstSole(Value(), reds) == FirstSole(Value(), reds[i..])
      {
        assert reds[i..][1..] == reds[i + 1..];
        if SoleOf(suites[reds[i]]).Some? {
          return SoleOf(suites[reds[i]]);
        }
      }
      r := None;
    }

    /** The first member that alone owns a red whose reruns are all back, and every such red. */
    method SoleOwner() returns (r: Option<(Id, seq<Suite>)>)
      requires Valid()
      ensures forall suite :: suite in reds ==> suite in suites
      ensures r.None? <==> FirstSole(Value(), reds).None?
      ensures r.Some? ==>
                Some(r.value.0) == FirstSole(Value(), reds)
                && r.value.1 == SolelyOwned(Value(), reds, r.value.0)
    {
      RedsKnown(Value());
      var owner := FirstSoleOwner();
      if owner.None? {
        return None;
      }
      var owned := SolelyOwnedBy(owner.value);
      r := Some((owner.value, owned));
    }
  }
}
