// A round the in-round fix lets through (batcher/src/drive.rs, lines 346-351): suite "b" is
// owned by the only member, suite "a" is red only in the merged tree, the fix repairs "a", only
// "a" is run again, and the round lands with "b" last seen red.

module RoundExamples {
  import opened Prelude
  import opened Reach
  import opened Shapes
  import opened AttributionSpec
  import opened AttributionRuns
  import opened AttributionTheorems
  import opened AttributionDecision
  import opened Members
  import opened Environment
  import opened Driving
  import opened DecisionSuites
  import opened RoundSpec
  import opened RoundTheorems
  import opened RoundCourse

  const X := Member("x", "tip", None, false, false, 0, map[], [])
  const ALONE := Shape(["x"], map["x" := ["x"]])
  const SLOTS := Budget(4, 0)

  lemma AloneCloses()
    ensures MemberIds([X]) == ["x"] && ClosesOver(ALONE, RoundEdges([X])) && ShapeOk(ALONE) && Distinct([X])
  {
    var e := RoundEdges([X]);
    assert e == {};
    CarriedHoldsSeeds(e, {"x"});
    CarriedLeast(e, {"x"}, {"x"});
    assert Within(["x"], {"x"}) == ["x"];
    assert MemberIds([X]) == ["x"];
    ClosesOverIsOk(ALONE, e);
  }

  // ----- the first pass: "a" faults away, "b" is green without x -----------------------------

  function Wait(redAt: nat, plainRed: bool, reruns: nat, faults: map<Purpose, nat>,
                outstanding: set<nat>): (r: SuiteState) {
    SuiteState(redAt, ["x"], plainRed, None, [], reruns, faults, outstanding, false)
  }

  const PLAIN_A := Job(1, "a", [], Plain)
  const PLAIN_B := Job(2, "b", [], Plain)
  const AGAIN_A := Job(3, "a", [], Plain)
  const WITHOUT_X := Job(4, "b", ["x"], Without("x"))

  const BOTH_RED := State(SLOTS, ALONE, 2, {"a", "b"}, Some(0),
    map["a" := Wait(0, false, 0, map[], {1}), "b" := Wait(0, false, 0, map[], {2})],
    ["a", "b"], [PLAIN_A, PLAIN_B], [], map[], 3, [], [])

  const FIRST := [MainReported("a", false, ["x"], 0), MainReported("b", false, ["x"], 0), MainEnded(0)]

  const A_RED := State(SLOTS, ALONE, 2, {"a"}, None,
    map["a" := Wait(0, false, 0, map[], {1})], ["a"], [PLAIN_A], [], map[], 2, [], [])

  lemma ARed()
    ensures Step(Initial(SLOTS, ALONE, 2), FIRST[0]) == A_RED
  {
    var s := Step(Initial(SLOTS, ALONE, 2), FIRST[0]);
    assert s.plainQ == [PLAIN_A];
    assert s.suites["a"] == Wait(0, false, 0, map[], {1});
    assert s.suites == A_RED.suites;
  }

  lemma BAlso()
    ensures Step(A_RED, FIRST[1]) == BOTH_RED.(mainEndAt := None)
  {
    var s := Step(A_RED, FIRST[1]);
    assert s.plainQ == [PLAIN_A, PLAIN_B];
    assert s.suites["b"] == Wait(0, false, 0, map[], {2});
    assert s.suites == BOTH_RED.suites;
  }

  lemma BothRed()
    ensures Run(Initial(SLOTS, ALONE, 2), FIRST) == BOTH_RED
  {
    ThreeSteps(Initial(SLOTS, ALONE, 2), FIRST[0], FIRST[1], FIRST[2]);
    ARed();
    BAlso();
    assert MainDone(BOTH_RED.(mainEndAt := None), 0) == BOTH_RED;
  }

  const BOTH_RUN := BOTH_RED.(
    suites := map["a" := Wait(0, false, 1, map[], {1}), "b" := Wait(0, false, 1, map[], {2})],
    plainQ := [], running := map[1 := PLAIN_A, 2 := PLAIN_B], launched := [PLAIN_A, PLAIN_B])

  lemma BothRun()
    ensures Step(BOTH_RED, HandedOut) == BOTH_RUN
  {
    var s1 := LaunchNext(BOTH_RED);
    var s2 := LaunchNext(s1);
    assert s1.plainQ == [PLAIN_B] && s1.running == map[1 := PLAIN_A];
    assert s2.plainQ == [] && s2.launched == [PLAIN_A, PLAIN_B];
    assert s2.suites["a"] == Wait(0, false, 1, map[], {1}) && s2.suites["b"] == Wait(0, false, 1, map[], {2});
    assert s2.suites == BOTH_RUN.suites;
    assert s2 == BOTH_RUN;
    assert NextJobs(s2) == s2;
    assert NextJobs(s1) == s2;
  }

  const A_FAULTED := BOTH_RUN.(
    suites := map["a" := Wait(0, false, 1, map[Plain := 1], {3}), "b" := Wait(0, false, 1, map[], {2})],
    plainQ := [AGAIN_A], running := map[2 := PLAIN_B], nextId := 4, log := [Answer(PLAIN_A, Fault)])

  lemma AFaulted()
    ensures Step(BOTH_RUN, Answered(1, Fault, 0)) == A_FAULTED
  {
    var t := TakeAnswer(BOTH_RUN, 1, Fault);
    var u := JobAnswered(BOTH_RUN, 1, Fault, 0);
    assert t.suites["a"] == Wait(0, false, 1, map[], {});
    assert t.running == map[2 := PLAIN_B];
    assert u.suites["a"] == Wait(0, false, 1, map[Plain := 1], {3});
    assert u.suites == A_FAULTED.suites;
    assert u.plainQ == [AGAIN_A];
  }

  const B_RED := A_FAULTED.(
    suites := map["a" := Wait(0, false, 1, map[Plain := 1], {3}), "b" := Wait(0, true, 1, map[], {4})],
    attrQ := [WITHOUT_X], running := map[], nextId := 5, log := [Answer(PLAIN_A, Fault), Answer(PLAIN_B, Red)])

  lemma OneRun()
    ensures Wants(ALONE, ["x"]) == [(Without("x"), ["x"])]
  {
    var ids := ["x"] + ALONE.members;
    assert ids == ["x", "x"] && ids[..1] == ["x"] && ids[..1][..0] == [];
    assert Withouts(ALONE, ids[..1]) == [("x", ["x"])];
    assert HasRemoval(Withouts(ALONE, ids[..1]), ["x"]) by {
      assert ("x", ["x"]) in Withouts(ALONE, ids[..1]);
    }
    assert Withouts(ALONE, ids) == [("x", ["x"])];
    assert HasRemoval(Withouts(ALONE, ids), ALONE.members);
  }

  const B_TAKEN := A_FAULTED.(
    suites := map["a" := Wait(0, false, 1, map[Plain := 1], {3}), "b" := Wait(0, false, 1, map[], {})],
    running := map[], log := [Answer(PLAIN_A, Fault), Answer(PLAIN_B, Red)])

  lemma BTaken()
    ensures TakeAnswer(A_FAULTED, 2, Red) == B_TAKEN
  {
    var t := TakeAnswer(A_FAULTED, 2, Red);
    assert t.running == map[] && t.suites["b"] == Wait(0, false, 1, map[], {});
    assert t.suites == B_TAKEN.suites;
  }

  lemma BRed()
    ensures OnVerdict(B_TAKEN, PLAIN_B, false, 0) == B_RED
  {
    var u := OnVerdict(B_TAKEN, PLAIN_B, false, 0);
    OneRun();
    assert NewJobs([(Without("x"), ["x"])], "b", 4) == [WITHOUT_X];
    assert (set j | j in [WITHOUT_X] :: j.id) == {4};
    assert u.suites["b"] == Wait(0, true, 1, map[], {4});
    assert u.suites == B_RED.suites;
    assert u.attrQ == [WITHOUT_X];
  }

  const BOTH_AGAIN := B_RED.(
    suites := map["a" := Wait(0, false, 2, map[Plain := 1], {3}), "b" := Wait(0, true, 2, map[], {4})],
    plainQ := [], attrQ := [], running := map[3 := AGAIN_A, 4 := WITHOUT_X],
    launched := [PLAIN_A, PLAIN_B, AGAIN_A, WITHOUT_X])

  lemma BothAgain()
    ensures Step(B_RED, HandedOut) == BOTH_AGAIN
  {
    var s1 := LaunchNext(B_RED);
    var s2 := LaunchNext(s1);
    assert s1.plainQ == [] && s1.running == map[3 := AGAIN_A];
    assert s2.attrQ == [] && s2.launched == BOTH_AGAIN.launched && s2.running == BOTH_AGAIN.running;
    assert s2.suites == BOTH_AGAIN.suites;
    assert s2 == BOTH_AGAIN;
    assert NextJobs(s2) == s2;
    assert NextJobs(s1) == s2;
  }

  const A_LOST := SuiteState(0, ["x"], false, Some((Unattributed, 0)), [], 2, map[Plain := 2], {}, false)

  const B_OWNED := SuiteState(0, ["x"], true, Some((Owner(["x"]), 0)), [("x", ["x"])], 2, map[], {}, false)

  const A_SETTLED := BOTH_AGAIN.(
    suites := map["a" := A_LOST, "b" := Wait(0, true, 2, map[], {4})],
    running := map[4 := WITHOUT_X], log := B_RED.log + [Answer(AGAIN_A, Fault)])

  const DECIDED := A_SETTLED.(
    suites := map["a" := A_LOST, "b" := B_OWNED],
    running := map[], log := A_SETTLED.log + [Answer(WITHOUT_X, Green)])

  const A_ANSWERED := A_SETTLED.(
    suites := map["a" := Wait(0, false, 2, map[Plain := 1], {}), "b" := Wait(0, true, 2, map[], {4})])

  const B_ANSWERED := DECIDED.(suites := map["a" := A_LOST, "b" := Wait(0, true, 2, map[], {})])

  lemma AAnswered()
    ensures TakeAnswer(BOTH_AGAIN, 3, Fault) == A_ANSWERED
  {
    var t := TakeAnswer(BOTH_AGAIN, 3, Fault);
    assert t.running == map[4 := WITHOUT_X] && t.suites["a"] == Wait(0, false, 2, map[Plain := 1], {});
    assert t.suites == A_ANSWERED.suites;
  }

  lemma ALost()
    ensures OnFault(A_ANSWERED, AGAIN_A, 0) == A_SETTLED
  {
    var u := OnFault(A_ANSWERED, AGAIN_A, 0);
    assert IdsOf([], "a") == {};
    assert u.suites["a"] == A_LOST;
    assert u.suites == A_SETTLED.suites;
  }

  lemma BAnswered()
    ensures TakeAnswer(A_SETTLED, 4, Green) == B_ANSWERED
  {
    var t := TakeAnswer(A_SETTLED, 4, Green);
    assert t.running == map[] && t.suites["b"] == Wait(0, true, 2, map[], {});
    assert t.suites == B_ANSWERED.suites;
  }

  lemma BOwned()
    ensures OnVerdict(B_ANSWERED, WITHOUT_X, true, 0) == DECIDED
  {
    var u := OnVerdict(B_ANSWERED, WITHOUT_X, true, 0);
    assert !OwnsNothingNew(B_ANSWERED.suites["b"], ["x"]);
    assert NotWider([], ["x"]) + [("x", ["x"])] == [("x", ["x"])];
    assert Names([("x", ["x"])]) == ["x"];
    assert IdsOf([], "b") == {};
    assert u.suites["b"] == B_OWNED;
    assert u.suites == DECIDED.suites;
  }

  lemma FaultStep(s: State, id: nat, job: Job, t: State, u: State)
    requires id in s.running && s.running[id] == job && job.suite in s.suites && TakeAnswer(s, id, Fault) == t
    requires OnFault(t, job, 0) == u
    ensures Step(s, Answered(id, Fault, 0)) == u
  {
  }

  lemma VerdictStep(s: State, id: nat, job: Job, green: bool, t: State, u: State)
    requires id in s.running && s.running[id] == job && job.suite in s.suites
    requires TakeAnswer(s, id, if green then Green else Red) == t && OnVerdict(t, job, green, 0) == u
    ensures Step(s, Answered(id, if green then Green else Red, 0)) == u
  {
  }

  const TO_BLAME := [HandedOut, Answered(1, Fault, 0), Answered(2, Red, 0)]

  const TO_DECIDE := [HandedOut, Answered(3, Fault, 0), Answered(4, Green, 0)]

  lemma {:induction false} RunSplit(s: State, before: seq<Event>, after: seq<Event>)
    ensures Run(s, before + after) == Run(Run(s, before), after)
  {
    if after == [] {
      assert before + after == before;
    } else {
      var shorter, last := after[..|after| - 1], after[|after| - 1];
      assert (before + after)[..|before + after| - 1] == before + shorter;
      RunSplit(s, before, shorter);
    }
  }

  lemma OneMore(s: State, events: seq<Event>, e: Event)
    ensures Run(s, events + [e]) == Step(Run(s, events), e)
  {
    assert (events + [e])[..|events|] == events;
  }

  lemma ThreeSteps(s: State, a: Event, b: Event, c: Event)
    ensures Run(s, [a, b, c]) == Step(Step(Step(s, a), b), c)
  {
    assert [] + [a] == [a] && [a] + [b] == [a, b] && [a, b] + [c] == [a, b, c];
    OneMore(s, [], a);
    OneMore(s, [a], b);
    OneMore(s, [a, b], c);
  }

  lemma Blamed()
    ensures Run(BOTH_RED, TO_BLAME) == B_RED
  {
    ThreeSteps(BOTH_RED, HandedOut, Answered(1, Fault, 0), Answered(2, Red, 0));
    BothRun();
    AFaulted();
    BTaken();
    BRed();
    VerdictStep(A_FAULTED, 2, PLAIN_B, false, B_TAKEN, B_RED);
  }

  lemma Decided()
    ensures Run(B_RED, TO_DECIDE) == DECIDED
  {
    ThreeSteps(B_RED, HandedOut, Answered(3, Fault, 0), Answered(4, Green, 0));
    BothAgain();
    AAnswered();
    ALost();
    FaultStep(BOTH_AGAIN, 3, AGAIN_A, A_ANSWERED, A_SETTLED);
    BAnswered();
    BOwned();
    VerdictStep(A_SETTLED, 4, WITHOUT_X, true, B_ANSWERED, DECIDED);
  }

  lemma RunDecides()
    ensures Run(Initial(SLOTS, ALONE, 2), FIRST + TO_BLAME + TO_DECIDE) == DECIDED
  {
    var start := Initial(SLOTS, ALONE, 2);
    BothRed();
    Blamed();
    Decided();
    RunSplit(start, FIRST, TO_BLAME);
    RunSplit(start, FIRST + TO_BLAME, TO_DECIDE);
  }

  lemma EventsLegal()
    ensures LegalRun(Initial(SLOTS, ALONE, 2), FIRST + TO_BLAME + TO_DECIDE)
  {
    forall e | e in FIRST + TO_BLAME + TO_DECIDE ensures Legal(Initial(SLOTS, ALONE, 2), e) {
      assert e.MainReported? ==> e in FIRST;
    }
  }

  lemma DecidedReachable()
    ensures Reachable(DECIDED)
  {
    RunDecides();
    AloneCloses();
    EventsLegal();
    assert ReachedBy(DECIDED, SLOTS, ALONE, 2, FIRST + TO_BLAME + TO_DECIDE);
  }

  // ----- the second pass: only "a", now green ----------------------------------------------

  const A_GREEN := State(SLOTS, ALONE, 1, {"a"}, Some(0), map[], [], [], [], map[], 1, [], [])

  lemma AGreen()
    ensures Reachable(A_GREEN)
  {
    var events := [MainReported("a", true, [], 0), MainEnded(0)];
    assert events[..1][..0] == [];
    assert Run(Initial(SLOTS, ALONE, 1), events[..1]) == A_GREEN.(mainEndAt := None);
    AloneCloses();
    assert ReachedBy(A_GREEN, SLOTS, ALONE, 1, events);
  }

  const START := Round([X], ["a", "b"], Corpus, false, false)

  const VERIFY_A := Round([X], ["a"], Verify, true, false)

  const FIXED_A := Faced(["a"], true, None, [], [], None)

  const NOTHING_ASKED := Faced([], false, None, [], [], None)

  const MOVED := Faced(["a"], false, Some("sha"), [], [], None)

  const END := Land([X], Some(0))

  ghost const FIX_ASKS := [Recorded(0, DecisionOf(DECIDED, ["a", "b"])), FixTried([X], ["a"], true)]

  ghost const FIXING := PassRecord(START, Settled(None, DecisionOf(DECIDED, ["a", "b"]), Ran, 0, 0), DECIDED, {}, [],
                                   Go(ByFix, VERIFY_A), FIXED_A, FIX_ASKS)

  ghost const LANDING := PassRecord(VERIFY_A, Settled(None, NoDecision, Ran, 0, 0), A_GREEN, {"a"}, [], Ended(END),
                                    NOTHING_ASKED, [Recorded(1, NoDecision)])

  lemma FixingDecides()
    ensures FIXING.settled.decision.unattributed == ["a"]
    ensures FIXING.settled.decision.owners == map["x" := ["b"]]
    ensures IntegrationSet(FIXING.settled.decision) == {"a"}
  {
    var reds := ["a", "b"];
    assert reds[..1] == ["a"] && reds[..1][..0] == [];
    assert DecisionOf(DECIDED, reds[..1]).unattributed == ["a"];
    assert ["x"][..0] == [];
    assert [] + ["b"] == ["b"];
    assert Charge(map[], ["x"], "b") == map["x" := ["b"]];
    var d := DecisionOf(DECIDED, reds);
    assert d.owners == map["x" := ["b"]];
    assert d.unattributed == ["a"];
    OnlyOnce();
    forall suite ensures suite in IntegrationSet(d) <==> suite == "a" {
      IntegrationSetIs(d, suite);
    }
  }

  lemma OnlyOnce()
    ensures forall suite :: !ChargedTwice(map["x" := ["b"]], suite)
  {
  }

  lemma FixingJudged()
    ensures Judged(FIXING) && Distinct(START.members)
  {
    AloneCloses();
    DecidedReachable();
    assert Elems(["a", "b"]) == {"a", "b"};
    assert DECIDED.suites.Keys == {"a", "b"};
  }

  lemma FixingOk()
    ensures PassOk(FIXING)
  {
    FixingJudged();
    FixingDecides();
    assert Elems(["a"]) == {"a"};
  }

  lemma FixingBooked()
    ensures ByTheBook(FIXING, 0)
  {
    FixingDecides();
    assert Elems(["a"]) == {"a"};
    var d := FIXING.settled.decision;
    assert [] + ["b"] == ["b"];
    assert d.base == [] by {
      var reds := ["a", "b"];
      assert reds[..1] == ["a"] && reds[..1][..0] == [];
      assert DecisionOf(DECIDED, reds[..1]).base == [];
    }
    assert CourseOf(START, FIXING.settled, FIXED_A) == TakesFix;
    assert FIX_ASKS == OpeningAsks(d, 0) + FixAsks(START, FIXED_A);
  }

  lemma LandingBooked()
    ensures ByTheBook(LANDING, 1)
  {
    var d := LANDING.settled.decision;
    forall suite ensures suite !in IntegrationSet(d) {
      IntegrationSetIs(d, suite);
    }
    assert CourseOf(VERIFY_A, LANDING.settled, NOTHING_ASKED) == Clears;
    assert LANDING.asks == OpeningAsks(d, 1) + [];
    assert AskedOn(LANDING, []);
  }

  lemma LandingOk()
    ensures PassOk(LANDING)
  {
    AloneCloses();
    AGreen();
    assert Elems(["a"]) == {"a"};
    assert Judged(LANDING);
  }

  lemma FixLinks()
    ensures Linked(["a", "b"], [X], [FIXING])
  {
    FixingOk();
    assert [FIXING] == [] + [FIXING];
    LinkedMore(["a", "b"], [X], [], FIXING);
  }

  lemma FixLands()
    ensures RoundRan(["a", "b"], [X], [FIXING, LANDING], END)
  {
    FixLinks();
    LandingOk();
    assert [FIXING, LANDING] == [FIXING] + [LANDING];
    LinkedMore(["a", "b"], [X], [FIXING], LANDING);
  }

  lemma BLeftRed()
    ensures !LastSafe([FIXING, LANDING], "b")
  {
    var trace := [FIXING, LANDING];
    assert !Safe(trace[0], "b");
    assert "b" !in trace[1].round.suites;
  }

  /** The round, by the book from end to end, lands although "b", owned by x, was last seen red. */
  lemma FixLandsUnsafe()
    ensures RoundRan(["a", "b"], [X], [FIXING, LANDING], END) && AllByTheBook([FIXING, LANDING])
    ensures !LastSafe([FIXING, LANDING], "b")
  {
    FixLands();
    FixingBooked();
    LandingBooked();
    BLeftRed();
  }

  // ----- a round of nobody -----------------------------------------------------------------

  const NOBODY := Shape([], map[])

  const LOST := SuiteState(0, [], false, Some((Unattributed, 0)), [], 2, map[Plain := 2], {}, false)

  const RETRIED_A := Job(2, "a", [], Plain)

  const RED_ALONE := State(SLOTS, NOBODY, 1, {"a"}, Some(0),
    map["a" := SuiteState(0, [], false, None, [], 1, map[], {1}, false)],
    ["a"], [], [], map[1 := PLAIN_A], 2, [PLAIN_A], [])

  const RED_AGAIN := RED_ALONE.(
    suites := map["a" := SuiteState(0, [], false, None, [], 2, map[Plain := 1], {2}, false)],
    running := map[2 := RETRIED_A], nextId := 3, launched := [PLAIN_A, RETRIED_A], log := [Answer(PLAIN_A, Fault)])

  const RED_LOST := RED_AGAIN.(
    suites := map["a" := LOST], running := map[], log := [Answer(PLAIN_A, Fault), Answer(RETRIED_A, Fault)])

  lemma RedAlone()
    ensures Run(Initial(SLOTS, NOBODY, 1), TO_RED) == RED_ALONE
  {
    var s := Initial(SLOTS, NOBODY, 1);
    ThreeSteps(s, MainReported("a", false, [], 0), MainEnded(0), HandedOut);
    var s2 := Step(Step(s, MainReported("a", false, [], 0)), MainEnded(0));
    assert s2.plainQ == [PLAIN_A];
    assert s2.suites["a"] == SuiteState(0, [], false, None, [], 0, map[], {1}, false);
    var s3 := LaunchNext(s2);
    assert s3.suites == RED_ALONE.suites && s3.running == RED_ALONE.running && s3.launched == [PLAIN_A];
    assert NextJobs(s3) == s3;
  }

  lemma RedAgain()
    ensures NextJobs(JobAnswered(RED_ALONE, 1, Fault, 0)) == RED_AGAIN
  {
    var t := TakeAnswer(RED_ALONE, 1, Fault);
    assert t.running == map[] && t.suites["a"].outstanding == {};
    var u := JobAnswered(RED_ALONE, 1, Fault, 0);
    assert u.plainQ == [RETRIED_A] && u.running == map[];
    assert u.suites["a"] == SuiteState(0, [], false, None, [], 1, map[Plain := 1], {2}, false);
    var v := LaunchNext(u);
    assert v.suites == RED_AGAIN.suites && v.running == RED_AGAIN.running && v.launched == RED_AGAIN.launched;
    assert NextJobs(v) == v;
  }

  lemma RedLost()
    ensures JobAnswered(RED_AGAIN, 2, Fault, 0) == RED_LOST
  {
    var t := TakeAnswer(RED_AGAIN, 2, Fault);
    var u := JobAnswered(RED_AGAIN, 2, Fault, 0);
    assert t.running == map[] && t.suites["a"].outstanding == {};
    assert IdsOf([], "a") == {};
    assert u.suites["a"] == LOST;
    assert u.suites == RED_LOST.suites;
  }

  const TO_RED := [MainReported("a", false, [], 0), MainEnded(0), HandedOut]

  const TO_LOST := [Answered(1, Fault, 0), HandedOut, Answered(2, Fault, 0)]

  lemma Lost()
    ensures Run(RED_ALONE, TO_LOST) == RED_LOST
  {
    ThreeSteps(RED_ALONE, Answered(1, Fault, 0), HandedOut, Answered(2, Fault, 0));
    RedAgain();
    RedLost();
  }

  lemma LostReachable()
    ensures Reachable(RED_LOST)
  {
    assert Run(Initial(SLOTS, NOBODY, 1), TO_RED + TO_LOST) == RED_LOST by {
      RedAlone();
      Lost();
      RunSplit(Initial(SLOTS, NOBODY, 1), TO_RED, TO_LOST);
    }
    assert LegalRun(Initial(SLOTS, NOBODY, 1), TO_RED + TO_LOST);
    assert ReachedBy(RED_LOST, SLOTS, NOBODY, 1, TO_RED + TO_LOST);
  }

  const NONE_LEFT := Round([], ["a"], Corpus, false, false)

  const NONE_RETRIED := Round([], ["a"], Verify, false, true)

  ghost const STUCK := Settled(None, DecisionOf(RED_LOST, ["a"]), Ran, 0, 0)

  ghost const RETRY_ASKS := [Recorded(0, STUCK.decision), FixTried([], ["a"], false), BaseAsked([], Some("sha"))]

  ghost const LATE_FIX_ASKS := [Recorded(1, STUCK.decision), FixTried([], ["a"], true)]

  ghost const RETRYING := PassRecord(NONE_LEFT, STUCK, RED_LOST, {}, [], Go(ByRetry, NONE_RETRIED),
                                     MOVED, RETRY_ASKS)

  ghost const FIXING_NOBODY := PassRecord(NONE_RETRIED, STUCK, RED_LOST, {}, [],
                                          Go(ByFix, NONE_RETRIED.(fixed := true)), FIXED_A, LATE_FIX_ASKS)

  lemma StuckDecides()
    ensures STUCK.decision.unattributed == ["a"] && STUCK.decision.owners == map[] && RED_LOST.reds == ["a"]
  {
    var reds := ["a"];
    assert reds[..0] == [];
    assert DecisionOf(RED_LOST, reds[..0]) == NoDecision;
    assert RED_LOST.suites["a"].settled == Some((Unattributed, 0));
    assert DecisionOf(RED_LOST, reds).unattributed == [] + ["a"];
  }

  lemma StuckJudged()
    ensures Judged(RETRYING) && Judged(FIXING_NOBODY)
  {
    LostReachable();
    StuckDecides();
    assert RoundEdges([]) == {};
    assert MemberIds([]) == [];
  }

  lemma StuckOk()
    ensures PassOk(RETRYING) && PassOk(FIXING_NOBODY)
  {
    StuckJudged();
    StuckDecides();
    assert Elems(["a"]) == {"a"};
    forall suite ensures suite in IntegrationSet(STUCK.decision) <==> suite == "a" {
      IntegrationSetIs(STUCK.decision, suite);
    }
  }

  lemma StuckBooked()
    ensures ByTheBook(RETRYING, 0) && ByTheBook(FIXING_NOBODY, 1)
  {
    StuckDecides();
    var d := STUCK.decision;
    assert Elems(["a"]) == {"a"};
    forall suite ensures suite in IntegrationSet(d) <==> suite == "a" {
      IntegrationSetIs(d, suite);
    }
    assert d.base == [] by {
      var reds := ["a"];
      assert reds[..0] == [];
      assert DecisionOf(RED_LOST, reds[..0]) == NoDecision;
    }
    assert CourseOf(NONE_LEFT, STUCK, MOVED) == TakesRetry;
    assert CourseOf(NONE_RETRIED, STUCK, FIXED_A) == TakesFix;
    assert RETRY_ASKS == OpeningAsks(d, 0) + (FixAsks(NONE_LEFT, MOVED) + BaseAsks(NONE_LEFT, d, MOVED));
    assert LATE_FIX_ASKS == OpeningAsks(d, 1) + FixAsks(NONE_RETRIED, FIXED_A);
  }

  /** With no member at all, a retry and then a fix use up the bound: the round gives up. */
  lemma NobodyGivesUp()
    ensures AllByTheBook([RETRYING, FIXING_NOBODY])
    ensures RoundRan(["a"], [], [RETRYING, FIXING_NOBODY], Blocked(STILL_EJECTING))
    ensures GaveUp([], [RETRYING, FIXING_NOBODY], Blocked(STILL_EJECTING))
  {
    StuckOk();
    StuckBooked();
    var trace := [RETRYING, FIXING_NOBODY];
    assert [RETRYING] == [] + [RETRYING] && trace == [RETRYING] + [FIXING_NOBODY];
    LinkedMore(["a"], [], [], RETRYING);
    LinkedMore(["a"], [], [RETRYING], FIXING_NOBODY);
  }
}
