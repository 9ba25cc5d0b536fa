// Which way a pass goes (batcher/src/drive.rs, attribute_round): the course its verdicts and the
// world's answers set, in order of precedence, with everything it asks and tells on the way.

module RoundCourse {
  import opened Prelude
  import opened AttributionSpec
  import opened AttributionDecision
  import opened Members
  import opened Environment
  import opened Driving
  import opened DecisionSuites
  import opened RoundSpec

  const WORKSPACE_BUILD: Suite := "workspace-build"

  const NO_WORKSPACE := "the round's workspace failed to build"
  const SURVIVED_FIX := "integration red survived the in-round fix"
  const UNATTRIBUTED := "unattributed red"
  const EMPTIED := "round emptied by ejection"
  const LOST_REBUILDING := "round emptied rebuilding the tree after ejection"
  const LOST_MENDING := "round emptied rebuilding the tree after the menders"
  const STILL_EJECTING := "still ejecting after the bound"

  datatype Course = NoWorkspace | TakesFix | SurvivesFix | TakesRetry | Unexplains | Clears | Mends | Ejects

  /** What a pass comes to, the first that applies: the workspace did not build; the first
      in-round fix took; integration red after one; unattributed red, retried once if the base
      moved and nobody owns a red; nobody owns a red; the menders own the pass; the owners go. */
  function CourseOf(r: Round, s: Settled, f: Faced): (c: Course) {
    var d := s.decision;
    if s.end.WorkspaceBuild? then NoWorkspace
    else if f.integration != [] && !r.fixed && f.fixed then TakesFix
    else if f.integration != [] && r.fixed then SurvivesFix
    else if d.unattributed != [] then
      if !r.retried && d.owners == map[] && f.moved.Some? then TakesRetry else Unexplains
    else if d.owners == map[] then Clears
    else if s.preempt.None? && f.mended.Some? then Mends
    else Ejects
  }

  // ----- where a course leads --------------------------------------------------------------

  function Found(members: seq<Member>, id: Id): (r: Option<Member>) {
    if members == [] then None
    else if members[0].id == id then Some(members[0])
    else Found(members[1..], id)
  }

  /** Those the menders send away, each with what it owns or, owning nothing, with every suite
      they handled. */
  function SentAway(members: seq<Member>, owners: map<Id, seq<Suite>>, suites: seq<Suite>,
                    left: seq<Mender.Left>): (r: seq<Ejection>) {
    if left == [] then []
    else
      var id := left[|left| - 1].id;
      var member := Found(members, id);
      SentAway(members, owners, suites, left[..|left| - 1])
      + (if member.None? then []
         else [Ejection(member.value, if id in owners then owners[id] else suites, id in owners)])
  }

  ghost predicate BlockedAs(p: PassRecord, reason: string) {
    p.onto == Ended(Blocked(reason))
  }

  ghost predicate GoesAs(p: PassRecord, how: How) {
    p.onto.Go? && p.onto.how == how
  }

  ghost predicate MendedTo(p: PassRecord, m: Mended) {
    match m.next
    case Stop(page) => BlockedAs(p, page) && p.ejected == []
    case Pass(next, left, retry) =>
      && p.ejected == SentAway(p.round.members, p.settled.decision.owners, m.suites, left)
      && if next == [] then BlockedAs(p, EMPTIED)
         else if retry && left == [] then GoesAs(p, ByMending) && p.onto.round.members == next
             && p.onto.round.suites == m.suites
         else
           || BlockedAs(p, LOST_MENDING)
           || (GoesAs(p, ByMending) && SubList(p.onto.round.members, next) && p.onto.round.suites == m.suites)
  }

  ghost function Survivors(p: PassRecord): (r: seq<Member>) {
    Remaining(p.round.members, Out(p.round.members, p.settled.decision.owners.Keys))
  }

  ghost predicate CourseTaken(p: PassRecord) {
    match CourseOf(p.round, p.settled, p.faced)
    case NoWorkspace => BlockedAs(p, NO_WORKSPACE) && p.ejected == []
    case TakesFix => GoesAs(p, ByFix) && p.onto.round.suites == p.faced.integration
    case SurvivesFix => BlockedAs(p, SURVIVED_FIX) && p.ejected == []
    case TakesRetry => GoesAs(p, ByRetry)
    case Unexplains => BlockedAs(p, UNATTRIBUTED) && p.ejected == []
    case Clears =>
      && p.onto.Ended? && p.ejected == [] && (p.settled.decision.flaky == [] ==> p.onto.end.Land?)
      && (p.faced.unproven != [] ==> p.onto.end.Blocked?)
    case Mends =>
      && MendedOk(p.faced.mended.value, p.settled.decision, p.round.members, p.round.suites)
      && MendedTo(p, p.faced.mended.value)
    case Ejects =>
      && EjectsOwners(p)
      && if Survivors(p) == [] then BlockedAs(p, EMPTIED) else GoesAs(p, ByEjection) || BlockedAs(p, LOST_REBUILDING)
  }

  // ----- what it asks and tells ------------------------------------------------------------

  function EscapesBy(m: Member, suites: seq<Suite>): (r: seq<Ask>) {
    seq(|suites|, i requires 0 <= i < |suites| => EscapeTold(m, suites[i]))
  }

  /** Every owner of the round with every suite it owns. */
  function Escapes(members: seq<Member>, owners: map<Id, seq<Suite>>): (r: seq<Ask>) {
    if members == [] then []
    else
      var m := members[|members| - 1];
      Escapes(members[..|members| - 1], owners) + EscapesBy(m, if m.id in owners then owners[m.id] else [])
  }

  function OpeningAsks(d: Decision, iteration: nat): (r: seq<Ask>) {
    [Recorded(iteration, d)] + (if d.base != [] then [Raised("base", d.base)] else [])
  }

  function FixAsks(r: Round, f: Faced): (a: seq<Ask>) {
    if f.integration != [] && !r.fixed then [FixTried(r.members, f.integration, f.fixed)] else []
  }

  function BaseAsks(r: Round, d: Decision, f: Faced): (a: seq<Ask>) {
    if !r.retried && d.owners == map[] then [BaseAsked(r.members, f.moved)] else []
  }

  /** A tree rebuilt on `survivors`, and on whom it came out. */
  ghost predicate RebuiltOn(asks: seq<Ask>, survivors: seq<Member>, onto: Onto) {
    exists merged ::
      && asks == [TreeRebuilt(survivors, merged)]
      && if onto.Go? then onto.round.members == merged else merged == []
  }

  ghost predicate MendedAsks(m: Mended, onto: Onto, asks: seq<Ask>) {
    var told := if m.unattributed != [] then [Raised("unattributed", m.unattributed)] else [];
    match m.next
    case Stop(_) => asks == told + [Raised("mender-page", m.suites)]
    case Pass(next, left, retry) =>
      if next == [] || (retry && left == []) then asks == told
      else exists rebuilt :: asks == told + rebuilt && RebuiltOn(rebuilt, next, onto)
  }

  /** Who had to hear of it before the owners go. */
  function EjectionTold(r: Round, s: Settled): (a: seq<Ask>) {
    if s.preempt.Some? then [PreemptTold(s.preempt.value.owner, s.preempt.value.unreached)]
    else [MendersAsked(s.decision, r.members, None)]
  }

  ghost predicate EjectedAsks(r: Round, s: Settled, onto: Onto, asks: seq<Ask>) {
    var told := if s.preempt.Some? then [] else Escapes(r.members, s.decision.owners);
    var survivors := Remaining(r.members, Out(r.members, s.decision.owners.Keys));
    if survivors == [] then asks == told
    else exists rebuilt :: asks == told + rebuilt && RebuiltOn(rebuilt, survivors, onto)
  }

  /** Everything asked after the opening, on each course. */
  ghost predicate AskedOn(p: PassRecord, asks: seq<Ask>) {
    var r, d, f := p.round, p.settled.decision, p.faced;
    match CourseOf(r, p.settled, f)
    case NoWorkspace => asks == []
    case TakesFix => asks == FixAsks(r, f)
    case SurvivesFix => asks == [Raised("integration", f.integration)]
    case TakesRetry => asks == FixAsks(r, f) + BaseAsks(r, d, f)
    case Unexplains => asks == FixAsks(r, f) + BaseAsks(r, d, f) + [JudgeCalled(d.unattributed, MemberIds(r.members))]
    case Clears =>
      && NamesFor(f.named, d.flaky)
      && asks == FixAsks(r, f) + NamingAsks(f.named)
                 + (if f.unproven != [] then [Raised("unattributed", f.unproven)] else [])
    case Mends => exists rest :: asks == FixAsks(r, f) + [MendersAsked(d, r.members, f.mended)] + rest
                                 && MendedAsks(f.mended.value, p.onto, rest)
    case Ejects => exists rest :: asks == FixAsks(r, f) + EjectionTold(r, p.settled) + rest
                                  && EjectedAsks(r, p.settled, p.onto, rest)
  }

  ghost predicate Asked(p: PassRecord, iteration: nat) {
    if p.settled.end.WorkspaceBuild? then p.asks == [Raised(WORKSPACE_BUILD, [WORKSPACE_BUILD])]
    else exists asks :: p.asks == OpeningAsks(p.settled.decision, iteration) + asks && AskedOn(p, asks)
  }

  /** A pass that went the way its verdicts and the answers it met call for, and asked and told
      exactly what that way asks. */
  ghost predicate ByTheBook(p: PassRecord, iteration: nat) {
    && (p.settled.end.Ran? ==>
        NoDup(p.faced.integration) && Elems(p.faced.integration) == IntegrationSet(p.settled.decision))
    && CourseTaken(p) && Asked(p, iteration)
  }

  // ----- what going by the book comes to ---------------------------------------------------

  lemma NoneIn(suites: seq<Suite>)
    ensures (forall suite :: suite !in suites) ==> suites == []
  {
    if suites != [] {
      assert suites[0] in suites;
    }
  }

  /** Nothing of the pass is anyone's fault: it ran out, and every suite was green or is red on
      the base alone. */
  ghost predicate AllClear(p: PassRecord) {
    && p.settled.end.Ran? && p.settled.preempt.None?
    && forall suite :: suite in p.round.suites ==>
         suite in p.greens || (suite in p.v.suites && IsOutcome(p.v, suite, BaseRed))
  }

  lemma ClearDecides(p: PassRecord)
    requires Judged(p) && AllClear(p)
    ensures
      var d := p.settled.decision;
      d.owners == map[] && d.flaky == [] && d.unattributed == [] && IntegrationSet(d) == {}
  {
    var v, d := p.v, p.settled.decision;
    RedsKnown(v);
    DecisionSorts(v, v.reds);
    DecisionKeys(v, v.reds);
    forall suite | suite in v.reds ensures IsOutcome(v, suite, BaseRed) {
      assert suite in Elems(p.round.suites);
    }
    if x :| x in d.owners {
      assert Charged(d.owners, x, d.owners[x][0]);
      assert false;
    }
    NoneIn(d.flaky);
    NoneIn(d.unattributed);
    assert d.owners == map[];
    forall suite ensures suite !in IntegrationSet(d) {
      IntegrationSetIs(d, suite);
    }
  }

  /** A pass with nothing to answer for lands, then and there, every member it ran with. */
  lemma ClearLands(p: PassRecord, iteration: nat)
    requires PassOk(p) && ByTheBook(p, iteration) && AllClear(p)
    ensures p.onto.Ended? && p.onto.end.Land? && p.onto.end.members == p.round.members
    ensures p.ejected == [] && p.asks == OpeningAsks(p.settled.decision, iteration)
  {
    ClearDecides(p);
    ElemsNone(p.faced.integration);
    assert CourseOf(p.round, p.settled, p.faced) == Clears;
    var asks :| p.asks == OpeningAsks(p.settled.decision, iteration) + asks && AskedOn(p, asks);
    assert asks == [];
  }

  /** Every pass went by the book. */
  ghost predicate AllByTheBook(trace: seq<PassRecord>) {
    forall i: nat :: i < |trace| ==> ByTheBook(trace[i], i)
  }

  /** A pass's evidence is what the runner showed in its main run, on its members and suites. */
  ghost predicate BorneOut(p: PassRecord, session: Session) {
    Witnessed(p.v, p.greens, p.round.kind, p.round.members, p.round.suites, session)
  }

  ghost predicate ReportedGreen(session: Session, suite: Suite) {
    suite in session.verdicts && session.verdicts[suite]
  }

  lemma PreemptedRed(p: PassRecord) returns (suite: Suite)
    requires Judged(p) && p.settled.preempt.Some?
    ensures suite in p.round.suites && suite !in p.greens
    ensures suite in p.v.suites && !IsOutcome(p.v, suite, BaseRed)
  {
    FirstSoleIs(p.v, p.v.reds);
    suite :| suite in p.v.reds && SoleOf(p.v.suites[suite]) == FirstSole(p.v, p.v.reds);
    assert suite in Elems(p.round.suites);
  }

  /** A red of one owner is no part of a clear pass, so such a pass was not stopped early. */
  lemma ClearRunsOut(p: PassRecord, session: Session)
    requires Judged(p) && BorneOut(p, session) && p.settled.end.Ran?
    requires forall suite :: suite in p.round.suites ==>
               ReportedGreen(session, suite) || (suite in p.v.suites && IsOutcome(p.v, suite, BaseRed))
    ensures AllClear(p)
  {
    if p.settled.preempt.Some? {
      var suite := PreemptedRed(p);
      assert false;
    }
  }

  /** A round whose whole corpus the runner reported green, or was red on the base alone, lands all
      its members in one pass. */
  lemma GreenRoundLands(corpus: seq<Suite>, starting: seq<Member>, trace: seq<PassRecord>, end: RoundEnd,
                        session: Session)
    requires RoundRan(corpus, starting, trace, end) && AllByTheBook(trace)
    requires BorneOut(trace[0], session) && trace[0].settled.end.Ran?
    requires forall suite :: suite in corpus ==>
               ReportedGreen(session, suite) || (suite in trace[0].v.suites && IsOutcome(trace[0].v, suite, BaseRed))
    ensures |trace| == 1 && end.Land? && end.members == starting
  {
    LinkedAt(corpus, starting, trace, 0);
    ClearRunsOut(trace[0], session);
    ClearLands(trace[0], 0);
    if |trace| > 1 {
      LinkedStep(corpus, starting, trace, 1);
      assert false;
    }
  }

  lemma {:induction false} SentAwayNamed(members: seq<Member>, owners: map<Id, seq<Suite>>, suites: seq<Suite>,
                                         left: seq<Mender.Left>, id: Id)
    requires id in EjectedIds(SentAway(members, owners, suites, left))
    ensures exists l :: l in left && l.id == id
  {
    if left != [] {
      var shorter, last := left[..|left| - 1], left[|left| - 1];
      var before := SentAway(members, owners, suites, shorter);
      FoundIs(members, last.id);
      var i :| 0 <= i < |EjectedIds(SentAway(members, owners, suites, left))|
               && EjectedIds(SentAway(members, owners, suites, left))[i] == id;
      if i < |before| {
        assert EjectedIds(before)[i] == id;
        SentAwayNamed(members, owners, suites, shorter, id);
      } else {
        assert last in left;
      }
    }
  }

  lemma {:induction false} FoundIs(members: seq<Member>, id: Id)
    ensures Found(members, id).Some? ==> Found(members, id).value in members && Found(members, id).value.id == id
    ensures Found(members, id).None? ==> id !in MemberIds(members)
  {
    if members != [] && members[0].id != id {
      FoundIs(members[1..], id);
      assert MemberIds(members) == [members[0].id] + MemberIds(members[1..]);
    }
  }

  lemma MendedStayOut(p: PassRecord, m: Mended, id: Id)
    requires p.onto.Go? && MendedOk(m, p.settled.decision, p.round.members, p.round.suites) && MendedTo(p, m)
    requires SubList(MemberIds(p.onto.round.members), MemberIds(p.round.members))
    requires id in MemberIds(p.onto.round.members)
    ensures id in MemberIds(p.round.members) && id !in EjectedIds(p.ejected)
  {
    var next := p.onto.round.members;
    SubListHas(MemberIds(next), MemberIds(p.round.members), id);
    if id in EjectedIds(p.ejected) {
      SentAwayNamed(p.round.members, p.settled.decision.owners, m.suites, m.next.left, id);
      var k := IdHas(next, id);
      if next != m.next.members {
        SubListHas(next, m.next.members, k);
      }
      IdIn(m.next.members, k);
      assert false;
    }
  }

  lemma OwnersStayOut(p: PassRecord, id: Id)
    requires p.onto.Go? && GoesByEjection(p, p.onto.round) && id in MemberIds(p.onto.round.members)
    ensures id in MemberIds(p.round.members) && id !in EjectedIds(p.ejected)
  {
    var gone := Out(p.round.members, p.settled.decision.owners.Keys);
    var m := IdHas(p.onto.round.members, id);
    SubListHas(p.onto.round.members, Remaining(p.round.members, gone), m);
    RemainingKept(p.round.members, gone, m);
    IdIn(p.round.members, m);
    WithinElems(MemberIds(p.round.members), gone);
  }

  lemma SubRoundIn(members: seq<Member>, next: seq<Member>, id: Id)
    requires SubList(next, members) && id in MemberIds(next)
    ensures id in MemberIds(members)
  {
    var m := IdHas(next, id);
    SubListHas(next, members, m);
    IdIn(members, m);
  }

  lemma MendingWas(p: PassRecord)
    requires CourseTaken(p) && GoesAs(p, ByMending)
    ensures p.faced.mended.Some?
    ensures MendedOk(p.faced.mended.value, p.settled.decision, p.round.members, p.round.suites)
    ensures MendedTo(p, p.faced.mended.value)
  {
  }

  /** What going on leaves of the members. */
  ghost predicate StaysOut(p: PassRecord)
    requires p.onto.Go?
  {
    forall id :: id in MemberIds(p.onto.round.members) ==>
      id in MemberIds(p.round.members) && id !in EjectedIds(p.ejected)
  }

  lemma MendingStaysOut(p: PassRecord)
    requires CourseTaken(p) && GoesAs(p, ByMending) && GoesByMending(p, p.onto.round)
    ensures StaysOut(p)
  {
    MendingWas(p);
    forall id | id in MemberIds(p.onto.round.members)
      ensures id in MemberIds(p.round.members) && id !in EjectedIds(p.ejected)
    {
      MendedStayOut(p, p.faced.mended.value, id);
    }
  }

  lemma RetryStaysOut(p: PassRecord)
    requires p.onto.Go? && GoesByRetry(p, p.onto.round)
    ensures StaysOut(p)
  {
    forall id | id in MemberIds(p.onto.round.members)
      ensures id in MemberIds(p.round.members) && id !in EjectedIds(p.ejected)
    {
      SubRoundIn(p.round.members, p.onto.round.members, id);
    }
  }

  lemma EjectionStaysOut(p: PassRecord)
    requires p.onto.Go? && GoesByEjection(p, p.onto.round)
    ensures StaysOut(p)
  {
    forall id | id in MemberIds(p.onto.round.members)
      ensures id in MemberIds(p.round.members) && id !in EjectedIds(p.ejected)
    {
      OwnersStayOut(p, id);
    }
  }

  /** Whoever a pass ejects is not in the round it goes on with, and nobody joins. */
  lemma EjectedStayOut(p: PassRecord)
    requires PassOk(p) && CourseTaken(p) && p.onto.Go?
    ensures StaysOut(p)
  {
    match p.onto.how
    case ByFix =>
    case ByRetry => RetryStaysOut(p);
    case ByMending => MendingStaysOut(p);
    case ByEjection => EjectionStaysOut(p);
  }

  lemma {:induction false} RemainingKept(members: seq<Member>, gone: set<Id>, m: Member)
    requires m in Remaining(members, gone)
    ensures m in members && m.id !in gone
  {
    var shorter, last := members[..|members| - 1], members[|members| - 1];
    if m in Remaining(shorter, gone) {
      RemainingKept(shorter, gone, m);
    }
  }

  lemma LinkStaysOut(corpus: seq<Suite>, starting: seq<Member>, trace: seq<PassRecord>, i: nat)
    requires Linked(corpus, starting, trace) && AllByTheBook(trace) && i + 1 < |trace|
    ensures trace[i].onto.Go? && trace[i].onto.round == trace[i + 1].round && StaysOut(trace[i])
  {
    LinkedStep(corpus, starting, trace, i + 1);
    LinkedAt(corpus, starting, trace, i);
    assert ByTheBook(trace[i], i);
    EjectedStayOut(trace[i]);
  }

  /** From pass to pass, whoever was ejected stays out and nobody joins. */
  ghost predicate AllStayOut(trace: seq<PassRecord>) {
    forall i: nat :: i + 1 < |trace| ==> StayOutAt(trace, i)
  }

  ghost predicate StayOutAt(trace: seq<PassRecord>, i: nat)
    requires i + 1 < |trace|
  {
    trace[i].onto.Go? && trace[i].onto.round == trace[i + 1].round && StaysOut(trace[i])
  }

  lemma RoundStaysOut(corpus: seq<Suite>, starting: seq<Member>, trace: seq<PassRecord>)
    requires Linked(corpus, starting, trace) && AllByTheBook(trace)
    ensures AllStayOut(trace)
  {
    forall i: nat | i + 1 < |trace| ensures StayOutAt(trace, i) {
      LinkStaysOut(corpus, starting, trace, i);
    }
  }

  lemma {:induction false} OutForGood(trace: seq<PassRecord>, i: nat, j: nat, id: Id)
    requires AllStayOut(trace) && i < j < |trace| && id in MemberIds(trace[j].round.members)
    ensures id !in EjectedIds(trace[i].ejected) && id in MemberIds(trace[i].round.members)
    decreases j
  {
    assert StayOutAt(trace, j - 1);
    if i < j - 1 {
      OutForGood(trace, i, j - 1, id);
    }
  }

  lemma LandingMembers(corpus: seq<Suite>, starting: seq<Member>, trace: seq<PassRecord>, end: RoundEnd)
    requires RoundRan(corpus, starting, trace, end) && end.Land?
    ensures trace[0].round.members == starting
    ensures trace[|trace| - 1].round.members == end.members && trace[|trace| - 1].ejected == []
  {
    LinkedAt(corpus, starting, trace, |trace| - 1);
    LinkedAt(corpus, starting, trace, 0);
  }

  lemma NeverWasOut(trace: seq<PassRecord>, id: Id)
    requires AllStayOut(trace) && trace != [] && id in MemberIds(trace[|trace| - 1].round.members)
    requires trace[|trace| - 1].ejected == []
    ensures id in MemberIds(trace[0].round.members)
    ensures forall i :: 0 <= i < |trace| ==> id !in EjectedIds(trace[i].ejected)
  {
    var n := |trace| - 1;
    forall i | 0 <= i < |trace| ensures id !in EjectedIds(trace[i].ejected) {
      if i < n {
        OutForGood(trace, i, n, id);
      }
    }
    if n > 0 {
      OutForGood(trace, 0, n, id);
    }
  }

  /** Nobody lands who was ejected, in whatever pass, and nobody lands who did not start. */
  lemma LandedNeverEjected(corpus: seq<Suite>, starting: seq<Member>, trace: seq<PassRecord>, end: RoundEnd, id: Id)
    requires RoundRan(corpus, starting, trace, end) && AllByTheBook(trace) && end.Land? && id in MemberIds(end.members)
    ensures id in MemberIds(starting)
    ensures forall i :: 0 <= i < |trace| ==> id !in EjectedIds(trace[i].ejected)
  {
    LandingMembers(corpus, starting, trace, end);
    RoundStaysOut(corpus, starting, trace);
    NeverWasOut(trace, id);
  }

  // ----- once a round ----------------------------------------------------------------------

  lemma FlagsKept(p: PassRecord)
    requires PassOk(p) && p.onto.Go?
    ensures p.round.fixed || p.onto.how.ByFix? <==> p.onto.round.fixed
    ensures p.round.retried || p.onto.how.ByRetry? <==> p.onto.round.retried
    ensures p.onto.how.ByFix? ==> !p.round.fixed
    ensures p.onto.how.ByRetry? ==> !p.round.retried
  {
  }

  ghost predicate FlagsLink(trace: seq<PassRecord>, i: nat)
    requires i + 1 < |trace|
  {
    && trace[i].onto.Go?
    && (trace[i].round.fixed || trace[i].onto.how.ByFix? <==> trace[i + 1].round.fixed)
    && (trace[i].round.retried || trace[i].onto.how.ByRetry? <==> trace[i + 1].round.retried)
  }

  lemma FlagsLinked(corpus: seq<Suite>, starting: seq<Member>, trace: seq<PassRecord>, i: nat)
    requires Linked(corpus, starting, trace) && i + 1 < |trace|
    ensures FlagsLink(trace, i)
  {
    LinkedStep(corpus, starting, trace, i + 1);
    LinkedAt(corpus, starting, trace, i);
    FlagsKept(trace[i]);
  }

  lemma {:induction false} FlagsStay(trace: seq<PassRecord>, i: nat, j: nat)
    requires i < j < |trace| && trace[i].onto.Go? && forall k: nat :: k + 1 < |trace| ==> FlagsLink(trace, k)
    ensures trace[i].round.fixed || trace[i].onto.how.ByFix? ==> trace[j].round.fixed
    ensures trace[i].round.retried || trace[i].onto.how.ByRetry? ==> trace[j].round.retried
    decreases j
  {
    assert FlagsLink(trace, i) && FlagsLink(trace, j - 1);
    if i < j - 1 {
      FlagsStay(trace, i, j - 1);
    }
  }

  lemma TakenBefore(p: PassRecord)
    requires PassOk(p) && p.onto.Go?
    ensures p.round.fixed ==> !p.onto.how.ByFix?
    ensures p.round.retried ==> !p.onto.how.ByRetry?
  {
    FlagsKept(p);
  }

  /** A round takes the in-round fix at most once, and goes on from a moved base at most once. */
  lemma TakenOnce(corpus: seq<Suite>, starting: seq<Member>, trace: seq<PassRecord>, i: nat, j: nat)
    requires Linked(corpus, starting, trace) && i < j < |trace| && trace[i].onto.Go? && trace[j].onto.Go?
    ensures trace[i].onto.how.ByFix? ==> !trace[j].onto.how.ByFix?
    ensures trace[i].onto.how.ByRetry? ==> !trace[j].onto.how.ByRetry?
  {
    forall k: nat | k + 1 < |trace| ensures FlagsLink(trace, k) {
      FlagsLinked(corpus, starting, trace, k);
    }
    FlagsStay(trace, i, j);
    LinkedAt(corpus, starting, trace, j);
    TakenBefore(trace[j]);
  }

  ghost predicate NoJudge(asks: seq<Ask>) {
    forall a :: a in asks ==> !a.JudgeCalled?
  }

  lemma NoJudgeBoth(a: seq<Ask>, b: seq<Ask>)
    requires NoJudge(a) && NoJudge(b)
    ensures NoJudge(a + b)
  {
  }

  lemma {:induction false} EscapesNoJudge(members: seq<Member>, owners: map<Id, seq<Suite>>)
    ensures NoJudge(Escapes(members, owners))
  {
    if members != [] {
      var m := members[|members| - 1];
      EscapesNoJudge(members[..|members| - 1], owners);
      NoJudgeBoth(Escapes(members[..|members| - 1], owners), EscapesBy(m, if m.id in owners then owners[m.id] else []));
    }
  }

  lemma MendedNoJudge(m: Mended, onto: Onto, asks: seq<Ask>)
    requires MendedAsks(m, onto, asks)
    ensures NoJudge(asks)
  {
  }

  lemma EjectedNoJudge(r: Round, s: Settled, onto: Onto, asks: seq<Ask>)
    requires EjectedAsks(r, s, onto, asks)
    ensures NoJudge(asks)
  {
    EscapesNoJudge(r.members, s.decision.owners);
  }

  /** Away from unexplained red, nobody calls the judge. */
  lemma CourseNoJudge(p: PassRecord, asks: seq<Ask>)
    requires AskedOn(p, asks) && !CourseOf(p.round, p.settled, p.faced).Unexplains?
    ensures NoJudge(asks)
  {
    var r, d, f := p.round, p.settled.decision, p.faced;
    match CourseOf(r, p.settled, f)
    case NoWorkspace =>
    case TakesFix =>
    case SurvivesFix =>
    case TakesRetry =>
    case Clears =>
    case Mends =>
      var rest :| asks == FixAsks(r, f) + [MendersAsked(d, r.members, f.mended)] + rest
                  && MendedAsks(f.mended.value, p.onto, rest);
      MendedNoJudge(f.mended.value, p.onto, rest);
    case Ejects =>
      var rest :| asks == FixAsks(r, f) + EjectionTold(r, p.settled) + rest && EjectedAsks(r, p.settled, p.onto, rest);
      EjectedNoJudge(r, p.settled, p.onto, rest);
  }

  /** The judge is called only on unexplained red, about all of it. */
  lemma JudgeMeans(p: PassRecord, iteration: nat, a: Ask)
    requires CourseTaken(p) && Asked(p, iteration) && a in p.asks && a.JudgeCalled?
    ensures BlockedAs(p, UNATTRIBUTED)
    ensures a == JudgeCalled(p.settled.decision.unattributed, MemberIds(p.round.members))
  {
    if p.settled.end.Ran? {
      var d := p.settled.decision;
      var asks :| p.asks == OpeningAsks(d, iteration) + asks && AskedOn(p, asks);
      assert NoJudge(OpeningAsks(d, iteration));
      assert a in asks;
      if !CourseOf(p.round, p.settled, p.faced).Unexplains? {
        CourseNoJudge(p, asks);
        assert false;
      }
    }
  }

  /** And that is the end of the round. */
  lemma JudgeEndsRound(corpus: seq<Suite>, starting: seq<Member>, trace: seq<PassRecord>, i: nat, a: Ask)
    requires Linked(corpus, starting, trace) && AllByTheBook(trace)
    requires i < |trace| && a in trace[i].asks && a.JudgeCalled?
    ensures i == |trace| - 1 && trace[i].onto == Ended(Blocked(UNATTRIBUTED))
  {
    assert ByTheBook(trace[i], i);
    JudgeMeans(trace[i], i, a);
    if i + 1 < |trace| {
      LinkedStep(corpus, starting, trace, i + 1);
      assert false;
    }
  }
}
