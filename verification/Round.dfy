// The merge round (batcher/src/drive.rs, attribute_round): main runs with attribution, and
// between them the in-round fix, the retry on a moved base, the menders, or the ejection of
// the owners, until the round lands or is blocked. The method is proved to produce a trace.

module Rounds {
  import opened Prelude
  import opened Reach
  import opened Shapes
  import opened AttributionSpec
  import opened Members
  import opened Environment
  import opened Driving
  import opened Flips
  import opened DecisionSuites
  import opened RoundSpec
  import opened RoundTheorems
  import opened RoundCourse

  // ----- ejecting the owners ---------------------------------------------------------------

  /** A partial account of who goes out: owners with their suites, dependents with an owner's. */
  ghost predicate OutOk(members: seq<Member>, owners: map<Id, seq<Suite>>, out: map<Id, seq<Suite>>) {
    && owners.Keys <= out.Keys <= Out(members, owners.Keys)
    && forall id :: id in out ==> LeavesWith(members, owners, id, out[id])
  }

  lemma DependentLeaves(members: seq<Member>, owners: map<Id, seq<Suite>>, m: Member, p: Id, suites: seq<Suite>)
    requires m in members && p in m.stack && LeavesWith(members, owners, p, suites)
    requires m.id !in owners
    ensures LeavesWith(members, owners, m.id, suites)
  {
    assert (p, m.id) in StackedOn(members);
    if p in owners {
      CarriedHoldsSeeds(StackedOn(members), {p});
      CarriedStep(StackedOn(members), {p}, p, m.id);
    } else {
      var x :| x in owners && p in Out(members, {x}) && suites == owners[x];
      CarriedStep(StackedOn(members), {x}, p, m.id);
    }
  }

  lemma OutMore(members: seq<Member>, owners: map<Id, seq<Suite>>, out: map<Id, seq<Suite>>, m: Member, p: Id)
    requires OutOk(members, owners, out) && m in members && p in m.stack && p in out && m.id !in out
    ensures OutOk(members, owners, out[m.id := out[p]])
  {
    assert (p, m.id) in StackedOn(members);
    assert m.id in Out(members, owners.Keys) by {
      CarriedStep(StackedOn(members), owners.Keys, p, m.id);
    }
    DependentLeaves(members, owners, m, p, out[p]);
  }

  method OutOne(members: seq<Member>, owners: map<Id, seq<Suite>>, m: Member, out0: map<Id, seq<Suite>>)
    returns (out: map<Id, seq<Suite>>)
    requires m in members && OutOk(members, owners, out0)
    ensures OutOk(members, owners, out) && out0.Keys <= out.Keys
    ensures (exists p :: p in m.stack && p in out0) ==> m.id in out
  {
    out := out0;
    if p :| p in m.stack.Keys && p in out {
      if m.id !in out {
        OutMore(members, owners, out, m, p);
        out := out[m.id := out[p]];
      }
    }
  }

  method OutPass(members: seq<Member>, owners: map<Id, seq<Suite>>, before: map<Id, seq<Suite>>)
    returns (out: map<Id, seq<Suite>>)
    requires OutOk(members, owners, before)
    ensures OutOk(members, owners, out) && before.Keys <= out.Keys
    ensures out.Keys == before.Keys ==> Closed(StackedOn(members), before.Keys)
  {
    out := before;
    for i := 0 to |members|
      invariant OutOk(members, owners, out) && before.Keys <= out.Keys
      invariant forall m, p :: m in members[..i] && p in m.stack && p in before ==> m.id in out
    {
      TakeOneMore(members, i);
      out := OutOne(members, owners, members[i], out);
    }
    assert members[..|members|] == members;
    if out.Keys == before.Keys {
      Mender.NothingLeft(members, before.Keys);
    }
  }

  /** Every owner leaves with its suites; a member stacked on an owner leaves with it. */
  method WhoGoesOut(members: seq<Member>, owners: map<Id, seq<Suite>>) returns (out: map<Id, seq<Suite>>)
    ensures OutOk(members, owners, out) && out.Keys == Out(members, owners.Keys)
  {
    CarriedHoldsSeeds(StackedOn(members), owners.Keys);
    out := owners;
    while true
      invariant OutOk(members, owners, out)
      decreases |Out(members, owners.Keys)| - |out|
    {
      var before := out;
      out := OutPass(members, owners, before);
      SameSizeSame(before.Keys, out.Keys);
      SameSizeSame(out.Keys, Out(members, owners.Keys));
      assert |out| == |out.Keys| && |before| == |before.Keys|;
      if |out| == |before| {
        break;
      }
    }
    FixpointIsCarried(StackedOn(members), owners.Keys, out.Keys);
  }

  /** The ejections of those who go out, in round order. */
  ghost predicate EjectionsAre(members: seq<Member>, owners: map<Id, seq<Suite>>, out: map<Id, seq<Suite>>,
                               ejected: seq<Ejection>) {
    && EjectedIds(ejected) == Within(MemberIds(members), out.Keys)
    && forall e :: e in ejected ==>
         e.member in members && e.member.id in out && e.suites == out[e.member.id]
         && (e.owner <==> e.member.id in owners)
  }

  lemma EjectOneMore(members: seq<Member>, m: Member, owners: map<Id, seq<Suite>>, out: map<Id, seq<Suite>>,
                     ejected: seq<Ejection>)
    requires EjectionsAre(members, owners, out, ejected)
    ensures EjectionsAre(members + [m], owners, out,
              if m.id in out then ejected + [Ejection(m, out[m.id], m.id in owners)] else ejected)
  {
    assert MemberIds(members + [m]) == MemberIds(members) + [m.id];
    WithinSnoc(MemberIds(members), m.id, out.Keys);
    if m.id in out {
      var e := Ejection(m, out[m.id], m.id in owners);
      assert EjectedIds(ejected + [e]) == EjectedIds(ejected) + [m.id];
    }
  }

  method EjectAll(ops: Ops, members: seq<Member>, owners: map<Id, seq<Suite>>, out: map<Id, seq<Suite>>)
    returns (survivors: seq<Member>, ghost ejected: seq<Ejection>)
    modifies ops`ejections
    ensures ops.ejections == old(ops.ejections) + ejected
    ensures EjectionsAre(members, owners, out, ejected)
    ensures survivors == Remaining(members, out.Keys)
  {
    survivors, ejected := [], [];
    for i := 0 to |members|
      invariant ops.ejections == old(ops.ejections) + ejected
      invariant EjectionsAre(members[..i], owners, out, ejected)
    {
      TakeOneMore(members, i);
      EjectOneMore(members[..i], members[i], owners, out, ejected);
      if members[i].id in out {
        ops.Eject(members[i], out[members[i].id], members[i].id in owners);
        ejected := ejected + [Ejection(members[i], out[members[i].id], members[i].id in owners)];
      }
    }
    assert members[..|members|] == members;
    for i := 0 to |members|
      invariant ops.ejections == old(ops.ejections) + ejected
      invariant survivors == Remaining(members[..i], out.Keys)
    {
      TakeOneMore(members, i);
      if members[i].id !in out {
        survivors := survivors + [members[i]];
      }
    }
  }

  /** Reruns one owner's suites on the full round tree, `n` reruns having gone before. */
  method EscapesOfOne(runner: Runner, ops: Ops, m: Member, suites: seq<Suite>, n0: nat) returns (n: nat)
    modifies runner`inFlight, runner`heard, runner`loads, runner`patience, runner`clock, ops`asked
    ensures ops.asked == old(ops.asked) + EscapesBy(m, suites)
    ensures forall id :: id in runner.inFlight ==> id in old(runner.inFlight)
    ensures forall x :: x in old(runner.heard) ==> x in runner.heard
  {
    n := n0;
    for k := 0 to |suites|
      invariant ops.asked == old(ops.asked) + EscapesBy(m, suites[..k])
      invariant forall id :: id in runner.inFlight ==> id in old(runner.inFlight)
      invariant forall x :: x in old(runner.heard) ==> x in runner.heard
    {
      n := n + 1;
      var rerun := RerunWithMembers(runner, suites[k], n);
      ops.Escape(m, suites[k], rerun);
      assert EscapesBy(m, suites[..k + 1]) == EscapesBy(m, suites[..k]) + [EscapeTold(m, suites[k])];
    }
    assert suites[..|suites|] == suites;
  }

  /** Reruns each owned suite once on the full round tree, for the escape record. */
  method RecordEscapes(runner: Runner, ops: Ops, members: seq<Member>, owners: map<Id, seq<Suite>>)
    modifies runner`inFlight, runner`heard, runner`loads, runner`patience, runner`clock, ops`asked
    ensures ops.asked == old(ops.asked) + Escapes(members, owners)
    ensures forall id :: id in runner.inFlight ==> id in old(runner.inFlight)
    ensures forall x :: x in old(runner.heard) ==> x in runner.heard
  {
    var n := 0;
    for i := 0 to |members|
      invariant ops.asked == old(ops.asked) + Escapes(members[..i], owners)
      invariant forall id :: id in runner.inFlight ==> id in old(runner.inFlight)
      invariant forall x :: x in old(runner.heard) ==> x in runner.heard
    {
      TakeOneMore(members, i);
      n := EscapesOfOne(runner, ops, members[i], if members[i].id in owners then owners[members[i].id] else [], n);
    }
    assert members[..|members|] == members;
  }

  // ----- one pass --------------------------------------------------------------------------

  function Longest(worst: Option<nat>, records: seq<RedRecord>): (r: Option<nat>) {
    if records == [] then worst
    else
      var before := Longest(worst, records[..|records| - 1]);
      var last := records[|records| - 1];
      if last.settledAt.None? then before
      else
        var secs := Minus(last.settledAt.value, last.redAt);
        if before.None? || before.value < secs then Some(secs) else before
  }

  ghost predicate ClearIds(runner: Runner)
    reads runner
  {
    forall id :: id in runner.inFlight ==> id < RERUN_ID_BASE
  }

  /** A pass that was driven and has not gone anywhere yet. */
  ghost predicate Driven(r: Round, s: Settled, v: State, greens: set<Suite>) {
    PassJudged(s, v, r.members, r.suites, greens) && Distinct(r.members) && s.end.Ran?
  }

  lemma DrivenOwned(r: Round, s: Settled, v: State, greens: set<Suite>)
    requires Driven(r, s, v, greens)
    ensures s.preempt.None? ==> OwnedSet(s.decision) <= Elems(r.suites)
    ensures s.preempt.Some? ==>
              IntegrationSet(s.decision) == {} && s.decision.unattributed == [] && s.decision.owners != map[]
  {
    var p := PassRecord(r, s, v, greens, [], Ended(Blocked("")), UNASKED, []);
    if s.preempt.None? {
      forall suite | suite in OwnedSet(s.decision) ensures suite in Elems(r.suites) {
        ShownRan(p, suite);
      }
    } else {
      PreemptNotIntegration(p);
      PreemptShown(p);
    }
  }

  /** What the round has done to the world so far. */
  datatype World = World(ejections: seq<Ejection>, deletions: seq<Suite>, asked: seq<Ask>, base: Option<string>)

  ghost function WorldOf(runner: Runner, ops: Ops): (w: World)
    reads runner, ops
  {
    World(ops.ejections, ops.deletions, ops.asked, runner.base)
  }

  /** The flips a pass has deleted: all of them, once no proof speaks against any. */
  ghost function DeletedBy(p: PassRecord): (r: seq<Suite>) {
    if CourseOf(p.round, p.settled, p.faced).Clears? && p.faced.unproven == [] then p.settled.decision.flaky else []
  }

  ghost function BaseAfter(base: Option<string>, p: PassRecord): (r: Option<string>) {
    if CourseOf(p.round, p.settled, p.faced).TakesRetry? then p.faced.moved else base
  }

  ghost function After(w: World, p: PassRecord): (r: World) {
    World(w.ejections + p.ejected, w.deletions + DeletedBy(p), w.asked + p.asks, BaseAfter(w.base, p))
  }

  const UNASKED := Faced([], false, None, [], [], None)

  ghost predicate WasDriven(r: Round, s: Settled, v: State, greens: set<Suite>) {
    exists w :: w == v && Driven(r, s, w, greens)
  }

  ghost predicate Proper(p: PassRecord) {
    exists q :: q == p && PassOk(q)
  }

  /** A pass recorded in full: a proper one, gone by the book. */
  ghost predicate Passed(p: PassRecord, iteration: nat) {
    exists q :: q == p && PassOk(q) && ByTheBook(q, iteration)
  }

  /** What is being recorded of a pass that was driven and has not gone anywhere yet. */
  ghost predicate Recording(q: PassRecord, r0: Round, s: Settled) {
    q.round == r0 && q.settled == s && q.ejected == [] && WasDriven(r0, s, q.v, q.greens)
  }

  /** As above, with nothing left but to deal with the owners. */
  ghost predicate OwnersLeft(q: PassRecord, r0: Round, s: Settled, iteration: nat) {
    exists w :: w == q && WithOwners(w, r0, s, iteration)
  }

  ghost predicate WithOwners(q: PassRecord, r0: Round, s: Settled, iteration: nat) {
    && Recording(q, r0, s) && s.decision.unattributed == [] && s.decision.owners != map[]
    && NoDup(q.faced.integration) && Elems(q.faced.integration) == IntegrationSet(s.decision)
    && (q.faced.integration != [] ==> !r0.fixed && !q.faced.fixed)
    && q.faced.mended.None?
    && q.asks == OpeningAsks(s.decision, iteration) + FixAsks(r0, q.faced)
  }

  lemma Booked(p: PassRecord, iteration: nat, asks: seq<Ask>)
    requires p.settled.end.Ran? && NoDup(p.faced.integration)
              && Elems(p.faced.integration) == IntegrationSet(p.settled.decision)
    requires CourseTaken(p) && AskedOn(p, asks) && p.asks == OpeningAsks(p.settled.decision, iteration) + asks
    ensures ByTheBook(p, iteration)
  {
  }

  // ----- the owners go ---------------------------------------------------------------------

  lemma EjectionsRight(p: PassRecord, out: map<Id, seq<Suite>>)
    requires EjectionsAre(p.round.members, p.settled.decision.owners, out, p.ejected)
    requires OutOk(p.round.members, p.settled.decision.owners, out)
    requires out.Keys == Out(p.round.members, p.settled.decision.owners.Keys)
    ensures EjectsOwners(p) && EjectsFairly(p)
  {
  }

  /** Ejects the owners and everyone stacked on them. */
  method EjectOwners(runner: Runner, ops: Ops, r0: Round, s: Settled, ghost q: PassRecord)
    returns (survivors: seq<Member>, ghost p: PassRecord)
    requires Recording(q, r0, s)
    modifies runner`inFlight, runner`heard, runner`loads, runner`patience, runner`clock, ops`ejections, ops`asked
    ensures ops.ejections == old(ops.ejections) + p.ejected
    ensures p == q.(ejected := p.ejected) && EjectsOwners(p) && EjectsFairly(p) && survivors == Survivors(p)
    ensures ops.asked == old(ops.asked) + if s.preempt.Some? then [] else Escapes(r0.members, s.decision.owners)
    ensures forall id :: id in runner.inFlight ==> id in old(runner.inFlight)
    ensures forall x :: x in old(runner.heard) ==> x in runner.heard
  {
    var leaving := WhoGoesOut(r0.members, s.decision.owners);
    if s.preempt.None? {
      RecordEscapes(runner, ops, r0.members, s.decision.owners);
    }
    ghost var ejected;
    survivors, ejected := EjectAll(ops, r0.members, s.decision.owners, leaving);
    p := q.(ejected := ejected);
    EjectionsRight(p, leaving);
  }

  /** Rebuilds the round on those who are left. */
  method AfterEjection(ops: Ops, r0: Round, s: Settled, survivors: seq<Member>)
    returns (r: Result<Onto>, ghost rebuilt: seq<Ask>)
    modifies ops`asked
    ensures r.Ok? ==> ops.asked == old(ops.asked) + rebuilt
    ensures r.Ok? && survivors == [] ==> r.value == Ended(Blocked(EMPTIED)) && rebuilt == []
    ensures r.Ok? && survivors != [] ==>
              RebuiltOn(rebuilt, survivors, r.value)
                  && (r.value == Ended(Blocked(LOST_REBUILDING)) || EjectedTo(r0, s, survivors, r.value))
  {
    rebuilt := [];
    if survivors == [] {
      return Ok(Ended(Blocked(EMPTIED))), rebuilt;
    }
    var merged := ops.Rebuild(survivors);
    if merged.Err? {
      return Err(merged.error), rebuilt;
    }
    rebuilt := [TreeRebuilt(survivors, merged.value)];
    if merged.value == [] {
      return Ok(Ended(Blocked(LOST_REBUILDING))), rebuilt;
    }
    var next := NextAfterEjection(r0, s, merged.value);
    r := Ok(Go(ByEjection, next));
  }

  /** On to the survivors' round. */
  ghost predicate EjectedTo(r0: Round, s: Settled, survivors: seq<Member>, onto: Onto) {
    && onto.Go? && onto.how == ByEjection && onto.round.members != [] && SubList(onto.round.members, survivors)
    && onto.round == Round(onto.round.members, onto.round.suites, onto.round.kind, r0.fixed, r0.retried)
    && (s.preempt.Some? ==> onto.round.suites == s.preempt.value.rerun && onto.round.kind == Corpus)
    && (s.preempt.None? ==> Elems(onto.round.suites) == OwnedSet(s.decision) && onto.round.kind == Verify)
  }

  /** A preempted pass leaves the survivors whatever was not green; a full one the owned suites. */
  method NextAfterEjection(r0: Round, s: Settled, members: seq<Member>) returns (next: Round)
    ensures next == Round(members, next.suites, next.kind, r0.fixed, r0.retried)
    ensures s.preempt.Some? ==> next.suites == s.preempt.value.rerun && next.kind == Corpus
    ensures s.preempt.None? ==> Elems(next.suites) == OwnedSet(s.decision) && next.kind == Verify
  {
    if s.preempt.Some? {
      return Round(members, s.preempt.value.rerun, Corpus, r0.fixed, r0.retried);
    }
    var owned := OwnedSuites(s.decision);
    next := Round(members, owned, Verify, r0.fixed, r0.retried);
  }

  /** Owners out, survivors rebuilt: what a pass with owners comes to when no mender owns it. */
  method GoByEjection(runner: Runner, ops: Ops, r0: Round, s: Settled, ghost q: PassRecord)
    returns (r: Result<Onto>, ghost p: PassRecord, ghost tail: seq<Ask>)
    requires Recording(q, r0, s) && s.decision.unattributed == [] && s.decision.owners != map[]
    modifies runner`inFlight, runner`heard, runner`loads, runner`patience, runner`clock, ops`ejections, ops`asked
    ensures r.Ok? ==> Proper(p) && p == q.(ejected := p.ejected, onto := r.value)
    ensures r.Ok? ==> EjectedFully(p)
    ensures r.Ok? ==> EjectedAsks(r0, s, r.value, tail) && ops.asked == old(ops.asked) + tail
    ensures r.Ok? ==> ops.ejections == old(ops.ejections) + p.ejected
    ensures forall id :: id in runner.inFlight ==> id in old(runner.inFlight)
    ensures forall x :: x in old(runner.heard) ==> x in runner.heard
    ensures r.Ok? && r.value.Ended? ==> r.value.end.Blocked?
  {
    var survivors;
    ghost var went, rebuilt;
    survivors, went := EjectOwners(runner, ops, r0, s, q);
    ghost var told := if s.preempt.Some? then [] else Escapes(r0.members, s.decision.owners);
    r, rebuilt := AfterEjection(ops, r0, s, survivors);
    tail := told + rebuilt;
    p := went;
    if r.Ok? {
      p := went.(onto := r.value);
      EjectionTail(r0, s, r.value, told, rebuilt);
      EjectionIs(went, p);
    }
  }

  /** The owners and whoever is stacked on them are out, and the round goes on with the rest. */
  ghost predicate EjectedFully(p: PassRecord) {
    EjectsOwners(p)
    && if Survivors(p) == [] then BlockedAs(p, EMPTIED) else GoesAs(p, ByEjection) || BlockedAs(p, LOST_REBUILDING)
  }

  lemma EjectionTail(r0: Round, s: Settled, onto: Onto, told: seq<Ask>, rebuilt: seq<Ask>)
    requires told == if s.preempt.Some? then [] else Escapes(r0.members, s.decision.owners)
    requires
      var survivors := Remaining(r0.members, Out(r0.members, s.decision.owners.Keys));
      if survivors == [] then rebuilt == [] else RebuiltOn(rebuilt, survivors, onto)
    ensures EjectedAsks(r0, s, onto, told + rebuilt)
  {
    assert told + [] == told;
  }

  lemma EjectionIs(went: PassRecord, p: PassRecord)
    requires Driven(p.round, p.settled, p.v, p.greens)
    requires p.settled.decision.unattributed == [] && p.settled.decision.owners != map[]
    requires EjectsOwners(went) && EjectsFairly(went) && p == went.(onto := p.onto)
    requires Survivors(went) == [] ==> p.onto == Ended(Blocked(EMPTIED))
    requires Survivors(went) != [] ==>
               p.onto == Ended(Blocked(LOST_REBUILDING)) || EjectedTo(p.round, p.settled, Survivors(went), p.onto)
    ensures Proper(p) && EjectedFully(p)
  {
    assert EjectsOwners(p) && EjectsFairly(p);
    if p.onto.Go? {
      assert GoesByEjection(p, p.onto.round);
    }
    assert PassOk(p);
  }

  // ----- the menders' way ------------------------------------------------------------------

  lemma {:induction false} SentAwayFair(members: seq<Member>, owners: map<Id, seq<Suite>>, suites: seq<Suite>,
                                        left: seq<Mender.Left>)
    ensures forall e :: e in SentAway(members, owners, suites, left) ==>
              e.member in members && (e.owner <==> e.member.id in owners)
              && (e.owner ==> e.suites == owners[e.member.id])
  {
    if left != [] {
      SentAwayFair(members, owners, suites, left[..|left| - 1]);
      FoundIs(members, left[|left| - 1].id);
    }
  }

  method SendAway(ops: Ops, members: seq<Member>, owners: map<Id, seq<Suite>>, suites: seq<Suite>,
                  left: seq<Mender.Left>)
    modifies ops`ejections
    ensures ops.ejections == old(ops.ejections) + SentAway(members, owners, suites, left)
  {
    for i := 0 to |left|
      invariant ops.ejections == old(ops.ejections) + SentAway(members, owners, suites, left[..i])
    {
      TakeOneMore(left, i);
      var member := Found(members, left[i].id);
      if member.Some? {
        ops.Eject(member.value, if left[i].id in owners then owners[left[i].id] else suites, left[i].id in owners);
      }
    }
    assert left[..|left|] == left;
  }

  /** Where the menders' pass leads, and what is asked on the way. */
  method NextAfterMending(ops: Ops, r0: Round, m: Mended) returns (r: Result<Onto>, ghost rebuilt: seq<Ask>)
    requires m.next.Pass? && SubList(MemberIds(m.next.members), MemberIds(r0.members))
    modifies ops`asked
    ensures r.Ok? ==> ops.asked == old(ops.asked) + rebuilt
    ensures r.Ok? && m.next.members == [] ==> r.value == Ended(Blocked(EMPTIED)) && rebuilt == []
    ensures r.Ok? && m.next.members != [] && m.next.retry && m.next.left == [] ==>
              r.value == Go(ByMending, Round(m.next.members, m.suites, Verify, r0.fixed, r0.retried)) && rebuilt == []
    ensures r.Ok? && m.next.members != [] && !(m.next.retry && m.next.left == []) ==>
              RebuiltOn(rebuilt, m.next.members, r.value)
    ensures r.Ok? ==> r.value in [Ended(Blocked(EMPTIED)), Ended(Blocked(LOST_MENDING))] || MendedOn(r0, m, r.value)
    ensures r.Ok? && m.next.members != [] ==> r.value != Ended(Blocked(EMPTIED))
  {
    rebuilt := [];
    if m.next.members == [] {
      return Ok(Ended(Blocked(EMPTIED))), rebuilt;
    }
    var members := m.next.members;
    SubListWhole(members);
    if !(m.next.retry && m.next.left == []) {
      var merged := ops.Rebuild(m.next.members);
      if merged.Err? {
        return Err(merged.error), rebuilt;
      }
      members := merged.value;
      rebuilt := [TreeRebuilt(m.next.members, members)];
    }
    if members == [] {
      return Ok(Ended(Blocked(LOST_MENDING))), rebuilt;
    }
    SubListIds(members, m.next.members);
    SubListTwice(MemberIds(members), MemberIds(m.next.members), MemberIds(r0.members));
    r := Ok(Go(ByMending, Round(members, m.suites, Verify, r0.fixed, r0.retried)));
  }

  ghost predicate MendedOn(r0: Round, m: Mended, onto: Onto)
    requires m.next.Pass?
  {
    && onto.Go? && onto.how == ByMending && onto.round.members != []
    && SubList(onto.round.members, m.next.members) && SubList(MemberIds(onto.round.members), MemberIds(r0.members))
    && onto.round == Round(onto.round.members, m.suites, Verify, r0.fixed, r0.retried)
  }

  lemma MendingIs(p: PassRecord, m: Mended)
    requires Driven(p.round, p.settled, p.v, p.greens)
    requires p.settled.preempt.None? && p.settled.decision.unattributed == [] && p.settled.decision.owners != map[]
    requires MendedOk(m, p.settled.decision, p.round.members, p.round.suites) && m.next.Pass?
    requires p.ejected == SentAway(p.round.members, p.settled.decision.owners, m.suites, m.next.left)
    requires p.onto in [Ended(Blocked(EMPTIED)), Ended(Blocked(LOST_MENDING))] || MendedOn(p.round, m, p.onto)
    ensures Proper(p)
  {
    SentAwayFair(p.round.members, p.settled.decision.owners, m.suites, m.next.left);
    assert EjectsFairly(p);
    if p.onto.Go? {
      MendedAgain(p.settled.decision, m);
      MendedWithin(m.suites, p.round.suites);
      assert GoesByMending(p, p.onto.round);
    }
    assert PassOk(p);
  }

  lemma StopIs(p: PassRecord)
    requires Driven(p.round, p.settled, p.v, p.greens) && p.onto.Ended? && p.onto.end.Blocked? && p.ejected == []
    ensures Proper(p)
  {
    assert PassOk(p);
  }

  lemma MendedAgain(d: Decision, m: Mended)
    requires forall x, suite :: x in d.owners && suite in d.owners[x] ==> suite in m.suites
    ensures OwnedSet(d) <= Elems(m.suites)
  {
  }

  lemma MendedWithin(suites: seq<Suite>, all: seq<Suite>)
    requires forall suite :: suite in suites ==> suite in all
    ensures Elems(suites) <= Elems(all)
  {
  }

  lemma MendingTail(m: Mended, onto: Onto, told: seq<Ask>, rebuilt: seq<Ask>)
    requires told == if m.unattributed != [] then [Raised("unattributed", m.unattributed)] else []
    requires m.next.Pass?
    requires m.next.members == [] || (m.next.retry && m.next.left == []) ==> rebuilt == []
    requires m.next.members != [] && !(m.next.retry && m.next.left == []) ==> RebuiltOn(rebuilt, m.next.members, onto)
    ensures MendedAsks(m, onto, told + rebuilt)
  {
    assert told + [] == told;
  }

  /** The menders' decision: stop, or go on with mended tips in and those returned out. */
  method GoByMending(ops: Ops, r0: Round, s: Settled, m: Mended, ghost q: PassRecord)
    returns (r: Result<Onto>, ghost p: PassRecord, ghost tail: seq<Ask>)
    requires Recording(q, r0, s) && s.decision.unattributed == [] && s.decision.owners != map[]
    requires s.preempt.None? && MendedOk(m, s.decision, r0.members, r0.suites)
    modifies ops`ejections, ops`asked
    ensures r.Ok? ==> Proper(p) && p == q.(ejected := p.ejected, onto := r.value) && MendedTo(p, m)
    ensures r.Ok? ==> MendedAsks(m, r.value, tail) && ops.asked == old(ops.asked) + tail
    ensures r.Ok? ==> ops.ejections == old(ops.ejections) + p.ejected
    ensures r.Ok? && r.value.Ended? ==> r.value.end.Blocked?
  {
    ghost var told := if m.unattributed != [] then [Raised("unattributed", m.unattributed)] else [];
    if m.unattributed != [] {
      ops.Incident("unattributed", m.unattributed);
    }
    p, tail := q, told;
    if m.next.Stop? {
      ops.Incident("mender-page", m.suites);
      tail := told + [Raised("mender-page", m.suites)];
      p := q.(onto := Ended(Blocked(m.next.page)));
      StopIs(p);
      return Ok(Ended(Blocked(m.next.page))), p, tail;
    }
    SendAway(ops, r0.members, s.decision.owners, m.suites, m.next.left);
    ghost var rebuilt;
    r, rebuilt := NextAfterMending(ops, r0, m);
    if r.Ok? {
      tail := told + rebuilt;
      p := q.(ejected := SentAway(r0.members, s.decision.owners, m.suites, m.next.left), onto := r.value);
      MendingTail(m, r.value, told, rebuilt);
      MendingIs(p, m);
    }
  }

  lemma {:induction false} SubListTwice<T>(a: seq<T>, b: seq<T>, c: seq<T>)
    requires SubList(a, b) && SubList(b, c)
    ensures SubList(a, c)
    decreases |c|
  {
    if a != [] && b != [] {
      if b[0] == c[0] {
        if a[0] == b[0] {
          SubListTwice(a[1..], b[1..], c[1..]);
        } else {
          SubListTwice(a, b[1..], c[1..]);
        }
      } else {
        SubListTwice(a, b, c[1..]);
        if a[0] == c[0] {
          SubListTail(a, c[1..]);
        }
      }
    }
  }

  lemma LongestOneMore(worst: Option<nat>, records: seq<RedRecord>, i: nat)
    requires i < |records|
    ensures records[..i + 1][..i] == records[..i] && records[..i + 1][i] == records[i]
  {
  }

  method TrackLongest(worst0: Option<nat>, records: seq<RedRecord>) returns (worst: Option<nat>)
    ensures worst == Longest(worst0, records)
  {
    worst := worst0;
    for i := 0 to |records|
      invariant worst == Longest(worst0, records[..i])
    {
      LongestOneMore(worst0, records, i);
      if records[i].settledAt.Some? {
        var secs := Minus(records[i].settledAt.value, records[i].redAt);
        if worst.None? || worst.value < secs {
          worst := Some(secs);
        }
      }
    }
    assert records[..|records|] == records;
  }

  lemma UnattributedIntegrates(d: Decision)
    requires d.unattributed != []
    ensures IntegrationSet(d) != {}
  {
    IntegrationSetIs(d, d.unattributed[0]);
    assert d.unattributed[0] in d.unattributed;
  }

  // ----- a pass whose verdicts are in ------------------------------------------------------

  /** Tries the in-round fix, when there is integration red and no fix was taken before. */
  method TryFix(ops: Ops, r0: Round, s: Settled, ghost q: PassRecord)
    returns (onto: Option<Onto>, integration: seq<Suite>, ghost p: PassRecord)
    requires Recording(q, r0, s) && q.faced == UNASKED
    modifies ops`asked
    ensures NoDup(integration) && Elems(integration) == IntegrationSet(s.decision)
    ensures p == q.(faced := UNASKED.(integration := integration, fixed := p.faced.fixed),
              asks := q.asks + FixAsks(r0, p.faced))
    ensures ops.asked == old(ops.asked) + FixAsks(r0, p.faced)
    ensures onto.None? ==> (integration != [] && !r0.fixed ==> !p.faced.fixed)
    ensures onto.Some? ==>
              integration != [] && !r0.fixed && p.faced.fixed
              && onto.value == Go(ByFix, r0.(fixed := true, suites := integration, kind := Verify))
  {
    integration := IntegrationSuites(s.decision);
    onto := None;
    p := q.(faced := UNASKED.(integration := integration));
    if integration != [] && !r0.fixed {
      var fixed := ops.FixIntegration(r0.members, integration);
      p := q.(faced := UNASKED.(integration := integration, fixed := fixed),
              asks := q.asks + [FixTried(r0.members, integration, fixed)]);
      if fixed {
        onto := Some(Go(ByFix, r0.(fixed := true, suites := integration, kind := Verify)));
      }
    } else {
      assert q.asks + [] == q.asks;
    }
  }

  /** Unattributed red: one retry if the base moved and nobody owns a red, else the judge. */
  method AnswerUnattributed(runner: Runner, ops: Ops, r0: Round, s: Settled)
    returns (r: Result<Onto>, ghost moved: Option<string>, ghost told: seq<Ask>)
    modifies runner`base, ops`asked
    ensures
      var d := s.decision;
      r.Ok? ==>
        && ops.asked == old(ops.asked) + told
        && (moved.Some? ==>
              && !r0.retried && d.owners == map[] && runner.base == moved
              && told == [BaseAsked(r0.members, moved)]
              && r.value.Go? && r.value.how == ByRetry && SubList(r.value.round.members, r0.members)
              && r.value.round == Round(r.value.round.members, d.unattributed, Verify, r0.fixed, true))
        && (moved.None? ==>
              && runner.base == old(runner.base) && r.value == Ended(Blocked(UNATTRIBUTED))
              && told == (if !r0.retried && d.owners == map[] then [BaseAsked(r0.members, None)] else [])
                         + [JudgeCalled(d.unattributed, MemberIds(r0.members))])
  {
    var d := s.decision;
    moved, told := None, [];
    if !r0.retried && d.owners == map[] {
      var m := ops.BaseMoved(r0.members);
      if m.Err? {
        return Err(m.error), moved, told;
      }
      if m.value.Some? {
        runner.SetBase(m.value.value.0);
        moved := Some(m.value.value.0);
        told := [BaseAsked(r0.members, moved)];
        return Ok(Go(ByRetry, Round(m.value.value.1, d.unattributed, Verify, r0.fixed, true))), moved, told;
      }
      told := [BaseAsked(r0.members, None)];
    }
    ops.Judge(d.unattributed, MemberIds(r0.members));
    told := told + [JudgeCalled(d.unattributed, MemberIds(r0.members))];
    r := Ok(Ended(Blocked(UNATTRIBUTED)));
  }

  /** Nobody owns a red: the flips are proved and deleted, and the round lands. */
  method ClearFlips(runner: Runner, ops: Ops, r0: Round, s: Settled, budget: Budget, worst: Option<nat>)
    returns (end: RoundEnd, ghost named: seq<Named>, ghost unproven: seq<Suite>)
    requires ClearIds(runner) && budget.slots >= 1
    modifies runner`inFlight, runner`heard, runner`loads, runner`patience, runner`clock, ops`deletions, ops`asked
    ensures NamesFor(named, s.decision.flaky)
    ensures ops.asked == old(ops.asked) + NamingAsks(named)
                         + (if unproven == [] then [] else [Raised("unattributed", unproven)])
    ensures ops.deletions == old(ops.deletions) + if unproven == [] then s.decision.flaky else []
    ensures unproven != [] ==> end.Blocked? && NoFlips(r0.members, named, unproven, runner.heard)
    ensures unproven == [] ==> FlipsProven(r0.members, named, runner.heard)
    ensures s.decision.flaky == [] ==> end.Land? && unproven == []
    ensures end.Land? ==> end == Land(r0.members, worst)
    ensures forall x :: x in old(runner.heard) ==> x in runner.heard
  {
    named, unproven := [], [];
    assert ops.asked + NamingAsks([]) + [] == ops.asked;
    if s.decision.flaky != [] {
      var removed;
      removed, named, unproven := RemoveFlips(runner, ops, s.decision.flaky, r0.members, budget);
      if removed.Err? {
        return Blocked(removed.error), named, unproven;
      }
    }
    end := Land(r0.members, worst);
  }

  /** The record of a pass that took its course, the owners' apart, is by the book. */
  lemma FixBooked(p: PassRecord, r0: Round, s: Settled, iteration: nat)
    requires Recording(p, r0, s) && NoDup(p.faced.integration)
              && Elems(p.faced.integration) == IntegrationSet(s.decision)
    requires p.faced.integration != [] && !r0.fixed && p.faced.fixed
    requires p.onto == Go(ByFix, r0.(fixed := true, suites := p.faced.integration, kind := Verify))
    requires p.asks == OpeningAsks(s.decision, iteration) + FixAsks(r0, p.faced)
    ensures Passed(p, iteration)
  {
    ElemsNone(p.faced.integration);
    assert GoesByFix(p, p.onto.round);
    Booked(p, iteration, FixAsks(r0, p.faced));
  }

  lemma SurvivedBooked(p: PassRecord, r0: Round, s: Settled, iteration: nat)
    requires Recording(p, r0, s) && NoDup(p.faced.integration)
              && Elems(p.faced.integration) == IntegrationSet(s.decision)
    requires p.faced.integration != [] && r0.fixed && p.onto == Ended(Blocked(SURVIVED_FIX))
    requires p.asks == OpeningAsks(s.decision, iteration) + [Raised("integration", p.faced.integration)]
    ensures Passed(p, iteration)
  {
    Booked(p, iteration, [Raised("integration", p.faced.integration)]);
  }

  /** Neither fixed now nor red after a fix. */
  ghost predicate PastFix(p: PassRecord, r0: Round, s: Settled) {
    && Recording(p, r0, s) && NoDup(p.faced.integration) && Elems(p.faced.integration) == IntegrationSet(s.decision)
    && (p.faced.integration != [] ==> !r0.fixed && !p.faced.fixed)
  }

  lemma RetryBooked(p: PassRecord, r0: Round, s: Settled, iteration: nat)
    requires PastFix(p, r0, s) && s.decision.unattributed != []
    requires p.faced.moved.Some? && !r0.retried && s.decision.owners == map[]
    requires p.onto.Go? && p.onto.how == ByRetry && SubList(p.onto.round.members, r0.members)
    requires p.onto.round == Round(p.onto.round.members, s.decision.unattributed, Verify, r0.fixed, true)
    requires p.asks == OpeningAsks(s.decision, iteration)
                       + (FixAsks(r0, p.faced) + [BaseAsked(r0.members, p.faced.moved)])
    ensures Passed(p, iteration)
  {
    UnattributedIntegrates(s.decision);
    ElemsNone(p.faced.integration);
    assert GoesByRetry(p, p.onto.round);
    Booked(p, iteration, FixAsks(r0, p.faced) + [BaseAsked(r0.members, p.faced.moved)]);
  }

  lemma UnexplainedBooked(p: PassRecord, r0: Round, s: Settled, iteration: nat, told: seq<Ask>)
    requires PastFix(p, r0, s) && s.decision.unattributed != []
    requires p.faced.moved.None? && p.onto == Ended(Blocked(UNATTRIBUTED))
    requires told == BaseAsks(r0, s.decision, p.faced) + [JudgeCalled(s.decision.unattributed, MemberIds(r0.members))]
    requires p.asks == OpeningAsks(s.decision, iteration) + (FixAsks(r0, p.faced) + told)
    ensures Passed(p, iteration)
  {
    var base := BaseAsks(r0, s.decision, p.faced);
    var judge := [JudgeCalled(s.decision.unattributed, MemberIds(r0.members))];
    assert FixAsks(r0, p.faced) + (base + judge) == FixAsks(r0, p.faced) + base + judge;
    Booked(p, iteration, FixAsks(r0, p.faced) + told);
  }

  lemma ClearBooked(p: PassRecord, r0: Round, s: Settled, iteration: nat, told: seq<Ask>)
    requires PastFix(p, r0, s) && s.decision.unattributed == [] && s.decision.owners == map[]
    requires p.onto.Ended? && (s.decision.flaky == [] ==> p.onto.end.Land?)
    requires p.faced.unproven != [] ==> p.onto.end.Blocked?
    requires p.onto.end.Land? ==> p.onto.end.members == r0.members
    requires NamesFor(p.faced.named, s.decision.flaky)
    requires told == NamingAsks(p.faced.named)
                     + (if p.faced.unproven == [] then [] else [Raised("unattributed", p.faced.unproven)])
    requires p.asks == OpeningAsks(s.decision, iteration) + (FixAsks(r0, p.faced) + told)
    ensures Passed(p, iteration)
  {
    var raised := if p.faced.unproven == [] then [] else [Raised("unattributed", p.faced.unproven)];
    AskedThen(FixAsks(r0, p.faced), NamingAsks(p.faced.named), raised);
    Booked(p, iteration, FixAsks(r0, p.faced) + told);
  }

  lemma AskedThen(a: seq<Ask>, b: seq<Ask>, c: seq<Ask>)
    ensures (a + b) + c == a + (b + c)
  {
  }

  /** Past the fix: unattributed reds, then a pass nobody owns a red of. `None` when there are
      owners left to deal with. */
  method WeighReds(runner: Runner, ops: Ops, r0: Round, s: Settled, budget: Budget, worst: Option<nat>,
                   iteration: nat, ghost q: PassRecord)
    returns (r: Result<Option<Onto>>, ghost p: PassRecord, ghost told: seq<Ask>)
    requires PastFix(q, r0, s) && q.faced == UNASKED.(integration := q.faced.integration, fixed := q.faced.fixed)
    requires q.asks == OpeningAsks(s.decision, iteration) + FixAsks(r0, q.faced)
    requires ClearIds(runner) && budget.slots >= 1
    modifies runner`inFlight, runner`heard, runner`loads, runner`patience, runner`clock, runner`base, ops`deletions,
        ops`asked
    ensures r.Ok? ==>
              p == q.(faced := p.faced, asks := q.asks + told, onto := p.onto)
              && ops.asked == old(ops.asked) + told
    ensures r.Ok? && r.value.Some? ==> p.onto == r.value.value && Passed(p, iteration)
    ensures r.Ok? && r.value.Some? ==>
              ops.deletions == old(ops.deletions) + DeletedBy(p) && runner.base == BaseAfter(old(runner.base), p)
    ensures r.Ok? && r.value.None? ==> OwnersLeft(p, r0, s, iteration) && runner.inFlight == old(runner.inFlight)
    ensures r.Ok? && r.value.None? ==> ops.deletions == old(ops.deletions) && runner.base == old(runner.base)
    ensures r.Ok? && r.value.Some? && r.value.value.Go? ==> runner.inFlight == old(runner.inFlight)
    ensures r.Ok? && r.value.Some? ==> WorstIs(r.value.value, worst) && FlipsShown(p, runner.heard)
    ensures forall x :: x in old(runner.heard) ==> x in runner.heard
  {
    var d := s.decision;
    told, p := [], q;
    ghost var fix := FixAsks(r0, q.faced);
    ghost var opening := OpeningAsks(d, iteration);
    if d.unattributed != [] {
      var next;
      ghost var moved;
      next, moved, told := AnswerUnattributed(runner, ops, r0, s);
      if next.Err? {
        return Err(next.error), p, told;
      }
      AskedThen(opening, fix, told);
      p := q.(faced := q.faced.(moved := moved), asks := q.asks + told, onto := next.value);
      if moved.Some? {
        RetryBooked(p, r0, s, iteration);
      } else {
        UnexplainedBooked(p, r0, s, iteration, told);
      }
      return Ok(Some(next.value)), p, told;
    }
    if d.owners == map[] {
      var end;
      ghost var named, unproven;
      ghost var was := ops.asked;
      end, named, unproven := ClearFlips(runner, ops, r0, s, budget, worst);
      ghost var raised := if unproven == [] then [] else [Raised("unattributed", unproven)];
      told := NamingAsks(named) + raised;
      AskedThen(was, NamingAsks(named), raised);
      AskedThen(opening, fix, told);
      p := q.(faced := q.faced.(named := named, unproven := unproven), asks := q.asks + told, onto := Ended(end));
      ClearBooked(p, r0, s, iteration, told);
      return Ok(Some(Ended(end))), p, told;
    }
    LeftWithOwners(q, r0, s, iteration);
    assert q.asks + [] == q.asks;
    p := q.(asks := q.asks + told);
    r := Ok(None);
  }

  lemma LeftWithOwners(q: PassRecord, r0: Round, s: Settled, iteration: nat)
    requires PastFix(q, r0, s) && s.decision.unattributed == [] && s.decision.owners != map[] && q.faced.mended.None?
    requires q.asks == OpeningAsks(s.decision, iteration) + FixAsks(r0, q.faced)
    ensures OwnersLeft(q, r0, s, iteration)
  {
    assert WithOwners(q, r0, s, iteration);
  }

  /** A landing names how long the reds took to attribute at most. */
  ghost predicate WorstIs(onto: Onto, worst: Option<nat>) {
    onto.Ended? && onto.end.Land? ==> onto.end.attributionSecs == worst
  }

  /** A pass nobody owns a red of: every flaky suite was proved to flip, on all the members named
      as touching it, or the ones that were not are known. */
  ghost predicate FlipsShown(p: PassRecord, heard: seq<Answer>) {
    CourseOf(p.round, p.settled, p.faced).Clears? ==>
      if p.faced.unproven == [] then FlipsProven(p.round.members, p.faced.named, heard)
      else NoFlips(p.round.members, p.faced.named, p.faced.unproven, heard)
  }

  /** What follows a pass whose verdicts are in: fix, retry, land, or say why not. `None` when
      there are owners left to deal with. */
  method Weigh(runner: Runner, ops: Ops, r0: Round, s: Settled, budget: Budget, worst: Option<nat>, iteration: nat,
               ghost q: PassRecord)
    returns (r: Result<Option<Onto>>, ghost p: PassRecord, ghost told: seq<Ask>)
    requires Recording(q, r0, s) && q.faced == UNASKED && q.asks == OpeningAsks(s.decision, iteration)
    requires ClearIds(runner) && budget.slots >= 1
    modifies runner`inFlight, runner`heard, runner`loads, runner`patience, runner`clock, runner`base, ops`deletions,
        ops`asked
    ensures r.Ok? ==>
              p == q.(faced := p.faced, asks := q.asks + told, onto := p.onto)
              && ops.asked == old(ops.asked) + told
    ensures r.Ok? && r.value.Some? ==> p.onto == r.value.value && Passed(p, iteration)
    ensures r.Ok? && r.value.Some? ==>
              ops.deletions == old(ops.deletions) + DeletedBy(p) && runner.base == BaseAfter(old(runner.base), p)
    ensures r.Ok? && r.value.None? ==> OwnersLeft(p, r0, s, iteration) && runner.inFlight == old(runner.inFlight)
    ensures r.Ok? && r.value.None? ==> ops.deletions == old(ops.deletions) && runner.base == old(runner.base)
    ensures r.Ok? && r.value.Some? && r.value.value.Go? ==> runner.inFlight == old(runner.inFlight)
    ensures r.Ok? && r.value.Some? ==> WorstIs(r.value.value, worst) && FlipsShown(p, runner.heard)
    ensures forall x :: x in old(runner.heard) ==> x in runner.heard
  {
    var onto, integration;
    ghost var was := ops.asked;
    onto, integration, p := TryFix(ops, r0, s, q);
    ghost var fix := FixAsks(r0, p.faced);
    told := fix;
    if onto.Some? {
      p := p.(onto := onto.value);
      FixBooked(p, r0, s, iteration);
      return Ok(Some(onto.value)), p, told;
    }
    if r0.fixed && integration != [] {
      ops.Incident("integration", integration);
      told := [Raised("integration", integration)];
      p := p.(asks := q.asks + told, onto := Ended(Blocked(SURVIVED_FIX)));
      SurvivedBooked(p, r0, s, iteration);
      return Ok(Some(Ended(Blocked(SURVIVED_FIX)))), p, told;
    }
    ghost var more;
    r, p, more := WeighReds(runner, ops, r0, s, budget, worst, iteration, p);
    AskedThen(was, fix, more);
    AskedThen(q.asks, fix, more);
    told := fix + more;
  }

  lemma OwnedRan(d: Decision, suites: seq<Suite>)
    requires OwnedSet(d) <= Elems(suites)
    ensures forall x, suite :: x in d.owners && suite in d.owners[x] ==> suite in suites
  {
    forall x, suite | x in d.owners && suite in d.owners[x] ensures suite in suites {
      assert suite in OwnedSet(d);
    }
  }

  /** The opening of a pass that ran: the record, and an incident for what is red on the base. */
  method Open(ops: Ops, d: Decision, iteration: nat)
    modifies ops`asked
    ensures ops.asked == old(ops.asked) + OpeningAsks(d, iteration)
  {
    ops.Record(iteration, d);
    if d.base != [] {
      ops.Incident("base", d.base);
    }
  }

  lemma MendsBooked(p: PassRecord, r0: Round, s: Settled, iteration: nat, tail: seq<Ask>)
    requires Proper(p) && p.round == r0 && p.settled == s && s.end.Ran? && s.preempt.None?
    requires s.decision.unattributed == [] && s.decision.owners != map[] && p.faced.mended.Some?
    requires NoDup(p.faced.integration) && Elems(p.faced.integration) == IntegrationSet(s.decision)
    requires p.faced.integration != [] ==> !r0.fixed && !p.faced.fixed
    requires MendedOk(p.faced.mended.value, s.decision, r0.members, r0.suites)
    requires MendedTo(p, p.faced.mended.value) && MendedAsks(p.faced.mended.value, p.onto, tail)
    requires p.asks == OpeningAsks(s.decision, iteration)
                       + (FixAsks(r0, p.faced) + [MendersAsked(s.decision, r0.members, p.faced.mended)] + tail)
    ensures Passed(p, iteration)
  {
    Booked(p, iteration, FixAsks(r0, p.faced) + [MendersAsked(s.decision, r0.members, p.faced.mended)] + tail);
  }

  lemma EjectsBooked(p: PassRecord, r0: Round, s: Settled, iteration: nat, tail: seq<Ask>)
    requires Proper(p) && p.round == r0 && p.settled == s && s.end.Ran?
    requires s.decision.unattributed == [] && s.decision.owners != map[] && p.faced.mended.None?
    requires NoDup(p.faced.integration) && Elems(p.faced.integration) == IntegrationSet(s.decision)
    requires p.faced.integration != [] ==> !r0.fixed && !p.faced.fixed
    requires EjectedFully(p) && EjectedAsks(r0, s, p.onto, tail)
    requires p.asks == OpeningAsks(s.decision, iteration) + (FixAsks(r0, p.faced) + EjectionTold(r0, s) + tail)
    ensures Passed(p, iteration)
  {
    Booked(p, iteration, FixAsks(r0, p.faced) + EjectionTold(r0, s) + tail);
  }

  lemma PassAlike(p: PassRecord, q: PassRecord)
    requires Proper(p) && q == p.(faced := q.faced, asks := q.asks)
    ensures Proper(q)
    ensures EjectedFully(p) ==> EjectedFully(q)
  {
    assert PassOk(q);
  }

  /** Ejects the owners, whoever had to hear of it first having been told. */
  method DealByEjection(runner: Runner, ops: Ops, r0: Round, s: Settled, iteration: nat, ghost q: PassRecord)
    returns (r: Result<Onto>, ghost p: PassRecord, ghost tail: seq<Ask>)
    requires OwnersLeft(q, r0, s, iteration)
    modifies runner`inFlight, runner`heard, runner`loads, runner`patience, runner`clock, ops`ejections, ops`asked
    ensures r.Ok? ==> Passed(p, iteration) && CourseOf(r0, s, p.faced).Ejects?
    ensures r.Ok? ==> p == q.(ejected := p.ejected, onto := r.value, asks := q.asks + (EjectionTold(r0, s) + tail))
    ensures r.Ok? ==> ops.asked == old(ops.asked) + tail && ops.ejections == old(ops.ejections) + p.ejected
    ensures forall id :: id in runner.inFlight ==> id in old(runner.inFlight)
    ensures forall x :: x in old(runner.heard) ==> x in runner.heard
  {
    ghost var told := EjectionTold(r0, s);
    r, p, tail := GoByEjection(runner, ops, r0, s, q);
    if r.Ok? {
      ghost var w := p;
      p := p.(asks := q.asks + (told + tail));
      PassAlike(w, p);
      AllAsked(OpeningAsks(s.decision, iteration), FixAsks(r0, q.faced), told, tail);
      EjectsBooked(p, r0, s, iteration, tail);
    }
  }

  /** Goes on as the menders decided, who have been asked. */
  method DealByMending(ops: Ops, r0: Round, s: Settled, m: Mended, iteration: nat, ghost q: PassRecord)
    returns (r: Result<Onto>, ghost p: PassRecord, ghost tail: seq<Ask>)
    requires OwnersLeft(q, r0, s, iteration) && s.preempt.None? && MendedOk(m, s.decision, r0.members, r0.suites)
    modifies ops`ejections, ops`asked
    ensures r.Ok? ==> Passed(p, iteration) && CourseOf(r0, s, p.faced).Mends?
    ensures r.Ok? ==>
              p == q.(ejected := p.ejected, onto := r.value, faced := q.faced.(mended := Some(m)),
                      asks := q.asks + ([MendersAsked(s.decision, r0.members, Some(m))] + tail))
    ensures r.Ok? ==> ops.asked == old(ops.asked) + tail && ops.ejections == old(ops.ejections) + p.ejected
  {
    ghost var told := [MendersAsked(s.decision, r0.members, Some(m))];
    r, p, tail := GoByMending(ops, r0, s, m, q);
    if r.Ok? {
      ghost var w := p;
      p := p.(faced := q.faced.(mended := Some(m)), asks := q.asks + (told + tail));
      PassAlike(w, p);
      AllAsked(OpeningAsks(s.decision, iteration), FixAsks(r0, q.faced), told, tail);
      MendsBooked(p, r0, s, iteration, tail);
    }
  }

  /** Deals with the owners: the menders, if they own the pass, else ejection. */
  method DealWithOwners(runner: Runner, ops: Ops, r0: Round, s: Settled, iteration: nat, ghost q: PassRecord)
    returns (r: Result<Onto>, ghost p: PassRecord, ghost told: seq<Ask>)
    requires OwnersLeft(q, r0, s, iteration)
    modifies runner`inFlight, runner`heard, runner`loads, runner`patience, runner`clock, ops`ejections, ops`asked
    ensures r.Ok? ==> Passed(p, iteration) && !CourseOf(r0, s, p.faced).Clears? && !CourseOf(r0, s, p.faced).TakesRetry?
    ensures r.Ok? ==> p.round == r0 && p.settled == s && p.v == q.v && p.greens == q.greens && p.onto == r.value
    ensures r.Ok? ==> p.asks == q.asks + told && ops.asked == old(ops.asked) + told
    ensures r.Ok? ==> ops.ejections == old(ops.ejections) + p.ejected
    ensures forall id :: id in runner.inFlight ==> id in old(runner.inFlight)
    ensures forall x :: x in old(runner.heard) ==> x in runner.heard
  {
    ghost var was, head, tail := ops.asked, EjectionTold(r0, s), [];
    p, told := q, [];
    if s.preempt.Some? {
      ops.Preempted(s.preempt.value.owner, s.preempt.value.unreached);
    } else {
      DrivenOwned(r0, s, q.v, q.greens);
      OwnedRan(s.decision, r0.suites);
      var mended := ops.SettleMending(s.decision, r0.members, r0.suites);
      if mended.Some? {
        if mended.value.Err? {
          return Err(mended.value.error), p, told;
        }
        head := [MendersAsked(s.decision, r0.members, Some(mended.value.value))];
        r, p, tail := DealByMending(ops, r0, s, mended.value.value, iteration, q);
        AskedThen(was, head, tail);
        return r, p, head + tail;
      }
    }
    r, p, tail := DealByEjection(runner, ops, r0, s, iteration, q);
    AskedThen(was, head, tail);
    told := head + tail;
  }

  lemma AllAsked(opening: seq<Ask>, fix: seq<Ask>, head: seq<Ask>, tail: seq<Ask>)
    ensures (opening + fix) + (head + tail) == opening + (fix + head + tail)
  {
  }

  /** From a main run's verdicts to where the round goes next. */
  method PassOn(runner: Runner, ops: Ops, r0: Round, s: Settled, budget: Budget, worst: Option<nat>, iteration: nat,
                ghost q: PassRecord)
    returns (r: Result<Onto>, ghost p: PassRecord)
    requires Recording(q, r0, s) && q.faced == UNASKED && q.asks == []
    requires ClearIds(runner) && budget.slots >= 1
    modifies runner`inFlight, runner`heard, runner`loads, runner`patience, runner`clock, runner`base, ops
    ensures r.Ok? ==> Passed(p, iteration) && p.onto == r.value
    ensures r.Ok? ==> p.round == r0 && p.settled == s && p.v == q.v && p.greens == q.greens
    ensures r.Ok? ==> WorldOf(runner, ops) == After(old(WorldOf(runner, ops)), p)
    ensures r.Ok? && r.value.Go? ==> ClearIds(runner)
    ensures r.Ok? ==> WorstIs(r.value, worst) && FlipsShown(p, runner.heard)
    ensures forall x :: x in old(runner.heard) ==> x in runner.heard
  {
    ghost var was, told := ops.asked, [];
    Open(ops, s.decision, iteration);
    ghost var opening := OpeningAsks(s.decision, iteration);
    p := q.(asks := opening);
    var weighed;
    weighed, p, told := Weigh(runner, ops, r0, s, budget, worst, iteration, p);
    if weighed.Err? {
      return Err(weighed.error), p;
    }
    AskedThen(was, opening, told);
    if weighed.Ok? && weighed.value.Some? {
      assert ops.ejections == old(ops.ejections) + p.ejected;
      return Ok(weighed.value.value), p;
    }
    ghost var asks, more := p.asks, [];
    r, p, more := DealWithOwners(runner, ops, r0, s, iteration, p);
    AskedThen(was, asks, more);
  }

  /** One pass of the round. */
  method OnePass(runner: Runner, ops: Ops, r0: Round, budget: Budget, iteration: nat, worst0: Option<nat>)
    returns (r: Result<Onto>, worst: Option<nat>, ghost p: PassRecord)
    requires Distinct(r0.members) && budget.slots >= 1 && ClearIds(runner)
    requires 1 + 3 * Cap(r0.suites, |r0.members|) < RERUN_ID_BASE
    modifies runner, ops
    ensures r.Ok? ==> Passed(p, iteration) && p.round == r0 && p.onto == r.value
    ensures r.Ok? ==> WorldOf(runner, ops) == After(old(WorldOf(runner, ops)), p)
    ensures r.Ok? ==> BorneOut(p, runner.Current()) && runner.sessions == old(runner.Shown())
    ensures r.Ok? && r.value.Go? ==> ClearIds(runner)
    ensures r.Ok? ==> worst == Longest(worst0, p.settled.decision.records)
    ensures r.Ok? ==> WorstIs(r.value, worst) && FlipsShown(p, runner.heard)
  {
    worst := worst0;
    var driven;
    ghost var v, greens;
    driven, v, greens := Drive(runner, ops, r0.kind, r0.suites, r0.members, budget);
    p := PassRecord(r0, Settled(None, NoDecision, Ran, 0, 0), v, greens, [], Ended(Blocked(NO_WORKSPACE)), UNASKED, []);
    if driven.Err? {
      return Err(driven.error), worst, p;
    }
    var s := driven.value;
    p := p.(settled := s);
    if s.end.WorkspaceBuild? {
      ops.Incident(WORKSPACE_BUILD, [WORKSPACE_BUILD]);
      p := p.(asks := [Raised(WORKSPACE_BUILD, [WORKSPACE_BUILD])]);
      WorkspaceBooked(p, iteration);
      return Ok(Ended(Blocked(NO_WORKSPACE))), worst, p;
    }
    worst := TrackLongest(worst, s.decision.records);
    ghost var session := runner.Current();
    assert Driven(r0, s, v, greens);
    r, p := PassOn(runner, ops, r0, s, budget, worst, iteration, p);
    BorneStill(v, greens, session, runner.Current());
  }

  lemma WorkspaceBooked(p: PassRecord, iteration: nat)
    requires Judged(p) && Distinct(p.round.members) && p.settled.end.WorkspaceBuild? && p.ejected == []
    requires p.onto == Ended(Blocked(NO_WORKSPACE)) && p.asks == [Raised(WORKSPACE_BUILD, [WORKSPACE_BUILD])]
    ensures Passed(p, iteration)
  {
    assert PassOk(p) && ByTheBook(p, iteration);
  }

  lemma BorneStill(v: State, greens: set<Suite>, session: Session, later: Session)
    requires Borne(v, greens, session) && later == session.(heard := later.heard)
    requires forall x :: x in session.heard ==> x in later.heard
    ensures Borne(v, greens, later)
  {
  }

  // ----- the whole round -------------------------------------------------------------------

  lemma {:induction false} SubListNoDup<T>(sub: seq<T>, s: seq<T>)
    requires SubList(sub, s) && NoDup(s)
    ensures NoDup(sub)
  {
    if sub != [] {
      assert NoDup(s[1..]) by {
        forall i, j | 0 <= i < j < |s[1..]| ensures s[1..][i] != s[1..][j] {
          assert s[i + 1] != s[j + 1];
        }
      }
      if sub[0] == s[0] {
        SubListNoDup(sub[1..], s[1..]);
        forall j | 0 < j < |sub| ensures sub[0] != sub[j] {
          assert sub[1..][j - 1] == sub[j];
          SubListHas(sub[1..], s[1..], sub[j]);
          var k :| 0 <= k < |s[1..]| && s[1..][k] == sub[j];
          assert s[0] != s[k + 1];
        }
        forall i, j | 0 <= i < j < |sub| ensures sub[i] != sub[j] {
          if i > 0 {
            assert sub[1..][i - 1] != sub[1..][j - 1];
          }
        }
      } else {
        SubListNoDup(sub, s[1..]);
      }
    }
  }

  lemma {:induction false} RemainingSub(members: seq<Member>, gone: set<Id>)
    ensures SubList(Remaining(members, gone), members)
  {
    if members != [] {
      var shorter, last := members[..|members| - 1], members[|members| - 1];
      RemainingSub(shorter, gone);
      SubListSnoc(Remaining(shorter, gone), shorter, last);
      assert members == shorter + [last];
      assert Remaining(shorter, gone) + [] == Remaining(shorter, gone);
    }
  }

  /** What a pass goes on with is again a round: distinct members of this one, suites of this one. */
  lemma GoesOnWithin(p: PassRecord)
    requires PassOk(p) && p.onto.Go?
    ensures Distinct(p.onto.round.members) && |p.onto.round.members| <= |p.round.members|
    ensures Elems(p.onto.round.suites) <= Elems(p.round.suites)
  {
    var members, next := p.round.members, p.onto.round.members;
    GoesDown(p);
    SuitesShrink(p);
    match p.onto.how
    case ByFix =>
    case ByRetry =>
      SubListIds(next, members);
      SubListNoDup(MemberIds(next), MemberIds(members));
    case ByMending =>
      SubListNoDup(MemberIds(next), MemberIds(members));
    case ByEjection =>
      var rest := Remaining(members, Out(members, p.settled.decision.owners.Keys));
      RemainingSub(members, Out(members, p.settled.decision.owners.Keys));
      SubListTwice(next, rest, members);
      SubListIds(next, members);
      SubListNoDup(MemberIds(next), MemberIds(members));
  }

  lemma CapShrinks(less: seq<Suite>, more: seq<Suite>, m: nat, n: nat)
    requires Elems(less) <= Elems(more) && m <= n
    ensures Cap(less, m) <= Cap(more, n)
  {
    SameSizeSame(Elems(less), Elems(more));
    TimesMonotone(|Elems(less)|, |Elems(more)|, m + 2);
    TimesMonotone(m + 2, n + 2, |Elems(more)|);
  }

  /** What the passes have done to the world, one after another. */
  ghost function AfterAll(w: World, trace: seq<PassRecord>): (r: World) {
    if trace == [] then w else After(AfterAll(w, trace[..|trace| - 1]), trace[|trace| - 1])
  }

  ghost function LongestOver(trace: seq<PassRecord>): (r: Option<nat>) {
    if trace == [] then None
    else Longest(LongestOver(trace[..|trace| - 1]), trace[|trace| - 1].settled.decision.records)
  }

  /** What the loop knows after `trace`: every pass went on, and `r` is where the next starts. */
  ghost predicate Onward(corpus: seq<Suite>, starting: seq<Member>, trace: seq<PassRecord>, r: Round) {
    && Linked(corpus, starting, trace)
    && (forall i :: 0 <= i < |trace| ==> trace[i].onto.Go?)
    && StartOfNext(corpus, starting, trace) == r
    && Distinct(r.members) && |r.members| <= |starting| && Elems(r.suites) <= Elems(corpus)
  }

  lemma TotalsMore(trace: seq<PassRecord>, p: PassRecord, w: World)
    ensures AfterAll(w, trace + [p]) == After(AfterAll(w, trace), p)
    ensures LongestOver(trace + [p]) == Longest(LongestOver(trace), p.settled.decision.records)
  {
    assert (trace + [p])[..|trace|] == trace;
  }

  /** The passes' evidence is what the runner showed, one main run a pass. */
  ghost predicate AllBorneOut(trace: seq<PassRecord>, shown: seq<Session>) {
    |trace| <= |shown| && forall i: nat :: i < |trace| ==> BorneOut(trace[i], shown[|shown| - |trace| + i])
  }

  lemma PassBorneOut(trace: seq<PassRecord>, shown: seq<Session>, p: PassRecord, session: Session)
    requires AllBorneOut(trace, shown) && BorneOut(p, session)
    ensures AllBorneOut(trace + [p], shown + [session])
  {
    var longer, all := trace + [p], shown + [session];
    forall i: nat | i < |longer| ensures BorneOut(longer[i], all[|all| - |longer| + i]) {
      if i < |trace| {
        assert all[|shown| - |trace| + i] == shown[|shown| - |trace| + i];
      }
    }
  }

  lemma PassByTheBook(trace: seq<PassRecord>, p: PassRecord)
    requires AllByTheBook(trace) && ByTheBook(p, |trace|)
    ensures AllByTheBook(trace + [p])
  {
  }

  lemma OnwardMore(corpus: seq<Suite>, starting: seq<Member>, trace: seq<PassRecord>, r: Round, p: PassRecord)
    requires Onward(corpus, starting, trace, r) && PassOk(p) && p.round == r && p.onto.Go?
    ensures Onward(corpus, starting, trace + [p], p.onto.round)
  {
    LinkedMore(corpus, starting, trace, p);
    GoesOnWithin(p);
  }

  /** What the last pass found flaky was proved so. */
  ghost predicate FlakyShown(trace: seq<PassRecord>, heard: seq<Answer>) {
    trace != [] && FlipsShown(trace[|trace| - 1], heard)
  }

  /** Every suite a landing pass found flaky was proved to flip. */
  lemma LandedFlipsProven(p: PassRecord, iteration: nat, heard: seq<Answer>)
    requires PassOk(p) && ByTheBook(p, iteration) && FlipsShown(p, heard) && p.onto.Ended? && p.onto.end.Land?
    ensures NamesFor(p.faced.named, p.settled.decision.flaky)
    ensures FlipsProven(p.round.members, p.faced.named, heard)
  {
    assert CourseOf(p.round, p.settled, p.faced) == Clears;
    var asks :| p.asks == OpeningAsks(p.settled.decision, iteration) + asks && AskedOn(p, asks);
  }

  /** One turn of the round: a pass, added to the trace. */
  method Advance(runner: Runner, ops: Ops, budget: Budget, r0: Round, worst0: Option<nat>,
                 ghost corpus: seq<Suite>, ghost starting: seq<Member>, ghost trace0: seq<PassRecord>,
                 ghost w0: World, iteration: nat)
    returns (r: Result<Onto>, worst: Option<nat>, ghost trace: seq<PassRecord>)
    requires Onward(corpus, starting, trace0, r0) && worst0 == LongestOver(trace0) && iteration == |trace0|
    requires AllByTheBook(trace0) && AllBorneOut(trace0, runner.Shown()) && WorldOf(runner, ops) == AfterAll(w0, trace0)
    requires budget.slots >= 1 && ClearIds(runner) && 1 + 3 * Cap(corpus, |starting|) < RERUN_ID_BASE
    modifies runner, ops
    ensures r.Ok? ==> |trace| == |trace0| + 1 && Linked(corpus, starting, trace) && trace[|trace| - 1].onto == r.value
    ensures r.Ok? ==> AllByTheBook(trace) && WorldOf(runner, ops) == AfterAll(w0, trace)
    ensures r.Ok? ==> AllBorneOut(trace, runner.Shown()) && |runner.Shown()| == |old(runner.Shown())| + 1
    ensures r.Ok? && r.value.Go? ==> Onward(corpus, starting, trace, r.value.round) && ClearIds(runner)
    ensures r.Ok? ==> worst == LongestOver(trace)
    ensures r.Ok? && r.value.Ended? && r.value.end.Land? ==>
              r.value.end.attributionSecs == worst
    ensures r.Ok? ==> FlakyShown(trace, runner.heard)
  {
    ghost var shown := runner.Shown();
    CapShrinks(r0.suites, corpus, |r0.members|, |starting|);
    ghost var p;
    r, worst, p := OnePass(runner, ops, r0, budget, iteration, worst0);
    trace := trace0 + [p];
    if r.Ok? {
      TotalsMore(trace0, p, w0);
      PassByTheBook(trace0, p);
      PassBorneOut(trace0, shown, p, runner.Current());
      LinkedMore(corpus, starting, trace0, p);
      if r.value.Go? {
        OnwardMore(corpus, starting, trace0, r0, p);
      }
    }
  }

  lemma OnwardStart(corpus: seq<Suite>, starting: seq<Member>)
    requires Distinct(starting)
    ensures Onward(corpus, starting, [], Round(starting, corpus, Corpus, false, false))
  {
  }

  lemma RanToEnd(corpus: seq<Suite>, starting: seq<Member>, trace: seq<PassRecord>, end: RoundEnd)
    requires Linked(corpus, starting, trace) && 0 < |trace| <= |starting| + 2
    requires trace[|trace| - 1].onto == Ended(end)
          || (|trace| == |starting| + 2 && trace[|trace| - 1].onto.Go? && end.Blocked?)
    ensures RoundRan(corpus, starting, trace, end)
  {
  }

  /** The whole round, from the corpus on every starting member to its end. */
  method AttributeRound(runner: Runner, ops: Ops, corpus: seq<Suite>, starting: seq<Member>, budget: Budget)
    returns (r: Result<RoundEnd>, ghost trace: seq<PassRecord>)
    requires Distinct(starting) && budget.slots >= 1 && ClearIds(runner)
    requires 1 + 3 * Cap(corpus, |starting|) < RERUN_ID_BASE
    modifies runner, ops
    ensures r.Ok? ==> RoundRan(corpus, starting, trace, r.value)
    ensures r.Ok? ==> AllByTheBook(trace) && WorldOf(runner, ops) == AfterAll(old(WorldOf(runner, ops)), trace)
    ensures r.Ok? ==> AllBorneOut(trace, runner.Shown()) && |runner.Shown()| == |old(runner.Shown())| + |trace|
    ensures r.Ok? && r.value.Land? ==> r.value.attributionSecs == LongestOver(trace)
    ensures r.Ok? ==> FlakyShown(trace, runner.heard)
  {
    var r0 := Round(starting, corpus, Corpus, false, false);
    var worst: Option<nat> := None;
    var bound := |starting| + 2;
    trace := [];
    OnwardStart(corpus, starting);
    for iteration := 0 to bound
      invariant |trace| == iteration && Onward(corpus, starting, trace, r0)
      invariant ClearIds(runner) && worst == LongestOver(trace)
      invariant AllByTheBook(trace) && WorldOf(runner, ops) == AfterAll(old(WorldOf(runner, ops)), trace)
      invariant AllBorneOut(trace, runner.Shown()) && |runner.Shown()| == |old(runner.Shown())| + |trace|
      invariant iteration > 0 ==> trace[iteration - 1].onto.Go?
    {
      var onto;
      ghost var w0 := old(WorldOf(runner, ops));
      onto, worst, trace := Advance(runner, ops, budget, r0, worst, corpus, starting, trace, w0, iteration);
      if onto.Err? {
        return Err(onto.error), trace;
      }
      if onto.value.Ended? {
        RanToEnd(corpus, starting, trace, onto.value.end);
        return Ok(onto.value.end), trace;
      }
      r0 := onto.value.round;
    }
    RanToEnd(corpus, starting, trace, Blocked(STILL_EJECTING));
    r := Ok(Blocked(STILL_EJECTING));
  }
}
