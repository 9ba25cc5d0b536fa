// The end of a red pass (batcher/src/mender.rs, decide): once every mender has an outcome, the
// next pass is decided once, from the outcomes, the round and what the last pass left behind.

module Mender {
  import opened Prelude
  import opened Reach
  import opened Members

  datatype Outcome = Mended | Environment | Flaky | Returned | Unsure

  /** `members`: who leaves on a return, who is suspected when unsure. */
  datatype Failure = Failure(suite: Suite, outcome: Outcome, diagnosis: string, members: seq<Id>)

  /** What a pass leaves for the next: its head when all its failures were the box's, and the
      suites it judged unsure, with the diagnosis given. */
  datatype Prior = Prior(environmentHead: Option<string>, unsure: map<Suite, string>)

  datatype Reason = Diagnosed(text: string) | StackedOnLeaver(prerequisite: Id)

  datatype Left = Left(id: Id, why: seq<Reason>)

  datatype Next =
    | Pass(members: seq<Member>, left: seq<Left>, retry: bool)
    | Stop(page: string)

  datatype Decision = Decision(next: Next, prior: Prior, unattributed: seq<Suite>)

  predicate IsEnvironment(o: Outcome) {
    o.Environment? || o.Flaky?
  }

  predicate AllEnvironment(failures: seq<Failure>) {
    failures != [] && forall f :: f in failures ==> IsEnvironment(f.outcome)
  }

  // ----- what the outcomes ask for ---------------------------------------------------------

  /** A failure that sends its members away: a return, or unsure for the second time running. */
  predicate SendsAway(f: Failure, prior: Prior) {
    f.outcome.Returned? || (f.outcome.Unsure? && f.suite in prior.unsure)
  }

  function Diagnoses(f: Failure, prior: Prior): (r: seq<Reason>) {
    if f.outcome.Unsure? && f.suite in prior.unsure
    then [Diagnosed(prior.unsure[f.suite]), Diagnosed(f.diagnosis)]
    else [Diagnosed(f.diagnosis)]
  }

  /** Every diagnosis given against `id`, in order; none when nothing sends it away. */
  function Against(failures: seq<Failure>, prior: Prior, id: Id): (r: seq<Reason>) {
    if failures == [] then []
    else
      var f := failures[|failures| - 1];
      Against(failures[..|failures| - 1], prior, id)
      + (if SendsAway(f, prior) then Repeated(f.members, id, Diagnoses(f, prior)) else [])
  }

  /** `what`, once for each time `id` occurs in `ids`. */
  function Repeated(ids: seq<Id>, id: Id, what: seq<Reason>): (r: seq<Reason>) {
    if ids == [] then []
    else Repeated(ids[..|ids| - 1], id, what) + (if ids[|ids| - 1] == id then what else [])
  }

  ghost function NamedIds(failures: seq<Failure>, prior: Prior): (r: set<Id>) {
    set f, id | f in failures && SendsAway(f, prior) && id in f.members :: id
  }

  /** Everyone who leaves: those named and whoever is stacked on a leaver, however far up. */
  ghost function Leavers(round: seq<Member>, failures: seq<Failure>, prior: Prior): (r: set<Id>) {
    Carried(StackedOn(round), NamedIds(failures, prior))
  }

  ghost predicate FirstUnsure(failures: seq<Failure>, prior: Prior, suite: Suite) {
    suite !in prior.unsure && exists f :: f in failures && f.outcome.Unsure? && f.suite == suite
  }

  /** Said against members, but naming none. */
  predicate NamesNobody(f: Failure, prior: Prior) {
    SendsAway(f, prior) && f.members == []
  }

  ghost function Unattributed(failures: seq<Failure>, prior: Prior): (r: seq<Suite>) {
    if failures == [] then []
    else
      var f := failures[|failures| - 1];
      Unattributed(failures[..|failures| - 1], prior) + (if NamesNobody(f, prior) then [f.suite] else [])
  }

  function Mend(m: Member, mended: map<Id, string>): (r: Member) {
    if m.id in mended then m.(tip := mended[m.id]) else m
  }

  /** The members that stay, in order, with their mended tips. */
  ghost function Kept(round: seq<Member>, mended: map<Id, string>, leavers: set<Id>): (r: seq<Member>) {
    if round == [] then []
    else
      Kept(round[..|round| - 1], mended, leavers)
      + (if round[|round| - 1].id in leavers then [] else [Mend(round[|round| - 1], mended)])
  }

  // ----- the decision ----------------------------------------------------------------------

  lemma RepeatedMeans(ids: seq<Id>, id: Id, what: seq<Reason>)
    requires what != []
    ensures Repeated(ids, id, what) != [] <==> id in ids
  {
    if ids != [] {
      RepeatedMeans(ids[..|ids| - 1], id, what);
      assert ids == ids[..|ids| - 1] + [ids[|ids| - 1]];
    }
  }

  /** Somebody has a diagnosis against them exactly when named. */
  lemma {:induction false} AgainstMeans(failures: seq<Failure>, prior: Prior, id: Id)
    ensures Against(failures, prior, id) != [] <==> id in NamedIds(failures, prior)
  {
    if failures != [] {
      var f := failures[|failures| - 1];
      AgainstMeans(failures[..|failures| - 1], prior, id);
      RepeatedMeans(f.members, id, Diagnoses(f, prior));
      assert failures == failures[..|failures| - 1] + [f];
    }
  }

  function Listed(leaving: map<Id, seq<Reason>>, id: Id): (r: seq<Reason>) {
    if id in leaving then leaving[id] else []
  }

  /** `what` has been added once for each of `ids`. */
  ghost predicate Added(before: map<Id, seq<Reason>>, after: map<Id, seq<Reason>>, ids: seq<Id>, what: seq<Reason>) {
    forall id :: Listed(after, id) == Listed(before, id) + Repeated(ids, id, what)
  }

  lemma RepeatedOneMore(ids: seq<Id>, x: Id, id: Id, what: seq<Reason>, was: seq<Reason>)
    ensures was + Repeated(ids + [x], id, what) == was + Repeated(ids, id, what) + (if x == id then what else [])
  {
    assert (ids + [x])[..|ids|] == ids;
  }

  lemma AddedOneMore(before: map<Id, seq<Reason>>, after: map<Id, seq<Reason>>, ids: seq<Id>, x: Id, what: seq<Reason>)
    requires Added(before, after, ids, what)
    ensures Added(before, after[x := Listed(after, x) + what], ids + [x], what)
  {
    forall id
      ensures Listed(after[x := Listed(after, x) + what], id) == Listed(before, id) + Repeated(ids + [x], id, what)
    {
      RepeatedOneMore(ids, x, id, what, Listed(before, id));
      assert Listed(after, id) == Listed(before, id) + Repeated(ids, id, what);
    }
  }

  /** Adds the diagnoses of one failure to each member it names. */
  method SendAway(f: Failure, prior: Prior, leaving0: map<Id, seq<Reason>>) returns (leaving: map<Id, seq<Reason>>)
    ensures leaving.Keys == leaving0.Keys + Elems(f.members)
    ensures Added(leaving0, leaving, f.members, Diagnoses(f, prior))
  {
    leaving := leaving0;
    var what := Diagnoses(f, prior);
    for i := 0 to |f.members|
      invariant leaving.Keys == leaving0.Keys + Elems(f.members[..i])
      invariant Added(leaving0, leaving, f.members[..i], what)
    {
      TakeOneMore(f.members, i);
      AddedOneMore(leaving0, leaving, f.members[..i], f.members[i], what);
      leaving := leaving[f.members[i] := Listed(leaving, f.members[i]) + what];
    }
    assert f.members[..|f.members|] == f.members;
  }

  method ReadOutcomes(failures: seq<Failure>, prior: Prior)
    returns (leaving: map<Id, seq<Reason>>, unattributed: seq<Suite>, unsure: map<Suite, string>)
    ensures leaving.Keys == NamedIds(failures, prior)
    ensures forall id :: Listed(leaving, id) == Against(failures, prior, id)
    ensures unattributed == Unattributed(failures, prior)
    ensures forall suite :: suite in unsure <==> FirstUnsure(failures, prior, suite)
  {
    leaving, unattributed, unsure := map[], [], map[];
    for i := 0 to |failures|
      invariant leaving.Keys == NamedIds(failures[..i], prior)
      invariant forall id :: Listed(leaving, id) == Against(failures[..i], prior, id)
      invariant unattributed == Unattributed(failures[..i], prior)
      invariant forall suite :: suite in unsure <==> FirstUnsure(failures[..i], prior, suite)
    {
      TakeOneMore(failures, i);
      var f := failures[i];
      NamedOneMore(failures[..i], f, prior);
      FirstUnsureOneMore(failures[..i], f, prior);
      match f.outcome {
        case Returned =>
          if f.members == [] {
            unattributed := unattributed + [f.suite];
          } else {
            leaving := SendAway(f, prior, leaving);
          }
        case Unsure =>
          if f.suite in prior.unsure {
            if f.members != [] {
              leaving := SendAway(f, prior, leaving);
            } else {
              unattributed := unattributed + [f.suite];
            }
          } else {
            unsure := unsure[f.suite := f.diagnosis];
          }
        case Mended =>
        case Environment =>
        case Flaky =>
      }
    }
    assert failures[..|failures|] == failures;
  }

  lemma NamedOneMore(failures: seq<Failure>, f: Failure, prior: Prior)
    ensures NamedIds(failures + [f], prior) ==
            NamedIds(failures, prior) + (if SendsAway(f, prior) then Elems(f.members) else {})
  {
    assert f in failures + [f];
    assert forall g :: g in failures ==> g in failures + [f];
  }

  lemma FirstUnsureOneMore(failures: seq<Failure>, f: Failure, prior: Prior)
    ensures forall suite :: FirstUnsure(failures + [f], prior, suite) <==>
              FirstUnsure(failures, prior, suite)
              || (f.outcome.Unsure? && f.suite == suite && suite !in prior.unsure)
  {
    assert f in failures + [f];
    assert forall g :: g in failures ==> g in failures + [f];
  }

  /** Someone who leaves for being stacked on a leaver. */
  ghost predicate Follows(round: seq<Member>, leavers: set<Id>, id: Id, why: seq<Reason>) {
    exists m, p :: StackedOnOne(round, leavers, m, p) && m.id == id && why == [StackedOnLeaver(p)]
  }

  ghost predicate StackedOnOne(round: seq<Member>, leavers: set<Id>, m: Member, p: Id) {
    m in round && p in m.stack && p in leavers
  }

  /** Why someone leaves: what was said against them, or a prerequisite that leaves. */
  ghost predicate Justified(round: seq<Member>, named: map<Id, seq<Reason>>, leavers: set<Id>, id: Id,
                            why: seq<Reason>) {
    if id in named then why == named[id] else Follows(round, leavers, id, why)
  }

  /** A partial account of who leaves: everyone in it leaves, for a reason. */
  ghost predicate LeavingOk(round: seq<Member>, leaving: map<Id, seq<Reason>>, named: map<Id, seq<Reason>>,
                            leavers: set<Id>) {
    && named.Keys <= leaving.Keys <= leavers
    && forall id :: id in leaving ==> Justified(round, named, leavers, id, leaving[id])
  }

  method CarryOne(round: seq<Member>, m: Member, leaving0: map<Id, seq<Reason>>, ghost named: map<Id, seq<Reason>>,
                  ghost leavers: set<Id>)
    returns (leaving: map<Id, seq<Reason>>)
    requires m in round && LeavingOk(round, leaving0, named, leavers) && Closed(StackedOn(round), leavers)
    ensures LeavingOk(round, leaving, named, leavers) && leaving0.Keys <= leaving.Keys
    ensures (exists p :: p in m.stack && p in leaving0) ==> m.id in leaving
  {
    leaving := leaving0;
    if p :| p in m.stack.Keys && p in leaving {
      assert (p, m.id) in StackedOn(round);
      assert StackedOnOne(round, leavers, m, p);
      if m.id !in leaving {
        leaving := leaving[m.id := [StackedOnLeaver(p)]];
      }
    }
  }

  lemma NothingLeft(round: seq<Member>, s: set<Id>)
    requires forall m, p :: m in round && p in m.stack && p in s ==> m.id in s
    ensures Closed(StackedOn(round), s)
  {
  }

  /** One pass over the round: whoever is stacked on a leaver leaves with it. */
  method CarryPass(round: seq<Member>, before: map<Id, seq<Reason>>, ghost named: map<Id, seq<Reason>>,
                   ghost leavers: set<Id>)
    returns (leaving: map<Id, seq<Reason>>)
    requires LeavingOk(round, before, named, leavers) && Closed(StackedOn(round), leavers)
    ensures LeavingOk(round, leaving, named, leavers) && before.Keys <= leaving.Keys
    ensures leaving.Keys == before.Keys ==> Closed(StackedOn(round), before.Keys)
  {
    leaving := before;
    for i := 0 to |round|
      invariant LeavingOk(round, leaving, named, leavers) && before.Keys <= leaving.Keys
      invariant forall m, p :: m in round[..i] && p in m.stack && p in before ==> m.id in leaving
    {
      TakeOneMore(round, i);
      leaving := CarryOne(round, round[i], leaving, named, leavers);
    }
    assert round[..|round|] == round;
    if leaving.Keys == before.Keys {
      NothingLeft(round, before.Keys);
    }
  }

  /** A member stacked on one that leaves leaves with it. */
  method CarryAlong(round: seq<Member>, named: map<Id, seq<Reason>>) returns (leaving: map<Id, seq<Reason>>)
    ensures leaving.Keys == Carried(StackedOn(round), named.Keys)
    ensures forall id :: id in leaving ==> Justified(round, named, leaving.Keys, id, leaving[id])
  {
    ghost var leavers := Carried(StackedOn(round), named.Keys);
    CarriedHoldsSeeds(StackedOn(round), named.Keys);
    CarriedClosed(StackedOn(round), named.Keys);
    leaving := named;
    while true
      invariant LeavingOk(round, leaving, named, leavers)
      decreases |leavers| - |leaving|
    {
      var before := leaving;
      leaving := CarryPass(round, before, named, leavers);
      Shapes.SameSizeSame(before.Keys, leaving.Keys);
      Shapes.SameSizeSame(leaving.Keys, leavers);
      assert |leaving| == |leaving.Keys| && |before| == |before.Keys|;
      if |leaving| == |before| {
        break;
      }
    }
    FixpointIsCarried(StackedOn(round), named.Keys, leaving.Keys);
  }

  // ----- deciding --------------------------------------------------------------------------

  /** What a pass leaves behind, as a function of what it saw. */
  ghost predicate PriorAfter(head: string, failures: seq<Failure>, prior: Prior, next: Prior) {
    if AllEnvironment(failures) then next == Prior(Some(head), map[])
    else next.environmentHead.None? && forall suite :: suite in next.unsure <==> FirstUnsure(failures, prior, suite)
  }

  ghost predicate MustStop(head: string, failures: seq<Failure>, prior: Prior) {
    AllEnvironment(failures) && prior.environmentHead == Some(head)
  }

  lemma LeftOneMore(round: seq<Member>, m: Member, leaving: map<Id, seq<Reason>>, left: seq<Left>)
    requires LeftIs(round, leaving, left)
    ensures LeftIs(round + [m], leaving, if m.id in leaving then left + [Left(m.id, leaving[m.id])] else left)
  {
    assert MemberIds(round + [m]) == MemberIds(round) + [m.id];
    WithinSnoc(MemberIds(round), m.id, leaving.Keys);
    if m.id in leaving {
      assert LeftIds(left + [Left(m.id, leaving[m.id])]) == LeftIds(left) + [m.id];
    }
  }

  /** Parts the round: who stays, with mended tips, and who leaves, with why. */
  method Part(round: seq<Member>, mended: map<Id, string>, leaving: map<Id, seq<Reason>>)
    returns (members: seq<Member>, left: seq<Left>)
    ensures members == Kept(round, mended, leaving.Keys) && LeftIs(round, leaving, left)
  {
    members, left := [], [];
    for i := 0 to |round|
      invariant members == Kept(round[..i], mended, leaving.Keys)
      invariant LeftIs(round[..i], leaving, left)
    {
      TakeOneMore(round, i);
      LeftOneMore(round[..i], round[i], leaving, left);
      if round[i].id in leaving {
        left := left + [Left(round[i].id, leaving[round[i].id])];
      } else {
        members := members + [Mend(round[i], mended)];
      }
    }
    assert round[..|round|] == round;
  }

  method Decide(head: string, round: seq<Member>, mended: map<Id, string>, failures: seq<Failure>, prior: Prior)
    returns (d: Decision)
    ensures PriorAfter(head, failures, prior, d.prior)
    ensures d.next.Stop? <==> MustStop(head, failures, prior)
    ensures d.next.Pass? && AllEnvironment(failures) ==>
              d.next.members == round && d.next.left == [] && d.next.retry && d.unattributed == []
    ensures d.next.Pass? && !AllEnvironment(failures) ==>
              && d.next.members == Kept(round, mended, Leavers(round, failures, prior))
              && LeftOk(round, failures, prior, d.next.left)
              && !d.next.retry && d.unattributed == Unattributed(failures, prior)
    ensures d.next.Pass? ==> SubList(MemberIds(d.next.members), MemberIds(round))
    ensures d.next.Pass? ==> forall l :: l in d.next.left ==> l.id !in MemberIds(d.next.members)
  {
    if AllEnvironment(failures) {
      var nextPrior := Prior(Some(head), map[]);
      if prior.environmentHead == Some(head) {
        return Decision(Stop("a second all-environment pass on head " + head), nextPrior, []);
      }
      SubListWhole(MemberIds(round));
      return Decision(Pass(round, [], true), nextPrior, []);
    }
    var named, unattributed, unsure := ReadOutcomes(failures, prior);
    var leaving := CarryAlong(round, named);
    var members, left := Part(round, mended, leaving);
    LeftSpelled(round, failures, prior, named, leaving, left);
    NobodyBoth(round, mended, leaving.Keys, left);
    d := Decision(Pass(members, left, false), Prior(None, unsure), unattributed);
  }

  /** The leavers of the round, in order, each with why. */
  ghost predicate LeftIs(round: seq<Member>, leaving: map<Id, seq<Reason>>, left: seq<Left>) {
    && LeftIds(left) == Within(MemberIds(round), leaving.Keys)
    && forall l :: l in left ==> l.id in leaving && l.why == leaving[l.id]
  }

  ghost function LeftIds(left: seq<Left>): (r: seq<Id>) {
    seq(|left|, i requires 0 <= i < |left| => left[i].id)
  }

  /** Exactly the leavers leave, each for what was said against them or for a prerequisite that
      leaves too. */
  ghost predicate LeftOk(round: seq<Member>, failures: seq<Failure>, prior: Prior, left: seq<Left>) {
    && LeftIds(left) == Within(MemberIds(round), Leavers(round, failures, prior))
    && forall l :: l in left ==>
         if l.id in NamedIds(failures, prior) then l.why == Against(failures, prior, l.id)
         else Follows(round, Leavers(round, failures, prior), l.id, l.why)
  }

  lemma LeftSpelled(round: seq<Member>, failures: seq<Failure>, prior: Prior, named: map<Id, seq<Reason>>,
                    leaving: map<Id, seq<Reason>>, left: seq<Left>)
    requires LeftIs(round, leaving, left)
    requires named.Keys == NamedIds(failures, prior) && forall id :: Listed(named, id) == Against(failures, prior, id)
    requires leaving.Keys == Carried(StackedOn(round), named.Keys)
    requires forall id :: id in leaving ==> Justified(round, named, leaving.Keys, id, leaving[id])
    ensures LeftOk(round, failures, prior, left)
  {
    forall l | l in left
      ensures if l.id in NamedIds(failures, prior) then l.why == Against(failures, prior, l.id)
              else Follows(round, Leavers(round, failures, prior), l.id, l.why)
    {
      assert Justified(round, named, leaving.Keys, l.id, leaving[l.id]);
      assert Listed(named, l.id) == Against(failures, prior, l.id);
    }
  }

  // ----- what a pass decides ---------------------------------------------------------------

  /** Those who stay and those who leave part the round, each in round order. */
  lemma {:induction false} RoundParted(round: seq<Member>, mended: map<Id, string>, leavers: set<Id>)
    ensures MemberIds(Kept(round, mended, leavers)) == Within(MemberIds(round), Elems(MemberIds(round)) - leavers)
    ensures forall m :: m in Kept(round, mended, leavers) ==>
              exists n :: n in round && n.id !in leavers && m == Mend(n, mended)
  {
    if round != [] {
      var shorter, last := round[..|round| - 1], round[|round| - 1];
      RoundParted(shorter, mended, leavers);
      assert round == shorter + [last];
      assert MemberIds(round) == MemberIds(shorter) + [last.id];
      var ids, fewer := Elems(MemberIds(round)) - leavers, Elems(MemberIds(shorter)) - leavers;
      WithinSnoc(MemberIds(shorter), last.id, ids);
      Shapes.WithinSame(MemberIds(shorter), fewer, ids);
      assert last.id in MemberIds(round);
      var kept := Kept(shorter, mended, leavers);
      assert MemberIds(kept + [Mend(last, mended)]) == MemberIds(kept) + [last.id];
    }
  }

  /** Nobody who stays is stacked on anybody who leaves. */
  lemma NoneStranded(round: seq<Member>, failures: seq<Failure>, prior: Prior, m: Member, p: Id)
    requires m in round && m.id !in Leavers(round, failures, prior) && p in m.stack
    ensures p !in Leavers(round, failures, prior)
  {
    if p in Leavers(round, failures, prior) {
      assert (p, m.id) in StackedOn(round);
      CarriedStep(StackedOn(round), NamedIds(failures, prior), p, m.id);
      assert false;
    }
  }

  /** And no smaller set would do: whatever holds everyone named and is closed under stacking
      holds all who leave. */
  lemma FewestLeave(round: seq<Member>, failures: seq<Failure>, prior: Prior, s: set<Id>)
    requires NamedIds(failures, prior) <= s
    requires forall m, p :: m in round && p in m.stack && p in s ==> m.id in s
    ensures Leavers(round, failures, prior) <= s
  {
    NothingLeft(round, s);
    CarriedLeast(StackedOn(round), NamedIds(failures, prior), s);
  }

  /** Who stays is a sublist of the round, and nobody both stays and leaves. */
  lemma NobodyBoth(round: seq<Member>, mended: map<Id, string>, leavers: set<Id>, left: seq<Left>)
    requires LeftIds(left) == Within(MemberIds(round), leavers)
    ensures SubList(MemberIds(Kept(round, mended, leavers)), MemberIds(round))
    ensures forall l :: l in left ==> l.id !in MemberIds(Kept(round, mended, leavers))
  {
    var ids := MemberIds(round);
    RoundParted(round, mended, leavers);
    WithinSub(ids, Elems(ids) - leavers);
    WithinElems(ids, Elems(ids) - leavers);
    WithinElems(ids, leavers);
    forall l | l in left ensures l.id in leavers {
      var i :| 0 <= i < |left| && left[i] == l;
      assert LeftIds(left)[i] == l.id;
    }
  }

  // ----- passes in a row -------------------------------------------------------------------

  /** What one pass saw: the round's head and its failures. */
  datatype Seen = Seen(head: string, failures: seq<Failure>)

  /** `priors[i]` is what pass `i` was given: nothing for the first, then what the last left. */
  ghost predicate Threaded(passes: seq<Seen>, priors: seq<Prior>) {
    && |priors| == |passes| + 1
    && priors[0] == Prior(None, map[])
    && forall i :: 0 <= i < |passes| ==> PriorAfter(passes[i].head, passes[i].failures, priors[i], priors[i + 1])
  }

  /** The round stops exactly on an all-environment pass whose predecessor was one on that head. */
  lemma StopsOnSecond(passes: seq<Seen>, priors: seq<Prior>, i: nat)
    requires Threaded(passes, priors) && i < |passes|
    ensures MustStop(passes[i].head, passes[i].failures, priors[i]) <==>
              AllEnvironment(passes[i].failures)
              && i > 0 && AllEnvironment(passes[i - 1].failures) && passes[i - 1].head == passes[i].head
  {
    if i > 0 {
      assert PriorAfter(passes[i - 1].head, passes[i - 1].failures, priors[i - 1], priors[i - 1 + 1]);
    }
  }

  ghost predicate UnsureOf(failures: seq<Failure>, suite: Suite) {
    exists f :: f in failures && f.outcome.Unsure? && f.suite == suite
  }

  /** How many passes up to `n`, counting back without a gap, were unsure of `suite`. */
  ghost function Streak(passes: seq<Seen>, suite: Suite, n: nat): (r: nat)
    requires n <= |passes|
  {
    if n == 0 || !UnsureOf(passes[n - 1].failures, suite) then 0 else Streak(passes, suite, n - 1) + 1
  }

  /** A suite is remembered as unsure exactly after an odd number of unsure passes in a row: every
      second one sends its members away and starts the count again. */
  lemma {:induction false} UnsureRemembered(passes: seq<Seen>, priors: seq<Prior>, suite: Suite, n: nat)
    requires Threaded(passes, priors) && n <= |passes|
    ensures suite in priors[n].unsure <==> Streak(passes, suite, n) % 2 == 1
  {
    if n > 0 {
      UnsureRemembered(passes, priors, suite, n - 1);
      var failures := passes[n - 1].failures;
      assert PriorAfter(passes[n - 1].head, failures, priors[n - 1], priors[n - 1 + 1]);
      if f :| f in failures && f.outcome.Unsure? && f.suite == suite {
        assert !IsEnvironment(f.outcome);
      }
    }
  }
}
