// What a round reads off the attributor: its reds sorted by verdict, the suites owners turned
// red, the suites red only in the merged tree, and the member a main run may be stopped on.

module AttributionDecision {
  import opened Prelude
  import opened AttributionSpec
  import opened AttributionTheorems

  predicate Charged(owners: map<Id, seq<Suite>>, x: Id, suite: Suite) {
    x in owners && suite in owners[x]
  }

  /** Owner lists name each suite once. */
  ghost predicate Once(owners: map<Id, seq<Suite>>) {
    forall x :: x in owners ==> NoDup(owners[x])
  }

  lemma ChargeOne(owners: map<Id, seq<Suite>>, x: Id, suite: Suite)
    ensures
      var after := owners[x := (if x in owners then owners[x] else []) + [suite]];
      forall y, t :: Charged(after, y, t) <==> Charged(owners, y, t) || (t == suite && y == x)
  {
    var listed := if x in owners then owners[x] else [];
    var after := owners[x := listed + [suite]];
    forall y, t ensures Charged(after, y, t) <==> Charged(owners, y, t) || (t == suite && y == x) {
      if y == x {
        assert after[y] == listed + [suite];
        assert t in after[y] <==> t in listed || t in [suite];
      }
    }
  }

  lemma {:induction false} ChargeFacts(owners: map<Id, seq<Suite>>, ids: seq<Id>, suite: Suite)
    ensures forall x, t :: Charged(Charge(owners, ids, suite), x, t) <==>
              Charged(owners, x, t) || (t == suite && x in ids)
    ensures Charge(owners, ids, suite).Keys == owners.Keys + Elems(ids)
  {
    if ids != [] {
      var shorter, x := ids[..|ids| - 1], ids[|ids| - 1];
      ChargeFacts(owners, shorter, suite);
      assert ids == shorter + [x];
      ChargeOne(Charge(owners, shorter, suite), x, suite);
      forall y, t
        ensures Charged(Charge(owners, ids, suite), y, t) <==> Charged(owners, y, t) || (t == suite && y in ids)
      {
        assert Charged(Charge(owners, shorter, suite), y, t) <==> Charged(owners, y, t) || (t == suite && y in shorter);
      }
    }
  }

  lemma {:induction false} ChargeOnce(owners: map<Id, seq<Suite>>, ids: seq<Id>, suite: Suite)
    requires Once(owners) && NoDup(ids) && forall x :: x in ids ==> !Charged(owners, x, suite)
    ensures Once(Charge(owners, ids, suite))
  {
    if ids != [] {
      var shorter, x := ids[..|ids| - 1], ids[|ids| - 1];
      assert ids == shorter + [x];
      ChargeOnce(owners, shorter, suite);
      ChargeFacts(owners, shorter, suite);
      var before := Charge(owners, shorter, suite);
      assert x !in shorter;
      if x in before {
        assert suite !in before[x] by { assert !Charged(before, x, suite); }
        NoDupAppend(before[x], [suite]);
      }
    }
  }

  ghost predicate OwnedBy(s: State, suite: Suite, x: Id)
    requires suite in s.suites
  {
    var settled := s.suites[suite].settled;
    settled.Some? && settled.value.0.Owner? && x in settled.value.0.owners
  }

  ghost predicate IsOutcome(s: State, suite: Suite, o: Outcome)
    requires suite in s.suites
  {
    s.suites[suite].settled.Some? && s.suites[suite].settled.value.0 == o
  }

  ghost predicate Unexplained(s: State, suite: Suite)
    requires suite in s.suites
  {
    s.suites[suite].settled.None? || s.suites[suite].settled.value.0.Unattributed?
  }

  /** The decision sorts the reds by verdict and leaves none out: a suite is charged to exactly
      its owners, and is listed flaky, base or unattributed exactly when settled so, an
      unsettled red counting as unattributed. */
  lemma {:induction false} DecisionSorts(s: State, reds: seq<Suite>)
    requires forall suite :: suite in reds ==> suite in s.suites
    ensures
      var d := DecisionOf(s, reds);
      && (forall x, suite :: Charged(d.owners, x, suite) <==> suite in reds && OwnedBy(s, suite, x))
      && (forall suite :: suite in d.flaky <==> suite in reds && IsOutcome(s, suite, Flaky))
      && (forall suite :: suite in d.base <==> suite in reds && IsOutcome(s, suite, BaseRed))
      && (forall suite :: suite in d.unattributed <==> suite in reds && Unexplained(s, suite))
      && |d.records| == |reds|
      && (forall i :: 0 <= i < |reds| ==> d.records[i] == RecordOf(s, reds[i]))
  {
    if reds != [] {
      var shorter, suite := reds[..|reds| - 1], reds[|reds| - 1];
      assert reds == shorter + [suite];
      DecisionSorts(s, shorter);
      var settled := s.suites[suite].settled;
      if settled.Some? && settled.value.0.Owner? {
        ChargeFacts(DecisionOf(s, shorter).owners, settled.value.0.owners, suite);
      }
    }
  }

  lemma {:induction false} DecisionKeys(s: State, reds: seq<Suite>)
    requires forall suite :: suite in reds ==> suite in s.suites
    ensures forall x :: x in DecisionOf(s, reds).owners ==> DecisionOf(s, reds).owners[x] != []
  {
    if reds != [] {
      var shorter, suite := reds[..|reds| - 1], reds[|reds| - 1];
      DecisionKeys(s, shorter);
      var settled := s.suites[suite].settled;
      if settled.Some? && settled.value.0.Owner? {
        var before, ids := DecisionOf(s, shorter).owners, settled.value.0.owners;
        ChargeFacts(before, ids, suite);
        forall x | x in Charge(before, ids, suite) ensures Charge(before, ids, suite)[x] != [] {
          if x in ids {
            assert Charged(Charge(before, ids, suite), x, suite);
          } else {
            assert before[x] != [] && Charged(before, x, before[x][0]);
            assert Charged(Charge(before, ids, suite), x, before[x][0]);
          }
        }
      }
    }
  }

  lemma {:induction false} DecisionOnce(s: State, reds: seq<Suite>)
    requires forall suite :: suite in reds ==> suite in s.suites
    requires NoDup(reds)
    requires forall suite, ids :: suite in s.suites && IsOutcome(s, suite, Owner(ids)) ==> NoDup(ids)
    ensures Once(DecisionOf(s, reds).owners)
  {
    if reds != [] {
      var shorter, suite := reds[..|reds| - 1], reds[|reds| - 1];
      assert reds == shorter + [suite];
      DecisionOnce(s, shorter);
      DecisionSorts(s, shorter);
      var settled := s.suites[suite].settled;
      if settled.Some? && settled.value.0.Owner? {
        assert suite !in shorter;
        assert IsOutcome(s, suite, Owner(settled.value.0.owners));
        ChargeOnce(DecisionOf(s, shorter).owners, settled.value.0.owners, suite);
      }
    }
  }

  // ----- the suites a decision hands on ----------------------------------------------------

  /** Every suite an owner turned red. */
  ghost predicate IsOwned(d: Decision, suite: Suite) {
    exists x :: Charged(d.owners, x, suite)
  }

  /** Named against owners at least twice over. */
  ghost predicate ChargedTwice(owners: map<Id, seq<Suite>>, suite: Suite) {
    || (exists x, y :: x != y && Charged(owners, x, suite) && Charged(owners, y, suite))
    || (exists x, i, j :: x in owners && 0 <= i < j < |owners[x]| && owners[x][i] == suite && owners[x][j] == suite)
  }

  /** Red only in the merged tree: nothing removable alone clears it, or no one member does. */
  ghost predicate IsIntegration(d: Decision, suite: Suite) {
    suite in d.unattributed || ChargedTwice(d.owners, suite)
  }

  lemma TwiceMeans(owners: map<Id, seq<Suite>>, suite: Suite, ids: seq<Id>)
    requires Once(owners) && NoDup(ids)
    requires forall x :: Charged(owners, x, suite) <==> x in ids
    ensures ChargedTwice(owners, suite) <==> |ids| >= 2
  {
    if x, y :| x != y && Charged(owners, x, suite) && Charged(owners, y, suite) {
      assert x in ids && y in ids;
    }
    if |ids| >= 2 {
      assert ids[0] in ids && ids[1] in ids;
      assert Charged(owners, ids[0], suite) && Charged(owners, ids[1], suite);
    }
  }

  function OwnersOf(s: State, suite: Suite): (r: seq<Id>) {
    if suite in s.suites && s.suites[suite].settled.Some? && s.suites[suite].settled.value.0.Owner?
    then s.suites[suite].settled.value.0.owners
    else []
  }

  /** Integration reds are those unattributed, or unsettled, or with several owners. */
  lemma IntegrationMeans(s: State, suite: Suite)
    requires Reachable(s) && forall red :: red in s.reds ==> red in s.suites
    ensures IsIntegration(DecisionOf(s, s.reds), suite) <==>
              suite in s.suites && (Unexplained(s, suite) || |OwnersOf(s, suite)| >= 2)
  {
    var d := DecisionOf(s, s.reds);
    RedsKnown(s);
    DecisionSorts(s, s.reds);
    DecisionOnce(s, s.reds);
    var ids := OwnersOf(s, suite);
    assert NoDup(ids) by {
      if ids != [] { assert IsOutcome(s, suite, Owner(ids)); }
    }
    forall x ensures Charged(d.owners, x, suite) <==> x in ids {
      assert Charged(d.owners, x, suite) <==> suite in s.reds && OwnedBy(s, suite, x);
    }
    TwiceMeans(d.owners, suite, ids);
  }

  lemma RedsKnown(s: State)
    requires Reachable(s)
    ensures NoDup(s.reds) && forall suite :: suite in s.reds <==> suite in s.suites
    ensures forall suite, ids :: suite in s.suites && IsOutcome(s, suite, Owner(ids)) ==> NoDup(ids)
  {
    ReachableKeeps(s);
    assert forall suite :: suite in s.reds <==> suite in Elems(s.reds);
    forall suite, ids | suite in s.suites && IsOutcome(s, suite, Owner(ids)) ensures NoDup(ids) {
      OwnerSound(s, suite, ids);
    }
  }

  // ----- stopping on a sole owner ----------------------------------------------------------

  function FirstSole(s: State, reds: seq<Suite>): (r: Option<Id>)
    requires forall suite :: suite in reds ==> suite in s.suites
  {
    if reds == [] then None
    else if SoleOf(s.suites[reds[0]]).Some? then SoleOf(s.suites[reds[0]])
    else FirstSole(s, reds[1..])
  }

  function SolelyOwned(s: State, reds: seq<Suite>, x: Id): (r: seq<Suite>)
    requires forall suite :: suite in reds ==> suite in s.suites
  {
    if reds == [] then []
    else
      SolelyOwned(s, reds[..|reds| - 1], x)
      + (if SoleOf(s.suites[reds[|reds| - 1]]) == Some(x) then [reds[|reds| - 1]] else [])
  }

  lemma {:induction false} SolelyOwnedElems(s: State, reds: seq<Suite>, x: Id)
    requires forall suite :: suite in reds ==> suite in s.suites
    ensures forall suite :: suite in SolelyOwned(s, reds, x) <==> suite in reds && SoleOf(s.suites[suite]) == Some(x)
  {
    if reds != [] {
      SolelyOwnedElems(s, reds[..|reds| - 1], x);
      assert reds == reds[..|reds| - 1] + [reds[|reds| - 1]];
    }
  }

  lemma {:induction false} FirstSoleIs(s: State, reds: seq<Suite>)
    requires forall suite :: suite in reds ==> suite in s.suites
    ensures FirstSole(s, reds).None? <==> forall suite :: suite in reds ==> SoleOf(s.suites[suite]).None?
    ensures FirstSole(s, reds).Some? ==> exists suite :: suite in reds && SoleOf(s.suites[suite]) == FirstSole(s, reds)
  {
    if reds != [] {
      FirstSoleIs(s, reds[1..]);
      assert reds == [reds[0]] + reds[1..];
    }
  }

  /** A decision over reds one member solely owns charges them to it, all of them, and says
      nothing else: no flaky, base or unattributed suite is lost by stopping early. */
  lemma {:induction false} PreemptDecision(s: State, reds: seq<Suite>, x: Id)
    requires forall suite :: suite in reds ==> suite in s.suites && SoleOf(s.suites[suite]) == Some(x)
    ensures
      var d := DecisionOf(s, reds);
      && d.flaky == [] && d.base == [] && d.unattributed == []
      && d.owners == (if reds == [] then map[] else map[x := reds])
  {
    if reds != [] {
      var shorter, suite := reds[..|reds| - 1], reds[|reds| - 1];
      assert reds == shorter + [suite];
      PreemptDecision(s, shorter, x);
      var ids := s.suites[suite].settled.value.0.owners;
      assert ids == [x];
      var before := DecisionOf(s, shorter).owners;
      assert Charge(before, [], suite) == before;
      assert [x][..|[x]| - 1] == [];
      assert Charge(before, ids, suite) == before[x := (if x in before then before[x] else []) + [suite]];
    }
  }
}
