// Concurrent attribution of a round's reds (batcher/src/attrib.rs): the state of the
// attributor and what each of its operations does to it, as functions on values. The class
// in Attributor.dfy updates the same state in place and is proved equal to these functions.

module AttributionSpec {
  import opened Prelude
  import opened Shapes

  /** Why a job runs. `Without` names the suspect whose removal set the job drops. */
  datatype Purpose = Plain | Base | Without(suspect: Id)

  /** One rerun: `suite` alone, on the round tree minus `removal`. */
  datatype Job = Job(id: nat, suite: Suite, removal: seq<Id>, purpose: Purpose)

  datatype JobResult = Green | Red | Fault

  datatype Outcome = Owner(owners: seq<Id>) | Flaky | BaseRed | Unattributed

  datatype Budget = Budget(slots: nat, maxpar: nat)

  datatype SuiteState = SuiteState(
    redAt: nat,
    suspects: seq<Id>,
    plainRed: bool,
    settled: Option<(Outcome, nat)>,
    owners: seq<(Id, seq<Id>)>,
    reruns: nat,
    faults: map<Purpose, nat>,
    outstanding: set<nat>,
    baseGreen: bool)

  /** A job that was running, and what the runner said of it. */
  datatype Answer = Answer(job: Job, result: JobResult)

  /** The attributor's fields, and the history of every answer it has taken. */
  datatype State = State(
    budget: Budget,
    shape: Shape,
    mainTotal: nat,
    mainSeen: set<Suite>,
    mainEndAt: Option<nat>,
    suites: map<Suite, SuiteState>,
    reds: seq<Suite>,
    plainQ: seq<Job>,
    attrQ: seq<Job>,
    running: map<nat, Job>,
    nextId: nat,
    launched: seq<Job>,
    log: seq<Answer>)

  function Initial(budget: Budget, shape: Shape, mainTotal: nat): (s: State) {
    State(budget, shape, mainTotal, {}, None, map[], [], [], [], map[], 1, [], [])
  }

  // ----- slots -----------------------------------------------------------------------------

  function Minus(a: nat, b: nat): (r: nat) { if a < b then 0 else a - b }

  /** Main-run suites still owed a slot: none once it ended, else at most `maxpar`. */
  function MainInFlight(s: State): (r: nat) {
    if s.mainEndAt.Some? then 0
    else
      var left := Minus(s.mainTotal, |s.mainSeen|);
      if left < s.budget.maxpar then left else s.budget.maxpar
  }

  /** Slots attribution may take right now. */
  function Spare(s: State): (r: nat) {
    Minus(Minus(s.budget.slots, MainInFlight(s)), |s.running|)
  }

  // ----- queues ----------------------------------------------------------------------------

  function Push(q: seq<Job>, job: Job, front: bool): (r: seq<Job>) {
    if front then [job] + q else q + [job]
  }

  function Enqueue(s: State, suite: Suite, removal: seq<Id>, purpose: Purpose, front: bool): (r: State) {
    var job := Job(s.nextId, suite, removal, purpose);
    var suites :=
      if suite in s.suites
      then s.suites[suite := s.suites[suite].(outstanding := s.suites[suite].outstanding + {s.nextId})]
      else s.suites;
    if purpose.Plain?
    then s.(nextId := s.nextId + 1, suites := suites, plainQ := Push(s.plainQ, job, front))
    else s.(nextId := s.nextId + 1, suites := suites, attrQ := Push(s.attrQ, job, front))
  }

  /** A queue without the jobs of one suite. */
  function WithoutSuite(q: seq<Job>, suite: Suite): (r: seq<Job>) {
    if q == [] then []
    else (if q[0].suite == suite then [] else [q[0]]) + WithoutSuite(q[1..], suite)
  }

  function IdsOf(q: seq<Job>, suite: Suite): (r: set<nat>) {
    set j | j in q && j.suite == suite :: j.id
  }

  function CancelQueued(s: State, suite: Suite): (r: State) {
    var dropped := IdsOf(s.attrQ, suite) + IdsOf(s.plainQ, suite);
    s.(attrQ := WithoutSuite(s.attrQ, suite),
       plainQ := WithoutSuite(s.plainQ, suite),
       suites :=
         if suite in s.suites
         then s.suites[suite := s.suites[suite].(outstanding := s.suites[suite].outstanding - dropped)]
         else s.suites)
  }

  /** The head of the plain queue, else of the attribution queue, starts running. */
  function LaunchNext(s: State): (r: State)
    requires s.plainQ != [] || s.attrQ != []
  {
    var job := if s.plainQ != [] then s.plainQ[0] else s.attrQ[0];
    s.(plainQ := if s.plainQ != [] then s.plainQ[1..] else s.plainQ,
       attrQ := if s.plainQ != [] then s.attrQ else s.attrQ[1..],
       suites :=
         if job.suite in s.suites
         then s.suites[job.suite := s.suites[job.suite].(reruns := s.suites[job.suite].reruns + 1)]
         else s.suites,
       running := s.running[job.id := job],
       launched := s.launched + [job])
  }

  /** Hands out as many queued jobs as there are spare slots. */
  function NextJobs(s: State): (r: State)
    decreases |s.plainQ| + |s.attrQ|
  {
    if Spare(s) > 0 && (s.plainQ != [] || s.attrQ != []) then NextJobs(LaunchNext(s)) else s
  }

  // ----- the main run ----------------------------------------------------------------------

  function FreshSuite(suspects: seq<Id>, now: nat): (r: SuiteState) {
    SuiteState(now, suspects, false, None, [], 0, map[], {}, false)
  }

  function MainResult(s: State, suite: Suite, green: bool, suspects: seq<Id>, now: nat): (r: State) {
    var seen := s.(mainSeen := s.mainSeen + {suite});
    if suite in s.mainSeen || green then seen
    else
      Enqueue(seen.(reds := s.reds + [suite], suites := s.suites[suite := FreshSuite(suspects, now)]),
              suite, [], Plain, false)
  }

  function MainDone(s: State, now: nat): (r: State) {
    if s.mainEndAt.None? then s.(mainEndAt := Some(now)) else s
  }

  // ----- answers ---------------------------------------------------------------------------

  function Settle(s: State, suite: Suite, outcome: Outcome, now: nat): (r: State) {
    var s1 :=
      if suite in s.suites && s.suites[suite].settled.None?
      then s.(suites := s.suites[suite := s.suites[suite].(settled := Some((outcome, now)))])
      else s;
    CancelQueued(s1, suite)
  }

  /** Nothing left to run for `suite` and still unsettled: unattributed. */
  function MaybeExhausted(s: State, suite: Suite, now: nat): (r: State) {
    if && suite in s.suites && s.suites[suite].settled.None?
       && s.suites[suite].outstanding == {} && s.suites[suite].plainRed
    then Settle(s, suite, Unattributed, now)
    else s
  }

  predicate HasRemoval(ws: seq<(Id, seq<Id>)>, removal: seq<Id>) {
    exists w :: w in ws && w.1 == removal
  }

  /** The distinct removal sets of `ids`, each with the first id it belongs to. */
  function Withouts(shape: Shape, ids: seq<Id>): (r: seq<(Id, seq<Id>)>) {
    if ids == [] then []
    else
      var before := Withouts(shape, ids[..|ids| - 1]);
      var removal := RemovalOf(shape, ids[|ids| - 1]);
      if HasRemoval(before, removal) then before
      else before + [(ids[|ids| - 1], removal)]
  }

  /** The runs a red plain rerun calls for, each with its removal set: the base run unless some
      member's removal set already is the whole round, then one per distinct removal set. */
  function Wants(shape: Shape, suspects: seq<Id>): (r: seq<(Purpose, seq<Id>)>) {
    var ws := Withouts(shape, suspects + shape.members);
    (if HasRemoval(ws, shape.members) then [] else [(Base, shape.members)])
    + seq(|ws|, i requires 0 <= i < |ws| => (Without(ws[i].0), ws[i].1))
  }

  function NewJobs(wants: seq<(Purpose, seq<Id>)>, suite: Suite, firstId: nat): (r: seq<Job>) {
    seq(|wants|, i requires 0 <= i < |wants| => Job(firstId + i, suite, wants[i].1, wants[i].0))
  }

  /** Queues attribution runs behind those already there. */
  function EnqueueAll(s: State, suite: Suite, wants: seq<(Purpose, seq<Id>)>): (r: State)
    requires suite in s.suites
  {
    var jobs := NewJobs(wants, suite, s.nextId);
    s.(nextId := s.nextId + |jobs|,
       attrQ := s.attrQ + jobs,
       suites := s.suites[suite := s.suites[suite].(outstanding :=
                   s.suites[suite].outstanding + (set j | j in jobs :: j.id))])
  }

  predicate StrictlyInside(inner: seq<Id>, outer: seq<Id>) {
    |inner| < |outer| && forall m :: m in inner ==> m in outer
  }

  /** The owners a narrower removal set does not replace. */
  function NotWider(owners: seq<(Id, seq<Id>)>, removal: seq<Id>): (r: seq<(Id, seq<Id>)>) {
    if owners == [] then []
    else (if StrictlyInside(removal, owners[0].1) then [] else [owners[0]]) + NotWider(owners[1..], removal)
  }

  function Names(owners: seq<(Id, seq<Id>)>): (r: seq<Id>) {
    seq(|owners|, i requires 0 <= i < |owners| => owners[i].0)
  }

  /** A suite settled as anything but owned keeps its outcome, and a removal set that strictly
      contains an owner's explains nothing new. */
  predicate OwnsNothingNew(st: SuiteState, removal: seq<Id>) {
    || (st.settled.Some? && !st.settled.value.0.Owner?)
    || exists o :: o in st.owners && StrictlyInside(o.1, removal)
  }

  function WithOwner(st: SuiteState, x: Id, removal: seq<Id>, now: nat): (r: SuiteState) {
    if OwnsNothingNew(st, removal) then st
    else
      var owners := NotWider(st.owners, removal) + [(x, removal)];
      st.(owners := owners,
          settled := Some((Owner(Names(owners)), if st.settled.Some? then st.settled.value.1 else now)))
  }

  /** Green without `x`. */
  function AddOwner(s: State, suite: Suite, x: Id, removal: seq<Id>, now: nat): (r: State) {
    if suite !in s.suites || OwnsNothingNew(s.suites[suite], removal) then s
    else CancelQueued(s.(suites := s.suites[suite := WithOwner(s.suites[suite], x, removal, now)]), suite)
  }

  function FaultsOf(st: SuiteState, p: Purpose): (r: nat) {
    if p in st.faults then st.faults[p] else 0
  }

  /** The answered job leaves the running set, its id the suite's outstanding ones. */
  function TakeAnswer(s: State, id: nat, result: JobResult): (r: State)
    requires id in s.running
  {
    var job := s.running[id];
    s.(running := s.running - {id},
       log := s.log + [Answer(job, result)],
       suites :=
         if job.suite in s.suites
         then s.suites[job.suite := s.suites[job.suite].(outstanding := s.suites[job.suite].outstanding - {id})]
         else s.suites)
  }

  function OnFault(s: State, job: Job, now: nat): (r: State)
    requires job.suite in s.suites
  {
    var st := s.suites[job.suite];
    var n := FaultsOf(st, job.purpose) + 1;
    var s1 := s.(suites := s.suites[job.suite := st.(faults := st.faults[job.purpose := n])]);
    var s2 :=
      if n < 2 && st.settled.None? then Enqueue(s1, job.suite, job.removal, job.purpose, true)
      else if job.purpose.Plain? then Settle(s1, job.suite, Unattributed, now)
      else s1;
    MaybeExhausted(s2, job.suite, now)
  }

  function OnVerdict(s: State, job: Job, green: bool, now: nat): (r: State)
    requires job.suite in s.suites
  {
    var st := s.suites[job.suite];
    match job.purpose
    case Plain =>
      if green then Settle(s, job.suite, Flaky, now)
      else
        EnqueueAll(s.(suites := s.suites[job.suite := st.(plainRed := true)]), job.suite, Wants(s.shape, st.suspects))
    case Base =>
      if green
      then MaybeExhausted(s.(suites := s.suites[job.suite := st.(baseGreen := true)]), job.suite, now)
      else Settle(s, job.suite, BaseRed, now)
    case Without(x) =>
      if green then AddOwner(s, job.suite, x, job.removal, now)
      else if |job.removal| == |s.shape.members| then Settle(s, job.suite, BaseRed, now)
      else MaybeExhausted(s, job.suite, now)
  }

  function JobAnswered(s: State, id: nat, result: JobResult, now: nat): (r: State) {
    if id !in s.running then s
    else
      var job := s.running[id];
      var s1 := TakeAnswer(s, id, result);
      if job.suite !in s.suites then s1
      else if result.Fault? then OnFault(s1, job, now)
      else OnVerdict(s1, job, result.Green?, now)
  }

  // ----- what the round reads --------------------------------------------------------------

  /** Every red settled and the main run over. */
  predicate RoundSettled(s: State) {
    s.mainEndAt.Some? && forall suite :: suite in s.suites ==> s.suites[suite].settled.Some?
  }

  datatype RedRecord = RedRecord(
    suite: Suite,
    outcome: Option<Outcome>,
    redAt: nat,
    settledAt: Option<nat>,
    reruns: nat,
    settledBeforeMainEnd: bool)

  datatype Decision = Decision(
    owners: map<Id, seq<Suite>>,
    flaky: seq<Suite>,
    base: seq<Suite>,
    unattributed: seq<Suite>,
    records: seq<RedRecord>)

  const NoDecision := Decision(map[], [], [], [], [])

  /** Charges `suite` to each of `ids` in turn. */
  function Charge(owners: map<Id, seq<Suite>>, ids: seq<Id>, suite: Suite): (r: map<Id, seq<Suite>>) {
    if ids == [] then owners
    else
      var before := Charge(owners, ids[..|ids| - 1], suite);
      var x := ids[|ids| - 1];
      before[x := (if x in before then before[x] else []) + [suite]]
  }

  function RecordOf(s: State, suite: Suite): (r: RedRecord)
    requires suite in s.suites
  {
    var st := s.suites[suite];
    var settledAt := if st.settled.Some? then Some(st.settled.value.1) else None;
    RedRecord(
      suite,
      if st.settled.Some? then Some(st.settled.value.0) else None,
      st.redAt,
      settledAt,
      st.reruns,
      settledAt.Some? && (s.mainEndAt.None? || settledAt.value <= s.mainEndAt.value))
  }

  /** The decision restricted to `reds`. */
  function DecisionOf(s: State, reds: seq<Suite>): (d: Decision)
    requires forall suite :: suite in reds ==> suite in s.suites
  {
    if reds == [] then NoDecision
    else
      var before := DecisionOf(s, reds[..|reds| - 1]);
      var suite := reds[|reds| - 1];
      var d := before.(records := before.records + [RecordOf(s, suite)]);
      match s.suites[suite].settled
      case None => d.(unattributed := d.unattributed + [suite])
      case Some((Owner(ids), _)) => d.(owners := Charge(d.owners, ids, suite))
      case Some((Flaky, _)) => d.(flaky := d.flaky + [suite])
      case Some((BaseRed, _)) => d.(base := d.base + [suite])
      case Some((Unattributed, _)) => d.(unattributed := d.unattributed + [suite])
  }

  /** The one member a suite is settled on, once every rerun of it is back. */
  function SoleOf(st: SuiteState): (r: Option<Id>) {
    if st.outstanding == {} && st.settled.Some? && st.settled.value.0.Owner? && |st.settled.value.0.owners| == 1
    then Some(st.settled.value.0.owners[0])
    else None
  }
}
