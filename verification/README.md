# The merge-queue round engine and its neighbours

A merge queue takes a round of certified members, builds their merged tree, runs the whole test
corpus on it, finds out which member broke which suite, ejects those members with everything
stacked on them, and lands the rest. This project models that engine (the `batcher` crate) in Dafny
and proves what it promises over every run: every order of results and answers, every harness fault,
every sequence of ejections, preemptions, retries, in-round fixes and mended passes. Beside it stand
the smaller machines the queue leans on: the wait for menders, the pacing of rounds, the event log's
rate limiter, the archivist's retries, the day arithmetic with its time format, and the path glob.

How the parts fit:

- **Reachability.** `Reach` defines what a set of members carries along under "stacked on"; every
  fixpoint loop of the source (`Shapes`, `Flips`, `Mender`, `Rounds`, `Selection`) is proved equal to
  it, so they agree with one another.
- **Attribution.** `AttributionSpec` gives the scheduler's state and steps as functions; the class in
  `Attributor.dfy` updates its queues, counters and maps in place and is proved equal to them, method
  by method. `SuiteLedger`, `AttributionProof` and `AttributionRuns` keep the invariant over any
  interleaving; `AttributionTheorems`, `AttributionStability`, `AttributionLaunches`,
  `AttributionQueues`, `AttributionOrder`, `AttributionDecision` and `AttributionIds` draw the theorems.
- **The round.** `Environment` is the world: a runner and a set of operations whose answers, orders,
  faults and refusals are chosen freely. `Driving`, `Flips` and `Rounds` are the driver's loops over
  it. A round is proved to leave a trace of passes (`RoundSpec`), each of which went where its
  verdicts and the answers it met call for (`RoundCourse`), on evidence the runner really gave;
  `RoundTheorems` is about all such traces.
- **The rest** is one module to a source file or to a machine within it.

## Model

| member | source | states |
|---|---|---|
| Shapes.New | batcher/src/attrib.rs:118-136 | the removal set of a member is exactly what it carries along under "stacked on", itself included, in round order |
| AttributionTheorems.FlakySound | batcher/src/attrib.rs:339-388 | over every run, a suite settled flaky was answered green by a plain rerun with nobody removed |
| AttributionTheorems.BaseSound | batcher/src/attrib.rs:339-388 | a suite settled on the base was red alone and red with every member removed |
| AttributionTheorems.OwnerSound | batcher/src/attrib.rs:339-431 | every named owner is a round member, the plain rerun was red, and the run without exactly that owner's removal set was green |
| AttributionTheorems.OwnersMinimal | batcher/src/attrib.rs:407-431 | of the members the suite was green without, the owners are exactly those with no other green removal set strictly inside theirs |
| AttributionTheorems.OwnersIncomparable | batcher/src/attrib.rs:407-431 | no two owners of a suite have nested removal sets |
| AttributionTheorems.UnattributedSound | batcher/src/attrib.rs:339-439 | unattributed means the plain rerun was lost to two faults, or it was red and every removal set was answered red or lost, and the base, unless some removal set is the whole round, was green or lost |
| AttributionStability.RunLater | batcher/src/attrib.rs:330-337 | over any further events a verdict other than ownership stands, ownership is refined but never withdrawn, and no verdict is re-timed |
| AttributionStability.SoleOwnerStands | batcher/src/attrib.rs:450-460 | a red whose reruns are all back and which one member alone owns stays so under every later event, so the main run may be stopped on it |
| AttributionStability.UnsettledHasWork | batcher/src/attrib.rs:254-267 | an unsettled red always has outstanding work, and its outstanding ids are exactly the ids of its queued and running jobs |
| AttributionStability.WorkGoesOn | batcher/src/attrib.rs:302-316 | with the main run over and at least one slot, a hand-out leaves a job running whenever a red is undecided |
| AttributionStability.SlotsRespected | batcher/src/attrib.rs:237-252 | whenever attribution runs anything, its jobs and the suites the main run is owed fit in the slots |
| AttributionLaunches.AimTwice | batcher/src/attrib.rs:339-363 | no run of one suite for one purpose is launched more than twice |
| AttributionLaunches.LaunchesBounded | batcher/src/attrib.rs:302-316 | launches are at most twice reds times members plus two, and every launch is answered or running |
| AttributionIds.IdsBounded | batcher/src/attrib.rs:254-267 | the ids handed out stay under a bound set by reds and members, which keeps them clear of the driver's own |
| AttributionQueues.HandedOutInOrder | batcher/src/attrib.rs:302-316 | a hand-out launches as many jobs as there are spare slots, plain reruns first, each queue in order, and leaves the rest in order |
| AttributionOrder.LaunchedInTurn | batcher/src/attrib.rs:302-316 | over every run, whatever attribution run of a red was launched, every run its red plain rerun called for ahead of it was launched before |
| AttributionOrder.SuspectsLaunchedFirst | batcher/src/attrib.rs:390-405 | over every run, no removal set that is not a suspect's is launched before every suspect's has been, and none before the base where the base is called for |
| AttributionOrder.FaultRelaunchedNext | batcher/src/attrib.rs:346-357 | a run of an unsettled red that faults for the first time is queued again under a new id, at least one slot is then free, and the hand-out that follows launches it first of its kind whenever it launches any of that kind |
| AttributionQueues.SettledNeverWaits | batcher/src/attrib.rs:318-337 | no job of a settled red is ever left waiting |
| AttributionQueues.RerunsAreLaunches | batcher/src/attrib.rs:302-316 | the rerun count reported for a red is the number of its launches |
| AttributionDecision.DecisionSorts | batcher/src/attrib.rs:462-493 | the decision charges a suite to a member exactly when the suite is settled on it, and sorts every other red into flaky, base or unattributed by its verdict |
| AttributionDecision.IntegrationMeans | batcher/src/attrib.rs:182-200 | counting charges finds exactly the reds nobody explains and those two members or more own |
| Attributors.Attributor.OnJobResult | batcher/src/attrib.rs:339-388 | the object takes an answer exactly as the specified step does, so everything above holds of it |
| Attributors.Attributor.NextJobs | batcher/src/attrib.rs:302-316 | the hand-out loop refines the specified one and returns exactly what it launched |
| Attributors.Attributor.SoleOwner | batcher/src/attrib.rs:450-460 | returns the first sole owner and every red it alone owns, or none exactly when there is none |
| Driving.Drive | batcher/src/drive.rs:138-208 | terminates; the suites taken green are exactly those the runner reported green before the main run ended, every other suite of the run has a verdict, absence counts as red, a preempted run decides exactly the reds of one sole owner, and every answer taken was given by the runner in that main run |
| Flips.KeepFor | batcher/src/drive.rs:236-244 | a touching member is kept together with exactly its in-round prerequisites, however far down |
| Flips.RemoveFlips | batcher/src/drive.rs:215-277 | flips are deleted exactly when, for every one of them, two separate plain runs of the proof's own, its base run and a run for each member named as touching it, with exactly what that member is stacked on, were all green; otherwise a suite with a proof that was not green is reported; after no launch are more proofs in flight than slots |
| Rounds.WhoGoesOut | batcher/src/drive.rs:416-429 | who goes out is exactly what the owners carry along, an owner with its suites, a dependent with those of an owner it is stacked on |
| Rounds.AttributeRound | batcher/src/drive.rs:294-457 | every round ends in a trace of linked passes within the bound, each by the book, each borne out by one main run of the runner on its members and suites; ejections, deletions, base changes and everything asked are exactly what the passes call for; a landing names the longest attribution |
| Rounds.LandedFlipsProven | batcher/src/drive.rs:372-379 | every suite a landing pass found flaky was proved to flip by runs of the proof's own, none of them the attribution's rerun |
| RoundTheorems.LandsSafe | batcher/src/drive.rs:294-457 | a landed round in which no fix left a solely owned suite behind had every corpus suite green, flaky or base-red in the last main run that listed it |
| RoundTheorems.LandsSafeIff | batcher/src/drive.rs:346-351 | and that condition is exact: it is so if and only if no in-round fix was taken over a solely owned suite |
| RoundTheorems.LeftUnsafe | batcher/src/drive.rs:346-351 | a suite such a fix leaves behind is never run again, so the round last saw it owned |
| RoundTheorems.NeverGivesUp | batcher/src/drive.rs:308-456 | a round that starts with a member and has no mended pass ends by its own decision, never at the iteration bound |
| RoundTheorems.EmptyGivesUp | batcher/src/drive.rs:308-366 | with nobody in it, a round reaches the bound only by a retry and then a fix |
| RoundTheorems.EjectionShrinks | batcher/src/drive.rs:438-450 | ejecting owners always leaves strictly fewer members, and at least one |
| RoundTheorems.EjectedIsClosure | batcher/src/drive.rs:416-443 | a member is ejected if and only if some owner's attribution removal set holds it |
| RoundTheorems.NoSurvivorStranded | batcher/src/drive.rs:416-443 | no survivor is stacked on anyone ejected |
| RoundTheorems.SoleSurvivorsTested | batcher/src/drive.rs:416-443 | with one owner, the survivors are exactly the tree each of its reds was seen green on |
| RoundCourse.GreenRoundLands | batcher/src/drive.rs:372-379 | a round whose whole corpus the runner reported green, or was red on the base alone, lands every member it started with in one pass |
| RoundCourse.ClearLands | batcher/src/drive.rs:372-379 | any pass with nothing to answer for lands then and there, ejecting nobody and asking nothing beyond its record |
| RoundCourse.LandedNeverEjected | batcher/src/drive.rs:384-450 | nobody lands who was ejected in any pass, mended ones included, or who did not start |
| RoundCourse.TakenOnce | batcher/src/drive.rs:346-366 | the in-round fix and the retry on a moved base are each taken at most once a round |
| RoundCourse.JudgeEndsRound | batcher/src/drive.rs:367-370 | the judge is called only in the last pass, about all of its unexplained reds, and the round is blocked |
| RoundExamples.FixLandsUnsafe | batcher/src/drive.rs:346-351 | a two-pass round, by the book, that lands with a suite last seen red and owned |
| RoundExamples.NobodyGivesUp | batcher/src/drive.rs:308-456 | a round of nobody, by the book, that reaches the bound |
| InstallFaults.AttributeInstallFault | batcher/src/attrib.rs:543-573 | an owner means the base installs, removing its closure installs, and it sits on the boundary; at most twice two plus the logarithm probes are made; on answers that depend on the removal alone the result is the specified verdict |
| InstallFaults.HalvingsIsLog | batcher/src/attrib.rs:554-562 | the number of halvings is the logarithm of the members, rounded up |
| InstallFaults.VerdictOfCauses | batcher/src/attrib.rs:547-573 | for any set of causes, the verdict is the member that completes the first of them if removing its closure breaks them all, else nobody |
| InstallFaults.SingleCauseFound | batcher/src/attrib.rs:547-573 | a fault with one cause is charged to the last member of it |
| InstallFaults.UnattributedMeansIff | batcher/src/attrib.rs:536-541 | no single removal restores an unattributed install if and only if removing that member's closure breaks every cause or no member's does |
| InstallFaults.UnattributedMeansElse | batcher/src/attrib.rs:536-541 | and outright where the base does not install or nobody is in the round |
| InstallFaults.UnattributedYetSingle | batcher/src/attrib.rs:536-541 | three members and two causes for which the comment fails |
| InstallFaults.ProbesTakeDependents | batcher/src/attrib.rs:547-573 | with prerequisites first, every probe of the search takes out all that is stacked on what it takes out |
| Mender.Decide | batcher/src/mender.rs:63-122 | stops exactly on a second all-environment pass on one head; keeps and leaves exactly the right members with the right reasons, in order; remembers exactly the suites unsure for the first time; nobody both stays and leaves |
| Mender.RoundParted | batcher/src/mender.rs:115-121 | those kept are the round without the leavers, in order, and only their tips are mended |
| Mender.NoneStranded | batcher/src/mender.rs:102-114 | nobody who stays is stacked on anybody who leaves |
| Mender.FewestLeave | batcher/src/mender.rs:102-114 | the leavers are the least set holding everyone named and closed under stacking |
| Mender.AgainstMeans | batcher/src/mender.rs:77-101 | somebody has a diagnosis against them exactly when a return or a second unsure names them |
| Mender.StopsOnSecond | batcher/src/mender.rs:27-75 | over any passes in a row, the round stops exactly on an all-environment pass whose predecessor was one on that head |
| Mender.UnsureRemembered | batcher/src/mender.rs:77-101 | a suite is remembered unsure exactly after an odd number of unsure passes in a row |
| Pool.TopoOrder | batcher/src/core.rs:52-80 | a permutation of the pool for every graph, each member picked rightly over all after it, keys stable where nothing is stacked |
| Pool.InOrderIff | batcher/src/core.rs:52-80 | every in-pool prerequisite comes first if and only if the graph has no cycle |
| Pool.UnstackedSorts | batcher/src/core.rs:31-80 | with no edges the order is the stable sort by key |
| Selection.FindBest | batcher/src/core.rs:203-207 | finds the root most members share, the first in the dictionary among equals, or none exactly when no two share one |
| Selection.SelectRound | batcher/src/core.rs:203-231 | a feature round is the members, in pool order, that its seeds carry along under stack and blocked-by ties both ways; else everyone |
| Selection.NothingCrosses | batcher/src/core.rs:208-231 | no stack or blocked-by edge crosses between those who ride and those who wait |
| Selection.NoneRideIdly | batcher/src/core.rs:208-231 | and the riders are the least set of which that is so |
| Selection.Combine | batcher/src/core.rs:284-316 | merges in merge order exactly those without a reason against them and sets the others aside with the first that applies |
| Selection.PoolParted | batcher/src/core.rs:284-316 | every pool member is merged or set aside, once, and never both |
| Selection.StackSequencing | batcher/src/core.rs:90-108 | a member waits, behind a prerequisite whose tip it was not built on, exactly when there is one |
| Selection.DropStackedOnBarred | batcher-cut/src/io.rs:362-373 | dropping one at a time leaves exactly those stacked on nothing the bar carries, in order |
| PathGlob.Glob | batcher/src/pathattr.rs:83-108 | taking each part at its leftmost place decides exactly what the pattern means, and a trailing slash covers everything under it |
| Calendar.CopiesAgree | bead/src/event.rs:16-31 | the copies with truncating division and those with floor division agree on every day |
| Calendar.DayToDate | bead/src/claimdesc.rs:83-96 | every day is a valid date, whose day it is |
| Calendar.DateToDay | bead/src/claimdesc.rs:118-124 | every valid date comes back from its day |
| Calendar.DaysInOrder | bead/src/claimdesc.rs:83-96 | the next day is the next date of the calendar of section 5.7 of RFC 3339 |
| Calendar.OnlyCalendar | bead/src/claimdesc.rs:83-96 | a numbering of days has 1 January 1970 at zero and follows the calendar, forwards and back, if and only if it is the one the code computes |
| IsoTime.ReadsBackIff | bead/src/claimdesc.rs:83-144 | printing in the format of section 5.6 of RFC 3339 is undone by reading if and only if the year is from -999 to 9999 |
| IsoTime.OffsetReads | bead/src/claimdesc.rs:126-144 | a time with a fraction and an offset in hours and minutes reads as the instant it names |
| RateLimit.EventLog.Emit | bead/src/event.rs:55-118 | the counter file and the log change exactly as the specified call does, and only for an event with a kind and a title |
| RateLimit.CallsConserved | bead/src/event.rs:96-118 | calls of a key are its rows, what they carry, what is held and what pruning dropped |
| RateLimit.NoneLostIff | bead/src/event.rs:76-118 | every call is on a row or held if and only if the key was never pruned while it held any |
| RateLimit.PruningLoses | bead/src/event.rs:76-94 | two calls, one row, nothing held: pruning in between loses one |
| RateLimit.WindowStands | bead/src/event.rs:96-118 | suppressed calls never move the window the last row opened |
| RateLimit.RowsSpaced | bead/src/event.rs:96-118 | rows of an unpruned key follow each other by at least the later one's cooldown |
| EndPass.Cap | batcher-cut/src/endpass.rs:61-65 | the first ceiling is the latest end of the live rows, or now when none is live |
| EndPass.Wait | batcher-cut/src/endpass.rs:67-97 | terminates; without an open ask it is over by the first ceiling or the latest deadline it read of a row under way, after at most one sweep; one failure per final row, unsure for every row not settled |
| Archivist.AttemptsBounded | archivist/src/run.rs:333-406 | over any sweeps, attempts that end in a timeout or failure before a clean one are at most the product of the two budgets, and that many mean the session is given up on |
| Archivist.GivenUpStays | archivist/src/candidates.rs:23-35 | once given up on, no sweep fires the session again |
| Archivist.NextRunWaits | archivist/src/run.rs:392-406 | over any sweeps, the next run after the k-th failure in a row, the one a last timeout counts as included, comes only with failures left and not before the k-th wait is over |
| Archivist.BackoffGrows | archivist/src/candidates.rs:37-40 | waits double until the exponent or the width saturates, and never shrink |
| Archivist.SessionFiles.SettleRun | archivist/src/run.rs:333-390 | the session's files change exactly as the specified step does |
| Archivist.Archive.Progress | archivist/src/run.rs:92-105 | the cursor never moves back and never past what the run read |
| Archivist.Archive.Claim | archivist/src/run.rs:74-90 | a one-line key is granted exactly once |
| Pace.RunRemembers | batcher-cut/src/pace.rs:89-150 | over every run, no cut falls within the backoff of an earlier harness fault, the fault count is the true one, and no round is re-driven or filed twice running |
| Pace.EveryCutUnheld | batcher-cut/src/pace.rs:274-337 | over every run, a cut comes only at a pass that was not paused, stopped or backing off and saw no round open |
| Pace.SecondFaultStops | batcher-cut/src/pace.rs:89-116 | a second harness fault with no quiet or red cut between stops the repo, which then does nothing until lifted |
| Pace.RedrivenBetween | batcher-cut/src/pace.rs:129-150 | between two re-drives of one round there is one of another |
| Pace.FiledBetween | batcher-cut/src/pace.rs:274-337 | between two incidents on one round there is one on another |
| Pace.RedrivenAfterWait | batcher-cut/src/pace.rs:129-150 | a round is re-driven only after an unbroken wait in which it alone was seen open, undriven |
| PaceFiles.SurvivesIff | batcher-cut/src/pace.rs:172-195 | a state survives saving and loading if and only if no text field has a line break or ends in a carriage return |
| PaceFiles.Files.PacedCut | batcher-cut/src/pace.rs:274-337 | a pass over the files is the specified pass |

## Findings

Where the code does not do what it or its comments say, with an input and the exact condition:

- The in-round fix (batcher/src/drive.rs:346-351) re-runs the integration suites only. A suite one
  member alone owns in the same decision is not run again, and the round can land with it last seen
  red: `RoundExamples.FixLandsUnsafe`. A landing is safe exactly when no fix was taken over such a
  suite: `RoundTheorems.LandsSafeIff`.
- The comment on an unattributed install fault (batcher/src/attrib.rs:536-541) says no single removal
  restores the install. With two causes it can be false: `InstallFaults.UnattributedYetSingle`; the
  exact condition is `InstallFaults.UnattributedMeansIff`.
- Pruning the event counters (bead/src/event.rs:76-94) can drop held-back calls:
  `RateLimit.PruningLoses`. None is lost exactly when no pruned counter held any:
  `RateLimit.NoneLostIff`.
- The iteration bound (batcher/src/drive.rs:308) is out of reach when a member starts and no mender
  owns a pass (`RoundTheorems.NeverGivesUp`); a round of nobody can reach it
  (`RoundExamples.NobodyGivesUp`), and only by a retry followed by a fix (`RoundTheorems.EmptyGivesUp`).
- Printed times read back exactly for the years -999 to 9999 (`IsoTime.ReadsBackIff`), and pace files
  exactly for fields without line breaks or a final carriage return (`PaceFiles.SurvivesIff`).

## Left out

- Driving.Drive: assumes of the runner that waiting is not for ever (a number of waits after which the main run has ended and everything in flight has an answer), that job ids stay below the driver's own 2^40, that an answer is to the job launched last under its id, and that the main run reports on no suite it was not started with, which is how batcher-cut/src/vm.rs:435-495 reports.
- Rounds.AttributeRound: assumes members with distinct ids and at least one slot, which `Budget` sets by default; what a call that fails with an error has done to the world is not stated.
- Flips.RemoveFlips: what `delete_flips` re-checks after the deletion is behind its answer, and the members named as touching a suite are taken from the world.
- Environment.Ops.SettleMending: that a mended pass re-runs every owned suite, and none the pass had not run, is assumed of the pass's rows; batcher-cut/src/main.rs:287-328 takes the suites from the mending machine, which is not part of this model. That those kept are a sublist of the round and apart from those who leave is proved of `Mender.Decide`.
- Environment.Ops.Suspects: any list of round members, which is more than `suspect_order` can return.
- Selection.Combine: no closure is claimed, because a member stacked on one set aside is itself merged when its own merge succeeded.
- Archivist.Archive.Progress: monotone as `progress` is; `settle` on a clean run sets the cursor to what the run read without comparing.
- EndPass.Wait: with asks open the wait ends because the number of readings that show one is bounded; the time bound is stated for no open ask, as every ask extends it. That there is a latest deadline (`Menders.latest`), which no deadline ever read exceeds, is assumed of the menders, and termination rests on it.
- RateLimit.EventLog.Forget: any key may be pruned at any time, which is more than the age limit on real file times allows; read and write failures are not modelled.
- Archivist.SessionFiles.SettleRun: the ledger, the digest and the lock around a run are not part of this model.
- Archivist.NextRunWaits: the sum of the clock and a wait is an integer; archivist/src/run.rs:402 adds in an i64, which a base near its width can overflow.
- Integers stand for `u64`, `u32` and `i64` counters and clocks, except where the width shows: priorities are bytes and backoffs saturate.
- Text is sequences of characters with ASCII white space trimmed; joined messages are lists of their parts, and the reasons of blocked rounds are constants without the suites named in them.
- Walks over ordered sets and maps whose order decides nothing are in any order; a stale prerequisite or a leaving one may be any of several.
- `round_key`, `base_fix_lane`, `refuse_blocked`, `cap_round`, `should_cut` and the other single expressions of core.rs, and the path tables and red-step parsing of pathattr.rs: easy members.
- `note_refusal` and the recording of refused bids, `red_steps`, and the order of suspects by cover: they change no verdict.
- git, the virtual machines, the forge, the bead queue, JSON, incident filing, locks, heartbeats, argument parsing and message texts: plumbing around the parts modelled.
