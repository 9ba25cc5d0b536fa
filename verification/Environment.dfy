// What the round engine runs against (batcher/src/drive.rs, RoundRunner and RoundOps). Each
// method may do anything its contract allows: results, their order, faults and refusals are
// chosen freely. The one promise about time is patience: it wears down with each wait, and
// once it is gone whatever is still running has finished.

module Environment {
  import opened Prelude
  import opened AttributionSpec
  import opened Members
  import Mender

  datatype MainEnd = Ran | WorkspaceBuild

  datatype MainKind = Corpus | Verify

  datatype MainPoll = MainPoll(results: seq<(Suite, bool)>, done: Option<MainEnd>)

  /** The first result reported for each suite stands. */
  ghost function FirstReport(known: map<Suite, bool>, p: (Suite, bool)): (m: map<Suite, bool>) {
    if p.0 in known then known else known[p.0 := p.1]
  }

  ghost function FirstReports(known: map<Suite, bool>, results: seq<(Suite, bool)>): (m: map<Suite, bool>) {
    if results == [] then known
    else FirstReport(FirstReports(known, results[..|results| - 1]), results[|results| - 1])
  }

  /** What is known after more results: once the run has ended, nothing new. */
  ghost function Reports(ended: bool, known: map<Suite, bool>, results: seq<(Suite, bool)>): (m: map<Suite, bool>) {
    if ended then known else FirstReports(known, results)
  }

  ghost function AnswersTo(jobs: map<nat, Job>, out: seq<(nat, JobResult)>): (r: seq<Answer>)
    requires forall p :: p in out ==> p.0 in jobs
  {
    seq(|out|, i requires 0 <= i < |out| => Answer(jobs[out[i].0], out[i].1))
  }

  lemma AnswersToSnoc(jobs: map<nat, Job>, out: seq<(nat, JobResult)>, id: nat, result: JobResult)
    requires id in jobs && forall p :: p in out ==> p.0 in jobs
    ensures AnswersTo(jobs, out + [(id, result)]) == AnswersTo(jobs, out) + [Answer(jobs[id], result)]
  {
  }

  ghost function IdsAnswered(out: seq<(nat, JobResult)>): (r: set<nat>) {
    set p | p in out :: p.0
  }

  lemma IdsAnsweredSnoc(out: seq<(nat, JobResult)>, id: nat, result: JobResult)
    ensures IdsAnswered(out + [(id, result)]) == IdsAnswered(out) + {id}
  {
    assert (id, result) in out + [(id, result)];
    forall x | x in IdsAnswered(out) ensures x in IdsAnswered(out + [(id, result)]) {
      var p :| p in out && p.0 == x;
      assert p in out + [(id, result)];
    }
  }

  /** Ids of the driver's own reruns and flip proofs start here, clear of the attributor's. */
  const RERUN_ID_BASE: nat := 0x100_0000_0000

  ghost function OwnJobs(inFlight: map<nat, Job>): (r: set<nat>) {
    set id | id in inFlight && id >= RERUN_ID_BASE
  }

  /** A suite, and the members said to touch it. */
  type Named = (Suite, seq<Id>)

  /** One answer for each suite, in order. */
  ghost predicate NamesFor(named: seq<Named>, suites: seq<Suite>) {
    |named| == |suites| && forall i :: 0 <= i < |suites| ==> named[i].0 == suites[i]
  }

  /** One main run as the runner saw it: what it was started on, the first final result of each
      suite up to its end, and every answer given to a job since, a launch refused counting as a
      fault. */
  datatype Session = Session(
    kind: MainKind,
    members: seq<Member>,
    suites: set<Suite>,
    verdicts: map<Suite, bool>,
    heard: seq<Answer>)

  class Runner {
    var members: seq<Member>
    var base: Option<string>
    var mainKind: MainKind
    var mainSuites: set<Suite>
    var inFlight: map<nat, Job>
    var clock: nat
    var patience: nat
    /** The main run now going, and those before it. */
    ghost var mainMembers: seq<Member>
    ghost var verdicts: map<Suite, bool>
    ghost var ended: bool
    ghost var heard: seq<Answer>
    ghost var sessions: seq<Session>
    /** After each launch, how many of the driver's own jobs were in flight. */
    ghost var loads: seq<nat>

    ghost function Current(): (s: Session)
      reads this
    {
      Session(mainKind, mainMembers, mainSuites, verdicts, heard)
    }

    ghost function Shown(): (r: seq<Session>)
      reads this
    {
      sessions + [Current()]
    }

    method SetMembers(members: seq<Member>)
      modifies this`members
      ensures this.members == members
    {
      this.members := members;
    }

    method SetBase(sha: string)
      modifies this`base
      ensures base == Some(sha)
    {
      base := Some(sha);
    }

    method StartMain(kind: MainKind, suites: seq<Suite>) returns (r: Result<()>)
      modifies this`mainKind, this`mainMembers, this`mainSuites, this`verdicts, this`ended, this`heard, this`sessions
      ensures r.Ok? ==> Current() == Session(kind, members, Elems(suites), map[], [])
      ensures r.Ok? ==> !ended && sessions == old(Shown())
    {
      if * {
        return Err("main run not started");
      }
      sessions := Shown();
      mainKind, mainMembers, mainSuites, verdicts, heard := kind, members, Elems(suites), map[], [];
      ended := false;
      r := Ok(());
    }

    method PollMain() returns (r: Result<MainPoll>)
      modifies this`verdicts, this`ended
      ensures r.Ok? ==> forall p :: p in r.value.results ==> p.0 in mainSuites
      ensures r.Ok? ==> verdicts == Reports(old(ended), old(verdicts), r.value.results)
      ensures r.Ok? ==> ended == (old(ended) || r.value.done.Some?)
      ensures r.Ok? && patience == 0 ==> r.value.done.Some?
    {
      if * {
        return Err("harness fault");
      }
      var results: seq<(Suite, bool)> := [];
      var n: int := *;
      for i := 0 to if n < 0 then 0 else n
        invariant forall p :: p in results ==> p.0 in mainSuites
        invariant ended == old(ended) && verdicts == Reports(ended, old(verdicts), results)
      {
        if mainSuites != {} {
          var suite :| suite in mainSuites;
          var green: bool := *;
          ghost var longer := results + [(suite, green)];
          assert longer[..|longer| - 1] == results;
          verdicts := if ended || suite in verdicts then verdicts else verdicts[suite := green];
          results := results + [(suite, green)];
        }
      }
      var end: MainEnd := *;
      var over: bool := *;
      ended := ended || over || patience == 0;
      r := Ok(MainPoll(results, if over || patience == 0 then Some(end) else None));
    }

    method StopMain() returns (r: Result<()>)
      modifies this`inFlight
      ensures r.Ok? ==> inFlight == map[]
      ensures r.Err? ==> inFlight == old(inFlight)
    {
      if * {
        return Err("main run did not stop");
      }
      inFlight := map[];
      r := Ok(());
    }

    method Launch(job: Job) returns (r: Result<()>)
      modifies this`inFlight, this`heard, this`loads
      ensures inFlight == if r.Ok? then old(inFlight)[job.id := job] else old(inFlight)
      ensures heard == if r.Ok? then old(heard) else old(heard) + [Answer(job, Fault)]
      ensures loads == if r.Ok? then old(loads) + [|OwnJobs(inFlight)|] else old(loads)
    {
      if * {
        heard := heard + [Answer(job, Fault)];
        return Err("not launched");
      }
      inFlight := inFlight[job.id := job];
      loads := loads + [|OwnJobs(inFlight)|];
      r := Ok(());
    }

    /** Each job in flight is answered at most once, then no longer in flight. */
    method PollJobs() returns (out: seq<(nat, JobResult)>)
      modifies this`inFlight, this`heard
      ensures forall i, j :: 0 <= i < j < |out| ==> out[i].0 != out[j].0
      ensures forall p :: p in out ==> p.0 in old(inFlight)
      ensures inFlight.Keys == old(inFlight).Keys - IdsAnswered(out)
      ensures forall id :: id in inFlight ==> inFlight[id] == old(inFlight)[id]
      ensures heard == old(heard) + AnswersTo(old(inFlight), out)
      ensures patience == 0 ==> inFlight == map[]
    {
      out := [];
      ghost var before := inFlight;
      var rest := inFlight.Keys;
      while rest != {}
        invariant rest <= inFlight.Keys <= before.Keys
        invariant forall i, j :: 0 <= i < j < |out| ==> out[i].0 != out[j].0
        invariant forall p :: p in out ==> p.0 in before
        invariant inFlight.Keys == before.Keys - IdsAnswered(out)
        invariant forall id :: id in inFlight ==> inFlight[id] == before[id]
        invariant heard == old(heard) + AnswersTo(before, out)
        invariant patience == 0 ==> rest == inFlight.Keys
        decreases rest
      {
        var id :| id in rest;
        rest := rest - {id};
        var now: bool := *;
        if now || patience == 0 {
          var result: JobResult := *;
          ghost var was := out;
          out := out + [(id, result)];
          AnswersToSnoc(before, was, id, result);
          heard := heard + [Answer(inFlight[id], result)];
          inFlight := inFlight - {id};
          IdsAnsweredSnoc(was, id, result);
        }
      }
    }

    method Now() returns (now: nat)
      ensures now == clock
    {
      now := clock;
    }

    method Wait()
      modifies this`patience, this`clock
      ensures patience == Minus(old(patience), 1) && clock >= old(clock)
    {
      patience := Minus(patience, 1);
      var later: int := *;
      if later > 0 {
        clock := clock + later;
      }
    }
  }

  /** One member leaving the round: the suites named, and whether it owns one of them. */
  datatype Ejection = Ejection(member: Member, suites: seq<Suite>, owner: bool)

  datatype Mended = Mended(next: Mender.Next, unattributed: seq<Suite>, suites: seq<Suite>)

  /** A mended pass goes on with round members, in order and none of those who leave, and re-runs
      every owned suite, and nothing the pass did not run. */
  ghost predicate MendedOk(m: Mended, d: Decision, members: seq<Member>, suites: seq<Suite>) {
    && (m.next.Pass? ==> SubList(MemberIds(m.next.members), MemberIds(members)))
    && (m.next.Pass? ==> forall l :: l in m.next.left ==> l.id !in MemberIds(m.next.members))
    && (forall x, suite :: x in d.owners && suite in d.owners[x] ==> suite in m.suites)
    && (forall suite :: suite in m.suites ==> suite in suites)
  }

  /** What the round told or asked of the world, with the answer where one decides the way on. */
  datatype Ask =
    | Recorded(iteration: nat, decision: Decision)
    | Raised(kind: string, suites: seq<Suite>)
    | FixTried(members: seq<Member>, suites: seq<Suite>, fixed: bool)
    | BaseAsked(members: seq<Member>, moved: Option<string>)
    | JudgeCalled(suites: seq<Suite>, ids: seq<Id>)
    | EscapeTold(member: Member, suite: Suite)
    | PreemptTold(owner: Id, unreached: seq<Suite>)
    | MendersAsked(decision: Decision, members: seq<Member>, mended: Option<Mended>)
    | TreeRebuilt(survivors: seq<Member>, merged: seq<Member>)
    | TouchingNamed(named: Named)

  ghost function NamingAsks(named: seq<Named>): (r: seq<Ask>) {
    seq(|named|, i requires 0 <= i < |named| => TouchingNamed(named[i]))
  }

  class Ops {
    /** Every member ejected so far, oldest first. */
    var ejections: seq<Ejection>
    /** The suites whose deletion was asked for. */
    var deletions: seq<Suite>
    /** Everything else told and asked so far, oldest first. */
    var asked: seq<Ask>

    method Suspects(suite: Suite, members: seq<Id>) returns (r: seq<Id>)
      ensures forall m :: m in r ==> m in members
    {
      r := [];
      for i := 0 to |members|
        invariant forall m :: m in r ==> m in members
      {
        if * {
          r := r + [members[i]];
        } else {
          r := [members[i]] + r;
        }
      }
    }

    method Touching(suite: Suite, members: seq<Id>) returns (r: seq<Id>)
      modifies this`asked
      ensures forall m :: m in r ==> m in members
      ensures asked == old(asked) + [TouchingNamed((suite, r))]
    {
      r := [];
      for i := 0 to |members|
        invariant forall m :: m in r ==> m in members
      {
        if * {
          r := r + [members[i]];
        }
      }
      asked := asked + [TouchingNamed((suite, r))];
    }

    method Eject(member: Member, suites: seq<Suite>, owner: bool)
      modifies this`ejections
      ensures ejections == old(ejections) + [Ejection(member, suites, owner)]
    {
      ejections := ejections + [Ejection(member, suites, owner)];
    }

    /** The survivors that merged, in order. */
    method Rebuild(survivors: seq<Member>) returns (r: Result<seq<Member>>)
      modifies this`asked
      ensures r.Ok? ==> SubList(r.value, survivors) && asked == old(asked) + [TreeRebuilt(survivors, r.value)]
    {
      if * {
        return Err("tree not rebuilt");
      }
      var merged := AnyOf(survivors);
      asked := asked + [TreeRebuilt(survivors, merged)];
      r := Ok(merged);
    }

    method FixIntegration(members: seq<Member>, suites: seq<Suite>) returns (fixed: bool)
      modifies this`asked
      ensures asked == old(asked) + [FixTried(members, suites, fixed)]
    {
      fixed := *;
      asked := asked + [FixTried(members, suites, fixed)];
    }

    method BaseMoved(members: seq<Member>) returns (r: Result<Option<(string, seq<Member>)>>)
      modifies this`asked
      ensures r.Ok? && r.value.Some? ==> SubList(r.value.value.1, members)
      ensures r.Ok? ==>
                asked == old(asked) + [BaseAsked(members, if r.value.Some? then Some(r.value.value.0) else None)]
    {
      if * {
        return Err("base not read");
      }
      if * {
        asked := asked + [BaseAsked(members, None)];
        return Ok(None);
      }
      var merged := AnyOf(members);
      asked := asked + [BaseAsked(members, Some("sha"))];
      r := Ok(Some(("sha", merged)));
    }

    method Judge(suites: seq<Suite>, members: seq<Id>)
      modifies this`asked
      ensures asked == old(asked) + [JudgeCalled(suites, members)]
    {
      asked := asked + [JudgeCalled(suites, members)];
    }

    method Incident(kind: string, suites: seq<Suite>)
      modifies this`asked
      ensures asked == old(asked) + [Raised(kind, suites)]
    {
      asked := asked + [Raised(kind, suites)];
    }

    method DeleteFlips(suites: seq<Suite>) returns (r: Result<()>)
      modifies this`deletions
      ensures deletions == old(deletions) + suites
    {
      deletions := deletions + suites;
      if * {
        return Err("flips not deleted");
      }
      r := Ok(());
    }

    method Record(iteration: nat, d: Decision)
      modifies this`asked
      ensures asked == old(asked) + [Recorded(iteration, d)]
    {
      asked := asked + [Recorded(iteration, d)];
    }

    method Escape(member: Member, suite: Suite, rerun: Option<JobResult>)
      modifies this`asked
      ensures asked == old(asked) + [EscapeTold(member, suite)]
    {
      asked := asked + [EscapeTold(member, suite)];
    }

    method Preempted(owner: Id, unreached: seq<Suite>)
      modifies this`asked
      ensures asked == old(asked) + [PreemptTold(owner, unreached)]
    {
      asked := asked + [PreemptTold(owner, unreached)];
    }

    method SettleMending(d: Decision, members: seq<Member>, ghost suites: seq<Suite>)
      returns (r: Option<Result<Mended>>)
      requires forall x, suite :: x in d.owners && suite in d.owners[x] ==> suite in suites
      modifies this`asked
      ensures r.Some? && r.value.Ok? ==> MendedOk(r.value.value, d, members, suites)
      ensures r.None? ==> asked == old(asked) + [MendersAsked(d, members, None)]
      ensures r.Some? && r.value.Ok? ==> asked == old(asked) + [MendersAsked(d, members, Some(r.value.value))]
    {
      if * {
        asked := asked + [MendersAsked(d, members, None)];
        return None;
      }
      if * {
        return Some(Err("menders not read"));
      }
      var owned := Listed(set x, suite | x in d.owners && suite in d.owners[x] :: suite);
      assert forall suite :: suite in owned <==> suite in Elems(owned);
      var m: Mended;
      if * {
        m := Mended(Mender.Stop("page"), [], owned);
      } else {
        var kept := AnyOf(members);
        SubListIds(kept, members);
        var retry: bool := *;
        m := Mended(Mender.Pass(kept, [], retry), [], owned);
      }
      asked := asked + [MendersAsked(d, members, Some(m))];
      r := Some(Ok(m));
    }
  }

  method AnyOf(members: seq<Member>) returns (r: seq<Member>)
    ensures SubList(r, members)
  {
    r := [];
    for i := 0 to |members|
      invariant SubList(r, members[..i])
    {
      assert members[..i + 1] == members[..i] + [members[i]];
      SubListSnoc(r, members[..i], members[i]);
      if * {
        r := r + [members[i]];
      }
    }
    assert members[..|members|] == members;
  }

  lemma {:induction false} SubListSnoc<T>(sub: seq<T>, s: seq<T>, x: T)
    requires SubList(sub, s)
    ensures SubList(sub, s + [x]) && SubList(sub + [x], s + [x])
  {
    if s == [] {
      assert sub == [] && sub + [x] == [x];
    } else if sub == [] {
      assert (s + [x])[1..] == s[1..] + [x];
      SubListSnoc(sub, s[1..], x);
      assert sub + [x] == [x];
    } else {
      assert (s + [x])[1..] == s[1..] + [x];
      assert (sub + [x])[1..] == sub[1..] + [x];
      if sub[0] == s[0] {
        SubListSnoc(sub[1..], s[1..], x);
      } else {
        SubListSnoc(sub, s[1..], x);
      }
    }
  }

  lemma {:induction false} SubListTail<T>(sub: seq<T>, s: seq<T>)
    requires SubList(sub, s) && sub != []
    ensures SubList(sub[1..], s)
    decreases |s|, 0
  {
    if sub[0] == s[0] {
      SubListWider(sub[1..], s[1..], s[0]);
      assert s == [s[0]] + s[1..];
    } else {
      SubListTail(sub, s[1..]);
      SubListWider(sub[1..], s[1..], s[0]);
      assert s == [s[0]] + s[1..];
    }
  }

  lemma {:induction false} SubListWider<T>(sub: seq<T>, s: seq<T>, x: T)
    requires SubList(sub, s)
    ensures SubList(sub, [x] + s)
    decreases |s|, 1
  {
    assert ([x] + s)[1..] == s;
    if sub != [] && sub[0] == x {
      SubListTail(sub, s);
    }
  }

  lemma {:induction false} SubListIds(sub: seq<Member>, s: seq<Member>)
    requires SubList(sub, s)
    ensures SubList(MemberIds(sub), MemberIds(s))
  {
    if sub != [] {
      assert MemberIds(s)[1..] == MemberIds(s[1..]) && MemberIds(sub)[1..] == MemberIds(sub[1..]);
      if sub[0] == s[0] {
        SubListIds(sub[1..], s[1..]);
      } else {
        SubListIds(sub, s[1..]);
        if sub[0].id == s[0].id {
          SubListTail(MemberIds(sub), MemberIds(s[1..]));
        }
      }
    }
  }
}
