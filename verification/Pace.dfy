// The pacing of rounds (batcher-cut/src/pace.rs): hold on a red, back off on a harness fault,
// stop at the second, and treat an open round with no driver once.

module Pace {
  import opened Prelude

  const BACKOFF_SECS: nat := 600
  const STOP_AFTER: nat := 2

  datatype PaceState = PaceState(
    infra: nat,
    backoffUntil: nat,
    pagedOpen: string,
    orphan: string,
    orphanSince: nat,
    redriven: string)

  datatype Outcome = Quiet | Red | Infra | StaleImage | OpenFailed

  // ----- what a cut came to ----------------------------------------------------------------

  const INFRA_MARKERS := ["NO RESULT", "OVER-CAP", "cannot check out", "certify rc=75", "certify exited 75",
                          "left no verdicts", "queue round certify exited 4"]

  const STALE_AMI_MARKER := "round AMI is stale"

  predicate Contains(text: string, marker: string) {
    marker <= text || (text != [] && Contains(text[1..], marker))
  }

  /** The error text of a cut, if it failed, and the repo's verdict with its time. */
  function Classify(error: Option<string>, verdict: Option<(string, nat)>, passStart: nat): (o: Outcome) {
    var text := if error.Some? then error.value else "";
    if Contains(text, STALE_AMI_MARKER) then StaleImage
    else if exists m :: m in INFRA_MARKERS && Contains(text, m) then Infra
    else if Contains(text, "NOT LANDED")
         || (error.None? && verdict.Some? && verdict.value.0 == "red" && verdict.value.1 >= passStart) then Red
    else if Contains(text, "OPEN FAILED") then OpenFailed
    else Quiet
  }

  datatype Hold = Paused | Stopped | Backoff(until: nat)

  function HoldOf(paused: bool, stopped: bool, st: PaceState, now: nat): (h: Option<Hold>) {
    if stopped then Some(Stopped)
    else if paused then Some(Paused)
    else if st.backoffUntil > now then Some(Backoff(st.backoffUntil))
    else None
  }

  datatype Effects = Effects(pause: bool, stop: bool, pages: nat)

  function Advance(st: PaceState, o: Outcome, now: nat): (r: (PaceState, Effects)) {
    match o
    case Quiet => (st.(infra := 0), Effects(false, false, 0))
    case Red => (st.(infra := 0), Effects(true, false, 1))
    case StaleImage => (st, Effects(false, false, 0))
    case OpenFailed => (st, Effects(false, false, 1))
    case Infra =>
      var next := st.(infra := st.infra + 1, backoffUntil := now + BACKOFF_SECS);
      if next.infra >= STOP_AFTER then (next, Effects(false, true, 1)) else (next, Effects(false, false, 0))
  }

  datatype Orphan = Wait | Redrive | Incident

  /** Tracks how long `id` has gone undriven; `fit` says certify could drive it again. */
  function OrphanStep(st: PaceState, id: string, now: nat, wait: nat, fit: bool): (r: (PaceState, Orphan)) {
    var seen := if st.orphan != id then st.(orphan := id, orphanSince := now) else st;
    var gone := if now < seen.orphanSince then 0 else now - seen.orphanSince;
    if gone < wait then (seen, Wait)
    else if !fit then (seen, Incident)
    else if seen.redriven == id then (seen, Incident)
    else (seen.(redriven := id, orphanSince := now), Redrive)
  }

  // ----- one pass --------------------------------------------------------------------------

  /** What a pass finds: an open round or none, whether it is driven, whether it is fit to be
      re-driven, whether an incident can be filed, and what the cut and the verdict would be. */
  datatype View = View(
    open: Option<string>,
    driven: bool,
    fit: bool,
    filed: bool,
    error: Option<string>,
    verdict: Option<(string, nat)>)

  /** What a pass did that others can see. */
  datatype Act =
    | Cut(at: nat, outcome: Outcome)
    | Redrove(at: nat, id: string)
    | Filed(at: nat, id: string)

  /** The repo's pace files, and everything done so far. */
  datatype World = World(st: PaceState, paused: bool, stopped: bool, acts: seq<Act>)

  /** A pass of the loop, or an operator's hand on the pause and stop. */
  datatype Event = Pass(now: nat, view: View) | Operator(paused: bool, stopped: bool)

  function WithOrphan(w: World, id: string, now: nat, wait: nat, v: View): (r: World) {
    var (next, step) := OrphanStep(w.st, id, now, wait, v.fit);
    match step
    case Wait => w.(st := next)
    case Redrive => w.(st := next, acts := w.acts + [Redrove(now, id)])
    case Incident =>
      if next.pagedOpen != id && v.filed
      then w.(st := next.(pagedOpen := id), acts := w.acts + [Filed(now, id)])
      else w.(st := next)
  }

  function WithCut(w: World, now: nat, v: View): (r: World) {
    CutTo(w, now, Classify(v.error, v.verdict, now))
  }

  function CutTo(w: World, now: nat, o: Outcome): (r: World) {
    var (next, fx) := Advance(w.st, o, now);
    World(next, w.paused || fx.pause, w.stopped || fx.stop, w.acts + [Cut(now, o)])
  }

  function Paced(w: World, now: nat, wait: nat, v: View): (r: World) {
    if HoldOf(w.paused, w.stopped, w.st, now).Some? then w
    else if v.open.Some? then
      if v.driven then
        if w.st.orphan != "" then w.(st := w.st.(orphan := "", orphanSince := 0)) else w
      else WithOrphan(w, v.open.value, now, wait, v)
    else WithCut(w, now, v)
  }

  function Step(w: World, wait: nat, e: Event): (r: World) {
    match e
    case Pass(now, view) => Paced(w, now, wait, view)
    case Operator(paused, stopped) => w.(paused := paused, stopped := stopped)
  }

  function Run(w: World, wait: nat, events: seq<Event>): (r: World) {
    if events == [] then w else Step(Run(w, wait, events[..|events| - 1]), wait, events[|events| - 1])
  }

  // ----- over whole runs -------------------------------------------------------------------

  /** What the state remembers of the acts. */
  ghost predicate Remembers(w: World) {
    && (forall a :: a in w.acts && a.Cut? && a.outcome.Infra? ==> a.at + BACKOFF_SECS <= w.st.backoffUntil)
    && CutsApart(w.acts)
    && w.st.infra == InfraInARow(w.acts)
    && (LastRedriven(w.acts).Some? ==> w.st.redriven == LastRedriven(w.acts).value)
    && (LastFiled(w.acts).Some? ==> w.st.pagedOpen == LastFiled(w.acts).value)
    && RedrivesDiffer(w.acts) && FilingsDiffer(w.acts)
  }

  /** No cut within the backoff of an earlier harness fault. */
  ghost predicate CutsApart(acts: seq<Act>) {
    forall i, j :: 0 <= i < j < |acts| && acts[i].Cut? && acts[i].outcome.Infra? && acts[j].Cut? ==>
      acts[j].at >= acts[i].at + BACKOFF_SECS
  }

  /** Harness faults since the last cut that was quiet or red. */
  ghost function InfraInARow(acts: seq<Act>): (n: nat) {
    if acts == [] then 0
    else
      var a, before := acts[|acts| - 1], acts[..|acts| - 1];
      if a.Cut? && (a.outcome.Quiet? || a.outcome.Red?) then 0
      else InfraInARow(before) + (if a.Cut? && a.outcome.Infra? then 1 else 0)
  }

  ghost function LastRedriven(acts: seq<Act>): (r: Option<string>) {
    if acts == [] then None
    else if acts[|acts| - 1].Redrove? then Some(acts[|acts| - 1].id)
    else LastRedriven(acts[..|acts| - 1])
  }

  ghost function LastFiled(acts: seq<Act>): (r: Option<string>) {
    if acts == [] then None
    else if acts[|acts| - 1].Filed? then Some(acts[|acts| - 1].id)
    else LastFiled(acts[..|acts| - 1])
  }

  /** No two re-drives running are of one round. */
  ghost predicate RedrivesDiffer(acts: seq<Act>) {
    acts != [] ==>
      var a, before := acts[|acts| - 1], acts[..|acts| - 1];
      RedrivesDiffer(before) && (a.Redrove? ==> LastRedriven(before) != Some(a.id))
  }

  ghost predicate FilingsDiffer(acts: seq<Act>) {
    acts != [] ==>
      var a, before := acts[|acts| - 1], acts[..|acts| - 1];
      FilingsDiffer(before) && (a.Filed? ==> LastFiled(before) != Some(a.id))
  }

  lemma ActMore(w: World, a: Act)
    ensures (w.acts + [a])[..|w.acts|] == w.acts
  {
  }

  lemma CutsStayApart(acts: seq<Act>, a: Act)
    requires CutsApart(acts)
    requires forall b :: b in acts && b.Cut? && b.outcome.Infra? && a.Cut? ==> b.at + BACKOFF_SECS <= a.at
    ensures CutsApart(acts + [a])
  {
    var longer := acts + [a];
    forall i, j | 0 <= i < j < |longer| && longer[i].Cut? && longer[i].outcome.Infra? && longer[j].Cut?
      ensures longer[j].at >= longer[i].at + BACKOFF_SECS
    {
      if j == |acts| {
        assert longer[i] in acts;
      }
    }
  }

  lemma CutRemembers(w: World, now: nat, o: Outcome)
    requires Remembers(w) && w.st.backoffUntil <= now
    ensures Remembers(CutTo(w, now, o))
  {
    var a := Cut(now, o);
    ActMore(w, a);
    CutsStayApart(w.acts, a);
  }

  lemma RedroveRemembers(w: World, st: PaceState, now: nat, id: string)
    requires Remembers(w) && st.infra == w.st.infra && st.backoffUntil == w.st.backoffUntil
    requires st.redriven == id && w.st.redriven != id && st.pagedOpen == w.st.pagedOpen
    ensures Remembers(w.(st := st, acts := w.acts + [Redrove(now, id)]))
  {
    ActMore(w, Redrove(now, id));
  }

  lemma FiledRemembers(w: World, st: PaceState, now: nat, id: string)
    requires Remembers(w) && st.infra == w.st.infra && st.backoffUntil == w.st.backoffUntil
    requires st.redriven == w.st.redriven && st.pagedOpen == id && w.st.pagedOpen != id
    ensures Remembers(w.(st := st, acts := w.acts + [Filed(now, id)]))
  {
    ActMore(w, Filed(now, id));
  }

  lemma OrphanRemembers(w: World, id: string, now: nat, wait: nat, v: View)
    requires Remembers(w)
    ensures Remembers(WithOrphan(w, id, now, wait, v))
  {
    var (next, step) := OrphanStep(w.st, id, now, wait, v.fit);
    match step
    case Wait =>
    case Redrive => RedroveRemembers(w, next, now, id);
    case Incident =>
      if next.pagedOpen != id && v.filed {
        FiledRemembers(w, next.(pagedOpen := id), now, id);
      }
  }

  lemma StepRemembers(w: World, wait: nat, e: Event)
    requires Remembers(w)
    ensures Remembers(Step(w, wait, e))
  {
    if e.Pass? && HoldOf(w.paused, w.stopped, w.st, e.now).None? {
      if e.view.open.None? {
        CutRemembers(w, e.now, Classify(e.view.error, e.view.verdict, e.now));
      } else if !e.view.driven {
        OrphanRemembers(w, e.view.open.value, e.now, wait, e.view);
      }
    }
  }

  const Start := World(PaceState(0, 0, "", "", 0, ""), false, false, [])

  /** Over any run: cuts keep clear of every harness fault's backoff, no round is re-driven or
      filed twice running, and the count of faults is the true one. */
  lemma {:induction false} RunRemembers(wait: nat, events: seq<Event>)
    ensures Remembers(Run(Start, wait, events))
  {
    if events != [] {
      RunRemembers(wait, events[..|events| - 1]);
      StepRemembers(Run(Start, wait, events[..|events| - 1]), wait, events[|events| - 1]);
    }
  }

  /** Act `k` is the cut of pass `i`, which nothing held and which found no round open. */
  ghost predicate CutBy(wait: nat, events: seq<Event>, acts: seq<Act>, k: nat, i: nat) {
    && i < |events| && events[i].Pass? && k < |acts|
    && var w, e := Run(Start, wait, events[..i]), events[i];
      && !w.paused && !w.stopped && w.st.backoffUntil <= e.now && e.view.open.None?
      && k == |w.acts| && acts[k] == Cut(e.now, Classify(e.view.error, e.view.verdict, e.now))
  }

  lemma CutNow(w: World, wait: nat, e: Event)
    ensures |w.acts| <= |Step(w, wait, e).acts| <= |w.acts| + 1 && w.acts <= Step(w, wait, e).acts
    ensures |Step(w, wait, e).acts| > |w.acts| && Step(w, wait, e).acts[|w.acts|].Cut? ==>
              e.Pass? && !w.paused && !w.stopped && w.st.backoffUntil <= e.now && e.view.open.None?
              && Step(w, wait, e).acts[|w.acts|] == Cut(e.now, Classify(e.view.error, e.view.verdict, e.now))
  {
  }

  /** Over any run, every cut on record was made by a pass while nothing held it, neither pause nor
      stop nor backoff, and no round was open. */
  lemma {:induction false} EveryCutUnheld(wait: nat, events: seq<Event>, k: nat)
    requires k < |Run(Start, wait, events).acts| && Run(Start, wait, events).acts[k].Cut?
    ensures exists i: nat :: CutBy(wait, events, Run(Start, wait, events).acts, k, i)
  {
    var n := |events| - 1;
    var before, e := events[..n], events[n];
    var w := Run(Start, wait, before);
    CutNow(w, wait, e);
    if k < |w.acts| {
      EveryCutUnheld(wait, before, k);
      var i: nat :| CutBy(wait, before, w.acts, k, i);
      assert before[..i] == events[..i];
      assert CutBy(wait, events, Run(Start, wait, events).acts, k, i);
    } else {
      assert CutBy(wait, events, Run(Start, wait, events).acts, k, n);
    }
  }

  /** Two harness faults with no quiet or red cut between leave the repo stopped, and stopped it
      stays, doing nothing, until an operator lifts it. */
  lemma {:induction false} SecondFaultStops(wait: nat, events: seq<Event>, now: nat, view: View, rest: seq<Event>)
    requires
      var w := Run(Start, wait, events);
      && Paced(w, now, wait, view).acts == w.acts + [Cut(now, Infra)]
      && InfraInARow(w.acts) >= 1
    requires forall e :: e in rest ==> e.Pass?
    ensures
      var w := Paced(Run(Start, wait, events), now, wait, view);
      w.stopped && Run(w, wait, rest) == w
  {
    var before := Run(Start, wait, events);
    var w := Paced(before, now, wait, view);
    RunRemembers(wait, events);
    assert (before.acts + [Cut(now, Infra)])[|before.acts|] == Cut(now, Infra);
    assert |before.acts + [Cut(now, Infra)]| == |before.acts| + 1;
    assert w.stopped by {
      assert w.acts[|before.acts|] == Cut(now, Infra);
    }
    StoppedStays(w, wait, rest);
  }

  lemma {:induction false} StoppedStays(w: World, wait: nat, rest: seq<Event>)
    requires w.stopped && forall e :: e in rest ==> e.Pass?
    ensures Run(w, wait, rest) == w
  {
    if rest != [] {
      assert rest == rest[..|rest| - 1] + [rest[|rest| - 1]];
      StoppedStays(w, wait, rest[..|rest| - 1]);
    }
  }

  lemma {:induction false} DifferBefore(acts: seq<Act>, n: nat)
    requires RedrivesDiffer(acts) && n <= |acts|
    ensures RedrivesDiffer(acts[..n])
    decreases |acts|
  {
    if n < |acts| {
      DifferBefore(acts[..|acts| - 1], n);
      assert acts[..|acts| - 1][..n] == acts[..n];
    } else {
      assert acts[..n] == acts;
    }
  }

  /** Between two re-drives of one round there is one of another. */
  lemma RedrivenBetween(acts: seq<Act>, i: nat, j: nat, id: string)
    requires RedrivesDiffer(acts) && i < j < |acts|
    requires acts[i].Redrove? && acts[j].Redrove? && acts[i].id == id && acts[j].id == id
    ensures exists k :: i < k < j && acts[k].Redrove? && acts[k].id != id
  {
    DifferBefore(acts, j + 1);
    assert acts[..j + 1][..j] == acts[..j];
    LastRedrivenIs(acts[..j], i);
    var k :| i <= k < j && acts[..j][k].Redrove? && LastRedriven(acts[..j]) == Some(acts[..j][k].id);
    assert acts[k].Redrove? && acts[k].id != id;
  }

  lemma {:induction false} LastRedrivenIs(acts: seq<Act>, i: nat)
    requires i < |acts| && acts[i].Redrove?
    ensures exists k :: i <= k < |acts| && acts[k].Redrove? && LastRedriven(acts) == Some(acts[k].id)
  {
    var n := |acts| - 1;
    if !acts[n].Redrove? {
      LastRedrivenIs(acts[..n], i);
      var k :| i <= k < n && acts[..n][k].Redrove? && LastRedriven(acts[..n]) == Some(acts[..n][k].id);
      assert acts[k] == acts[..n][k];
    }
  }

  lemma {:induction false} FilingsBefore(acts: seq<Act>, n: nat)
    requires FilingsDiffer(acts) && n <= |acts|
    ensures FilingsDiffer(acts[..n])
    decreases |acts|
  {
    if n < |acts| {
      FilingsBefore(acts[..|acts| - 1], n);
      assert acts[..|acts| - 1][..n] == acts[..n];
    } else {
      assert acts[..n] == acts;
    }
  }

  lemma {:induction false} LastFiledIs(acts: seq<Act>, i: nat)
    requires i < |acts| && acts[i].Filed?
    ensures exists k :: i <= k < |acts| && acts[k].Filed? && LastFiled(acts) == Some(acts[k].id)
  {
    var n := |acts| - 1;
    if !acts[n].Filed? {
      LastFiledIs(acts[..n], i);
      var k :| i <= k < n && acts[..n][k].Filed? && LastFiled(acts[..n]) == Some(acts[..n][k].id);
      assert acts[k] == acts[..n][k];
    }
  }

  /** Between two incidents on one round there is one on another. */
  lemma FiledBetween(acts: seq<Act>, i: nat, j: nat, id: string)
    requires FilingsDiffer(acts) && i < j < |acts|
    requires acts[i].Filed? && acts[j].Filed? && acts[i].id == id && acts[j].id == id
    ensures exists k :: i < k < j && acts[k].Filed? && acts[k].id != id
  {
    FilingsBefore(acts, j + 1);
    assert acts[..j + 1][..j] == acts[..j];
    LastFiledIs(acts[..j], i);
    var k :| i <= k < j && acts[..j][k].Filed? && LastFiled(acts[..j]) == Some(acts[..j][k].id);
    assert acts[k].Filed? && acts[k].id != id;
  }

  // ----- the wait before a re-drive --------------------------------------------------------

  /** What pass `k` saw of an open round, if nothing held it. */
  function Sees(wait: nat, events: seq<Event>, k: nat): (v: Option<View>)
    requires k < |events|
  {
    var e := events[k];
    if e.Pass? && HoldOf(Run(Start, wait, events[..k]).paused, Run(Start, wait, events[..k]).stopped,
                         Run(Start, wait, events[..k]).st, e.now).None? && e.view.open.Some?
    then Some(e.view)
    else None
  }

  ghost predicate Undriven(v: Option<View>, id: string) {
    v.Some? ==> v.value.open == Some(id) && !v.value.driven
  }

  /** From pass `s` on, every open round seen was `id`, with no driver. */
  ghost predicate UndrivenFrom(wait: nat, events: seq<Event>, id: string, since: nat, s: nat) {
    && s < |events| && events[s].Pass? && events[s].now == since && Sees(wait, events, s).Some?
    && forall k :: s <= k < |events| ==> Undriven(Sees(wait, events, k), id)
  }

  lemma SeesBefore(wait: nat, events: seq<Event>, e: Event, k: nat)
    requires k < |events|
    ensures Sees(wait, events + [e], k) == Sees(wait, events, k)
  {
    assert (events + [e])[..k] == events[..k];
  }

  lemma StillUndriven(wait: nat, events: seq<Event>, e: Event, id: string, since: nat, s: nat)
    requires UndrivenFrom(wait, events, id, since, s) && Undriven(Sees(wait, events + [e], |events|), id)
    ensures UndrivenFrom(wait, events + [e], id, since, s)
  {
    SeesBefore(wait, events, e, s);
    forall k | s <= k < |events + [e]| ensures Undriven(Sees(wait, events + [e], k), id) {
      if k < |events| {
        SeesBefore(wait, events, e, k);
      }
    }
  }

  /** The round on watch has been seen undriven, and nothing else, since the time on record. */
  lemma {:induction false} WatchedSince(wait: nat, events: seq<Event>)
    ensures
      var st := Run(Start, wait, events).st;
      st.orphan != "" ==> exists s :: UndrivenFrom(wait, events, st.orphan, st.orphanSince, s)
  {
    if events != [] {
      var before, e := events[..|events| - 1], events[|events| - 1];
      assert events == before + [e];
      WatchedSince(wait, before);
      WatchedStep(wait, before, e);
    }
  }

  /** A watch begun at this pass. */
  lemma NewlyWatched(wait: nat, events: seq<Event>, e: Event)
    requires
      var w := Run(Start, wait, events);
      var st := Step(w, wait, e).st;
      st.orphan != "" && !(st.orphan == w.st.orphan && st.orphanSince == w.st.orphanSince)
    ensures
      var st := Step(Run(Start, wait, events), wait, e).st;
      UndrivenFrom(wait, events + [e], st.orphan, st.orphanSince, |events|)
  {
    assert (events + [e])[..|events|] == events;
  }

  lemma WatchedStep(wait: nat, events: seq<Event>, e: Event)
    requires
      var st := Run(Start, wait, events).st;
      st.orphan != "" ==> exists s :: UndrivenFrom(wait, events, st.orphan, st.orphanSince, s)
    ensures
      var st := Step(Run(Start, wait, events), wait, e).st;
      st.orphan != "" ==> exists s :: UndrivenFrom(wait, events + [e], st.orphan, st.orphanSince, s)
  {
    var longer, n := events + [e], |events|;
    var w := Run(Start, wait, events);
    var st := Step(w, wait, e).st;
    assert longer[..n] == events;
    if st.orphan != "" {
      if st.orphan == w.st.orphan && st.orphanSince == w.st.orphanSince {
        var s :| UndrivenFrom(wait, events, st.orphan, st.orphanSince, s);
        StillUndriven(wait, events, e, st.orphan, st.orphanSince, s);
      } else {
        NewlyWatched(wait, events, e);
        assert UndrivenFrom(wait, longer, st.orphan, st.orphanSince, n);
      }
    }
  }

  /** A round is re-driven only after it has been seen with no driver, and no other open round in
      between, for the whole of the wait. */
  lemma RedrivenAfterWait(wait: nat, events: seq<Event>, now: nat, view: View, id: string)
    requires id != "" && wait > 0
    requires
      var w := Run(Start, wait, events);
      Paced(w, now, wait, view).acts == w.acts + [Redrove(now, id)]
    ensures exists s: nat, since: nat :: UndrivenFrom(wait, events, id, since, s) && now >= since + wait
  {
    var w := Run(Start, wait, events);
    assert (w.acts + [Redrove(now, id)])[|w.acts|] == Redrove(now, id);
    assert |w.acts + [Redrove(now, id)]| == |w.acts| + 1;
    WatchedSince(wait, events);
    assert w.st.orphan == id && now >= w.st.orphanSince + wait;
  }
}
