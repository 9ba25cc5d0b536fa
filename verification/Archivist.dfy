// One session's retries in the archivist (archivist/src/run.rs, settle and record_failure;
// archivist/src/candidates.rs): timeouts count towards a failure, failures towards giving up, and
// a session given up on is swept again only when forced.

module Archivist {
  import opened Prelude

  datatype SweepState = Safe | Retrying | TimedOut | Deferred | Failed | Never

  datatype Config = Config(timeoutRetries: nat, failRetries: nat, backoff: nat, every: nat)

  /** A session's files: its state with the time it may be retried, and its two counters. */
  datatype Session = Session(state: SweepState, retryAt: Option<int>, timeouts: nat, failures: nat)

  /** How a run ended: clean; clean but uncommitted for now; uncommitted; out of time; refused for
      capacity; or with an error of its own. */
  datatype Outcome = Clean | RetryLater | CommitFailed | OutOfTime | Capacity | Crashed

  // ----- waiting between failures ----------------------------------------------------------

  const U64_MAX: nat := 0xFFFF_FFFF_FFFF_FFFF
  const I64_MAX: nat := 0x7FFF_FFFF_FFFF_FFFF

  function Min(a: nat, b: nat): (r: nat) {
    if a <= b then a else b
  }

  function PowerOfTwo(k: nat): (r: nat)
    ensures r >= 1
  {
    if k == 0 then 1 else 2 * PowerOfTwo(k - 1)
  }

  /** `base`, doubling with each failure up to twenty doublings, saturating. */
  function BackoffSecs(base: nat, failures: nat): (r: nat) {
    var doublings := Min(if failures > 0 then failures - 1 else 0, 20);
    Min(Min(base * PowerOfTwo(doublings), U64_MAX), I64_MAX)
  }

  lemma {:induction false} PowersGrow(j: nat, k: nat)
    requires j <= k
    ensures PowerOfTwo(j) <= PowerOfTwo(k)
  {
    if j < k {
      PowersGrow(j, k - 1);
    }
  }

  lemma TimesGrows(base: nat, a: nat, b: nat)
    requires a <= b
    ensures base * a <= base * b
  {
    assert base * b == base * a + base * (b - a);
  }

  /** Each wait is at least the one before it, twice as long while neither cap is reached. */
  lemma BackoffGrows(base: nat, failures: nat)
    requires failures >= 1
    ensures BackoffSecs(base, failures) <= BackoffSecs(base, failures + 1)
    ensures failures <= 20 && base * PowerOfTwo(failures) <= I64_MAX ==>
              BackoffSecs(base, failures + 1) == 2 * BackoffSecs(base, failures)
    ensures failures >= 21 ==> BackoffSecs(base, failures + 1) == BackoffSecs(base, failures)
  {
    var j, k := Min(failures - 1, 20), Min(failures, 20);
    PowersGrow(j, k);
    TimesGrows(base, PowerOfTwo(j), PowerOfTwo(k));
    if failures <= 20 {
      assert base * PowerOfTwo(failures) == 2 * (base * PowerOfTwo(failures - 1)) by {
        assert PowerOfTwo(failures) == 2 * PowerOfTwo(failures - 1);
      }
    }
  }

  // ----- settling a run --------------------------------------------------------------------

  function RecordFailure(cfg: Config, s: Session, now: int): (r: Session) {
    var n := s.failures + 1;
    if n >= cfg.failRetries then s.(state := Failed, retryAt := None, failures := n)
    else s.(state := Failed, retryAt := Some(now + BackoffSecs(cfg.backoff, n)), failures := n)
  }

  function Settle(cfg: Config, s: Session, outcome: Outcome, now: int): (r: Session) {
    match outcome
    case RetryLater => s.(state := Retrying, retryAt := Some(now + BackoffSecs(cfg.backoff, 1)))
    case CommitFailed => RecordFailure(cfg, s, now)
    case Clean => Session(Safe, None, 0, 0)
    case OutOfTime =>
      if s.timeouts + 1 >= cfg.timeoutRetries then RecordFailure(cfg, s.(timeouts := 0), now)
      else s.(state := TimedOut, retryAt := None, timeouts := s.timeouts + 1)
    case Capacity => s.(state := Deferred, retryAt := None)
    case Crashed => RecordFailure(cfg, s, now)
  }

  /** Whether a sweep fires the session. */
  predicate WouldArchive(cfg: Config, s: Session, drift: int, now: int) {
    && drift >= cfg.every
    && (s.state.Failed? ==> s.retryAt.Some? && now >= s.retryAt.value)
    && (s.state.Retrying? ==> s.retryAt.None? || now >= s.retryAt.value)
  }

  /** Given up on: failed, with no time to retry. */
  predicate GivenUp(s: Session) {
    s.state.Failed? && s.retryAt.None?
  }

  /** One sweep past the session: what it measured, when, and how a run would end. */
  datatype Sweep = Sweep(drift: int, now: int, outcome: Outcome)

  function Swept(cfg: Config, s: Session, w: Sweep): (r: Session) {
    if WouldArchive(cfg, s, w.drift, w.now) then Settle(cfg, s, w.outcome, w.now) else s
  }

  function After(cfg: Config, s: Session, sweeps: seq<Sweep>): (r: Session) {
    if sweeps == [] then s else Swept(cfg, After(cfg, s, sweeps[..|sweeps| - 1]), sweeps[|sweeps| - 1])
  }

  predicate Fires(cfg: Config, s: Session, sweeps: seq<Sweep>, i: nat)
    requires i < |sweeps|
  {
    WouldArchive(cfg, After(cfg, s, sweeps[..i]), sweeps[i].drift, sweeps[i].now)
  }

  predicate IsAttempt(o: Outcome) {
    o.OutOfTime? || o.CommitFailed? || o.Crashed?
  }

  /** Runs that ended in a timeout or a failure. */
  ghost function Attempts(cfg: Config, s: Session, sweeps: seq<Sweep>): (n: nat) {
    if sweeps == [] then 0
    else
      var k := |sweeps| - 1;
      Attempts(cfg, s, sweeps[..k])
      + (if WouldArchive(cfg, After(cfg, s, sweeps[..k]), sweeps[k].drift, sweeps[k].now)
          && IsAttempt(sweeps[k].outcome) then 1 else 0)
  }

  /** Nothing has cleared the counters: no sweep ran clean. */
  ghost predicate NoneClean(cfg: Config, s: Session, sweeps: seq<Sweep>) {
    forall i :: 0 <= i < |sweeps| && Fires(cfg, s, sweeps, i) ==> !sweeps[i].outcome.Clean?
  }

  function AtLeastOne(n: nat): (r: nat) {
    if n == 0 then 1 else n
  }

  /** How far a session is towards being given up on. */
  ghost function Spent(cfg: Config, s: Session): (n: nat) {
    s.failures * AtLeastOne(cfg.timeoutRetries) + s.timeouts
  }

  /** Short of the budgets, or given up on with the failures all spent. */
  ghost predicate InBudget(cfg: Config, s: Session) {
    && s.timeouts < AtLeastOne(cfg.timeoutRetries)
    && s.failures <= AtLeastOne(cfg.failRetries)
    && (s.failures == AtLeastOne(cfg.failRetries) <==> GivenUp(s))
  }

  lemma OneMoreFailure(cfg: Config, s: Session, t: Session)
    requires t.failures == s.failures + 1
    ensures Spent(cfg, t) == Spent(cfg, s.(timeouts := 0)) + AtLeastOne(cfg.timeoutRetries) + t.timeouts
  {
    var b := AtLeastOne(cfg.timeoutRetries);
    assert (s.failures + 1) * b == s.failures * b + b;
  }

  lemma FailureSpends(cfg: Config, s: Session, now: int)
    requires InBudget(cfg, s) && !GivenUp(s)
    ensures InBudget(cfg, RecordFailure(cfg, s, now))
    ensures Spent(cfg, RecordFailure(cfg, s, now)) == Spent(cfg, s) + AtLeastOne(cfg.timeoutRetries)
  {
    OneMoreFailure(cfg, s, RecordFailure(cfg, s, now));
  }

  lemma FewerTimeouts(cfg: Config, s: Session)
    requires InBudget(cfg, s) && !GivenUp(s)
    ensures InBudget(cfg, s.(timeouts := 0)) && Spent(cfg, s) == Spent(cfg, s.(timeouts := 0)) + s.timeouts
  {
  }

  /** An attempt always gets closer to the end; nothing else gets further from it. */
  lemma SettleSpends(cfg: Config, s: Session, outcome: Outcome, now: int)
    requires InBudget(cfg, s) && !GivenUp(s) && !outcome.Clean?
    ensures InBudget(cfg, Settle(cfg, s, outcome, now))
    ensures Spent(cfg, Settle(cfg, s, outcome, now)) >= Spent(cfg, s) + (if IsAttempt(outcome) then 1 else 0)
  {
    match outcome
    case CommitFailed => FailureSpends(cfg, s, now);
    case Crashed => FailureSpends(cfg, s, now);
    case OutOfTime =>
      FewerTimeouts(cfg, s);
      FailureSpends(cfg, s.(timeouts := 0), now);
    case RetryLater =>
    case Capacity =>
  }

  /** Two budgets, multiplied. */
  ghost function Budget(cfg: Config): (n: nat) {
    AtLeastOne(cfg.failRetries) * AtLeastOne(cfg.timeoutRetries)
  }

  lemma UnspentLeft(cfg: Config, s: Session)
    requires InBudget(cfg, s) && !GivenUp(s)
    ensures Spent(cfg, s) < Budget(cfg)
  {
    var b, f := AtLeastOne(cfg.timeoutRetries), AtLeastOne(cfg.failRetries);
    TimesGrows(b, s.failures, f - 1);
    assert b * (f - 1) == f * b - b;
    assert b * s.failures == s.failures * b;
  }

  lemma NoneCleanBefore(cfg: Config, s: Session, sweeps: seq<Sweep>, k: nat)
    requires NoneClean(cfg, s, sweeps) && k <= |sweeps|
    ensures NoneClean(cfg, s, sweeps[..k])
  {
    forall i | 0 <= i < k && Fires(cfg, s, sweeps[..k], i) ensures !sweeps[..k][i].outcome.Clean? {
      assert sweeps[..k][..i] == sweeps[..i];
      assert Fires(cfg, s, sweeps, i);
    }
  }

  lemma {:induction false} SpendingBounds(cfg: Config, s: Session, sweeps: seq<Sweep>)
    requires s.timeouts == 0 && s.failures == 0 && !GivenUp(s) && NoneClean(cfg, s, sweeps)
    ensures
      var t := After(cfg, s, sweeps);
      && InBudget(cfg, t)
      && Attempts(cfg, s, sweeps) <= if GivenUp(t) then Budget(cfg) else Spent(cfg, t)
  {
    if sweeps != [] {
      var k := |sweeps| - 1;
      NoneCleanBefore(cfg, s, sweeps, k);
      SpendingBounds(cfg, s, sweeps[..k]);
      var t := After(cfg, s, sweeps[..k]);
      if WouldArchive(cfg, t, sweeps[k].drift, sweeps[k].now) {
        assert Fires(cfg, s, sweeps, k);
        SettleSpends(cfg, t, sweeps[k].outcome, sweeps[k].now);
        UnspentLeft(cfg, t);
      }
    }
  }

  /** However sweeps interleave with refusals and retries, at most as many runs as the two budgets
      multiply to end in a timeout or a failure before one ends clean or the session is given up
      on; reaching that many means it has been. */
  lemma AttemptsBounded(cfg: Config, s: Session, sweeps: seq<Sweep>)
    requires s.timeouts == 0 && s.failures == 0 && !GivenUp(s) && NoneClean(cfg, s, sweeps)
    ensures Attempts(cfg, s, sweeps) <= Budget(cfg)
    ensures Attempts(cfg, s, sweeps) == Budget(cfg) ==> GivenUp(After(cfg, s, sweeps))
  {
    SpendingBounds(cfg, s, sweeps);
    if !GivenUp(After(cfg, s, sweeps)) {
      UnspentLeft(cfg, After(cfg, s, sweeps));
    }
  }

  /** Once given up on, no sweep fires it again. */
  lemma {:induction false} GivenUpStays(cfg: Config, s: Session, sweeps: seq<Sweep>)
    requires GivenUp(s)
    ensures After(cfg, s, sweeps) == s
    ensures forall i :: 0 <= i < |sweeps| ==> !Fires(cfg, s, sweeps, i)
  {
    if sweeps != [] {
      GivenUpStays(cfg, s, sweeps[..|sweeps| - 1]);
      forall i | 0 <= i < |sweeps| ensures !Fires(cfg, s, sweeps, i) {
        GivenUpStays(cfg, s, sweeps[..i]);
      }
    }
  }

  /** A run that counts as a failure: an error of its own, no commit, or the timeout that uses up
      the budget of timeouts. */
  predicate CountsAsFailure(cfg: Config, s: Session, o: Outcome) {
    o.CommitFailed? || o.Crashed? || (o.OutOfTime? && s.timeouts + 1 >= cfg.timeoutRetries)
  }

  lemma FailureWaits(cfg: Config, s: Session, outcome: Outcome, now: int, drift: int, later: int)
    requires CountsAsFailure(cfg, s, outcome)
    requires WouldArchive(cfg, Settle(cfg, s, outcome, now), drift, later)
    ensures s.failures + 1 < cfg.failRetries && later >= now + BackoffSecs(cfg.backoff, s.failures + 1)
  {
  }

  lemma {:induction false} NotFired(cfg: Config, s: Session, sweeps: seq<Sweep>, i: nat, j: nat)
    requires i <= j <= |sweeps| && forall k: nat :: i <= k < j ==> !Fires(cfg, s, sweeps, k)
    ensures After(cfg, s, sweeps[..j]) == After(cfg, s, sweeps[..i])
  {
    if i < j {
      NotFired(cfg, s, sweeps, i, j - 1);
      assert sweeps[..j][..j - 1] == sweeps[..j - 1];
      assert !Fires(cfg, s, sweeps, j - 1);
    }
  }

  /** In any sweeps, the next run after one that counted as the k-th failure in a row comes no
      sooner than the k-th wait, and comes only if failures are left. */
  lemma NextRunWaits(cfg: Config, s: Session, sweeps: seq<Sweep>, i: nat, j: nat)
    requires i < j < |sweeps| && Fires(cfg, s, sweeps, i) && Fires(cfg, s, sweeps, j)
    requires forall k: nat :: i < k < j ==> !Fires(cfg, s, sweeps, k)
    requires CountsAsFailure(cfg, After(cfg, s, sweeps[..i]), sweeps[i].outcome)
    ensures
      var k := After(cfg, s, sweeps[..i]).failures + 1;
      k < cfg.failRetries && sweeps[j].now >= sweeps[i].now + BackoffSecs(cfg.backoff, k)
  {
    var t := After(cfg, s, sweeps[..i]);
    assert sweeps[..i + 1][..i] == sweeps[..i];
    assert After(cfg, s, sweeps[..i + 1]) == Settle(cfg, t, sweeps[i].outcome, sweeps[i].now);
    NotFired(cfg, s, sweeps, i + 1, j);
    FailureWaits(cfg, t, sweeps[i].outcome, sweeps[i].now, sweeps[j].drift, sweeps[j].now);
  }

  // ----- the session's files ---------------------------------------------------------------

  class SessionFiles {
    const cfg: Config
    var state: SweepState
    var retryAt: Option<int>
    /** The count files; absent is none. */
    var timeoutCount: Option<nat>
    var failCount: Option<nat>

    function Value(): (s: Session)
      reads this
    {
      Session(state, retryAt, if timeoutCount.Some? then timeoutCount.value else 0,
              if failCount.Some? then failCount.value else 0)
    }

    method WriteState(state: SweepState, retryAt: Option<int>)
      modifies this`state, this`retryAt
      ensures this.state == state && this.retryAt == retryAt
    {
      this.state, this.retryAt := state, retryAt;
    }

    method NoteFailure(now: int)
      modifies this
      ensures Value() == RecordFailure(cfg, old(Value()), now)
    {
      var n := (if failCount.Some? then failCount.value else 0) + 1;
      failCount := Some(n);
      if n >= cfg.failRetries {
        WriteState(Failed, None);
      } else {
        WriteState(Failed, Some(now + BackoffSecs(cfg.backoff, n)));
      }
    }

    /** Everything after a run: state, retry time and counts. */
    method SettleRun(outcome: Outcome, now: int)
      modifies this
      ensures Value() == Settle(cfg, old(Value()), outcome, now)
    {
      var tc := if timeoutCount.Some? then timeoutCount.value else 0;
      match outcome {
        case RetryLater =>
          WriteState(Retrying, Some(now + BackoffSecs(cfg.backoff, 1)));
        case CommitFailed =>
          NoteFailure(now);
        case Clean =>
          WriteState(Safe, None);
          timeoutCount, failCount := None, None;
        case OutOfTime =>
          if tc + 1 >= cfg.timeoutRetries {
            timeoutCount := None;
            NoteFailure(now);
          } else {
            timeoutCount := Some(tc + 1);
            WriteState(TimedOut, None);
          }
        case Capacity =>
          WriteState(Deferred, None);
        case Crashed =>
          NoteFailure(now);
      }
    }
  }

  // ----- the covered cursor and the filed items --------------------------------------------

  class Archive {
    var covered: Option<nat>
    var filed: seq<string>

    /** Everything up to `turn` is handled: the cursor moves forward only, and not past what this
        run read. */
    method Progress(turn: nat, at: Option<nat>) returns (r: Result<()>)
      modifies this`covered
      ensures r.Ok? <==> at.Some?
      ensures r.Err? ==> covered == old(covered)
      ensures
        var prior := if old(covered).Some? then old(covered).value else 0;
        r.Ok? ==> covered.Some? && prior <= covered.value
                  && (covered.value == prior || covered.value == turn || covered.value == at.value)
                  && (covered.value > prior ==> covered.value <= turn && covered.value <= at.value)
                  && (prior <= turn <= at.value ==> covered.value == turn)
    {
      if at.None? {
        return Err("no archivist run in progress");
      }
      var prior := if covered.Some? then covered.value else 0;
      var capped := Min(turn, at.value);
      var next := if capped > prior then capped else prior;
      if next == prior && covered.Some? {
        return Ok(());
      }
      covered := Some(next);
      r := Ok(());
    }

    /** The right to file one item, granted once for each key. */
    method Claim(raw: string) returns (r: Result<bool>)
      requires NoDup(filed)
      modifies this`filed
      ensures NoDup(filed)
      ensures
        var key := Trim(raw);
        && (r.Err? <==> key == "" || '\n' in key)
        && (r.Ok? ==> (r.value <==> key !in old(filed)) && key in filed)
        && filed == if r.Ok? && r.value then old(filed) + [key] else old(filed)
    {
      var key := Trim(raw);
      if key == "" || '\n' in key {
        return Err("claim needs a one-line key");
      }
      if key in filed {
        return Ok(false);
      }
      NoDupAppend(filed, [key]);
      filed := filed + [key];
      assert filed[|filed| - 1] == key;
      r := Ok(true);
    }
  }
}
