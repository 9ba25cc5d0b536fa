// The bounded wait for a red pass's menders (batcher-cut/src/endpass.rs, wait). The machine that
// owns the menders may answer anything; only a sleep moves the clock.

module EndPass {
  import opened Prelude
  import Mender

  const POLL_SECS := 2

  datatype RowState =
    | Waiting | Mending
    | MendedRow | EnvironmentRow | FlakyRow | ReturnedRow | UnsureRow
    | Other(name: string)

  datatype Row = Row(suite: Suite, state: RowState, deadline: Option<int>, diagnosis: string, askOpen: bool)

  predicate Live(r: Row) {
    r.state.Waiting? || r.state.Mending?
  }

  function OutcomeOf(s: RowState): (r: Option<Mender.Outcome>) {
    match s
    case MendedRow => Some(Mender.Mended)
    case EnvironmentRow => Some(Mender.Environment)
    case FlakyRow => Some(Mender.Flaky)
    case ReturnedRow => Some(Mender.Returned)
    case UnsureRow => Some(Mender.Unsure)
    case _ => None
  }

  function Max(a: int, b: int): (r: int) {
    if a >= b then a else b
  }

  predicate AnyLive(rows: seq<Row>) {
    exists r :: r in rows && Live(r)
  }

  predicate AnyAsk(rows: seq<Row>) {
    exists r :: r in rows && Live(r) && r.askOpen
  }

  /** The last moment a row may still be going: its deadline, or a full one from now. */
  function EndOf(r: Row, now: int, deadlineSecs: int): (t: int) {
    if r.deadline.Some? then r.deadline.value else now + deadlineSecs
  }

  /** The latest of the live rows' ends; `now` when none is live. */
  function Cap(rows: seq<Row>, now: int, deadlineSecs: int): (t: int)
    ensures forall r :: r in rows && Live(r) ==> EndOf(r, now, deadlineSecs) <= t
    ensures if AnyLive(rows) then exists r :: r in rows && Live(r) && t == EndOf(r, now, deadlineSecs) else t == now
  {
    if rows == [] then now
    else
      var r := rows[|rows| - 1];
      var before := rows[..|rows| - 1];
      var t := Cap(before, now, deadlineSecs);
      assert rows == before + [r];
      if !Live(r) then t
      else if !AnyLive(before) then EndOf(r, now, deadlineSecs)
      else Max(t, EndOf(r, now, deadlineSecs))
  }

  /** `bound` raised to every deadline a mender under way was read with. */
  function Raised(bound: int, rows: seq<Row>): (t: int)
    ensures t >= bound
    ensures forall r :: r in rows && r.state.Mending? && r.deadline.Some? ==> r.deadline.value <= t
    ensures t == bound || exists r :: r in rows && r.state.Mending? && r.deadline == Some(t)
  {
    if rows == [] then bound
    else
      var r := rows[|rows| - 1];
      var before := rows[..|rows| - 1];
      var t := Raised(bound, before);
      assert rows == before + [r];
      if r.state.Mending? && r.deadline.Some? then Max(t, r.deadline.value) else t
  }

  class Menders {
    var clock: int
    /** How many more times rows may show an ask open. */
    var asks: nat
    /** No mender is ever given a deadline past this. */
    const latest: int
    ghost var sweeps: nat
    /** Every reading of the rows, in order. */
    ghost var read: seq<seq<Row>>

    method Rows() returns (r: Result<seq<Row>>)
      modifies this`asks, this`read
      ensures read == old(read) + if r.Ok? then [r.value] else []
      ensures r.Ok? ==> Raised(latest, r.value) == latest
      ensures asks <= old(asks) && (r.Ok? && AnyAsk(r.value) ==> asks < old(asks))
    {
      if * {
        return Err("rows not read");
      }
      var rows: seq<Row> := [];
      var n: int := *;
      for i := 0 to if n < 0 then 0 else n
        invariant Raised(latest, rows) == latest
        invariant asks == 0 ==> !AnyAsk(rows)
      {
        var row: Row := *;
        ghost var longer := rows + [row];
        assert longer[..|longer| - 1] == rows;
        if (row.deadline.Some? ==> row.deadline.value <= latest) && (asks == 0 ==> !row.askOpen) {
          rows := rows + [row];
        }
      }
      if AnyAsk(rows) {
        asks := asks - 1;
      }
      read := read + [rows];
      r := Ok(rows);
    }

    method Sleep(secs: int)
      modifies this`clock
      ensures clock == old(clock) + Max(secs, 0)
    {
      clock := clock + Max(secs, 0);
    }

    method Sweep(deadlineSecs: int) returns (r: Result<()>)
      modifies this`sweeps
      ensures sweeps == old(sweeps) + 1
    {
      sweeps := sweeps + 1;
      if * {
        return Err("not swept");
      }
      r := Ok(());
    }
  }

  /** What a final row comes to: its outcome, or unsure when the machine never settled it. */
  ghost predicate FailureOf(r: Row, f: Mender.Failure) {
    && f.suite == r.suite && f.members == []
    && (OutcomeOf(r.state).Some? ==> f.outcome == OutcomeOf(r.state).value && f.diagnosis == r.diagnosis)
    && (OutcomeOf(r.state).None? ==> f.outcome == Mender.Unsure)
  }

  method Settle(rows: seq<Row>) returns (failures: seq<Mender.Failure>)
    ensures |failures| == |rows| && forall i :: 0 <= i < |rows| ==> FailureOf(rows[i], failures[i])
  {
    failures := [];
    for i := 0 to |rows|
      invariant |failures| == i && forall k :: 0 <= k < i ==> FailureOf(rows[k], failures[k])
    {
      var o := OutcomeOf(rows[i].state);
      failures := failures + [
        if o.Some? then Mender.Failure(rows[i].suite, o.value, rows[i].diagnosis, [])
        else Mender.Failure(rows[i].suite, Mender.Unsure, "no mender outcome by the last deadline", [])];
    }
  }

  /** The ceiling of a wait: the first cap, raised by every deadline read since. */
  ghost function Ceiling(cap: int, read: seq<seq<Row>>): (t: int)
    ensures t >= cap
  {
    if read == [] then cap else Raised(Ceiling(cap, read[..|read| - 1]), read[|read| - 1])
  }

  lemma RaisedUpTo(bound: int, rows: seq<Row>, latest: int)
    requires Raised(latest, rows) == latest
    ensures Raised(bound, rows) <= Max(bound, latest)
  {
  }

  /** How long a wait may last, for what it has read: the first cap, raised by every deadline of a
      mender under way read since. */
  ghost function Bound(readings: seq<seq<Row>>, start: int, deadlineSecs: int): (t: int) {
    if readings == [] then start else Ceiling(Cap(readings[0], start, deadlineSecs), readings[1..])
  }

  lemma BoundMore(readings: seq<seq<Row>>, rows: seq<Row>, start: int, deadlineSecs: int)
    requires readings != []
    ensures Bound(readings + [rows], start, deadlineSecs) == Raised(Bound(readings, start, deadlineSecs), rows)
  {
    var longer := readings + [rows];
    assert longer[1..] == readings[1..] + [rows];
    assert longer[1..][..|longer[1..]| - 1] == readings[1..];
  }

  /** Asks the machine to sweep, then reads the rows again. */
  method SweepAndRead(m: Menders, deadlineSecs: int) returns (r: Result<seq<Row>>)
    modifies m
    ensures m.clock == old(m.clock) && m.sweeps == old(m.sweeps) + 1
    ensures m.read == old(m.read) + if r.Ok? then [r.value] else []
    ensures m.asks <= old(m.asks) && (r.Ok? && AnyAsk(r.value) ==> m.asks < old(m.asks))
  {
    var swept := m.Sweep(deadlineSecs);
    if swept.Err? {
      return Err(swept.error);
    }
    r := m.Rows();
  }

  /** Sleeps until the next look, no further than the ceiling, and reads the rows again. */
  method SleepAndRead(m: Menders, ceiling: int) returns (r: Result<seq<Row>>)
    requires m.clock < ceiling
    modifies m
    ensures old(m.clock) < m.clock <= ceiling && m.sweeps == old(m.sweeps)
    ensures m.read == old(m.read) + if r.Ok? then [r.value] else []
    ensures m.asks <= old(m.asks) && (r.Ok? && AnyAsk(r.value) ==> m.asks < old(m.asks))
    ensures r.Ok? ==> Raised(m.latest, r.value) == m.latest
  {
    m.Sleep(if POLL_SECS <= ceiling - m.clock then POLL_SECS else ceiling - m.clock);
    r := m.Rows();
  }

  /** What the waiting keeps: how much has been read, and while no ask is open, that it is in time. */
  ghost predicate InTime(m: Menders, start: int, sweeps: nat, readings: seq<seq<Row>>, ceiling: int, deadlineSecs: int)
    reads m
  {
    && m.asks == 0 && m.sweeps == sweeps && readings != [] && !AnyAsk(readings[|readings| - 1])
    && ceiling == Bound(readings, start, deadlineSecs)
    && m.clock <= Max(start, ceiling)
  }

  /** One more reading, of these rows. */
  ghost predicate ReadOn(readings0: seq<seq<Row>>, readings: seq<seq<Row>>, rows: seq<Row>) {
    readings0 != [] && readings == readings0 + [rows]
  }

  /** A turn with an ask open: the answer gets a full deadline from now. */
  method AskTurn(m: Menders, ceiling0: int, deadlineSecs: int, ghost readings0: seq<seq<Row>>)
    returns (r: Result<seq<Row>>, ceiling: int, ghost readings: seq<seq<Row>>)
    requires readings0 != []
    modifies m
    ensures r.Ok? ==> ReadOn(readings0, readings, r.value) && m.read == old(m.read) + [r.value]
    ensures r.Err? ==> readings == readings0 && m.read == old(m.read)
    ensures m.asks <= old(m.asks) && (r.Ok? && AnyAsk(r.value) ==> m.asks < old(m.asks))
  {
    readings, ceiling := readings0, ceiling0;
    m.Sleep(POLL_SECS);
    r := SweepAndRead(m, deadlineSecs);
    if r.Ok? {
      readings := readings0 + [r.value];
      ceiling := Max(ceiling, m.clock + deadlineSecs);
    }
  }

  /** The last turn: the ceiling is reached, the machine sweeps, and what it says is final. */
  method LastTurn(m: Menders, ceiling: int, deadlineSecs: int, ghost start: int, ghost readings0: seq<seq<Row>>)
    returns (r: Result<seq<Row>>, ghost readings: seq<seq<Row>>)
    requires readings0 != []
    modifies m
    ensures r.Ok? ==> ReadOn(readings0, readings, r.value) && m.read == old(m.read) + [r.value]
    ensures r.Err? ==> readings == readings0 && m.read == old(m.read)
    ensures m.sweeps == old(m.sweeps) + 1 && m.clock == old(m.clock)
    ensures Bound(readings, start, deadlineSecs) >= Bound(readings0, start, deadlineSecs)
  {
    readings := readings0;
    r := SweepAndRead(m, deadlineSecs);
    if r.Ok? {
      BoundMore(readings0, r.value, start, deadlineSecs);
      readings := readings0 + [r.value];
    }
  }

  /** A turn in between: sleep, look again, and raise the ceiling to what is read. */
  method SleepTurn(m: Menders, ceiling0: int, deadlineSecs: int, ghost start: int, ghost readings0: seq<seq<Row>>)
    returns (r: Result<seq<Row>>, ceiling: int, ghost readings: seq<seq<Row>>)
    requires readings0 != [] && m.clock < ceiling0
    modifies m
    ensures r.Ok? ==> ReadOn(readings0, readings, r.value) && m.read == old(m.read) + [r.value]
    ensures r.Err? ==> readings == readings0 && m.read == old(m.read)
    ensures old(m.clock) < m.clock <= ceiling0 <= ceiling <= Max(ceiling0, m.latest) && m.sweeps == old(m.sweeps)
    ensures m.asks <= old(m.asks) && (r.Ok? && AnyAsk(r.value) ==> m.asks < old(m.asks))
    ensures ceiling0 == Bound(readings0, start, deadlineSecs) ==> ceiling == Bound(readings, start, deadlineSecs)
  {
    readings, ceiling := readings0, ceiling0;
    r := SleepAndRead(m, ceiling0);
    if r.Ok? {
      RaisedUpTo(ceiling0, r.value, m.latest);
      BoundMore(readings0, r.value, start, deadlineSecs);
      readings, ceiling := readings0 + [r.value], Raised(ceiling0, r.value);
    }
  }

  lemma ReadMore(read0: seq<seq<Row>>, read: seq<seq<Row>>, readings0: seq<seq<Row>>, readings: seq<seq<Row>>,
                 rows: seq<Row>)
    requires ReadOn(readings0, readings, rows) && read == read0 + readings0[1..]
    ensures read + [rows] == read0 + readings[1..] && readings[0] == readings0[0] && readings[|readings| - 1] == rows
  {
  }

  /** The waiting itself: every reading but the first. */
  method WaitOn(m: Menders, deadlineSecs: int, rows0: seq<Row>, ghost start: int)
    returns (r: Result<seq<Row>>, ghost readings: seq<seq<Row>>)
    requires m.clock == start
    modifies m
    ensures readings != [] && readings[0] == rows0 && m.read == old(m.read) + readings[1..]
    ensures r.Ok? ==> r.value == readings[|readings| - 1]
    ensures old(m.asks) == 0 && !AnyAsk(rows0) ==> m.sweeps <= old(m.sweeps) + 1
    ensures old(m.asks) == 0 && !AnyAsk(rows0) ==> m.clock <= Max(start, Bound(readings, start, deadlineSecs))
  {
    var rows := rows0;
    readings := [rows];
    var ceiling := Cap(rows, m.clock, deadlineSecs);
    ghost var quiet := m.asks == 0 && !AnyAsk(rows0);
    ghost var read0 := m.read;
    assert readings[1..] == [];
    while AnyLive(rows)
      invariant readings != [] && readings[0] == rows0 && m.read == read0 + readings[1..]
      invariant readings[|readings| - 1] == rows
      invariant quiet ==> InTime(m, start, old(m.sweeps), readings, ceiling, deadlineSecs)
      decreases m.asks + (if AnyAsk(rows) then 1 else 0), Max(ceiling, m.latest) - m.clock
    {
      ghost var before, read := readings, m.read;
      if AnyAsk(rows) {
        r, ceiling, readings := AskTurn(m, ceiling, deadlineSecs, readings);
      } else if m.clock >= ceiling {
        r, readings := LastTurn(m, ceiling, deadlineSecs, start, readings);
        if r.Ok? {
          ReadMore(read0, read, before, readings, r.value);
        }
        return;
      } else {
        r, ceiling, readings := SleepTurn(m, ceiling, deadlineSecs, start, readings);
      }
      if r.Err? {
        return;
      }
      ReadMore(read0, read, before, readings, r.value);
      rows := r.value;
    }
    r := Ok(rows);
  }

  /** Waits until every row is settled or the ceiling is reached. Without an open ask the wait is
      over by its ceiling, which only deadlines it read can raise, and sweeps at most once,
      whatever the machine answers. */
  method Wait(m: Menders, deadlineSecs: int) returns (r: Result<seq<Mender.Failure>>, ghost readings: seq<seq<Row>>)
    modifies m
    ensures m.read == old(m.read) + readings
    ensures r.Ok? ==> readings != []
    ensures r.Ok? ==>
              && |r.value| == |readings[|readings| - 1]|
              && forall i :: 0 <= i < |r.value| ==> FailureOf(readings[|readings| - 1][i], r.value[i])
    ensures old(m.asks) == 0 ==> m.sweeps <= old(m.sweeps) + 1
    ensures old(m.asks) == 0 ==> m.clock <= Max(old(m.clock), Bound(readings, old(m.clock), deadlineSecs))
  {
    readings := [];
    var polled := m.Rows();
    if polled.Err? {
      return Err(polled.error), readings;
    }
    var final;
    final, readings := WaitOn(m, deadlineSecs, polled.value, m.clock);
    assert readings == [readings[0]] + readings[1..];
    if final.Err? {
      return Err(final.error), readings;
    }
    var failures := Settle(final.value);
    r := Ok(failures);
  }
}
