// The event log's rate limiter (bead/src/event.rs, emit): a key called again within its
// cooldown is counted, not written, and the count rides out on its next row.

module RateLimit {
  import opened Prelude

  predicate IsSafe(c: char) {
    'a' <= c <= 'z' || 'A' <= c <= 'Z' || '0' <= c <= '9' || c == '.' || c == '_' || c == '@' || c == '-'
  }

  function Sanitized(s: string): (r: string)
    ensures |r| == |s| && forall i :: 0 <= i < |s| ==> r[i] == if IsSafe(s[i]) then s[i] else '_'
  {
    seq(|s|, i requires 0 <= i < |s| => if IsSafe(s[i]) then s[i] else '_')
  }

  /** The file name a kind and target are counted under. */
  function SanitizeKey(kind: string, target: string): (key: string) {
    Sanitized(kind + "@" + if target == "" then "plan" else target)
  }

  /** When the key last wrote a row, and how many calls it has held back since. */
  datatype Counter = Counter(last: int, held: nat)

  /** A row written: for whom, when, under which cooldown, and the held-back count it carries. */
  datatype Row = Row(key: string, at: int, cooldown: int, more: nat)

  /** The counter files, the log, and what pruning has thrown away of either. */
  datatype Log = Log(counters: map<string, Counter>, rows: seq<Row>, dropped: map<string, nat>)

  const Empty := Log(map[], [], map[])

  datatype Event = Called(key: string, cooldown: int, now: int) | Pruned(key: string)

  function CounterOf(log: Log, key: string): (c: Counter) {
    if key in log.counters then log.counters[key] else Counter(0, 0)
  }

  function DroppedOf(log: Log, key: string): (n: nat) {
    if key in log.dropped then log.dropped[key] else 0
  }

  predicate HeldBack(c: Counter, cooldown: int, now: int) {
    c.last > 0 && now - c.last < cooldown
  }

  function Call(log: Log, key: string, cooldown: int, now: int): (r: Log) {
    var c := CounterOf(log, key);
    if HeldBack(c, cooldown, now) then log.(counters := log.counters[key := Counter(c.last, c.held + 1)])
    else log.(counters := log.counters[key := Counter(now, 0)], rows := log.rows + [Row(key, now, cooldown, c.held)])
  }

  function Prune(log: Log, key: string): (r: Log) {
    log.(counters := log.counters - {key},
         dropped := log.dropped[key := DroppedOf(log, key) + CounterOf(log, key).held])
  }

  function Step(log: Log, e: Event): (r: Log) {
    match e
    case Called(key, cooldown, now) => Call(log, key, cooldown, now)
    case Pruned(key) => Prune(log, key)
  }

  function Run(events: seq<Event>): (r: Log) {
    if events == [] then Empty else Step(Run(events[..|events| - 1]), events[|events| - 1])
  }

  // ----- nothing is lost -------------------------------------------------------------------

  ghost function Calls(events: seq<Event>, key: string): (n: nat) {
    if events == [] then 0
    else
      var e := events[|events| - 1];
      Calls(events[..|events| - 1], key) + (if e.Called? && e.key == key then 1 else 0)
  }

  /** Rows of a key, each counting itself and the calls it carries. */
  ghost function Accounted(rows: seq<Row>, key: string): (n: nat) {
    if rows == [] then 0
    else
      var row := rows[|rows| - 1];
      Accounted(rows[..|rows| - 1], key) + (if row.key == key then 1 + row.more else 0)
  }

  /** Every call of a key is a row, rides on a row, is still held, or was pruned away. */
  lemma {:induction false} CallsConserved(events: seq<Event>, key: string)
    ensures
      var log := Run(events);
      Calls(events, key) == Accounted(log.rows, key) + CounterOf(log, key).held + DroppedOf(log, key)
  {
    if events != [] {
      var before, e := events[..|events| - 1], events[|events| - 1];
      CallsConserved(before, key);
      var log := Run(before);
      if e.Called? && !HeldBack(CounterOf(log, e.key), e.cooldown, e.now) {
        var rows := Run(events).rows;
        assert rows[..|rows| - 1] == log.rows;
      }
    }
  }

  /** The key was never pruned while calls were held back under it. */
  ghost predicate PrunedEmpty(events: seq<Event>, key: string) {
    forall i: nat :: i < |events| && events[i] == Pruned(key) ==> CounterOf(Run(events[..i]), key).held == 0
  }

  lemma PrunedEmptyMore(events: seq<Event>, e: Event, key: string)
    ensures PrunedEmpty(events + [e], key) <==>
              PrunedEmpty(events, key) && (e == Pruned(key) ==> CounterOf(Run(events), key).held == 0)
  {
    var longer := events + [e];
    assert longer[..|events|] == events;
    forall i: nat | i < |events| ensures longer[..i] == events[..i] && longer[i] == events[i] {
    }
    if PrunedEmpty(longer, key) {
      forall i: nat | i < |events| && events[i] == Pruned(key) ensures CounterOf(Run(events[..i]), key).held == 0 {
        assert longer[i] == Pruned(key);
      }
      if e == Pruned(key) {
        assert longer[|events|] == Pruned(key);
      }
    }
  }

  /** Pruning drops nothing exactly when it only ever takes a key that holds nothing. */
  lemma {:induction false} NoneDroppedIff(events: seq<Event>, key: string)
    ensures DroppedOf(Run(events), key) == 0 <==> PrunedEmpty(events, key)
  {
    if events != [] {
      var before, e := events[..|events| - 1], events[|events| - 1];
      assert events == before + [e];
      NoneDroppedIff(before, key);
      PrunedEmptyMore(before, e, key);
    }
  }

  /** So that is exactly when every call of the key is on a row or still held. */
  lemma NoneLostIff(events: seq<Event>, key: string)
    ensures
      var log := Run(events);
      Calls(events, key) == Accounted(log.rows, key) + CounterOf(log, key).held <==> PrunedEmpty(events, key)
  {
    CallsConserved(events, key);
    NoneDroppedIff(events, key);
  }

  // ----- rows keep their distance ----------------------------------------------------------

  /** The last row written for a key. */
  ghost function LastRow(rows: seq<Row>, key: string): (r: Option<Row>) {
    if rows == [] then None
    else if rows[|rows| - 1].key == key then Some(rows[|rows| - 1])
    else LastRow(rows[..|rows| - 1], key)
  }

  /** Each row of the key follows the one before it by at least its own cooldown. */
  ghost predicate Spaced(rows: seq<Row>, key: string) {
    rows != [] ==>
      var before, row := rows[..|rows| - 1], rows[|rows| - 1];
      && Spaced(before, key)
      && (row.key == key && LastRow(before, key).Some? && LastRow(before, key).value.at > 0 ==>
            row.at - LastRow(before, key).value.at >= row.cooldown)
  }

  /** Calls held back leave the window where the last row put it. */
  lemma {:induction false} WindowStands(events: seq<Event>, key: string)
    requires Pruned(key) !in events
    ensures
      var log := Run(events);
      && (key in log.counters <==> LastRow(log.rows, key).Some?)
      && (key in log.counters ==> log.counters[key].last == LastRow(log.rows, key).value.at)
  {
    if events != [] {
      var before, e := events[..|events| - 1], events[|events| - 1];
      assert events == before + [e];
      WindowStands(before, key);
      var log := Run(before);
      if e.Called? && !HeldBack(CounterOf(log, e.key), e.cooldown, e.now) {
        var rows := Run(events).rows;
        assert rows[..|rows| - 1] == log.rows;
      }
    }
  }

  /** While a key is not pruned, its rows after a positive clock are at least a cooldown apart. */
  lemma {:induction false} RowsSpaced(events: seq<Event>, key: string)
    requires Pruned(key) !in events
    ensures Spaced(Run(events).rows, key)
  {
    if events != [] {
      var before, e := events[..|events| - 1], events[|events| - 1];
      assert events == before + [e];
      RowsSpaced(before, key);
      WindowStands(before, key);
      var log := Run(before);
      if e.Called? && !HeldBack(CounterOf(log, e.key), e.cooldown, e.now) {
        var rows := Run(events).rows;
        assert rows[..|rows| - 1] == log.rows;
      }
    }
  }

  /** Pruning a key that still holds calls loses them: two calls, one row, nothing held. */
  lemma PruningLoses()
    ensures
      var events := [Called("k", 60, 100), Called("k", 60, 110), Pruned("k")];
      Calls(events, "k") == 2 && Accounted(Run(events).rows, "k") == 1 && CounterOf(Run(events), "k").held == 0
  {
    var events := [Called("k", 60, 100), Called("k", 60, 110), Pruned("k")];
    assert events[..2][..1] == [events[0]] && events[..1][..0] == [];
    assert Run(events[..1]) == Call(Empty, "k", 60, 100);
    var one := Run(events[..1]);
    assert one.rows == [Row("k", 100, 60, 0)] && one.counters == map["k" := Counter(100, 0)];
    assert Run(events[..2]).counters == map["k" := Counter(100, 1)];
    assert one.rows[..0] == [];
    assert Accounted([], "k") == 0;
    assert Accounted(one.rows, "k") == 1;
    assert Calls(events[..1], "k") == 1 && Calls(events[..2], "k") == 2;
  }

  // ----- the files -------------------------------------------------------------------------

  class EventLog {
    var counters: map<string, Counter>
    var rows: seq<Row>
    ghost var dropped: map<string, nat>

    ghost function Value(): (log: Log)
      reads this
    {
      Log(counters, rows, dropped)
    }

    constructor ()
      ensures Value() == Empty
    {
      counters, rows, dropped := map[], [], map[];
    }

    /** Writes a row for the event, or counts it against the last one's cooldown. */
    method Emit(cooldown: int, now: int, kind: string, target0: string, title: string) returns (r: Result<()>)
      modifies this
      ensures r.Ok? <==> kind != "" && title != ""
      ensures
        var key := SanitizeKey(kind, if target0 == "-" then "" else target0);
        Value() == if r.Ok? then Call(old(Value()), key, cooldown, now) else old(Value())
    {
      if kind == "" || title == "" {
        return Err("an event needs a kind and a title");
      }
      var target := if target0 == "-" then "" else target0;
      var key := SanitizeKey(kind, target);
      var last, held := 0, 0;
      if key in counters {
        last, held := counters[key].last, counters[key].held;
      }
      if last > 0 && now - last < cooldown {
        counters := counters[key := Counter(last, held + 1)];
        return Ok(());
      }
      counters := counters[key := Counter(now, 0)];
      rows := rows + [Row(key, now, cooldown, held)];
      r := Ok(());
    }

    /** A counter file past its age goes, with whatever it held. */
    method Forget(key: string)
      modifies this
      ensures Value() == Prune(old(Value()), key)
    {
      dropped := dropped[key := DroppedOf(Value(), key) + CounterOf(Value(), key).held];
      counters := counters - {key};
    }
  }
}
