// The pace state as kept on disk (batcher-cut/src/pace.rs, Files): one `key=value` line per
// field, and the pass that reads it, acts and writes it back.

module PaceFiles {
  import opened Prelude
  import opened Decimals
  import opened Pace

  // ----- lines -----------------------------------------------------------------------------

  function BreakAt(text: string): (i: nat)
    ensures i <= |text| && '\n' !in text[..i] && (i < |text| ==> text[i] == '\n')
  {
    if text == [] || text[0] == '\n' then 0
    else
      var i := BreakAt(text[1..]) + 1;
      assert text[..i] == [text[0]] + text[1..][..i - 1];
      i
  }

  function StripCr(line: string): (r: string) {
    if line != [] && line[|line| - 1] == '\r' then line[..|line| - 1] else line
  }

  /** The lines of a text, each without its line break; a last empty one is none. */
  function Lines(text: string): (r: seq<string>)
    decreases |text|
  {
    if text == [] then []
    else
      var i := BreakAt(text);
      if i == |text| then [text] else [StripCr(text[..i])] + Lines(text[i + 1..])
  }

  function SplitOnce(line: string): (r: Option<(string, string)>) {
    if line == [] then None
    else if line[0] == '=' then Some(([], line[1..]))
    else
      var r := SplitOnce(line[1..]);
      if r.None? then None else Some(([line[0]] + r.value.0, r.value.1))
  }

  /** The last value given for each key. */
  function KeyValues(lines: seq<string>): (kv: map<string, string>) {
    if lines == [] then map[]
    else
      var before := KeyValues(lines[..|lines| - 1]);
      var r := SplitOnce(lines[|lines| - 1]);
      if r.None? then before else before[r.value.0 := r.value.1]
  }

  function Number(kv: map<string, string>, key: string): (n: nat) {
    if key !in kv then 0
    else
      var v := ParseInt(kv[key]);
      if v.Some? && v.value >= 0 then v.value else 0
  }

  function Text(kv: map<string, string>, key: string): (s: string) {
    if key in kv then kv[key] else ""
  }

  function Load(text: string): (st: PaceState) {
    var kv := KeyValues(Lines(text));
    PaceState(Number(kv, "infra"), Number(kv, "backoff_until"), Text(kv, "paged_open"), Text(kv, "orphan"),
              Number(kv, "orphan_since"), Text(kv, "redriven"))
  }

  function LineOf(key: string, value: string): (s: string) {
    key + ("=" + value)
  }

  function Joined(lines: seq<string>): (s: string) {
    if lines == [] then [] else lines[0] + ("\n" + Joined(lines[1..]))
  }

  function SavedLines(st: PaceState): (r: seq<string>) {
    [LineOf("infra", Decimal(st.infra)), LineOf("backoff_until", Decimal(st.backoffUntil)),
     LineOf("paged_open", st.pagedOpen), LineOf("orphan", st.orphan),
     LineOf("orphan_since", Decimal(st.orphanSince)), LineOf("redriven", st.redriven)]
  }

  function Save(st: PaceState): (text: string) {
    Joined(SavedLines(st))
  }

  // ----- what is saved is loaded -----------------------------------------------------------

  lemma {:induction false} BreakIs(text: string, n: nat)
    requires n < |text| && text[n] == '\n' && forall k :: 0 <= k < n ==> text[k] != '\n'
    ensures BreakAt(text) == n
  {
    if n > 0 {
      BreakIs(text[1..], n - 1);
    }
  }

  lemma LinesFirst(a: string, rest: string)
    requires '\n' !in a
    ensures Lines(a + ("\n" + rest)) == [StripCr(a)] + Lines(rest)
  {
    var text := a + ("\n" + rest);
    forall k | 0 <= k < |a| ensures text[k] != '\n' {
      assert text[k] == a[k];
    }
    BreakIs(text, |a|);
    assert text[..|a|] == a && text[|a| + 1..] == rest;
  }

  function Stripped(lines: seq<string>): (r: seq<string>) {
    if lines == [] then [] else [StripCr(lines[0])] + Stripped(lines[1..])
  }

  lemma {:induction false} LinesOfJoined(lines: seq<string>)
    requires forall l :: l in lines ==> '\n' !in l
    ensures Lines(Joined(lines)) == Stripped(lines)
  {
    if lines != [] {
      assert forall l :: l in lines[1..] ==> l in lines;
      LinesOfJoined(lines[1..]);
      LinesFirst(lines[0], Joined(lines[1..]));
    }
  }

  lemma {:induction false} SplitsAt(key: string, value: string)
    requires '=' !in key
    ensures SplitOnce(LineOf(key, value)) == Some((key, value))
  {
    var line := LineOf(key, value);
    if key == [] {
      assert line == "=" + value && line[1..] == value;
    } else {
      assert line[1..] == LineOf(key[1..], value);
      SplitsAt(key[1..], value);
      assert key == [key[0]] + key[1..];
    }
  }

  lemma StripsValue(key: string, value: string)
    ensures StripCr(LineOf(key, value)) == LineOf(key, StripCr(value))
  {
    var line := LineOf(key, value);
    if value != [] {
      assert line[|line| - 1] == value[|value| - 1];
      assert line[..|line| - 1] == LineOf(key, value[..|value| - 1]);
    }
  }

  lemma KeyValuesMore(lines: seq<string>, key: string, value: string)
    requires '=' !in key
    ensures KeyValues(lines + [LineOf(key, value)]) == KeyValues(lines)[key := value]
  {
    var longer := lines + [LineOf(key, value)];
    assert longer[..|lines|] == lines;
    SplitsAt(key, value);
  }

  /** Six lines, each with its value less a carriage return at the end. */
  lemma SavedKeyValues(a: string, b: string, c: string, d: string, e: string, f: string)
    ensures
      KeyValues([LineOf("infra", a), LineOf("backoff_until", b), LineOf("paged_open", c), LineOf("orphan", d),
                 LineOf("orphan_since", e), LineOf("redriven", f)]) ==
      map["infra" := a, "backoff_until" := b, "paged_open" := c, "orphan" := d, "orphan_since" := e, "redriven" := f]
  {
    var l1 := [LineOf("infra", a)];
    var l2 := l1 + [LineOf("backoff_until", b)];
    var l3 := l2 + [LineOf("paged_open", c)];
    var l4 := l3 + [LineOf("orphan", d)];
    var l5 := l4 + [LineOf("orphan_since", e)];
    var l6 := l5 + [LineOf("redriven", f)];
    assert [] + [LineOf("infra", a)] == l1;
    KeyValuesMore([], "infra", a);
    assert KeyValues(l1) == map["infra" := a];
    KeyValuesMore(l1, "backoff_until", b);
    KeyValuesMore(l2, "paged_open", c);
    assert KeyValues(l3) == map["infra" := a, "backoff_until" := b, "paged_open" := c];
    KeyValuesMore(l3, "orphan", d);
    KeyValuesMore(l4, "orphan_since", e);
    KeyValuesMore(l5, "redriven", f);
    assert l6 == [LineOf("infra", a), LineOf("backoff_until", b), LineOf("paged_open", c), LineOf("orphan", d),
                  LineOf("orphan_since", e), LineOf("redriven", f)];
  }

  ghost predicate OneLine(st: PaceState) {
    '\n' !in st.pagedOpen && '\n' !in st.orphan && '\n' !in st.redriven
  }

  lemma NumberIs(kv: map<string, string>, key: string, n: nat)
    requires key in kv && kv[key] == Decimal(n)
    ensures Number(kv, key) == n
  {
    DecimalReads(n);
    assert IsDigit(Decimal(n)[0]);
  }

  lemma DecimalPlain(n: nat)
    ensures '\n' !in Decimal(n) && StripCr(Decimal(n)) == Decimal(n)
  {
    DecimalReads(n);
    var s := Decimal(n);
    assert IsDigit(s[|s| - 1]);
  }

  lemma SavedStripped(st: PaceState)
    ensures Stripped(SavedLines(st)) ==
            [LineOf("infra", Decimal(st.infra)), LineOf("backoff_until", Decimal(st.backoffUntil)),
             LineOf("paged_open", StripCr(st.pagedOpen)), LineOf("orphan", StripCr(st.orphan)),
             LineOf("orphan_since", Decimal(st.orphanSince)), LineOf("redriven", StripCr(st.redriven))]
  {
    DecimalPlain(st.infra);
    DecimalPlain(st.backoffUntil);
    DecimalPlain(st.orphanSince);
    StripsValue("infra", Decimal(st.infra));
    StripsValue("backoff_until", Decimal(st.backoffUntil));
    StripsValue("paged_open", st.pagedOpen);
    StripsValue("orphan", st.orphan);
    StripsValue("orphan_since", Decimal(st.orphanSince));
    StripsValue("redriven", st.redriven);
    StrippedSix(LineOf("infra", Decimal(st.infra)), LineOf("backoff_until", Decimal(st.backoffUntil)),
                LineOf("paged_open", st.pagedOpen), LineOf("orphan", st.orphan),
                LineOf("orphan_since", Decimal(st.orphanSince)), LineOf("redriven", st.redriven));
  }

  lemma StrippedSix(a: string, b: string, c: string, d: string, e: string, f: string)
    ensures Stripped([a, b, c, d, e, f]) == [StripCr(a), StripCr(b), StripCr(c), StripCr(d), StripCr(e), StripCr(f)]
  {
    assert [a, b, c, d, e, f][1..] == [b, c, d, e, f] && [b, c, d, e, f][1..] == [c, d, e, f];
    assert [c, d, e, f][1..] == [d, e, f] && [d, e, f][1..] == [e, f] && [e, f][1..] == [f] && [f][1..] == [];
    assert Stripped([f]) == [StripCr(f)];
    assert Stripped([e, f]) == [StripCr(e), StripCr(f)];
    assert Stripped([d, e, f]) == [StripCr(d), StripCr(e), StripCr(f)];
    assert Stripped([c, d, e, f]) == [StripCr(c), StripCr(d), StripCr(e), StripCr(f)];
  }

  lemma LinesPlain(st: PaceState)
    requires OneLine(st)
    ensures forall l :: l in SavedLines(st) ==> '\n' !in l
  {
    DecimalPlain(st.infra);
    DecimalPlain(st.backoffUntil);
    DecimalPlain(st.orphanSince);
  }

  /** With no line breaks in its fields, a state comes back less the carriage returns they end in. */
  lemma LoadsStripped(st: PaceState)
    requires OneLine(st)
    ensures Load(Save(st)) ==
            st.(pagedOpen := StripCr(st.pagedOpen), orphan := StripCr(st.orphan), redriven := StripCr(st.redriven))
  {
    LinesPlain(st);
    LinesOfJoined(SavedLines(st));
    SavedStripped(st);
    SavedKeyValues(Decimal(st.infra), Decimal(st.backoffUntil), StripCr(st.pagedOpen), StripCr(st.orphan),
                   Decimal(st.orphanSince), StripCr(st.redriven));
    var kv := KeyValues(Lines(Save(st)));
    NumberIs(kv, "infra", st.infra);
    NumberIs(kv, "backoff_until", st.backoffUntil);
    NumberIs(kv, "orphan_since", st.orphanSince);
  }

  lemma {:induction false} NoLineBreaks(text: string)
    ensures forall l :: l in Lines(text) ==> '\n' !in l
    decreases |text|
  {
    if text != [] && BreakAt(text) < |text| {
      NoLineBreaks(text[BreakAt(text) + 1..]);
    } else if text != [] {
      assert text[..|text|] == text;
    }
  }

  lemma {:induction false} SplitWithin(line: string)
    requires SplitOnce(line).Some? && '\n' !in line
    ensures '\n' !in SplitOnce(line).value.1
  {
    if line[0] != '=' {
      SplitWithin(line[1..]);
    }
  }

  lemma {:induction false} ValuesOneLine(lines: seq<string>)
    requires forall l :: l in lines ==> '\n' !in l
    ensures forall key :: key in KeyValues(lines) ==> '\n' !in KeyValues(lines)[key]
  {
    if lines != [] {
      assert lines == lines[..|lines| - 1] + [lines[|lines| - 1]];
      ValuesOneLine(lines[..|lines| - 1]);
      if SplitOnce(lines[|lines| - 1]).Some? {
        SplitWithin(lines[|lines| - 1]);
      }
    }
  }

  /** Nothing loaded has a line break in it. */
  lemma LoadedOneLine(text: string)
    ensures OneLine(Load(text))
  {
    NoLineBreaks(text);
    ValuesOneLine(Lines(text));
  }

  predicate Storable(s: string) {
    '\n' !in s && (s == "" || s[|s| - 1] != '\r')
  }

  /** A state survives being saved and loaded exactly when no field has a line break or ends in a
      carriage return. */
  lemma SurvivesIff(st: PaceState)
    ensures Load(Save(st)) == st <==> Storable(st.pagedOpen) && Storable(st.orphan) && Storable(st.redriven)
  {
    if OneLine(st) {
      LoadsStripped(st);
    } else {
      LoadedOneLine(Save(st));
    }
  }

  // ----- the pass --------------------------------------------------------------------------

  class Files {
    var st: PaceState
    var pauseFile: bool
    var stopFile: bool
    ghost var acts: seq<Act>

    ghost function Value(): (w: World)
      reads this
    {
      World(st, pauseFile, stopFile, acts)
    }

    constructor ()
      ensures Value() == Start
    {
      st, pauseFile, stopFile, acts := PaceState(0, 0, "", "", 0, ""), false, false, [];
    }

    /** One repo's paced cut. */
    method PacedCut(now: nat, wait: nat, view: View)
      modifies this
      ensures Value() == Paced(old(Value()), now, wait, view)
    {
      if HoldOf(pauseFile, stopFile, st, now).Some? {
        return;
      }
      if view.open.Some? {
        if view.driven {
          if st.orphan != "" {
            st := st.(orphan := "", orphanSince := 0);
          }
          return;
        }
        var id := view.open.value;
        var (next, step) := OrphanStep(st, id, now, wait, view.fit);
        match step {
          case Wait =>
          case Redrive =>
            acts := acts + [Redrove(now, id)];
          case Incident =>
            if next.pagedOpen != id && view.filed {
              next := next.(pagedOpen := id);
              acts := acts + [Filed(now, id)];
            }
        }
        st := next;
        return;
      }
      var outcome := Classify(view.error, view.verdict, now);
      acts := acts + [Cut(now, outcome)];
      var (next, fx) := Advance(st, outcome, now);
      if fx.pause {
        pauseFile := true;
      }
      if fx.stop {
        stopFile := true;
      }
      st := next;
    }
  }
}
