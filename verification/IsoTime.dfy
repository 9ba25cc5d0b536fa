// Epoch seconds printed in the format of section 5.6 of RFC 3339 and read back
// (bead/src/claimdesc.rs, iso_of and parse_iso).

module IsoTime {
  import opened Prelude
  import opened Decimals
  import opened Calendar

  // ----- the fields ------------------------------------------------------------------------

  /** `{:04}`: the sign counts towards the width. */
  function Year(y: int): (s: string) {
    if y < 0 then "-" + Padded(-y, 3) else Padded(y, 4)
  }

  lemma FieldReads(n: nat)
    requires n < 100
    ensures |Padded(n, 2)| == 2 && ParseInt(Padded(n, 2)) == Some(n)
  {
    DecimalWidth(n);
    PaddedReads(n, 2);
    assert IsDigit(Padded(n, 2)[0]);
  }

  lemma YearBefore(y: int)
    requires y < 0
    ensures ParseInt(Year(y)) == Some(y) && |Year(y)| == 1 + (if |Decimal(-y)| >= 3 then |Decimal(-y)| else 3)
  {
    PaddedReads(-y, 3);
    assert Year(y)[1..] == Padded(-y, 3);
  }

  lemma YearAfter(y: int)
    requires y >= 0
    ensures ParseInt(Year(y)) == Some(y) && |Year(y)| == if |Decimal(y)| >= 4 then |Decimal(y)| else 4
  {
    PaddedReads(y, 4);
    assert IsDigit(Padded(y, 4)[0]);
  }

  lemma YearReads(y: int)
    ensures ParseInt(Year(y)) == Some(y)
    ensures -999 <= y <= 9999 ==> |Year(y)| == 4
    ensures -99999 <= y <= 999999 && !(-999 <= y <= 9999) ==> 5 <= |Year(y)| <= 6
    ensures !(-99999 <= y <= 999999) ==> |Year(y)| >= 7
  {
    if y < 0 {
      YearBefore(y);
      DecimalWidth(-y);
    } else {
      YearAfter(y);
      DecimalWidth(y);
    }
  }

  // ----- printing --------------------------------------------------------------------------

  /** Date, time of day and what follows, one field after another. */
  function Layout(y: string, m: string, d: string, h: string, mi: string, sec: string, tail: string): (s: string) {
    y + ("-" + (m + ("-" + (d + ("T" + (h + (":" + (mi + (":" + (sec + tail))))))))))
  }

  /** An epoch second in UTC, with `tail` where the zone goes. */
  function Printed(epoch: int, tail: string): (s: string) {
    DayToDate(epoch / 86400);
    var date, secs := DateOf(epoch / 86400), epoch % 86400;
    Layout(Year(date.y), Padded(date.m, 2), Padded(date.d, 2),
           Padded(secs / 3600, 2), Padded(secs % 3600 / 60, 2), Padded(secs % 60, 2), tail)
  }

  function IsoOf(epoch: int): (s: string) {
    Printed(epoch, "Z")
  }

  // ----- reading ---------------------------------------------------------------------------

  /** The number in columns `a` up to `b`. */
  function Field(s: string, a: nat, b: nat): (r: Option<int>)
    requires a <= b
  {
    if b <= |s| then ParseInt(s[a..b]) else None
  }

  function SkipDigits(s: string): (r: string) {
    if s != [] && IsDigit(s[0]) then SkipDigits(s[1..]) else s
  }

  function SkipFraction(s: string): (r: string) {
    if s != [] && s[0] == '.' then SkipDigits(s[1..]) else s
  }

  /** Seconds east of UTC; none for a sign without hours behind it. */
  function Offset(rest: string): (r: Option<int>) {
    if rest == [] || (rest[0] != '+' && rest[0] != '-') then Some(0)
    else
      var hh := Field(rest, 1, 3);
      var mm := Field(rest, 4, 6);
      if hh.None? then None
      else
        var secs := hh.value * 3600 + (if mm.Some? then mm.value else 0) * 60;
        Some(if rest[0] == '+' then secs else -secs)
  }

  /** The date and the time of day in their columns, where each is a number. */
  function FieldsOf(s: string): (r: Option<(Date, int, int, int)>)
    ensures r.Some? ==> |s| >= 19
  {
    var y, m, d := Field(s, 0, 4), Field(s, 5, 7), Field(s, 8, 10);
    var hour, minute, second := Field(s, 11, 13), Field(s, 14, 16), Field(s, 17, 19);
    if y.None? || m.None? || d.None? || hour.None? || minute.None? || second.None? then None
    else Some((Date(y.value, m.value, d.value), hour.value, minute.value, second.value))
  }

  /** The second these fields name. */
  function Instant(fields: (Date, int, int, int)): (r: int) {
    DaysFromCivil(fields.0) * 86400 + fields.1 * 3600 + fields.2 * 60 + fields.3
  }

  function Less(epoch: int, off: Option<int>): (r: Option<int>) {
    if off.Some? then Some(epoch - off.value) else None
  }

  function ParseIso(text: string): (r: Option<int>) {
    var s := Trim(text);
    var fields := FieldsOf(s);
    if fields.None? then None
    else
      Less(Instant(fields.value), Offset(SkipFraction(s[19..])))
  }

  // ----- where the fields fall -------------------------------------------------------------

  /** `x` stands in `s` at `at`, and `rest` follows. */
  ghost predicate Holds(s: string, at: nat, x: string, rest: string) {
    at <= |s| && s[at..] == x + rest
  }

  lemma HoldsNext(s: string, at: nat, x: string, y: string, rest: string)
    requires Holds(s, at, x, y + rest)
    ensures Holds(s, at + |x|, y, rest)
    ensures at + |x| <= |s| && s[at..at + |x|] == x
  {
    assert s[at + |x|..] == s[at..][|x|..];
    assert s[at..at + |x|] == s[at..][..|x|];
  }

  /** Every field is where the width of the year puts it. */
  lemma LayoutAt(y: string, m: string, d: string, h: string, mi: string, sec: string, tail: string)
    requires |m| == 2 && |d| == 2 && |h| == 2 && |mi| == 2 && |sec| == 2
    ensures
      var s, w := Layout(y, m, d, h, mi, sec, tail), |y|;
      && |s| == w + 15 + |tail|
      && s[0..w] == y && s[w..w + 1] == "-" && s[w + 1..w + 3] == m && s[w + 3..w + 4] == "-" && s[w + 4..w + 6] == d
      && s[w + 6..w + 7] == "T" && s[w + 7..w + 9] == h && s[w + 9..w + 10] == ":" && s[w + 10..w + 12] == mi
      && s[w + 12..w + 13] == ":" && s[w + 13..w + 15] == sec && s[w + 15..] == tail
  {
    var s, w := Layout(y, m, d, h, mi, sec, tail), |y|;
    var r9 := sec + tail;
    var r8 := ":" + r9;
    var r7 := mi + r8;
    var r6 := ":" + r7;
    var r5 := h + r6;
    var r4 := "T" + r5;
    var r3 := d + r4;
    var r2 := "-" + r3;
    var r1 := m + r2;
    assert s[0..] == s && Holds(s, 0, y, "-" + r1);
    HoldsNext(s, 0, y, "-", r1);
    HoldsNext(s, w, "-", m, r2);
    HoldsNext(s, w + 1, m, "-", r3);
    HoldsNext(s, w + 3, "-", d, r4);
    HoldsNext(s, w + 4, d, "T", r5);
    HoldsNext(s, w + 6, "T", h, r6);
    HoldsNext(s, w + 7, h, ":", r7);
    HoldsNext(s, w + 9, ":", mi, r8);
    HoldsNext(s, w + 10, mi, ":", r9);
    HoldsNext(s, w + 12, ":", sec, tail);
    assert tail == tail + [];
    HoldsNext(s, w + 13, sec, tail, []);
  }

  /** What a printed time looks like to a reader who counts columns. */
  lemma PrintedAt(epoch: int, tail: string)
    ensures
      var s, date, secs := Printed(epoch, tail), DateOf(epoch / 86400), epoch % 86400;
      var w := |Year(date.y)|;
      && |s| == w + 15 + |tail| && s[0..w] == Year(date.y) && s[w + 6..w + 7] == "T" && s[w + 15..] == tail
      && s[w + 9..w + 10] == ":" && s[w + 12..w + 13] == ":"
      && Field(s, w + 1, w + 3) == Some(date.m) && Field(s, w + 4, w + 6) == Some(date.d)
      && Field(s, w + 7, w + 9) == Some(secs / 3600) && Field(s, w + 10, w + 12) == Some(secs % 3600 / 60)
      && Field(s, w + 13, w + 15) == Some(secs % 60) && IsDigit(s[w + 14])
  {
    var date, secs := DateOf(epoch / 86400), epoch % 86400;
    DayToDate(epoch / 86400);
    FieldReads(date.m);
    FieldReads(date.d);
    FieldReads(secs / 3600);
    FieldReads(secs % 3600 / 60);
    FieldReads(secs % 60);
    LayoutAt(Year(date.y), Padded(date.m, 2), Padded(date.d, 2),
             Padded(secs / 3600, 2), Padded(secs % 3600 / 60, 2), Padded(secs % 60, 2), tail);
    EndsInDigit(Printed(epoch, tail), |Year(date.y)| + 13, secs % 60);
  }

  lemma EndsInDigit(s: string, at: nat, n: nat)
    requires at + 2 <= |s| && n < 100 && s[at..at + 2] == Padded(n, 2)
    ensures IsDigit(s[at + 1])
  {
    PaddedReads(n, 2);
    assert s[at + 1] == s[at..at + 2][1];
  }

  // ----- what is printed is read back ------------------------------------------------------

  lemma TextEnds(epoch: int, tail: string)
    ensures
      var s := Printed(epoch, tail);
      |s| > |tail| && !IsSpace(s[0]) && !IsSpace(s[|s| - |tail| - 1]) && s[|s| - |tail|..] == tail
  {
    var s, y := Printed(epoch, tail), DateOf(epoch / 86400).y;
    var w := |Year(y)|;
    PrintedAt(epoch, tail);
    YearStarts(y);
    assert s[0] == s[0..w][0];
  }

  lemma NothingToTrim(s: string, tail: string)
    requires |s| > |tail| && !IsSpace(s[0]) && !IsSpace(s[|s| - |tail| - 1]) && s[|s| - |tail|..] == tail
    requires tail == [] || !IsSpace(tail[|tail| - 1])
    ensures Trim(s) == s
  {
    if tail != [] {
      assert s[|s| - 1] == s[|s| - |tail|..][|tail| - 1];
    }
  }

  /** No space at either end: nothing to trim. */
  lemma NoTrim(epoch: int, tail: string)
    requires tail == [] || !IsSpace(tail[|tail| - 1])
    ensures Trim(Printed(epoch, tail)) == Printed(epoch, tail)
  {
    TextEnds(epoch, tail);
    NothingToTrim(Printed(epoch, tail), tail);
  }

  lemma YearStarts(y: int)
    ensures Year(y) != [] && (Year(y)[0] == '-' || IsDigit(Year(y)[0]))
  {
    if y >= 0 {
      PaddedReads(y, 4);
    }
  }

  /** The columns of a four-character year. */
  lemma FourAt(epoch: int, tail: string)
    requires |Year(DateOf(epoch / 86400).y)| == 4
    ensures
      var s, date, secs := Printed(epoch, tail), DateOf(epoch / 86400), epoch % 86400;
      && s[0..4] == Year(date.y) && |s| == 19 + |tail| && s[19..] == tail
      && Field(s, 5, 7) == Some(date.m) && Field(s, 8, 10) == Some(date.d) && Field(s, 11, 13) == Some(secs / 3600)
      && Field(s, 14, 16) == Some(secs % 3600 / 60) && Field(s, 17, 19) == Some(secs % 60)
  {
    PrintedAt(epoch, tail);
  }

  lemma FieldsRead(s: string, date: Date, h: int, mi: int, sec: int)
    requires Field(s, 0, 4) == Some(date.y) && Field(s, 5, 7) == Some(date.m) && Field(s, 8, 10) == Some(date.d)
    requires Field(s, 11, 13) == Some(h) && Field(s, 14, 16) == Some(mi) && Field(s, 17, 19) == Some(sec)
    ensures FieldsOf(s) == Some((date, h, mi, sec))
  {
  }

  lemma FieldsAdd(s: string, fields: (Date, int, int, int))
    requires Trim(s) == s && FieldsOf(s) == Some(fields)
    ensures ParseIso(s) == Less(Instant(fields), Offset(SkipFraction(s[19..])))
  {
  }

  /** What the columns of a printed time should hold. */
  function FieldsAt(epoch: int): (r: (Date, int, int, int)) {
    (DateOf(epoch / 86400), epoch % 86400 / 3600, epoch % 86400 % 3600 / 60, epoch % 86400 % 60)
  }

  lemma InstantAt(epoch: int)
    ensures Instant(FieldsAt(epoch)) == epoch
  {
    DayToDate(epoch / 86400);
    SecondsSplit(epoch % 86400);
  }

  lemma FourFields(epoch: int, tail: string)
    requires -999 <= DateOf(epoch / 86400).y <= 9999
    ensures
      var s := Printed(epoch, tail);
      FieldsOf(s) == Some(FieldsAt(epoch)) && s[19..] == tail
  {
    YearReads(DateOf(epoch / 86400).y);
    FourAt(epoch, tail);
    var fields := FieldsAt(epoch);
    FieldsRead(Printed(epoch, tail), fields.0, fields.1, fields.2, fields.3);
  }

  /** A printed time with any zone behind it reads as that time less the zone's offset. */
  lemma TailReads(epoch: int, tail: string) returns (s: string)
    requires -999 <= DateOf(epoch / 86400).y <= 9999
    requires tail == [] || !IsSpace(tail[|tail| - 1])
    ensures s == Printed(epoch, tail) && ParseIso(s) == Less(epoch, Offset(SkipFraction(tail)))
  {
    s := Printed(epoch, tail);
    FourFields(epoch, tail);
    NoTrim(epoch, tail);
    FieldsAdd(s, FieldsAt(epoch));
    InstantAt(epoch);
  }

  lemma BySixty(q: int, r: int)
    requires 0 <= r < 60
    ensures (60 * q + r) % 60 == r
  {
  }

  lemma SecondsSplit(secs: int)
    ensures secs == secs / 3600 * 3600 + secs % 3600 / 60 * 60 + secs % 60
  {
    var h, rest := secs / 3600, secs % 3600;
    var m, s := rest / 60, rest % 60;
    assert secs == 3600 * h + rest && rest == 60 * m + s;
    assert secs == 60 * (60 * h + m) + s;
    BySixty(60 * h + m, s);
  }

  lemma {:induction false} FractionSkipped(digits: string, rest: string)
    requires AllDigits(digits) && (rest == [] || !IsDigit(rest[0]))
    ensures SkipDigits(digits + rest) == rest
  {
    if digits == [] {
      assert digits + rest == rest;
    } else {
      assert (digits + rest)[1..] == digits[1..] + rest;
      FractionSkipped(digits[1..], rest);
    }
  }

  lemma ZoneParse(sign: char, a: string, b: string, hh: int, mm: int)
    requires |a| == 2 && |b| == 2 && ParseInt(a) == Some(hh) && ParseInt(b) == Some(mm) && (sign == '+' || sign == '-')
    ensures
      var zone := [sign] + (a + (":" + b));
      |zone| == 6 && zone[5] == b[1]
          && Offset(zone) == Some(if sign == '+' then hh * 3600 + mm * 60 else -(hh * 3600 + mm * 60))
  {
    var zone := [sign] + (a + (":" + b));
    assert zone[1..3] == a && zone[4..6] == b;
  }

  lemma ZoneReads(east: bool, hh: nat, mm: nat)
    requires hh < 100 && mm < 100
    ensures
      var zone := (if east then "+" else "-") + (Padded(hh, 2) + (":" + Padded(mm, 2)));
      && |zone| == 6 && !IsDigit(zone[0]) && !IsSpace(zone[5])
      && Offset(zone) == Some(if east then hh * 3600 + mm * 60 else -(hh * 3600 + mm * 60))
  {
    FieldReads(hh);
    FieldReads(mm);
    PaddedReads(mm, 2);
    assert IsDigit(Padded(mm, 2)[1]);
    ZoneParse(if east then '+' else '-', Padded(hh, 2), Padded(mm, 2), hh, mm);
  }

  /** A fraction of a second and an offset in hours and minutes, read back together. */
  lemma OffsetReads(epoch: int, digits: string, east: bool, hh: nat, mm: nat) returns (s: string)
    requires -999 <= DateOf(epoch / 86400).y <= 9999 && AllDigits(digits) && hh < 100 && mm < 100
    ensures s == Printed(epoch,
                   "." + (digits + ((if east then "+" else "-") + (Padded(hh, 2) + (":" + Padded(mm, 2))))))
    ensures ParseIso(s) == Less(epoch, Some(if east then hh * 3600 + mm * 60 else -(hh * 3600 + mm * 60)))
  {
    var zone := (if east then "+" else "-") + (Padded(hh, 2) + (":" + Padded(mm, 2)));
    ZoneReads(east, hh, mm);
    FractionReads(digits, zone);
    s := TailReads(epoch, "." + (digits + zone));
  }

  lemma FractionReads(digits: string, zone: string)
    requires AllDigits(digits) && zone != [] && !IsDigit(zone[0]) && !IsSpace(zone[|zone| - 1])
    ensures
      var tail := "." + (digits + zone);
      SkipFraction(tail) == zone && !IsSpace(tail[|tail| - 1])
  {
    var tail := "." + (digits + zone);
    FractionSkipped(digits, zone);
    assert tail[1..] == digits + zone && tail[|tail| - 1] == zone[|zone| - 1];
  }

  // ----- exactly which years come back -----------------------------------------------------

  lemma {:induction false} ValueSmall(s: string)
    requires AllDigits(s)
    ensures |s| == 0 ==> ValueOf(s) == 0
    ensures |s| <= 1 ==> ValueOf(s) <= 9
    ensures |s| <= 2 ==> ValueOf(s) <= 99
    ensures |s| <= 3 ==> ValueOf(s) <= 999
    ensures |s| <= 4 ==> ValueOf(s) <= 9999
  {
    if s != [] {
      ValueSmall(s[..|s| - 1]);
    }
  }

  lemma FieldSmall(s: string, a: nat, b: nat)
    requires a <= b && Field(s, a, b).Some?
    ensures b - a <= 2 ==> -99 <= Field(s, a, b).value <= 99
    ensures b - a <= 4 ==> -9999 <= Field(s, a, b).value <= 9999
  {
    var x := s[a..b];
    var signed := x != [] && (x[0] == '+' || x[0] == '-');
    ValueSmall(if signed then x[1..] else x);
  }

  lemma DaysBounded(y: int, m: int, d: int)
    requires -9999 <= y <= 9999 && -99 <= m <= 99 && -99 <= d <= 99
    ensures -5000000 <= DaysFromCivil(Date(y, m, d)) <= 4000000
  {
    var t := if m <= 2 then y - 1 else y;
    By400(t / 400, t % 400);
    assert -25 <= t / 400 <= 24;
  }

  /** Whatever is read lies within four-digit years or so. */
  lemma ReadBounded(text: string)
    requires ParseIso(text).Some?
    ensures -500000000000 <= ParseIso(text).value <= 400000000000
  {
    var s := Trim(text);
    FieldSmall(s, 0, 4);
    FieldSmall(s, 5, 7);
    FieldSmall(s, 8, 10);
    FieldSmall(s, 11, 13);
    FieldSmall(s, 14, 16);
    FieldSmall(s, 17, 19);
    DaysBounded(Field(s, 0, 4).value, Field(s, 5, 7).value, Field(s, 8, 10).value);
    var rest := SkipFraction(s[19..]);
    if rest != [] && (rest[0] == '+' || rest[0] == '-') {
      FieldSmall(rest, 1, 3);
      if Field(rest, 4, 6).Some? {
        FieldSmall(rest, 4, 6);
      }
    }
  }

  lemma YearsFarApart(day: int)
    ensures DateOf(day).y >= 1000000 ==> day > 300000000
    ensures DateOf(day).y <= -100000 ==> day < -30000000
  {
    DayToDate(day);
    var date := DateOf(day);
    var t := if date.m <= 2 then date.y - 1 else date.y;
    By400(t / 400, t % 400);
  }

  lemma TPlace(epoch: int) returns (s: string, w: nat)
    ensures s == IsoOf(epoch) && w == |Year(DateOf(epoch / 86400).y)|
    ensures |s| == w + 16 && s[w + 6..w + 7] == "T"
  {
    var date, secs := DateOf(epoch / 86400), epoch % 86400;
    DayToDate(epoch / 86400);
    s, w := IsoOf(epoch), |Year(date.y)|;
    FieldReads(date.m);
    FieldReads(date.d);
    FieldReads(secs / 3600);
    FieldReads(secs % 3600 / 60);
    FieldReads(secs % 60);
    LayoutAt(Year(date.y), Padded(date.m, 2), Padded(date.d, 2),
             Padded(secs / 3600, 2), Padded(secs % 3600 / 60, 2), Padded(secs % 60, 2), "Z");
  }

  lemma WideText(epoch: int) returns (s: string, w: nat)
    ensures s == IsoOf(epoch) && w == |Year(DateOf(epoch / 86400).y)|
    ensures Trim(s) == s && |s| == w + 16 && s[w + 6] == 'T'
  {
    NoTrim(epoch, "Z");
    s, w := TPlace(epoch);
    assert s[w + 6] == s[w + 6..w + 7][0];
  }

  /** A reader that counts columns finds the "T" of a wider year where it looks for the hour. */
  lemma WideYear(epoch: int)
    requires 5 <= |Year(DateOf(epoch / 86400).y)| <= 6
    ensures ParseIso(IsoOf(epoch)).None?
  {
    var s, w := WideText(epoch);
    NoHour(s, w - 5);
  }

  lemma NoHour(s: string, i: nat)
    requires Trim(s) == s && i <= 1 && |s| >= 19 && s[11 + i] == 'T'
    ensures ParseIso(s).None?
  {
    assert s[11..13][i] == 'T';
    NotANumber(s[11..13], i);
  }

  lemma NotANumber(x: string, i: nat)
    requires i < |x| && !IsDigit(x[i]) && x[i] != '+' && x[i] != '-'
    ensures ParseInt(x).None?
  {
    var signed := x[0] == '+' || x[0] == '-';
    if signed {
      assert x[1..][i - 1] == x[i] && x[i] in x[1..];
    } else {
      assert x[i] in x;
    }
  }

  lemma FarYear(epoch: int)
    requires !(-99999 <= DateOf(epoch / 86400).y <= 999999)
    ensures ParseIso(IsoOf(epoch)) != Some(epoch)
  {
    YearsFarApart(epoch / 86400);
    var s := IsoOf(epoch);
    if ParseIso(s).Some? {
      ReadBounded(s);
    }
  }

  lemma NearYear(epoch: int) returns (s: string)
    requires -999 <= DateOf(epoch / 86400).y <= 9999
    ensures s == IsoOf(epoch) && ParseIso(s) == Some(epoch)
  {
    UtcLess(epoch);
    s := TailReads(epoch, "Z");
  }

  lemma UtcLess(epoch: int)
    ensures Less(epoch, Offset(SkipFraction("Z"))) == Some(epoch)
  {
    assert Offset(SkipFraction("Z")) == Some(0);
  }

  /** Printing is undone by reading exactly for the years -999 to 9999. */
  lemma ReadsBackIff(epoch: int)
    ensures ParseIso(IsoOf(epoch)) == Some(epoch) <==> -999 <= DateOf(epoch / 86400).y <= 9999
  {
    var y := DateOf(epoch / 86400).y;
    YearReads(y);
    if -999 <= y <= 9999 {
      var s := NearYear(epoch);
    } else if -99999 <= y <= 999999 {
      WideYear(epoch);
    } else {
      FarYear(epoch);
    }
  }
}
