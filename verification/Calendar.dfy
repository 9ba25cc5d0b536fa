// Day arithmetic on the proleptic Gregorian calendar, as the repository computes it in five
// places (bead/src/claimdesc.rs, bead/src/event.rs, archivist/src/run.rs, batcher-cut/src/io.rs),
// against the calendar itself: the month lengths and leap years of section 5.7 of RFC 3339.

module Calendar {

  // ----- the calendar ----------------------------------------------------------------------

  datatype Date = Date(y: int, m: int, d: int)

  predicate IsLeap(y: int) {
    y % 4 == 0 && (y % 100 != 0 || y % 400 == 0)
  }

  function DaysIn(y: int, m: int): (n: int) {
    if m == 2 then if IsLeap(y) then 29 else 28
    else if m == 4 || m == 6 || m == 9 || m == 11 then 30
    else 31
  }

  predicate IsDate(date: Date) {
    1 <= date.m <= 12 && 1 <= date.d <= DaysIn(date.y, date.m)
  }

  function NextDay(date: Date): (r: Date) {
    if date.d < DaysIn(date.y, date.m) then Date(date.y, date.m, date.d + 1)
    else if date.m < 12 then Date(date.y, date.m + 1, 1)
    else Date(date.y + 1, 1, 1)
  }

  // ----- the code --------------------------------------------------------------------------

  /** Division as Rust's `/` does it, towards zero. */
  function TruncDiv(a: int, b: int): (r: int)
    requires b > 0
  {
    if a >= 0 then a / b else -((-a) / b)
  }

  /** The part every copy shares: a day of an era, counted from 1 March, as a date of that era. */
  function DateInEra(era: int, doe: int): (r: Date) {
    var yoe := (doe - doe / 1460 + doe / 36524 - doe / 146096) / 365;
    var doy := doe - (365 * yoe + yoe / 4 - yoe / 100);
    var mp := (5 * doy + 2) / 153;
    var d := doy - (153 * mp + 2) / 5 + 1;
    var m := if mp < 10 then mp + 3 else mp - 9;
    Date(yoe + era * 400 + (if m <= 2 then 1 else 0), m, d)
  }

  /** claimdesc.rs and io.rs: floor division by the length of an era. */
  function DateOf(day: int): (r: Date) {
    var z := day + 719468;
    DateInEra(z / 146097, z % 146097)
  }

  /** event.rs and run.rs: truncating division, with negative days shifted first. */
  function CivilFromDays(day: int): (r: Date) {
    var z := day + 719468;
    var era := TruncDiv(if z >= 0 then z else z - 146096, 146097);
    DateInEra(era, z - era * 146097)
  }

  function DaysFromCivil(date: Date): (day: int) {
    var y := if date.m <= 2 then date.y - 1 else date.y;
    var era := y / 400;
    var yoe := y - era * 400;
    var doy := (153 * (if date.m > 2 then date.m - 3 else date.m + 9) + 2) / 5 + date.d - 1;
    era * 146097 + yoe * 365 + yoe / 4 - yoe / 100 + doy - 719468
  }

  // ----- the era in centuries, four-year cycles and years ----------------------------------

  /** A day of an era: century, four-year cycle, year and day of the year, each year from March. */
  datatype Spot = Spot(c: int, q: int, r: int, doy: int)

  /** The March years that end in a leap February. */
  predicate LongYear(c: int, q: int, r: int) {
    r == 3 && (q < 24 || c == 3)
  }

  predicate IsSpot(s: Spot) {
    && 0 <= s.c <= 3 && 0 <= s.q <= 24 && 0 <= s.r <= 3
    && 0 <= s.doy < (if LongYear(s.c, s.q, s.r) then 366 else 365)
  }

  function DayOfEra(s: Spot): (doe: int) {
    36524 * s.c + 1461 * s.q + 365 * s.r + s.doy
  }

  function YearOfEra(s: Spot): (yoe: int) {
    100 * s.c + 4 * s.q + s.r
  }

  lemma SpotOf(doe: int) returns (s: Spot)
    requires 0 <= doe < 146097
    ensures IsSpot(s) && DayOfEra(s) == doe
  {
    var c := if doe / 36524 > 3 then 3 else doe / 36524;
    var rest := doe - 36524 * c;
    assert 0 <= rest <= 36524 && (c < 3 ==> rest < 36524);
    var q := rest / 1461;
    assert 0 <= q <= 24;
    var left := rest - 1461 * q;
    assert 0 <= left < 1461 && (q == 24 && c < 3 ==> left < 1460);
    var r := if left / 365 > 3 then 3 else left / 365;
    s := Spot(c, q, r, left - 365 * r);
  }

  lemma SpotYear(s: Spot)
    requires IsSpot(s)
    ensures 0 <= YearOfEra(s) < 400
    ensures 365 * YearOfEra(s) + YearOfEra(s) / 4 - YearOfEra(s) / 100 + s.doy == DayOfEra(s)
    ensures 0 <= DayOfEra(s) < 146097
  {
    assert YearOfEra(s) / 4 == 25 * s.c + s.q;
    assert YearOfEra(s) / 100 == s.c;
  }

  /** The one division that finds the year, whatever the century and the leap days before it. */
  lemma SpotFound(s: Spot)
    requires IsSpot(s)
    ensures
      var doe := DayOfEra(s);
      (doe - doe / 1460 + doe / 36524 - doe / 146096) / 365 == YearOfEra(s)
  {
    var doe := DayOfEra(s);
    var over := 24 * s.c + s.q + 365 * s.r + s.doy;
    var carry := if over >= 1460 then 1 else 0;
    assert doe == 1460 * (25 * s.c + s.q) + over;
    assert doe / 1460 == 25 * s.c + s.q + carry;
    var last := if 1461 * s.q + 365 * s.r + s.doy == 36524 then 1 else 0;
    assert last == 1 ==> s.c == 3;
    assert doe / 36524 == s.c + last;
    assert doe / 146096 == last;
    assert 0 <= s.doy - carry < 365;
    assert doe - doe / 1460 + doe / 36524 - doe / 146096 == 365 * YearOfEra(s) + (s.doy - carry);
  }

  // ----- the year from March in months -----------------------------------------------------

  /** Days before month `mp` of a year that starts in March. */
  function MonthStart(mp: int): (n: int) {
    (153 * mp + 2) / 5
  }

  function MonthOf(mp: int): (m: int) {
    if mp < 10 then mp + 3 else mp - 9
  }

  lemma MonthFound(doy: int, mp: int)
    requires 0 <= mp <= 11 && MonthStart(mp) <= doy < MonthStart(mp + 1)
    ensures (5 * doy + 2) / 153 == mp
  {
    assert 5 * MonthStart(mp) <= 153 * mp + 2 < 5 * MonthStart(mp) + 5;
    assert 5 * MonthStart(mp + 1) <= 153 * (mp + 1) + 2;
  }

  lemma MonthIn(doy: int) returns (mp: int)
    requires 0 <= doy < 366
    ensures 0 <= mp <= 11 && MonthStart(mp) <= doy < MonthStart(mp + 1)
  {
    mp := (5 * doy + 2) / 153;
    assert 153 * mp <= 5 * doy + 2 < 153 * (mp + 1);
  }

  /** Every month but the last has the length the calendar gives it. */
  lemma MonthLength(y: int, mp: int)
    requires 0 <= mp <= 10
    ensures MonthStart(mp + 1) - MonthStart(mp) == DaysIn(y, MonthOf(mp))
  {
  }

  // ----- leap years ------------------------------------------------------------------------

  lemma By4(q: int, r: int)
    requires 0 <= r < 4
    ensures (4 * q + r) % 4 == r
  {
  }

  lemma By100(q: int, r: int)
    requires 0 <= r < 100
    ensures (100 * q + r) % 100 == r
  {
  }

  lemma By400(q: int, r: int)
    requires 0 <= r < 400
    ensures (400 * q + r) % 400 == r && (400 * q + r) / 400 == q
  {
  }

  lemma ByEra(q: int, r: int)
    requires 0 <= r < 146097
    ensures (146097 * q + r) % 146097 == r && (146097 * q + r) / 146097 == q
  {
  }

  /** Leap years repeat with every era. */
  lemma LeapRepeats(t: int, era: int)
    ensures IsLeap(t + era * 400) <==> IsLeap(t)
  {
    By4(t / 4 + 100 * era, t % 4);
    assert 4 * (t / 4 + 100 * era) + t % 4 == t + era * 400;
    By100(t / 100 + 4 * era, t % 100);
    assert 100 * (t / 100 + 4 * era) + t % 100 == t + era * 400;
    By400(t / 400 + era, t % 400);
    assert 400 * (t / 400 + era) + t % 400 == t + era * 400;
  }

  lemma LeapInEra(s: Spot)
    requires IsSpot(s)
    ensures LongYear(s.c, s.q, s.r) <==> IsLeap(YearOfEra(s) + 1)
  {
    var t := YearOfEra(s) + 1;
    if s.r < 3 {
      assert t == 4 * (25 * s.c + s.q) + (s.r + 1);
    } else if s.q < 24 {
      assert t == 4 * (25 * s.c + s.q + 1);
      assert t == 100 * s.c + 4 * (s.q + 1);
    } else {
      assert t == 100 * (s.c + 1);
    }
  }

  /** A March year is long exactly when the February it ends in is leap. */
  lemma LongIsLeap(era: int, s: Spot)
    requires IsSpot(s)
    ensures LongYear(s.c, s.q, s.r) <==> IsLeap(YearOfEra(s) + era * 400 + 1)
  {
    LeapInEra(s);
    LeapRepeats(YearOfEra(s) + 1, era);
  }

  // ----- a date is where the code puts it --------------------------------------------------

  /** The date of a spot in an era. */
  function DateAt(era: int, s: Spot, mp: int): (r: Date) {
    Date(YearOfEra(s) + era * 400 + (if MonthOf(mp) <= 2 then 1 else 0), MonthOf(mp), s.doy - MonthStart(mp) + 1)
  }

  lemma DateInEraIs(era: int, s: Spot, mp: int)
    requires IsSpot(s) && 0 <= mp <= 11 && MonthStart(mp) <= s.doy < MonthStart(mp + 1)
    ensures DateInEra(era, DayOfEra(s)) == DateAt(era, s, mp)
  {
    SpotFound(s);
    SpotYear(s);
    MonthFound(s.doy, mp);
  }

  lemma DateAtIsDate(era: int, s: Spot, mp: int)
    requires IsSpot(s) && 0 <= mp <= 11 && MonthStart(mp) <= s.doy < MonthStart(mp + 1)
    ensures IsDate(DateAt(era, s, mp))
  {
    LongIsLeap(era, s);
    if mp <= 10 {
      MonthLength(DateAt(era, s, mp).y, mp);
    }
  }

  lemma DateAtDays(era: int, s: Spot, mp: int)
    requires IsSpot(s) && 0 <= mp <= 11
    ensures DaysFromCivil(DateAt(era, s, mp)) == era * 146097 + DayOfEra(s) - 719468
  {
    SpotYear(s);
    var date := DateAt(era, s, mp);
    By400(era, YearOfEra(s));
    assert (if date.m <= 2 then date.y - 1 else date.y) == 400 * era + YearOfEra(s);
    assert (if date.m > 2 then date.m - 3 else date.m + 9) == mp;
  }

  /** The spot a date falls on. */
  lemma SpotOfDate(date: Date) returns (era: int, s: Spot, mp: int)
    requires IsDate(date)
    ensures IsSpot(s) && 0 <= mp <= 11 && MonthStart(mp) <= s.doy < MonthStart(mp + 1)
    ensures DateAt(era, s, mp) == date
  {
    var y := if date.m <= 2 then date.y - 1 else date.y;
    mp := if date.m > 2 then date.m - 3 else date.m + 9;
    era := y / 400;
    var yoe := y % 400;
    s := Spot(yoe / 100, yoe % 100 / 4, yoe % 4, MonthStart(mp) + date.d - 1);
    assert YearOfEra(s) == yoe;
    var first := Spot(s.c, s.q, s.r, 0);
    assert IsSpot(first) && YearOfEra(first) == yoe;
    LongIsLeap(era, first);
    if mp <= 10 {
      MonthLength(date.y, mp);
    }
  }

  lemma EraFloor(z: int)
    ensures TruncDiv(if z >= 0 then z else z - 146096, 146097) == z / 146097
  {
    if z < 0 {
      var k, rest := (146096 - z) / 146097, (146096 - z) % 146097;
      assert z == 146097 * -k + (146096 - rest);
      ByEra(-k, 146096 - rest);
    }
  }

  /** Both divisions find the same era: the copies agree on every day. */
  lemma CopiesAgree(day: int)
    ensures CivilFromDays(day) == DateOf(day)
  {
    var z := day + 719468;
    EraFloor(z);
    assert z - z / 146097 * 146097 == z % 146097;
  }

  lemma DateOfEra(day: int, era: int, doe: int)
    requires 0 <= doe < 146097 && day + 719468 == 146097 * era + doe
    ensures DateOf(day) == DateInEra(era, doe)
  {
    ByEra(era, doe);
  }

  /** A day is the date of its spot. */
  lemma DateOfSpot(day: int, era: int, s: Spot, mp: int)
    requires IsSpot(s) && 0 <= mp <= 11 && MonthStart(mp) <= s.doy < MonthStart(mp + 1)
    requires day == era * 146097 + DayOfEra(s) - 719468
    ensures DateOf(day) == DateAt(era, s, mp)
  {
    SpotYear(s);
    DateOfEra(day, era, DayOfEra(s));
    DateInEraIs(era, s, mp);
  }

  /** Every day is a date of the calendar, and the date leads back to it. */
  lemma DayToDate(day: int)
    ensures IsDate(DateOf(day)) && DaysFromCivil(DateOf(day)) == day
  {
    var era, doe := (day + 719468) / 146097, (day + 719468) % 146097;
    var s := SpotOf(doe);
    var mp := MonthIn(s.doy);
    DateOfSpot(day, era, s, mp);
    DateAtIsDate(era, s, mp);
    DateAtDays(era, s, mp);
  }

  /** Every date is the date of its day. */
  lemma DateToDay(date: Date)
    requires IsDate(date)
    ensures DateOf(DaysFromCivil(date)) == date
  {
    var era, s, mp := SpotOfDate(date);
    DateAtDays(era, s, mp);
    DateOfSpot(DaysFromCivil(date), era, s, mp);
  }

  /** The day after has the next date. */
  lemma DateOfDay(date: Date, day: int)
    requires IsDate(date) && DaysFromCivil(date) == day
    ensures DateOf(day) == date
  {
    DateToDay(date);
  }

  lemma DaysInOrder(day: int)
    ensures DateOf(day + 1) == NextDay(DateOf(day))
  {
    DayToDate(day);
    NextIsNext(DateOf(day));
    DateOfDay(NextDay(DateOf(day)), day + 1);
  }

  lemma NextIsNext(date: Date)
    requires IsDate(date)
    ensures IsDate(NextDay(date)) && DaysFromCivil(NextDay(date)) == DaysFromCivil(date) + 1
  {
    if date.d >= DaysIn(date.y, date.m) {
      if date.m == 2 {
        YearTurns(date.y);
      }
    }
  }

  /** From the last of February to the first of March: the last day of one March year and the
      first of the next. */
  lemma YearTurns(y: int)
    ensures DaysFromCivil(Date(y, 3, 1)) == DaysFromCivil(Date(y, 2, DaysIn(y, 2))) + 1
  {
    var era, s, mp := SpotOfDate(Date(y, 2, DaysIn(y, 2)));
    var era', s', mp' := SpotOfDate(Date(y, 3, 1));
    DateAtDays(era, s, mp);
    DateAtDays(era', s', mp');
    assert mp == 11 && mp' == 0 && s'.doy == 0;
    LongIsLeap(era, s);
    SpotYear(s);
    SpotYear(s');
    assert YearOfEra(s') + era' * 400 == YearOfEra(s) + era * 400 + 1;
    NextSpot(era, s, era', s');
  }

  lemma NextSpot(era: int, s: Spot, era': int, s': Spot)
    requires IsSpot(s) && IsSpot(s') && s'.doy == 0
    requires s.doy == (if LongYear(s.c, s.q, s.r) then 365 else 364)
    requires YearOfEra(s') + era' * 400 == YearOfEra(s) + era * 400 + 1
    ensures era' * 146097 + DayOfEra(s') == era * 146097 + DayOfEra(s) + 1
  {
    if YearOfEra(s) == 399 {
      assert era' == era + 1 && YearOfEra(s') == 0;
    } else {
      assert era' == era && YearOfEra(s') == YearOfEra(s) + 1;
    }
  }

  // ----- the only calendar -----------------------------------------------------------------

  lemma EpochDay()
    ensures DateOf(0) == Date(1970, 1, 1)
  {
    assert DaysFromCivil(Date(1970, 1, 1)) == 0;
    DateToDay(Date(1970, 1, 1));
  }

  /** Dates given to days: 1 January 1970 to day zero, and to each day after another the next date. */
  ghost predicate CountsDays(f: int -> Date) {
    && f(0) == Date(1970, 1, 1)
    && forall day :: IsDate(f(day)) && f(day + 1) == NextDay(f(day))
  }

  lemma {:induction false} CountsUp(f: int -> Date, day: nat)
    requires CountsDays(f)
    ensures f(day) == DateOf(day)
  {
    if day == 0 {
      EpochDay();
    } else {
      CountsUp(f, day - 1);
      DaysInOrder(day - 1);
      assert f(day - 1 + 1) == NextDay(f(day - 1));
    }
  }

  lemma DayBefore(date: Date, day: int)
    requires IsDate(date) && NextDay(date) == DateOf(day + 1)
    ensures date == DateOf(day)
  {
    var count := DaysFromCivil(date);
    NextIsNext(date);
    DayToDate(day + 1);
    assert count == day;
    DateToDay(date);
  }

  lemma {:induction false} CountsDown(f: int -> Date, days: nat)
    requires CountsDays(f)
    ensures f(0 - days) == DateOf(0 - days)
  {
    if days == 0 {
      EpochDay();
    } else {
      var day := 0 - days;
      CountsDown(f, days - 1);
      assert 0 - (days - 1) == day + 1 && f(day + 1) == NextDay(f(day));
      DayBefore(f(day), day);
    }
  }

  /** The code's dates are the only ones that start at the epoch and follow the calendar. */
  lemma OnlyCalendar(f: int -> Date)
    ensures CountsDays(f) <==> forall day :: f(day) == DateOf(day)
  {
    if CountsDays(f) {
      forall day ensures f(day) == DateOf(day) {
        if day >= 0 {
          CountsUp(f, day);
        } else {
          CountsDown(f, -day);
        }
      }
    } else if forall day :: f(day) == DateOf(day) {
      EpochDay();
      forall day ensures IsDate(f(day)) && f(day + 1) == NextDay(f(day)) {
        DayToDate(day);
        DaysInOrder(day);
      }
    }
  }
}
