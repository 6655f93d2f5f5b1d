/**
 The reset countdowns (admin/src/dashboard.ts, `nextDayResetMs`, `nextWeekResetMs`, `nextMonthResetMs`) over the calendar
 of section 21.4.1 of ECMA-262. Times are integral milliseconds since the epoch; None is NaN.
 */
module Calendar {
  import opened Wrappers

  const MS_PER_DAY := 86400000

  /** The largest time value, 100,000,000 days from the epoch either way. */
  const MAX_TIME := 8640000000000000

  predicate IsTime(t: int) {
    -MAX_TIME <= t <= MAX_TIME
  }

  function Day(t: int): int {
    t / MS_PER_DAY
  }

  /** 1970-01-01 was a Thursday; Sunday is 0. */
  function WeekDay(d: int): int {
    (d + 4) % 7
  }

  predicate Leap(y: int) {
    (y % 4 == 0 && y % 100 != 0) || y % 400 == 0
  }

  function DayFromYear(y: int): int {
    365 * (y - 1970) + (y - 1969) / 4 - (y - 1901) / 100 + (y - 1601) / 400
  }

  lemma YearLength(y: int)
    ensures DayFromYear(y + 1) - DayFromYear(y) == if Leap(y) then 366 else 365
  {
    FourthYears(y);
    Centuries(y);
    FourthCenturies(y);
  }

  // A quotient grows by one at the multiples.

  lemma FourthYears(y: int)
    ensures (y - 1968) / 4 == (y - 1969) / 4 + (if y % 4 == 0 then 1 else 0)
  {
  }

  lemma Centuries(y: int)
    ensures (y - 1900) / 100 == (y - 1901) / 100 + (if y % 100 == 0 then 1 else 0)
    ensures y % 100 == 0 ==> y % 4 == 0
  {
  }

  lemma FourthCenturies(y: int)
    ensures (y - 1600) / 400 == (y - 1601) / 400 + (if y % 400 == 0 then 1 else 0)
    ensures y % 400 == 0 ==> y % 100 == 0
  {
  }

  function YearFrom(d: int, y: int): (r: int)
    ensures DayFromYear(r) <= d < DayFromYear(r + 1)
    decreases if DayFromYear(y) > d then DayFromYear(y) - d else d - DayFromYear(y)
  {
    YearLength(y);
    YearLength(y - 1);
    if DayFromYear(y) > d then Earlier(d, y - 1)
    else if DayFromYear(y + 1) <= d then YearFrom(d, y + 1)
    else y
  }

  function Earlier(d: int, y: int): (r: int)
    requires d < DayFromYear(y + 1)
    ensures DayFromYear(r) <= d < DayFromYear(r + 1)
    decreases if DayFromYear(y) > d then DayFromYear(y) - d else 0
  {
    YearLength(y - 1);
    if DayFromYear(y) > d then Earlier(d, y - 1) else y
  }

  function YearOf(d: int): (r: int)
    ensures DayFromYear(r) <= d < DayFromYear(r + 1)
  {
    YearFrom(d, 1970)
  }

  /** The days of a year before each month. */
  function Before(leap: bool, m: int): int
    requires 0 <= m <= 12
  {
    var l := if leap then 1 else 0;
    if m == 0 then 0 else if m == 1 then 31 else if m == 2 then 59 + l else if m == 3 then 90 + l
    else if m == 4 then 120 + l else if m == 5 then 151 + l else if m == 6 then 181 + l else if m == 7 then 212 + l
    else if m == 8 then 243 + l else if m == 9 then 273 + l else if m == 10 then 304 + l else if m == 11 then 334 + l
    else 365 + l
  }

  function MonthFrom(leap: bool, n: int, m: int): (r: int)
    requires 0 <= m <= 11 && Before(leap, m) <= n < Before(leap, 12)
    ensures 0 <= r <= 11 && Before(leap, r) <= n < Before(leap, r + 1)
    decreases 12 - m
  {
    if m == 11 || n < Before(leap, m + 1) then m else MonthFrom(leap, n, m + 1)
  }

  /** The days of its year before a day. */
  function DayInYear(d: int): (n: int)
    ensures 0 <= n < Before(Leap(YearOf(d)), 12)
  {
    InItsYear(d);
    d - DayFromYear(YearOf(d))
  }

  lemma InItsYear(d: int)
    ensures 0 <= d - DayFromYear(YearOf(d)) < Before(Leap(YearOf(d)), 12)
  {
    YearLength(YearOf(d));
    hide DayFromYear;
  }

  /** The month of a day, January being 0. */
  function MonthOf(d: int): (m: int)
    ensures 0 <= m <= 11
    ensures Before(Leap(YearOf(d)), m) <= DayInYear(d) < Before(Leap(YearOf(d)), m + 1)
  {
    MonthFrom(Leap(YearOf(d)), DayInYear(d), 0)
  }

  function DateOf(d: int): (date: int)
    ensures 1 <= date <= 31
  {
    DayInYear(d) - Before(Leap(YearOf(d)), MonthOf(d)) + 1
  }

  /** The day of a year, month and date, any of which may run over. */
  function MakeDay(year: int, month: int, date: int): int {
    var y, m := year + month / 12, month % 12;
    DayFromYear(y) + Before(Leap(y), m) + date - 1
  }

  function TimeClip(t: int): Option<int> {
    if IsTime(t) then Some(t) else None
  }

  /** `Date.UTC`, which reads the years 0 to 99 as 1900 to 1999 (`MakeFullYear`). */
  function UTC(year: int, month: int, date: int): Option<int> {
    TimeClip(MakeDay(if 0 <= year <= 99 then 1900 + year else year, month, date) * MS_PER_DAY)
  }

  function Until(at: Option<int>, now: int): Option<int> {
    if at.Some? then Some(at.value - now) else None
  }

  function NextDayResetMs(now: int): Option<int> {
    Until(UTC(YearOf(Day(now)), MonthOf(Day(now)), DateOf(Day(now)) + 1), now)
  }

  function NextWeekResetMs(now: int): Option<int> {
    var left := (1 - WeekDay(Day(now)) + 7) % 7;
    Until(UTC(YearOf(Day(now)), MonthOf(Day(now)), DateOf(Day(now)) + (if left == 0 then 7 else left)), now)
  }

  function NextMonthResetMs(now: int): Option<int> {
    Until(UTC(YearOf(Day(now)), MonthOf(Day(now)) + 1, 1), now)
  }

  // ---- what each one promises ----

  datatype Span = Daily | Weekly | Monthly

  function ResetMs(span: Span, now: int): Option<int> {
    match span
    case Daily => NextDayResetMs(now)
    case Weekly => NextWeekResetMs(now)
    case Monthly => NextMonthResetMs(now)
  }

  /** A UTC midnight that starts a day, a week (Monday) or a month. */
  predicate Starts(span: Span, d: int) {
    match span
    case Daily => true
    case Weekly => WeekDay(d) == 1
    case Monthly => DateOf(d) == 1
  }

  function LongestDays(span: Span): int {
    match span case Daily => 1 case Weekly => 7 case Monthly => 31
  }

  /** The earliest such midnight strictly after `now`. */
  ghost predicate NextStart(span: Span, now: int, at: int) {
    && at > now && at % MS_PER_DAY == 0 && Starts(span, Day(at))
    && forall t :: now < t < at && t % MS_PER_DAY == 0 ==> !Starts(span, Day(t))
  }

  lemma {:induction false} YearsAreLater(y: int, z: int)
    requires y <= z
    ensures DayFromYear(y) + 365 * (z - y) <= DayFromYear(z)
    decreases z - y
  {
    if y < z {
      YearLength(y);
      YearsAreLater(y + 1, z);
    }
  }

  lemma YearIsUnique(d: int, y: int)
    requires DayFromYear(y) <= d < DayFromYear(y + 1)
    ensures YearOf(d) == y
  {
    var z := YearOf(d);
    if y < z { YearsAreLater(y + 1, z); }
    if z < y { YearsAreLater(z + 1, y); }
  }

  /** The day the calendar counts on from is the day itself. */
  lemma MakeDayInverse(d: int, more: int)
    ensures MakeDay(YearOf(d), MonthOf(d), DateOf(d) + more) == d + more
  {
    hide DayFromYear, Before, YearOf, MonthOf, Leap;
    assert MonthOf(d) / 12 == 0 && MonthOf(d) % 12 == MonthOf(d);
  }

  /** The first day of the month after a day's. */
  function FirstAfter(d: int): int {
    MakeDay(YearOf(d), MonthOf(d) + 1, 1)
  }

  lemma NextFirst(d: int)
    ensures var y := YearOf(d); FirstAfter(d) == DayFromYear(y) + Before(Leap(y), MonthOf(d) + 1)
    ensures d < FirstAfter(d) <= d + 31
    ensures DateOf(FirstAfter(d)) == 1
  {
    var y, m := YearOf(d), MonthOf(d);
    YearLength(y);
    YearLength(y + 1);
    hide DayFromYear, YearOf, MonthOf, Leap;
    var f := FirstAfter(d);
    if m < 11 {
      assert (m + 1) / 12 == 0 && (m + 1) % 12 == m + 1;
      YearIsUnique(f, y);
    } else {
      assert (m + 1) / 12 == 1 && (m + 1) % 12 == 0;
      YearIsUnique(f, y + 1);
    }
  }

  lemma NoFirstBetween(d: int, e: int)
    requires d < e < FirstAfter(d)
    ensures DateOf(e) != 1
  {
    NextFirst(d);
    YearLength(YearOf(d));
    hide DayFromYear, YearOf, MonthOf, Leap, FirstAfter;
    YearIsUnique(e, YearOf(d));
  }

  /** The day the span's next start falls on. */
  function NextDay(span: Span, d: int): int {
    match span
    case Daily => d + 1
    case Weekly => d + 7 - (WeekDay(d) + 6) % 7
    case Monthly => FirstAfter(d)
  }

  lemma NextDayIsNext(span: Span, d: int)
    ensures d < NextDay(span, d) <= d + LongestDays(span)
    ensures Starts(span, NextDay(span, d))
    ensures forall e :: d < e < NextDay(span, d) ==> !Starts(span, e)
  {
    match span {
      case Daily =>
      case Weekly =>
      case Monthly =>
        NextFirst(d);
        forall e | d < e < FirstAfter(d) ensures DateOf(e) != 1 { NoFirstBetween(d, e); }
    }
  }

  lemma NextStartIs(span: Span, now: int)
    ensures NextStart(span, now, NextDay(span, Day(now)) * MS_PER_DAY)
    ensures NextDay(span, Day(now)) * MS_PER_DAY <= now + LongestDays(span) * MS_PER_DAY
  {
    var d := Day(now);
    NextDayIsNext(span, d);
    var at := NextDay(span, d) * MS_PER_DAY;
    assert Day(at) == NextDay(span, d);
    forall t | now < t < at && t % MS_PER_DAY == 0 ensures !Starts(span, Day(t)) {
      assert d < Day(t) < NextDay(span, d);
    }
  }

  lemma NextStartIsUnique(span: Span, now: int, a: int, b: int)
    requires NextStart(span, now, a) && NextStart(span, now, b)
    ensures a == b
  {
  }

  /** How many days later a date lands when its year is taken for one of the 1900s. */
  function Shift(year: int, month: int): int {
    if 0 <= year <= 99 then MakeDay(1900 + year, month, 1) - MakeDay(year, month, 1) else 0
  }

  lemma ShiftsOnlyTheFirstCentury(year: int, month: int)
    ensures Shift(year, month) > 0 <==> 0 <= year <= 99
    ensures Shift(year, month) == 0 <==> !(0 <= year <= 99)
  {
    YearsAreLater(year + month / 12, 1900 + year + month / 12);
    hide DayFromYear;
  }

  lemma UTCLands(year: int, month: int, date: int)
    ensures UTC(year, month, date) == TimeClip((MakeDay(year, month, date) + Shift(year, month)) * MS_PER_DAY)
  {
    hide DayFromYear, Before, Leap, TimeClip;
    var z := if 0 <= year <= 99 then 1900 + year else year;
    assert MakeDay(z, month, date) == MakeDay(z, month, 1) + date - 1;
    assert MakeDay(year, month, date) == MakeDay(year, month, 1) + date - 1;
  }

  function AskedMonth(span: Span, now: int): int {
    MonthOf(Day(now)) + (if span == Monthly then 1 else 0)
  }

  /** The midnight each countdown runs to. */
  lemma ResetAsks(span: Span, now: int)
    ensures ResetMs(span, now)
         == Until(TimeClip((NextDay(span, Day(now)) + Shift(YearOf(Day(now)), AskedMonth(span, now))) * MS_PER_DAY), now)
  {
    hide MakeDay, YearOf, MonthOf, DateOf, TimeClip, UTC, Shift;
    var d := Day(now);
    var y, m, left := YearOf(d), MonthOf(d), (1 - WeekDay(d) + 7) % 7;
    match span {
      case Daily =>
        MakeDayInverse(d, 1);
        UTCLands(y, m, DateOf(d) + 1);
      case Weekly =>
        MakeDayInverse(d, if left == 0 then 7 else left);
        UTCLands(y, m, DateOf(d) + (if left == 0 then 7 else left));
        assert (if left == 0 then 7 else left) == 7 - (WeekDay(d) + 6) % 7;
      case Monthly =>
        UTCLands(y, m + 1, 1);
    }
  }

  /**
   The countdown runs to the earliest UTC midnight, Monday midnight or first-of-month midnight strictly after `now`, if
   and only if the year is not one `Date.UTC` reads as one of the 1900s and that midnight is a time value.
   */
  lemma ResetIsTheNextStartIff(span: Span, now: int)
    requires IsTime(now)
    ensures var y := YearOf(Day(now));
            (ResetMs(span, now).Some? && NextStart(span, now, now + ResetMs(span, now).value))
            <==> !(0 <= y <= 99) && IsTime(NextDay(span, Day(now)) * MS_PER_DAY)
    ensures !(0 <= YearOf(Day(now)) <= 99) && ResetMs(span, now).Some? ==> 0 < ResetMs(span, now).value <= LongestDays(span) * MS_PER_DAY
  {
    NextStartIs(span, now);
    ResetAsks(span, now);
    ShiftsOnlyTheFirstCentury(YearOf(Day(now)), AskedMonth(span, now));
    hide YearOf, MonthOf, Shift, NextStart, NextDay, ResetMs;
    if ResetMs(span, now).Some? && NextStart(span, now, now + ResetMs(span, now).value) {
      NextStartIsUnique(span, now, now + ResetMs(span, now).value, NextDay(span, Day(now)) * MS_PER_DAY);
    }
  }

  /** Up to a month before the last time value, every next start is one. */
  lemma OnlyTheLastMonthIsClipped(span: Span, now: int)
    requires IsTime(now) && now <= MAX_TIME - 31 * MS_PER_DAY
    ensures IsTime(NextDay(span, Day(now)) * MS_PER_DAY)
  {
    NextStartIs(span, now);
  }

  const YEAR_50 := -701265

  /** On the first day of the year 50 the day's countdown runs to the second day of 1950. */
  lemma TheYearFiftyIsTakenFor1950()
    ensures var now := YEAR_50 * MS_PER_DAY;
            && IsTime(now) && YearOf(Day(now)) == 50 && DayFromYear(50) == YEAR_50
            && ResetMs(Daily, now) == Some((DayFromYear(1950) - DayFromYear(50) + 1) * MS_PER_DAY)
            && !NextStart(Daily, now, now + ResetMs(Daily, now).value)
  {
    var now := YEAR_50 * MS_PER_DAY;
    assert Day(now) == YEAR_50;
    assert DayFromYear(50) == YEAR_50 && DayFromYear(51) == YEAR_50 + 365 && DayFromYear(1950) == -7305;
    FirstMonthShift();
    YearIsUnique(YEAR_50, 50);
    hide DayFromYear, Before;
    FirstDayIsJanuary();
    ResetAsks(Daily, now);
    ResetIsTheNextStartIff(Daily, now);
    hide ResetMs, NextStart, YearOf, MonthOf, Shift;
  }

  lemma FirstMonthShift()
    ensures Shift(50, 0) == DayFromYear(1950) - DayFromYear(50)
  {
  }

  lemma FirstDayIsJanuary()
    ensures MonthOf(YEAR_50) == 0
  {
    assert DayFromYear(50) == YEAR_50 && DayFromYear(51) == YEAR_50 + 365;
    YearIsUnique(YEAR_50, 50);
  }

  // ---- the calendar is the Gregorian one ----

  /** Thirty days have April, June, September and November; February has 28, or 29 in a leap year; the rest have 31. */
  lemma MonthsAreAsLongAsTheyAre(leap: bool, m: int)
    requires 0 <= m <= 11
    ensures Before(leap, m + 1) - Before(leap, m)
         == if m in {3, 5, 8, 10} then 30 else if m == 1 then (if leap then 29 else 28) else 31
    ensures Before(leap, 0) == 0 && Before(leap, 12) == if leap then 366 else 365
  {
  }

  /** A day of the year is in one month. */
  lemma OneMonth(leap: bool, n: int, m: int, r: int)
    requires 0 <= m <= 11 && 0 <= r <= 11
    requires Before(leap, m) <= n < Before(leap, m + 1) && Before(leap, r) <= n < Before(leap, r + 1)
    ensures r == m
  {
  }

  lemma DayIs(d: int, y: int, m: int)
    requires 0 <= m <= 11 && DayFromYear(y) + Before(Leap(y), m) <= d < DayFromYear(y) + Before(Leap(y), m + 1)
    ensures YearOf(d) == y && MonthOf(d) == m && DateOf(d) == d - DayFromYear(y) - Before(Leap(y), m) + 1
  {
    hide DayFromYear, Leap, YearOf, MonthOf, Before;
    WithinTheYear(Leap(y), m);
    YearLength(y);
    YearIsUnique(d, y);
    OneMonth(Leap(y), d - DayFromYear(y), m, MonthOf(d));
  }

  lemma WithinTheYear(leap: bool, m: int)
    requires 0 <= m <= 11
    ensures 0 <= Before(leap, m) && Before(leap, m + 1) <= if leap then 366 else 365
  {
  }

  /** The epoch is 1 January 1970, and a day known from elsewhere falls where it did: 29 February 2000. */
  lemma KnownDays()
    ensures YearOf(0) == 1970 && MonthOf(0) == 0 && DateOf(0) == 1
    ensures YearOf(11016) == 2000 && MonthOf(11016) == 1 && DateOf(11016) == 29
  {
    hide *;
    KnownYears();
    DayIs(0, 1970, 0);
    DayIs(11016, 2000, 1);
  }

  lemma KnownYears()
    ensures DayFromYear(1970) == 0 && DayFromYear(2000) == 10957 && !Leap(1970) && Leap(2000)
    ensures Before(false, 0) == 0 && Before(false, 1) == 31 && Before(true, 1) == 31 && Before(true, 2) == 60
  {
  }

  /** The first of them was a Thursday and the other a Tuesday, and weekdays follow one another. */
  lemma KnownWeekDays(d: int)
    ensures WeekDay(0) == 4 && WeekDay(11016) == 2 && WeekDay(d + 1) == if WeekDay(d) == 6 then 0 else WeekDay(d) + 1
  {
  }
}
