/** Calendar arithmetic as the pages use it through JavaScript `Date` and
    date-fns: civil dates, the `setDate`/`setMonth` overflow rules, the day of
    the week, the `yyyy-MM-dd` / `yyyy-MM` formats and the `HH:mm` clock.
    The local time zone is taken to be UTC. */
module Calendar {
  import opened Seqs
  import opened Text

  /** A proleptic Gregorian calendar date. */
  datatype Date = Date(year: int, month: int, day: int)

  predicate IsLeapYear(y: int)
  {
    y % 4 == 0 && (y % 100 != 0 || y % 400 == 0)
  }

  function YearLength(y: int): int
  {
    if IsLeapYear(y) then 366 else 365
  }

  function DaysInMonth(y: int, m: int): (n: int)
    requires 1 <= m <= 12
    ensures 28 <= n <= 31
  {
    if m == 2 then (if IsLeapYear(y) then 29 else 28)
    else if m == 4 || m == 6 || m == 9 || m == 11 then 30
    else 31
  }

  predicate ValidDate(d: Date)
  {
    1 <= d.month <= 12 && 1 <= d.day <= DaysInMonth(d.year, d.month)
  }

  // ---------------------------------------------------------------- day numbers

  /** Days from 1970-01-01 to the first of January of `y`. */
  function DaysBeforeYear(y: int): int
    decreases if y < 1970 then 1970 - y else y - 1970
  {
    if y == 1970 then 0
    else if y > 1970 then DaysBeforeYear(y - 1) + YearLength(y - 1)
    else DaysBeforeYear(y + 1) - YearLength(y)
  }

  /** Days from the first of January of `y` to the first of month `m`. */
  function DaysBeforeMonth(y: int, m: int): (r: int)
    requires 1 <= m <= 13
    ensures 0 <= r <= 31 * (m - 1)
  {
    if m == 1 then 0 else DaysBeforeMonth(y, m - 1) + DaysInMonth(y, m - 1)
  }

  function MonthStart(y: int, m: int): int
    requires 1 <= m <= 12
  {
    DaysBeforeYear(y) + DaysBeforeMonth(y, m)
  }

  /** Days since 1970-01-01 (the epoch day of `Date.getTime()`). */
  function DayNumber(d: Date): int
    requires 1 <= d.month <= 12
  {
    MonthStart(d.year, d.month) + d.day - 1
  }

  lemma YearStep(y: int)
    ensures DaysBeforeYear(y + 1) == DaysBeforeYear(y) + YearLength(y)
  {
  }

  lemma YearEnd(y: int)
    ensures DaysBeforeMonth(y, 13) == YearLength(y)
  {
    assert DaysBeforeMonth(y, 2) == 31;
    assert DaysBeforeMonth(y, 3) == 31 + DaysInMonth(y, 2);
    assert DaysBeforeMonth(y, 4) == 62 + DaysInMonth(y, 2);
    assert DaysBeforeMonth(y, 5) == 92 + DaysInMonth(y, 2);
    assert DaysBeforeMonth(y, 6) == 123 + DaysInMonth(y, 2);
    assert DaysBeforeMonth(y, 7) == 153 + DaysInMonth(y, 2);
    assert DaysBeforeMonth(y, 8) == 184 + DaysInMonth(y, 2);
    assert DaysBeforeMonth(y, 9) == 215 + DaysInMonth(y, 2);
    assert DaysBeforeMonth(y, 10) == 245 + DaysInMonth(y, 2);
    assert DaysBeforeMonth(y, 11) == 276 + DaysInMonth(y, 2);
    assert DaysBeforeMonth(y, 12) == 306 + DaysInMonth(y, 2);
  }

  function NextMonth(y: int, m: int): (r: (int, int))
    requires 1 <= m <= 12
    ensures 1 <= r.1 <= 12
  {
    if m == 12 then (y + 1, 1) else (y, m + 1)
  }

  function PrevMonth(y: int, m: int): (r: (int, int))
    requires 1 <= m <= 12
    ensures 1 <= r.1 <= 12
    ensures NextMonth(r.0, r.1) == (y, m)
  {
    if m == 1 then (y - 1, 12) else (y, m - 1)
  }

  /** A month lasts from its start to the start of the next one. */
  lemma MonthStep(y: int, m: int)
    requires 1 <= m <= 12
    ensures MonthStart(NextMonth(y, m).0, NextMonth(y, m).1) == MonthStart(y, m) + DaysInMonth(y, m)
  {
    if m == 12 {
      YearEnd(y);
      YearStep(y);
    }
  }

  lemma {:induction false} YearsOrdered(a: int, b: int)
    requires a < b
    ensures DaysBeforeYear(a) + YearLength(a) <= DaysBeforeYear(b)
    decreases b - a
  {
    YearStep(a);
    if a + 1 < b {
      YearsOrdered(a + 1, b);
    }
  }

  lemma {:induction false} MonthsOrdered(y: int, a: int, b: int)
    requires 1 <= a < b <= 13
    ensures DaysBeforeMonth(y, a) + DaysInMonth(y, a) <= DaysBeforeMonth(y, b)
    decreases b - a
  {
    if a + 1 < b {
      MonthsOrdered(y, a + 1, b);
    }
  }

  lemma DayNumberWithinYear(d: Date)
    requires ValidDate(d)
    ensures DaysBeforeYear(d.year) <= DayNumber(d) < DaysBeforeYear(d.year) + YearLength(d.year)
  {
    YearEnd(d.year);
    MonthsOrdered(d.year, d.month, 13);
  }

  /** Distinct valid dates have distinct day numbers. */
  lemma DayNumberInjective(a: Date, b: Date)
    requires ValidDate(a) && ValidDate(b)
    requires DayNumber(a) == DayNumber(b)
    ensures a == b
  {
    DayNumberWithinYear(a);
    DayNumberWithinYear(b);
    if a.year < b.year {
      YearsOrdered(a.year, b.year);
    } else if b.year < a.year {
      YearsOrdered(b.year, a.year);
    }
    assert a.year == b.year;
    if a.month < b.month {
      MonthsOrdered(a.year, a.month, b.month);
    } else if b.month < a.month {
      MonthsOrdered(a.year, b.month, a.month);
    }
  }

  // ---------------------------------------------------------------- Date overflow

  /** The date JavaScript's `Date` makes of day `d` of month `m` of year `y`
      when `d` lies outside the month: it rolls into the months around it. */
  function NormalizeDay(y: int, m: int, d: int): (r: Date)
    requires 1 <= m <= 12
    decreases if d < 1 then 1 else 0, if d < 1 then -d else d
  {
    if d < 1 then
      var p := PrevMonth(y, m);
      NormalizeDay(p.0, p.1, d + DaysInMonth(p.0, p.1))
    else if d > DaysInMonth(y, m) then
      var n := NextMonth(y, m);
      NormalizeDay(n.0, n.1, d - DaysInMonth(y, m))
    else Date(y, m, d)
  }

  lemma {:induction false} NormalizeDayCorrect(y: int, m: int, d: int)
    requires 1 <= m <= 12
    ensures ValidDate(NormalizeDay(y, m, d))
    ensures DayNumber(NormalizeDay(y, m, d)) == MonthStart(y, m) + d - 1
    decreases if d < 1 then 1 else 0, if d < 1 then -d else d
  {
    if d < 1 {
      var p := PrevMonth(y, m);
      MonthStep(p.0, p.1);
      NormalizeDayCorrect(p.0, p.1, d + DaysInMonth(p.0, p.1));
    } else if d > DaysInMonth(y, m) {
      var n := NextMonth(y, m);
      MonthStep(y, m);
      NormalizeDayCorrect(n.0, n.1, d - DaysInMonth(y, m));
    }
  }

  /** `date.setDate(date.getDate() + k)` */
  function AddDays(date: Date, k: int): Date
    requires ValidDate(date)
  {
    NormalizeDay(date.year, date.month, date.day + k)
  }

  lemma AddDaysNumber(date: Date, k: int)
    requires ValidDate(date)
    ensures ValidDate(AddDays(date, k))
    ensures DayNumber(AddDays(date, k)) == DayNumber(date) + k
  {
    NormalizeDayCorrect(date.year, date.month, date.day + k);
  }

  /** Moving `k` days and back returns to the same date. */
  lemma AddDaysInverse(date: Date, k: int)
    requires ValidDate(date)
    ensures ValidDate(AddDays(date, k))
    ensures AddDays(AddDays(date, k), -k) == date
  {
    AddDaysNumber(date, k);
    AddDaysNumber(AddDays(date, k), -k);
    DayNumberInjective(AddDays(AddDays(date, k), -k), date);
  }

  /** The month `k` months after month `m` of year `y`. */
  function ShiftMonth(y: int, m: int, k: int): (r: (int, int))
    requires 1 <= m <= 12
    ensures 1 <= r.1 <= 12
    ensures r.0 * 12 + r.1 == y * 12 + m + k
  {
    var index := y * 12 + (m - 1) + k;
    (index / 12, index % 12 + 1)
  }

  /** `date.setMonth(date.getMonth() + k)`: the day of the month is kept and,
      when the target month is shorter, overflows into the month after. */
  function AddMonthsOverflow(date: Date, k: int): (r: Date)
    requires ValidDate(date)
    ensures ValidDate(r)
    ensures var t := ShiftMonth(date.year, date.month, k);
            DayNumber(r) == MonthStart(t.0, t.1) + date.day - 1
  {
    var t := ShiftMonth(date.year, date.month, k);
    NormalizeDayCorrect(t.0, t.1, date.day);
    NormalizeDay(t.0, t.1, date.day)
  }

  /** Month arithmetic that stays in the target month: the day is clamped to
      the target month's length. */
  function AddMonthsClamped(date: Date, k: int): (r: Date)
    requires ValidDate(date)
    ensures ValidDate(r)
    ensures r.year * 12 + r.month == date.year * 12 + date.month + k
  {
    var t := ShiftMonth(date.year, date.month, k);
    var last := DaysInMonth(t.0, t.1);
    Date(t.0, t.1, if date.day <= last then date.day else last)
  }

  /** `getDay()`: 0 is Sunday; 1970-01-01 was a Thursday. */
  function DayOfWeek(date: Date): (w: int)
    requires 1 <= date.month <= 12
    ensures 0 <= w < 7
  {
    Weekday(DayNumber(date))
  }

  /** The weekday of day number `n`. */
  function Weekday(n: int): int
  {
    (n + 4) % 7
  }

  lemma DayOfWeekStep(date: Date, k: int)
    requires ValidDate(date)
    ensures ValidDate(AddDays(date, k))
    ensures DayOfWeek(AddDays(date, k)) == (DayOfWeek(date) + k) % 7
  {
    AddDaysNumber(date, k);
    WeekdayShift(DayNumber(date), k);
  }

  /** `k` days later the weekday has moved on by `k`, modulo 7. */
  lemma WeekdayShift(n: int, k: int)
    ensures Weekday(n + k) == (Weekday(n) + k) % 7
  {
    var x, y := n + 4, Weekday(n) + k;
    assert x + k == 7 * (x / 7) + y;
    assert y == 7 * (y / 7) + y % 7;
    assert x + k == 7 * (x / 7 + y / 7) + y % 7;
  }

  // ---------------------------------------------------------------- instants

  const DayMs: int := 86400000

  /** A point in time: a calendar date and the milliseconds since midnight. */
  datatype Moment = Moment(date: Date, ms: int)

  predicate ValidMoment(t: Moment)
  {
    ValidDate(t.date) && 0 <= t.ms < DayMs
  }

  /** `getTime()`: milliseconds since the epoch. */
  function Instant(t: Moment): int
    requires 1 <= t.date.month <= 12
  {
    DayNumber(t.date) * DayMs + t.ms
  }

  /** `new Date('YYYY-MM-DD').getTime()`: midnight of that day. */
  function Midnight(d: Date): int
    requires 1 <= d.month <= 12
  {
    DayNumber(d) * DayMs
  }

  // ---------------------------------------------------------------- weeks

  /** `d.setDate(d.getDate() - d.getDay())`: the Sunday that opens the week of
      `now`, at `now`'s time of day. */
  function WeekStart(now: Moment): (r: Moment)
    requires ValidMoment(now)
    ensures ValidMoment(r)
  {
    AddDaysNumber(now.date, 0 - DayOfWeek(now.date));
    Moment(AddDays(now.date, 0 - DayOfWeek(now.date)), now.ms)
  }

  /** Six days after `WeekStart(now)`, at the same time of day. */
  function WeekEnd(now: Moment): (r: Moment)
    requires ValidMoment(now)
    ensures ValidMoment(r)
  {
    AddDaysNumber(WeekStart(now).date, 6);
    Moment(AddDays(WeekStart(now).date, 6), now.ms)
  }

  lemma WeekBounds(now: Moment)
    requires ValidMoment(now)
    ensures DayOfWeek(WeekStart(now).date) == 0
    ensures DayNumber(now.date) - 6 <= DayNumber(WeekStart(now).date) <= DayNumber(now.date)
    ensures DayNumber(WeekEnd(now).date) == DayNumber(WeekStart(now).date) + 6
  {
    WeekStartNumber(now);
    var start := WeekStart(now).date;
    AddDaysNumber(start, 6);
    assert WeekEnd(now).date == AddDays(start, 6);
  }

  lemma WeekStartNumber(now: Moment)
    requires ValidMoment(now)
    ensures DayOfWeek(WeekStart(now).date) == 0
    ensures DayNumber(WeekStart(now).date) == DayNumber(now.date) - DayOfWeek(now.date)
  {
    var n := DayNumber(now.date);
    var w := DayOfWeek(now.date);
    AddDaysNumber(now.date, 0 - w);
    BackToSunday(n, w);
  }

  /** Going back `(n + 4) % 7` days from day `n` lands on a Sunday. */
  lemma BackToSunday(n: int, w: int)
    requires w == Weekday(n)
    ensures Weekday(n - w) == 0
  {
    var q := (n + 4) / 7;
    assert n + 4 == 7 * q + w;
    assert n - w + 4 == 7 * q;
  }

  /** The week test as the code states it: the date string read as midnight
      lies between the two instants `WeekStart(now)` and `WeekEnd(now)`, both
      ends included; a string that is no date is never inside. */
  predicate InWeekAsWritten(s: string, now: Moment)
    requires ValidMoment(now)
  {
    ParseDate(s).Some? &&
    Instant(WeekStart(now)) <= Midnight(ParseDate(s).value) <= Instant(WeekEnd(now))
  }

  /** The intended week: the date is one of the seven days from the Sunday of
      `now`'s week to the Saturday after it. */
  predicate InWeek(s: string, now: Moment)
    requires ValidMoment(now)
  {
    ParseDate(s).Some? &&
    DayNumber(WeekStart(now).date) <= DayNumber(ParseDate(s).value) <= DayNumber(WeekStart(now).date) + 6
  }

  /** The intended week is Sunday to Saturday: a date in it lies as many days
      after the week's start as its day of the week says. */
  lemma InWeekSundayToSaturday(s: string, now: Moment)
    requires ValidMoment(now) && InWeek(s, now)
    ensures DayNumber(ParseDate(s).value) - DayNumber(WeekStart(now).date) == DayOfWeek(ParseDate(s).value)
  {
    var d := ParseDate(s).value;
    WeekStartNumber(now);
    DayOfWeekFromStart(d, WeekStart(now).date);
  }

  lemma DayOfWeekFromStart(d: Date, start: Date)
    requires ValidDate(d) && ValidDate(start) && DayOfWeek(start) == 0
    requires DayNumber(start) <= DayNumber(d) <= DayNumber(start) + 6
    ensures DayNumber(d) - DayNumber(start) == DayOfWeek(d)
  {
    WeekdayOffset(DayNumber(start), DayNumber(d));
  }

  /** The days of a week that opens on a Sunday, day `n0`, fall on weekdays
      0 to 6 in order. */
  lemma WeekdayOffset(n0: int, n: int)
    requires Weekday(n0) == 0 && n0 <= n <= n0 + 6
    ensures Weekday(n) == n - n0
  {
    var q := (n0 + 4) / 7;
    assert n0 + 4 == 7 * q;
    assert n + 4 == 7 * q + (n - n0);
  }

  /** The day `now` falls on belongs to its own week. */
  lemma InWeekHoldsToday(now: Moment)
    requires ValidMoment(now) && 1 <= now.date.year <= 9999
    ensures InWeek(FormatDate(now.date), now)
  {
    WeekStartNumber(now);
    ParseFormatDate(now.date);
  }

  /** Every date the written test accepts is in the intended week. */
  lemma InWeekAsWrittenWithin(s: string, now: Moment)
    requires ValidMoment(now) && InWeekAsWritten(s, now)
    ensures InWeek(s, now)
  {
    if ParseDate(s).value != WeekStart(now).date {
      WeekTestsAgreeAfterSunday(s, now);
    }
  }

  /** Away from the Sunday the two tests agree. */
  lemma WeekTestsAgreeAfterSunday(s: string, now: Moment)
    requires ValidMoment(now)
    requires ParseDate(s).Some? && ParseDate(s).value != WeekStart(now).date
    ensures InWeekAsWritten(s, now) <==> InWeek(s, now)
  {
    var d := ParseDate(s).value;
    var w := WeekStart(now).date;
    WeekBounds(now);
    if DayNumber(d) == DayNumber(w) {
      DayNumberInjective(d, w);
    }
  }

  /** Unless `now` is exactly midnight, the written test leaves out the
      Sunday that opens the week. */
  lemma WeekAsWrittenMissesSunday(now: Moment)
    requires ValidMoment(now) && now.ms > 0
    requires 1 <= WeekStart(now).date.year <= 9999
    ensures InWeek(FormatDate(WeekStart(now).date), now)
    ensures !InWeekAsWritten(FormatDate(WeekStart(now).date), now)
  {
    ParseFormatDate(WeekStart(now).date);
  }

  // ---------------------------------------------------------------- date strings

  /** date-fns `yyyy`: the year of the era (year 0 is 1 BC). */
  function YearOfEra(y: int): nat
  {
    if y > 0 then y else 1 - y
  }

  /** date-fns `format(date, 'yyyy-MM')` */
  function FormatMonth(d: Date): string
    requires ValidDate(d)
  {
    Pad(YearOfEra(d.year), 4) + "-" + Pad(d.month, 2)
  }

  /** date-fns `format(date, 'yyyy-MM-dd')` */
  function FormatDate(d: Date): (s: string)
    requires ValidDate(d)
    ensures StartsWith(s, FormatMonth(d))
  {
    FormatMonth(d) + "-" + Pad(d.day, 2)
  }

  /** Reads a `YYYY-MM-DD` date string, as `new Date(s)` and `parseISO` do for
      date-only strings; anything else is an invalid date. */
  function ParseDate(s: string): (r: Option<Date>)
    ensures r.Some? ==> ValidDate(r.value)
  {
    if |s| == 10 && s[4] == '-' && s[7] == '-' &&
       AllDigits(s[..4]) && AllDigits(s[5..7]) && AllDigits(s[8..]) then
      var d := Date(DigitsValue(s[..4]), DigitsValue(s[5..7]), DigitsValue(s[8..]));
      if ValidDate(d) then Some(d) else None
    else None
  }

  lemma {:induction false} DigitsValueBound(s: string)
    requires AllDigits(s)
    ensures DigitsValue(s) < Pow10(|s|)
  {
    if s != [] {
      DigitsValueBound(s[..|s| - 1]);
    }
  }

  /** Two digit strings of one length with one value are the same string. */
  lemma {:induction false} DigitsValueInjective(a: string, b: string)
    requires AllDigits(a) && AllDigits(b) && |a| == |b|
    requires DigitsValue(a) == DigitsValue(b)
    ensures a == b
  {
    if a != [] {
      var n := |a| - 1;
      var x, y := DigitsValue(a[..n]), DigitsValue(b[..n]);
      var c, e := DigitValue(a[n]), DigitValue(b[n]);
      assert 10 * x + c == 10 * y + e;
      assert c == e && x == y;
      DigitsValueInjective(a[..n], b[..n]);
      assert a == a[..n] + [a[n]];
      assert b == b[..n] + [b[n]];
    }
  }

  /** Padding a digit string's value back to its width gives the string. */
  lemma PadOfDigits(s: string)
    requires AllDigits(s) && |s| >= 1
    ensures Pad(DigitsValue(s), |s|) == s
  {
    DigitsValueBound(s);
    PadValue(DigitsValue(s), |s|);
    DigitsValueInjective(Pad(DigitsValue(s), |s|), s);
  }

  /** Formatting a date of years 1 to 9999 and reading it back is the identity. */
  lemma ParseFormatDate(d: Date)
    requires ValidDate(d) && 1 <= d.year <= 9999
    ensures ParseDate(FormatDate(d)) == Some(d)
  {
    assert Pow10(4) == 10000 && Pow10(2) == 100;
    PadValue(d.year, 4);
    PadValue(d.month, 2);
    PadValue(d.day, 2);
    var s := FormatDate(d);
    assert s[..4] == Pad(d.year, 4);
    assert s[5..7] == Pad(d.month, 2);
    assert s[8..] == Pad(d.day, 2);
  }

  /** A date string that reads as a date of year 1 or later is the date's
      formatted form. */
  lemma FormatParseDate(s: string)
    requires ParseDate(s).Some? && ParseDate(s).value.year >= 1
    ensures FormatDate(ParseDate(s).value) == s
  {
    var d := ParseDate(s).value;
    PadOfDigits(s[..4]);
    PadOfDigits(s[5..7]);
    PadOfDigits(s[8..]);
    assert s == s[..4] + "-" + s[5..7] + "-" + s[8..];
  }

  /** A date string begins with the string of its month. */
  lemma SameDayImpliesSameMonth(s: string, d: Date)
    requires ValidDate(d)
    requires s == FormatDate(d)
    ensures StartsWith(s, FormatMonth(d))
  {
  }

  // ---------------------------------------------------------------- clock

  const MinutesPerDay: int := 1440

  /** date-fns `parse(s, 'HH:mm', ...)`: one or two digits of hour (0-23), a
      colon, one or two digits of minute (0-59); the minutes since midnight,
      or `None` for an invalid time. */
  function ParseTime(s: string): (r: Option<int>)
    ensures r.Some? ==> 0 <= r.value < MinutesPerDay
  {
    var colon := if |s| >= 2 && s[1] == ':' then 1 else if |s| >= 3 && s[2] == ':' then 2 else 0;
    if colon == 0 || !(1 <= |s| - colon - 1 <= 2) then None
    else
      var hh, mm := s[..colon], s[colon + 1..];
      if !AllDigits(hh) || !AllDigits(mm) then None
      else
        var h, m := DigitsValue(hh), DigitsValue(mm);
        if h < 24 && m < 60 then Some(h * 60 + m) else None
  }

  /** date-fns `format(t, 'HH:mm')` of a time of day in minutes. */
  function FormatTime(t: int): (s: string)
    requires 0 <= t < MinutesPerDay
  {
    Pad(t / 60, 2) + ":" + Pad(t % 60, 2)
  }

  lemma FormatTimeShape(t: int)
    requires 0 <= t < MinutesPerDay
    ensures |FormatTime(t)| == 5 && FormatTime(t)[2] == ':'
    ensures AllDigits(FormatTime(t)[..2]) && AllDigits(FormatTime(t)[3..])
  {
    assert Pow10(2) == 100;
    PadValue(t / 60, 2);
    PadValue(t % 60, 2);
    var s := FormatTime(t);
    assert s[..2] == Pad(t / 60, 2);
    assert s[3..] == Pad(t % 60, 2);
  }

  /** Every time of day formats to a string that reads back as itself. */
  lemma ParseFormatTime(t: int)
    requires 0 <= t < MinutesPerDay
    ensures ParseTime(FormatTime(t)) == Some(t)
  {
    assert Pow10(2) == 100;
    PadValue(t / 60, 2);
    PadValue(t % 60, 2);
    FormatTimeShape(t);
    var s := FormatTime(t);
    assert s[..2] == Pad(t / 60, 2);
    assert s[3..] == Pad(t % 60, 2);
    assert s[1] != ':';
  }

  /** A two-digit `HH:mm` string that reads as a time is that time's format. */
  lemma FormatParseTime(s: string)
    requires |s| == 5 && s[2] == ':' && ParseTime(s).Some?
    ensures FormatTime(ParseTime(s).value) == s
  {
    assert s[1] != ':' by {
      assert IsDigit(s[..2][1]);
    }
    var h, m := DigitsValue(s[..2]), DigitsValue(s[3..]);
    assert (h * 60 + m) / 60 == h && (h * 60 + m) % 60 == m;
    PadOfDigits(s[..2]);
    PadOfDigits(s[3..]);
    assert s == s[..2] + ":" + s[3..];
  }

  /** date-fns `addMinutes` seen on a 24-hour wall clock: the time of day
      `k` minutes after `t`, wrapping at midnight. */
  function AddMinutesWrapped(t: int, k: int): (r: int)
    ensures 0 <= r < MinutesPerDay
    ensures (r - t - k) % MinutesPerDay == 0
  {
    (t + k) % MinutesPerDay
  }
}
