/** The part of the JavaScript `Date` object that the booking screen relies
    on, as a proleptic Gregorian calendar in local time: civil date-times
    with a zero-based month, a day number counting days from 0000-01-01,
    a minute timestamp, the next day (`setDate(getDate() + 1)`), the first
    day of a month and the weekday (`getDay()`, 0 = Sunday). */
module Calendar {

  predicate Leap(y: int) {
    y % 4 == 0 && (y % 100 != 0 || y % 400 == 0)
  }

  /** `new Date(y, m + 1, 0).getDate()` for a zero-based month `m`. */
  function DaysInMonth(y: int, m: int): (n: int)
    ensures 28 <= n <= 31
  {
    if m == 1 then (if Leap(y) then 29 else 28)
    else if m == 3 || m == 5 || m == 8 || m == 10 then 30
    else 31
  }

  /** Days of the year `y` before the first of month `m` (0..12). */
  function DaysBeforeMonth(y: int, m: int): int
    requires 0 <= m <= 12
  {
    var base :=
      if m == 0 then 0 else if m == 1 then 31 else if m == 2 then 59 else if m == 3 then 90
      else if m == 4 then 120 else if m == 5 then 151 else if m == 6 then 181 else if m == 7 then 212
      else if m == 8 then 243 else if m == 9 then 273 else if m == 10 then 304 else if m == 11 then 334
      else 365;
    base + (if m >= 2 && Leap(y) then 1 else 0)
  }

  /** Days from 0000-01-01 to the first of January of year `y`: 365 per year
      plus one per leap year in [0, y). */
  function DaysBeforeYear(y: int): int {
    365 * y + (y + 3) / 4 - (y + 99) / 100 + (y + 399) / 400
  }

  /** Day number of a civil date, 0 for 0000-01-01. */
  function DayNumber(y: int, m: int, d: int): int
    requires 0 <= m < 12
  {
    DaysBeforeYear(y) + DaysBeforeMonth(y, m) + d - 1
  }

  predicate ValidDate(y: int, m: int, d: int) {
    0 <= m < 12 && 1 <= d <= DaysInMonth(y, m)
  }

  /** The weekday of a day number, 0 = Sunday (0000-01-01 was a Saturday). */
  function Weekday(n: int): (w: int)
    ensures 0 <= w < 7
  {
    (n + 6) % 7
  }

  /** A local date-time as a `Date` holds it; seconds are always zero here. */
  datatype DateTime = DateTime(year: int, month: int, day: int, hour: int, minute: int)

  predicate ValidDateTime(t: DateTime) {
    ValidDate(t.year, t.month, t.day) && 0 <= t.hour < 24 && 0 <= t.minute < 60
  }

  /** A value of a `Date` object: always a real calendar instant. */
  type Moment = t: DateTime | ValidDateTime(t) witness DateTime(1970, 0, 1, 0, 0)

  function DayOf(t: Moment): int {
    DayNumber(t.year, t.month, t.day)
  }

  /** Minutes since the start of the day. */
  function TimeOfDay(t: Moment): (r: int)
    ensures 0 <= r < 1440
  {
    t.hour * 60 + t.minute
  }

  /** Minutes since 0000-01-01 00:00; `a < b` on two `Date`s compares these. */
  function Stamp(t: Moment): int {
    DayOf(t) * 1440 + TimeOfDay(t)
  }

  // ---------------------------------------------------------------------
  // Consecutive days

  function NextDay(t: Moment): (u: Moment)
    ensures u.hour == t.hour && u.minute == t.minute
  {
    if t.day < DaysInMonth(t.year, t.month) then t.(day := t.day + 1)
    else if t.month < 11 then t.(month := t.month + 1, day := 1)
    else t.(year := t.year + 1, month := 0, day := 1)
  }

  lemma CeilStep4(y: int)
    ensures (y + 4) / 4 == (y + 3) / 4 + (if y % 4 == 0 then 1 else 0)
  {
    var q, r := y / 4, y % 4;
    assert y == 4 * q + r;
    if r == 0 { assert (y + 3) / 4 == q; } else { assert (y + 3) / 4 == q + 1; }
  }

  lemma CeilStep100(y: int)
    ensures (y + 100) / 100 == (y + 99) / 100 + (if y % 100 == 0 then 1 else 0)
  {
    var q, r := y / 100, y % 100;
    assert y == 100 * q + r;
    if r == 0 { assert (y + 99) / 100 == q; } else { assert (y + 99) / 100 == q + 1; }
  }

  lemma CeilStep400(y: int)
    ensures (y + 400) / 400 == (y + 399) / 400 + (if y % 400 == 0 then 1 else 0)
  {
    var q, r := y / 400, y % 400;
    assert y == 400 * q + r;
    if r == 0 { assert (y + 399) / 400 == q; } else { assert (y + 399) / 400 == q + 1; }
  }

  lemma Mod100Mod4(y: int)
    requires y % 100 == 0
    ensures y % 4 == 0
  {
    var k := y / 100;
    assert y == 4 * (25 * k);
  }

  lemma Mod400Mod100(y: int)
    requires y % 400 == 0
    ensures y % 100 == 0
  {
    var k := y / 400;
    assert y == 100 * (4 * k);
  }

  /** The leap days before year `y + 1` are those before `y`, plus one when
      `y` itself is a leap year. */
  lemma LeapDaysStep(y: int)
    ensures (y + 4) / 4 - (y + 100) / 100 + (y + 400) / 400
            == (y + 3) / 4 - (y + 99) / 100 + (y + 399) / 400 + (if Leap(y) then 1 else 0)
  {
    CeilStep4(y);
    CeilStep100(y);
    CeilStep400(y);
    if y % 400 == 0 {
      Mod400Mod100(y);
    }
    if y % 100 == 0 {
      Mod100Mod4(y);
    }
  }

  /** A year has 365 days, 366 when it is a leap year. */
  lemma YearLength(y: int)
    ensures DaysBeforeYear(y + 1) == DaysBeforeYear(y) + DaysBeforeMonth(y, 12)
  {
    LeapDaysStep(y);
    assert DaysBeforeYear(y + 1) == 365 * y + 365 + (y + 4) / 4 - (y + 100) / 100 + (y + 400) / 400;
  }

  /** The next day's number is one more, so the daily loop never skips or
      repeats a day. */
  lemma NextDayNumber(t: Moment)
    ensures DayOf(NextDay(t)) == DayOf(t) + 1
    ensures Stamp(NextDay(t)) == Stamp(t) + 1440
  {
    if t.day == DaysInMonth(t.year, t.month) && t.month == 11 {
      YearLength(t.year);
    }
  }

  // ---------------------------------------------------------------------
  // Months

  /** Months counted from January of year 0. */
  function MonthIndex(y: int, m: int): int {
    12 * y + m
  }

  /** Day number of the first day of month `k`. */
  function MonthStart(k: int): int {
    DayNumber(k / 12, k % 12, 1)
  }

  lemma MonthIndexSplit(y: int, m: int)
    requires 0 <= m < 12
    ensures MonthIndex(y, m) / 12 == y && MonthIndex(y, m) % 12 == m
  {
  }

  lemma MonthStartStep(k: int)
    ensures MonthStart(k + 1) == MonthStart(k) + DaysInMonth(k / 12, k % 12)
  {
    if k % 12 == 11 {
      assert (k + 1) / 12 == k / 12 + 1 && (k + 1) % 12 == 0;
      YearLength(k / 12);
    } else {
      assert (k + 1) / 12 == k / 12 && (k + 1) % 12 == k % 12 + 1;
    }
  }

  /** A strictly increasing step makes a function strictly increasing. */
  lemma {:induction false} StepsIncrease(f: int -> int, j: int, k: int)
    requires forall i :: f(i + 1) > f(i)
    requires j < k
    ensures f(j) < f(k)
    decreases k - j
  {
    if j + 1 < k {
      StepsIncrease(f, j + 1, k);
    }
  }

  lemma MonthStartIncreasing()
    ensures forall i :: MonthStart(i + 1) > MonthStart(i)
  {
    forall i
      ensures MonthStart(i + 1) > MonthStart(i)
    {
      MonthStartStep(i);
    }
  }

  lemma MonthStartMono(j: int, k: int)
    requires j < k
    ensures MonthStart(j) < MonthStart(k)
  {
    MonthStartIncreasing();
    StepsIncrease(MonthStart, j, k);
  }

  /** For a strictly increasing `f` and a `d` in [f(K), f(K + 1)), `f(k)` is
      at most `d` exactly for the `k` up to `K`. */
  lemma Bracket(f: int -> int, k: int, K: int, d: int)
    requires forall i :: f(i + 1) > f(i)
    requires f(K) <= d < f(K + 1)
    ensures f(k) <= d <==> k <= K
  {
    if k < K {
      StepsIncrease(f, k, K);
    } else if k > K + 1 {
      StepsIncrease(f, K + 1, k);
    }
  }

  /** Minute stamps order first by day. */
  lemma StampByDay(a: int, ta: int, b: int, tb: int)
    requires 0 <= ta < 1440 && 0 <= tb < 1440
    ensures a * 1440 + ta <= b * 1440 + tb ==> a <= b
    ensures a <= b - 1 ==> a * 1440 + ta < b * 1440 + tb
  {
  }

  /** Every day of a month lies between the first of that month and the first
      of the next one. */
  lemma WithinMonth(t: Moment)
    ensures MonthStart(MonthIndex(t.year, t.month)) <= DayOf(t) < MonthStart(MonthIndex(t.year, t.month) + 1)
  {
    var k := MonthIndex(t.year, t.month);
    MonthIndexSplit(t.year, t.month);
    MonthStartStep(k);
  }

  /** Midnight at the start of month `k` is not after `t` exactly when `k` is
      not after the month of `t`. */
  lemma MonthStartBefore(k: int, t: Moment)
    ensures MonthStart(k) * 1440 <= Stamp(t) <==> k <= MonthIndex(t.year, t.month)
  {
    WithinMonth(t);
    MonthStartIncreasing();
    Bracket(MonthStart, k, MonthIndex(t.year, t.month), DayOf(t));
    StampByDay(MonthStart(k), 0, DayOf(t), TimeOfDay(t));
    StampByDay(DayOf(t), TimeOfDay(t), MonthStart(k), 0);
  }

  /** Earlier instants never lie in later months. */
  lemma MonthIndexMono(s: Moment, t: Moment)
    requires Stamp(s) <= Stamp(t)
    ensures MonthIndex(s.year, s.month) <= MonthIndex(t.year, t.month)
  {
    WithinMonth(s);
    WithinMonth(t);
    MonthStartIncreasing();
    Bracket(MonthStart, MonthIndex(s.year, s.month), MonthIndex(t.year, t.month), DayOf(t));
    StampByDay(DayOf(s), TimeOfDay(s), DayOf(t), TimeOfDay(t));
  }

  lemma ShiftMod7(a: int, e: int)
    ensures (a + e) % 7 == (a % 7 + e) % 7
  {
    var q := a / 7;
    assert a == 7 * q + a % 7;
    assert a + e == (a % 7 + e) + 7 * q;
  }

  /** The weekday of the `d`-th day of a month, from the weekday of the 1st. */
  lemma WeekdayInMonth(y: int, m: int, d: int)
    requires ValidDate(y, m, d)
    ensures Weekday(DayNumber(y, m, d)) == (Weekday(DayNumber(y, m, 1)) + d - 1) % 7
  {
    ShiftMod7(DayNumber(y, m, 1) + 6, d - 1);
  }

  /** Anchors of the weekday formula. */
  lemma KnownWeekdays()
    ensures Weekday(DayNumber(1970, 0, 1)) == 4
    ensures Weekday(DayNumber(2024, 0, 1)) == 1
    ensures Weekday(DayNumber(2000, 1, 29)) == 2
  {
  }
}
