/**
 * The JavaScript `Date` arithmetic the calendar relies on, for local
 * calendar days in the proleptic Gregorian calendar: stepping the viewed
 * month (`new Date(y, m + k, 1)`, which carries month overflow into the
 * year), the length of a month (`new Date(y, m + 1, 0).getDate()`) and the
 * weekday of a day (`getDay()`, 0 for Sunday).
 */
module CalendarDates {
  import opened Types

  /** A day whose month is normalised, as every `Date` reports it. */
  predicate Normal(d: Day) {
    0 <= d.month < 12
  }

  /** Months counted from year 0: the quantity month stepping adds to. */
  function MonthIndex(d: Day): int {
    12 * d.year + d.month
  }

  /** Two normalised days with the same month index and day are the same day. */
  lemma MonthIndexDetermines(a: Day, b: Day)
    requires Normal(a) && Normal(b) && a.day == b.day
    requires MonthIndex(a) == MonthIndex(b)
    ensures a == b
  {
  }

  /** `changeMonth(offset)`: the first day of the month `offset` months away. */
  function ChangeMonth(view: Day, offset: int): (r: Day)
    ensures Normal(r) && r.day == 1
    ensures MonthIndex(r) == MonthIndex(view) + offset
  {
    var k := view.month + offset;
    Day(view.year + k / 12, k % 12, 1)
  }

  /** Stepping back by the same offset returns to the first of the original month. */
  lemma ChangeMonthBack(view: Day, offset: int)
    requires Normal(view)
    ensures ChangeMonth(ChangeMonth(view, offset), -offset) == view.(day := 1)
  {
    MonthIndexDetermines(ChangeMonth(ChangeMonth(view, offset), -offset), view.(day := 1));
  }

  /** Two steps add up to one step by their sum. */
  lemma ChangeMonthTwice(view: Day, a: int, b: int)
    ensures ChangeMonth(ChangeMonth(view, a), b) == ChangeMonth(view, a + b)
  {
    MonthIndexDetermines(ChangeMonth(ChangeMonth(view, a), b), ChangeMonth(view, a + b));
  }

  predicate IsLeapYear(y: int) {
    y % 4 == 0 && (y % 100 != 0 || y % 400 == 0)
  }

  function YearLength(y: int): int {
    if IsLeapYear(y) then 366 else 365
  }

  /** The number of days in month `m` of year `y`. */
  function DaysInMonth(y: int, m: int): (n: int)
    requires 0 <= m < 12
    ensures 28 <= n <= 31
    ensures m == 1 ==> (n == 29 <==> IsLeapYear(y))
  {
    if m == 1 then (if IsLeapYear(y) then 29 else 28)
    else if m == 3 || m == 5 || m == 8 || m == 10 then 30
    else 31
  }

  /** Days in the months of `y` before month `m`. */
  function DaysBeforeMonth(y: int, m: int): int
    requires 0 <= m <= 12
  {
    var leap := if IsLeapYear(y) then 1 else 0;
    if m == 0 then 0
    else if m == 1 then 31
    else [59, 90, 120, 151, 181, 212, 243, 273, 304, 334, 365][m - 2] + leap
  }

  /** Each month starts where the previous one ends, and the twelve months fill the year. */
  lemma MonthsAccumulate(y: int, m: int)
    requires 0 <= m < 12
    ensures DaysBeforeMonth(y, m + 1) == DaysBeforeMonth(y, m) + DaysInMonth(y, m)
    ensures DaysBeforeMonth(y, 12) == YearLength(y)
  {
  }

  /** Days from 1 January of year 1 to 1 January of `y`. */
  function DaysBeforeYear(y: int): int {
    var p := y - 1;
    365 * p + p / 4 - p / 100 + p / 400
  }

  /** The floor of `y / k` steps up by one exactly at the multiples of `k`. */
  lemma {:induction false} FloorStep(y: int, k: int)
    requires k == 4 || k == 100 || k == 400
    ensures y / k - (y - 1) / k == if y % k == 0 then 1 else 0
  {
    var q := y / k;
    var r := y % k;
    assert y == k * q + r && 0 <= r < k;
    if r == 0 {
      assert y - 1 == k * (q - 1) + (k - 1);
    } else {
      assert y - 1 == k * q + (r - 1);
    }
  }

  /** A multiple of 400 is a multiple of 100, and a multiple of 100 is a multiple of 4. */
  lemma {:induction false} Multiples(y: int)
    ensures y % 400 == 0 ==> y % 100 == 0
    ensures y % 100 == 0 ==> y % 4 == 0
  {
    if y % 400 == 0 {
      MultipleOfMultiple(y, 100, 4);
    }
    if y % 100 == 0 {
      MultipleOfMultiple(y, 4, 25);
    }
  }

  lemma {:induction false} MultipleOfMultiple(y: int, k: int, m: int)
    requires (k == 100 && m == 4) || (k == 4 && m == 25)
    requires y % (k * m) == 0
    ensures y % k == 0
  {
    var q := y / (k * m);
    assert y == (k * m) * q;
    assert y == k * (m * q);
  }

  /** Consecutive years are one year length apart. */
  lemma {:induction false} NextYear(y: int)
    ensures DaysBeforeYear(y + 1) == DaysBeforeYear(y) + YearLength(y)
  {
    FloorStep(y, 4);
    FloorStep(y, 100);
    FloorStep(y, 400);
    Multiples(y);
  }

  /** Days from 1 January of year 1 to `d`. */
  function DayNumber(d: Day): int
    requires Normal(d)
  {
    DaysBeforeYear(d.year) + DaysBeforeMonth(d.year, d.month) + d.day - 1
  }

  /** `getDay()`: 0 for Sunday up to 6 for Saturday; 1 January of year 1 was a Monday. */
  function Weekday(d: Day): (w: int)
    requires Normal(d)
    ensures 0 <= w < 7
  {
    (DayNumber(d) + 1) % 7
  }

  /** 1 January 1970 was a Thursday. */
  lemma EpochWeekday()
    ensures Weekday(Day(1970, 0, 1)) == 4
  {
  }

  /** Adding whole weeks does not change the weekday. */
  lemma {:induction false} ModSeven(a: int, b: int)
    ensures (a % 7 + b) % 7 == (a + b) % 7
  {
    var q := a / 7;
    assert a == 7 * q + a % 7;
    var x := a % 7 + b;
    assert x + 7 * q == a + b;
    assert x == 7 * (x / 7) + x % 7;
    assert a + b == 7 * (x / 7 + q) + x % 7;
  }

  /** The next month starts as many days later as this month has. */
  lemma {:induction false} NextMonthStart(y: int, m: int)
    requires 0 <= m < 12
    ensures DayNumber(ChangeMonth(Day(y, m, 1), 1)) == DayNumber(Day(y, m, 1)) + DaysInMonth(y, m)
  {
    var next := ChangeMonth(Day(y, m, 1), 1);
    MonthsAccumulate(y, m);
    if m == 11 {
      assert next == Day(y + 1, 0, 1);
      NextYear(y);
    } else {
      assert next == Day(y, m + 1, 1);
    }
  }

  /** The next month starts as many weekdays later as this month has days. */
  lemma {:induction false} NextMonthWeekday(y: int, m: int)
    requires 0 <= m < 12
    ensures Weekday(ChangeMonth(Day(y, m, 1), 1)) == (Weekday(Day(y, m, 1)) + DaysInMonth(y, m)) % 7
  {
    NextMonthStart(y, m);
    ModSeven(DayNumber(Day(y, m, 1)) + 1, DaysInMonth(y, m));
  }

  /** Later days of a month fall on the weekdays that follow the first's. */
  lemma DayOfMonthWeekday(y: int, m: int, day: int)
    requires 0 <= m < 12
    ensures Weekday(Day(y, m, day)) == (Weekday(Day(y, m, 1)) + day - 1) % 7
  {
    ModSeven(DayNumber(Day(y, m, 1)) + 1, day - 1);
  }
}
