/**
 * components/ui/date-selector.tsx: the calendar arithmetic behind the date
 * picker. A date is a local calendar triple (year, month 0..11, day); the
 * JavaScript `Date` constructor and `setDate` are modelled by `Normalize`,
 * which carries an out-of-range month or day over into the neighbouring
 * months and years of the proleptic Gregorian calendar.
 */
module DateSelector {

  datatype Date = Date(year: int, month: int, day: int)

  predicate IsLeap(y: int)
  {
    y % 4 == 0 && (y % 100 != 0 || y % 400 == 0)
  }

  /** The Gregorian month lengths, February by the leap-year rule. */
  function DaysInMonth(y: int, m: int): (n: int)
    requires 0 <= m < 12
    ensures 28 <= n <= 31
    ensures m == 1 ==> (n == 29 <==> IsLeap(y))
  {
    if m == 1 then (if IsLeap(y) then 29 else 28)
    else if m == 3 || m == 5 || m == 8 || m == 10 then 30
    else 31
  }

  predicate ValidDate(d: Date)
  {
    0 <= d.month < 12 && 1 <= d.day <= DaysInMonth(d.year, d.month)
  }

  // ---------------------------------------------------------------------------
  // Day numbers: a count of days that the normalisation preserves

  function YearLength(y: int): int
  {
    if IsLeap(y) then 366 else 365
  }

  /** Days of the months of year `y` before month `m` (m = 12 gives the whole year). */
  function DaysBeforeMonth(y: int, m: int): int
    requires 0 <= m <= 12
  {
    var l := if IsLeap(y) then 1 else 0;
    if m == 0 then 0 else if m == 1 then 31 else if m == 2 then 59 + l
    else if m == 3 then 90 + l else if m == 4 then 120 + l else if m == 5 then 151 + l
    else if m == 6 then 181 + l else if m == 7 then 212 + l else if m == 8 then 243 + l
    else if m == 9 then 273 + l else if m == 10 then 304 + l else if m == 11 then 334 + l
    else 365 + l
  }

  lemma MonthStep(y: int, m: int)
    requires 0 <= m < 12
    ensures DaysBeforeMonth(y, m + 1) == DaysBeforeMonth(y, m) + DaysInMonth(y, m)
    ensures DaysBeforeMonth(y, 12) == YearLength(y)
  {
  }

  /** Leap years among 1..n (for n below 1, minus those among n+1..0). */
  function Leaps(n: int): int
  {
    n / 4 - n / 100 + n / 400
  }

  function DaysBeforeYear(y: int): int
  {
    365 * y + Leaps(y - 1)
  }

  lemma FloorStep4(y: int)
    ensures y / 4 - (y - 1) / 4 == if y % 4 == 0 then 1 else 0
  {
  }

  lemma FloorStep100(y: int)
    ensures y / 100 - (y - 1) / 100 == if y % 100 == 0 then 1 else 0
  {
  }

  lemma FloorStep400(y: int)
    ensures y / 400 - (y - 1) / 400 == if y % 400 == 0 then 1 else 0
  {
  }

  /** A multiple of 400 is a multiple of 100. */
  lemma Multiple400(y: int)
    requires y % 400 == 0
    ensures y % 100 == 0
  {
    var q := y / 400;
    assert y == 400 * q;
    var j := 4 * q;
    assert y == 100 * j;
  }

  /** A multiple of 100 is a multiple of 4. */
  lemma Multiple100(y: int)
    requires y % 100 == 0
    ensures y % 4 == 0
  {
    var q := y / 100;
    assert y == 100 * q;
    var j := 25 * q;
    assert y == 4 * j;
  }

  lemma {:induction false} YearStep(y: int)
    ensures DaysBeforeYear(y + 1) == DaysBeforeYear(y) + YearLength(y)
  {
    FloorStep4(y);
    FloorStep100(y);
    FloorStep400(y);
    if y % 400 == 0 {
      Multiple400(y);
    }
    if y % 100 == 0 {
      Multiple100(y);
    }
    var a, b, c := y / 4 - (y - 1) / 4, y / 100 - (y - 1) / 100, y / 400 - (y - 1) / 400;
    assert Leaps(y) - Leaps(y - 1) == a - b + c;
    assert a - b + c == if IsLeap(y) then 1 else 0;
  }

  /** The number of the day `d` of month `m` of year `y`, for any `d`. */
  function DayNumber(y: int, m: int, d: int): int
    requires 0 <= m < 12
  {
    DaysBeforeYear(y) + DaysBeforeMonth(y, m) + d - 1
  }

  function DayNumberOf(date: Date): int
    requires 0 <= date.month < 12
  {
    DayNumber(date.year, date.month, date.day)
  }

  function PrevMonth(y: int, m: int): (r: (int, int))
    requires 0 <= m < 12
    ensures 0 <= r.1 < 12
  {
    if m == 0 then (y - 1, 11) else (y, m - 1)
  }

  function NextMonth(y: int, m: int): (r: (int, int))
    requires 0 <= m < 12
    ensures 0 <= r.1 < 12
  {
    if m == 11 then (y + 1, 0) else (y, m + 1)
  }

  /** Day 1 of a month comes right after the last day of the month before. */
  lemma MonthBoundary(y: int, m: int)
    requires 0 <= m < 12
    ensures var p := PrevMonth(y, m); DayNumber(y, m, 1) == DayNumber(p.0, p.1, DaysInMonth(p.0, p.1) + 1)
    ensures var n := NextMonth(y, m); DayNumber(n.0, n.1, 1) == DayNumber(y, m, DaysInMonth(y, m) + 1)
  {
    if m == 0 {
      YearStep(y - 1);
      MonthStep(y - 1, 11);
    } else {
      MonthStep(y, m - 1);
    }
    if m == 11 {
      YearStep(y);
      MonthStep(y, 11);
    } else {
      MonthStep(y, m);
    }
  }

  /** Carrying an out-of-range day into the neighbouring months, as `MakeDay` does. */
  function NormalizeDay(y: int, m: int, d: int): (r: Date)
    requires 0 <= m < 12
    ensures ValidDate(r)
    ensures DayNumberOf(r) == DayNumber(y, m, d)
    ensures 1 <= d <= DaysInMonth(y, m) ==> r == Date(y, m, d)
    decreases if d < 1 then 1 - d else 0, d
  {
    MonthBoundary(y, m);
    if d < 1 then
      var p := PrevMonth(y, m);
      NormalizeDay(p.0, p.1, d + DaysInMonth(p.0, p.1))
    else if d > DaysInMonth(y, m) then
      var n := NextMonth(y, m);
      NormalizeDay(n.0, n.1, d - DaysInMonth(y, m))
    else Date(y, m, d)
  }

  /** The date `MakeDay(y, m, d)` denotes, for any month and day: the month is carried into the year first. */
  function Normalize(y: int, m: int, d: int): (r: Date)
    ensures ValidDate(r)
    ensures DayNumberOf(r) == DayNumber(y + m / 12, m % 12, d)
    ensures ValidDate(Date(y, m, d)) ==> r == Date(y, m, d)
  {
    NormalizeDay(y + m / 12, m % 12, d)
  }

  /** `new Date(y, m, d)`: a year argument in 0..99 means 1900 + y. */
  function NewDate(y: int, m: int, d: int): (r: Date)
    ensures ValidDate(r)
    ensures !(0 <= y <= 99) ==> r == Normalize(y, m, d)
    ensures 0 <= y <= 99 ==> r == Normalize(1900 + y, m, d)
  {
    Normalize(if 0 <= y <= 99 then 1900 + y else y, m, d)
  }

  // ---------------------------------------------------------------------------
  // The selector

  /** `years`: ten consecutive years from five before the current one. */
  function Years(currentYear: int): (ys: seq<int>)
    ensures |ys| == 10
    ensures forall i | 0 <= i < |ys| :: ys[i] == currentYear - 5 + i
    ensures ys[0] == currentYear - 5 && ys[9] == currentYear + 4
  {
    seq(10, i => currentYear - 5 + i)
  }

  /**
   * Day 0 of the next month is the last day of this one. This holds outside the years 0..99, which the constructor
   * remaps.
   */
  lemma {:induction false} DayZeroIsLastDay(y: int, m: int)
    requires 0 <= m < 12
    requires !(0 <= y <= 99)
    ensures NewDate(y, m + 1, 0) == Date(y, m, DaysInMonth(y, m))
  {
    var n := NextMonth(y, m);
    assert (n.0, n.1) == (y + (m + 1) / 12, (m + 1) % 12);
    MonthBoundary(y, m);
    var r := NewDate(y, m + 1, 0);
    assert DayNumberOf(r) == DayNumber(y, m, DaysInMonth(y, m));
    DayNumberInjective(r, Date(y, m, DaysInMonth(y, m)));
  }

  /** `getDaysInMonth(year, month)`: the day before the first of the next month, the Gregorian length of the month. */
  function GetDaysInMonth(y: int, m: int): (r: int)
    ensures 0 <= m < 12 && !(0 <= y <= 99) ==> r == DaysInMonth(y, m)
  {
    if 0 <= m < 12 && !(0 <= y <= 99) then
      DayZeroIsLastDay(y, m);
      NewDate(y, m + 1, 0).day
    else NewDate(y, m + 1, 0).day
  }

  /** `handleDateChange(year, month, day)`: the date the constructor builds. */
  function HandleDateChange(year: int, month: int, day: int): (r: Date)
    ensures ValidDate(r)
    ensures !(0 <= year <= 99) && ValidDate(Date(year, month, day)) ==> r == Date(year, month, day)
  {
    NewDate(year, month, day)
  }

  /** `navigateDate('next')`: `setDate(getDate() + 1)` on a valid month, exactly one day later. */
  function Next(date: Date): (r: Date)
    requires ValidDate(date)
    ensures ValidDate(r)
    ensures DayNumberOf(r) == DayNumberOf(date) + 1
  {
    NormalizeDay(date.year, date.month, date.day + 1)
  }

  /** `navigateDate('prev')`: `setDate(getDate() - 1)` on a valid month, exactly one day earlier. */
  function Prev(date: Date): (r: Date)
    requires ValidDate(date)
    ensures ValidDate(r)
    ensures DayNumberOf(r) == DayNumberOf(date) - 1
  {
    NormalizeDay(date.year, date.month, date.day - 1)
  }

  /** Stepping forward crosses a month end into day 1 of the next month, and a year end into January 1. */
  lemma {:induction false} NextCrossesBoundaries(date: Date)
    requires ValidDate(date)
    ensures date.day < DaysInMonth(date.year, date.month) ==> Next(date) == Date(date.year, date.month, date.day + 1)
    ensures date.day == DaysInMonth(date.year, date.month) && date.month < 11 ==> Next(date) == Date(date.year, date.month + 1, 1)
    ensures date.day == 31 && date.month == 11 ==> Next(date) == Date(date.year + 1, 0, 1)
  {
    var y, m, d := date.year, date.month, date.day;
    if d == DaysInMonth(y, m) {
      var n := NextMonth(y, m);
      assert NormalizeDay(y, m, d + 1) == NormalizeDay(n.0, n.1, 1);
      assert NormalizeDay(n.0, n.1, 1) == Date(n.0, n.1, 1);
    }
  }

  /** Within the valid dates the day number is one-to-one. */
  lemma {:induction false} DayNumberInjective(a: Date, b: Date)
    requires ValidDate(a) && ValidDate(b)
    requires DayNumberOf(a) == DayNumberOf(b)
    ensures a == b
  {
    SameYear(a, b);
    SameMonth(a, b);
  }

  lemma {:induction false} SameYear(a: Date, b: Date)
    requires ValidDate(a) && ValidDate(b)
    requires DayNumberOf(a) == DayNumberOf(b)
    ensures a.year == b.year
  {
    YearBounds(a);
    YearBounds(b);
    if a.year < b.year {
      DaysBeforeYearMonotone(a.year + 1, b.year);
    } else if b.year < a.year {
      DaysBeforeYearMonotone(b.year + 1, a.year);
    }
  }

  lemma {:induction false} SameMonth(a: Date, b: Date)
    requires ValidDate(a) && ValidDate(b) && a.year == b.year
    requires DaysBeforeMonth(a.year, a.month) + a.day == DaysBeforeMonth(b.year, b.month) + b.day
    ensures a.month == b.month
  {
    MonthBounds(a);
    MonthBounds(b);
    if a.month < b.month {
      DaysBeforeMonthMonotone(a.year, a.month + 1, b.month);
    } else if b.month < a.month {
      DaysBeforeMonthMonotone(a.year, b.month + 1, a.month);
    }
  }

  lemma MonthBounds(a: Date)
    requires ValidDate(a)
    ensures DaysBeforeMonth(a.year, a.month) <= DaysBeforeMonth(a.year, a.month) + a.day - 1 < DaysBeforeMonth(a.year, a.month + 1)
  {
    MonthStep(a.year, a.month);
  }

  lemma YearBounds(a: Date)
    requires ValidDate(a)
    ensures DaysBeforeYear(a.year) <= DayNumberOf(a) < DaysBeforeYear(a.year + 1)
  {
    YearStep(a.year);
    MonthBounds(a);
    MonthStep(a.year, 11);
    DaysBeforeMonthMonotone(a.year, a.month + 1, 12);
  }

  lemma DaysBeforeMonthMonotone(y: int, i: int, j: int)
    requires 0 <= i <= j <= 12
    ensures DaysBeforeMonth(y, i) <= DaysBeforeMonth(y, j)
  {
  }

  lemma {:induction false} DaysBeforeYearMonotone(i: int, j: int)
    requires i <= j
    ensures DaysBeforeYear(i) <= DaysBeforeYear(j)
    decreases j - i
  {
    if i < j {
      YearStep(i);
      DaysBeforeYearMonotone(i + 1, j);
    }
  }

  /** "Anterior" undoes "Siguiente" and vice versa. */
  lemma {:induction false} PrevNextInverse(date: Date)
    requires ValidDate(date)
    ensures Prev(Next(date)) == date
    ensures Next(Prev(date)) == date
  {
    DayNumberInjective(Prev(Next(date)), date);
    DayNumberInjective(Next(Prev(date)), date);
  }

  /** The year select keeps month and day and lets the constructor carry them over: no clamping. */
  function YearChange(date: Date, year: int): (r: Date)
    requires ValidDate(date)
    ensures ValidDate(r)
    ensures !(0 <= year <= 99) && date.day <= DaysInMonth(year, date.month) ==> r == Date(year, date.month, date.day)
  {
    HandleDateChange(year, date.month, date.day)
  }

  /** February 29 moved to a common year becomes March 1. */
  lemma {:induction false} LeapDayYearChange(date: Date, year: int)
    requires ValidDate(date) && date.month == 1 && date.day == 29
    requires !IsLeap(year) && !(0 <= year <= 99)
    ensures YearChange(date, year) == Date(year, 2, 1)
  {
    assert 1 / 12 == 0 && 1 % 12 == 1;
    assert NormalizeDay(year, 1, 29) == NormalizeDay(year, 2, 1);
  }

  /** The month select clamps the day to the new month's length, so the date stays in that month. */
  function MonthChange(date: Date, month: int): (r: Date)
    requires ValidDate(date) && 0 <= month < 12
    requires !(0 <= date.year <= 99)
    ensures ValidDate(r)
    ensures r.year == date.year && r.month == month
    ensures r.day == if date.day <= DaysInMonth(date.year, month) then date.day else DaysInMonth(date.year, month)
  {
    var maxDay := GetDaysInMonth(date.year, month);
    var day := if date.day < maxDay then date.day else maxDay;
    assert ValidDate(Date(date.year, month, day));
    HandleDateChange(date.year, month, day)
  }

  /** One button of the day grid: its number and whether it is highlighted. */
  datatype DayButton = DayButton(day: int, highlighted: bool)

  /** The day grid: 1..daysInMonth in order, highlighting exactly the selected day. */
  function DayGrid(date: Date): (grid: seq<DayButton>)
    requires ValidDate(date) && !(0 <= date.year <= 99)
    ensures |grid| == DaysInMonth(date.year, date.month)
    ensures forall i | 0 <= i < |grid| :: grid[i].day == i + 1
    ensures forall i | 0 <= i < |grid| :: grid[i].highlighted <==> i == date.day - 1
  {
    seq(GetDaysInMonth(date.year, date.month), i => DayButton(i + 1, i + 1 == date.day))
  }
}
