/** The proleptic Gregorian calendar on day numbers (day 0 is 1970-01-01), the arithmetic behind
    JavaScript's `Date.UTC` and `getUTC*`, together with the gap bounds the cron search relies on. */
module Calendar {

  datatype Date = Date(year: int, month: int, day: int)

  predicate IsLeap(y: int) {
    y % 4 == 0 && (y % 100 != 0 || y % 400 == 0)
  }

  function DaysInMonth(y: int, m: int): int {
    if m == 2 then (if IsLeap(y) then 29 else 28)
    else if m == 4 || m == 6 || m == 9 || m == 11 then 30
    else 31
  }

  /** The longest that month `m` ever gets. */
  function MaxDays(m: int): int {
    if m == 2 then 29 else DaysInMonth(1, m)
  }

  predicate ValidDate(c: Date) {
    1 <= c.month <= 12 && 1 <= c.day <= DaysInMonth(c.year, c.month)
  }

  function DaysInYear(y: int): int {
    if IsLeap(y) then 366 else 365
  }

  /** Day number of 1 January of year `y`, counted year by year from 1970. */
  function YearStart(y: int): int
    decreases if y < 1970 then 1970 - y else y - 1970
  {
    if y == 1970 then 0
    else if y > 1970 then YearStart(y - 1) + DaysInYear(y - 1)
    else YearStart(y + 1) - DaysInYear(y)
  }

  /** Days of year `y` that precede month `m`. */
  function DaysBeforeMonth(y: int, m: int): int
    requires 1 <= m <= 13
    decreases m
  {
    if m == 1 then 0 else DaysBeforeMonth(y, m - 1) + DaysInMonth(y, m - 1)
  }

  function DayNumber(c: Date): int
    requires 1 <= c.month <= 12
  {
    YearStart(c.year) + DaysBeforeMonth(c.year, c.month) + c.day - 1
  }

  lemma YearLength(y: int)
    ensures YearStart(y + 1) == YearStart(y) + DaysInYear(y)
  {
  }

  lemma YearIsTwelveMonths(y: int)
    ensures YearStart(y) + DaysBeforeMonth(y, 13) == YearStart(y + 1)
  {
    YearLength(y);
    assert DaysBeforeMonth(y, 4) == DaysInMonth(y, 2) + 62;
    assert DaysBeforeMonth(y, 7) == DaysBeforeMonth(y, 4) + 91;
    assert DaysBeforeMonth(y, 10) == DaysBeforeMonth(y, 7) + 92;
    assert DaysBeforeMonth(y, 13) == DaysBeforeMonth(y, 10) + 92;
  }

  /** Walks from year `y` to the year that contains day `n`. */
  function YearFrom(n: int, y: int): (r: int)
    ensures YearStart(r) <= n < YearStart(r + 1)
    decreases if n < YearStart(y) then YearStart(y) - n
              else if n >= YearStart(y + 1) then n - YearStart(y + 1) + 1 else 0
  {
    YearLength(y - 1);
    YearLength(y);
    YearLength(y + 1);
    if n < YearStart(y) then YearFrom(n, y - 1)
    else if n >= YearStart(y + 1) then YearFrom(n, y + 1)
    else y
  }

  /** Walks from month `m` of year `y` to the month that contains day `n`. */
  function MonthFrom(n: int, y: int, m: int): (r: int)
    requires 1 <= m <= 12
    requires YearStart(y) + DaysBeforeMonth(y, m) <= n < YearStart(y + 1)
    ensures 1 <= r <= 12
    ensures YearStart(y) + DaysBeforeMonth(y, r) <= n < YearStart(y) + DaysBeforeMonth(y, r + 1)
    decreases 12 - m
  {
    YearIsTwelveMonths(y);
    if n < YearStart(y) + DaysBeforeMonth(y, m + 1) then m else MonthFrom(n, y, m + 1)
  }

  /** The calendar date of a day number: what `getUTCFullYear/Month/Date` read. */
  function Civil(n: int): (c: Date)
    ensures ValidDate(c)
    ensures DayNumber(c) == n
  {
    var y := YearFrom(n, 1970);
    var m := MonthFrom(n, y, 1);
    Date(y, m, n - YearStart(y) - DaysBeforeMonth(y, m) + 1)
  }

  lemma {:induction false} MonthsAdd(y: int, m: int, k: int)
    requires 1 <= m <= k <= 13
    ensures DaysBeforeMonth(y, m) + 28 * (k - m) <= DaysBeforeMonth(y, k)
    decreases k
  {
    if m < k {
      MonthsAdd(y, m, k - 1);
    }
  }

  lemma {:induction false} YearsAdd(y: int, z: int)
    requires y <= z
    ensures YearStart(y) + 365 * (z - y) <= YearStart(z) <= YearStart(y) + 366 * (z - y)
    decreases z - y
  {
    if y < z {
      YearsAdd(y, z - 1);
      YearLength(z - 1);
    }
  }

  /** A valid date lies inside its own month and year. */
  lemma DateBounds(c: Date)
    requires ValidDate(c)
    ensures YearStart(c.year) <= DayNumber(c) < YearStart(c.year + 1)
    ensures DayNumber(c) < YearStart(c.year) + DaysBeforeMonth(c.year, c.month + 1)
  {
    MonthsAdd(c.year, 1, c.month);
    MonthsAdd(c.year, c.month + 1, 13);
    YearIsTwelveMonths(c.year);
  }

  lemma DateOrder(a: Date, b: Date)
    requires ValidDate(a) && ValidDate(b)
    requires a.year < b.year || (a.year == b.year && a.month < b.month)
    ensures DayNumber(a) < DayNumber(b)
  {
    DateBounds(a);
    DateBounds(b);
    if a.year < b.year {
      YearsAdd(a.year + 1, b.year);
    } else {
      MonthsAdd(a.year, a.month + 1, b.month);
    }
  }

  /** Two valid dates with one day number are the same date. */
  lemma DayNumberInjective(a: Date, b: Date)
    requires ValidDate(a) && ValidDate(b) && DayNumber(a) == DayNumber(b)
    ensures a == b
  {
    if a.year < b.year || (a.year == b.year && a.month < b.month) {
      DateOrder(a, b);
    } else if b.year < a.year || (b.year == a.year && b.month < a.month) {
      DateOrder(b, a);
    }
  }

  lemma CivilOfDayNumber(c: Date)
    requires ValidDate(c)
    ensures Civil(DayNumber(c)) == c
  {
    DayNumberInjective(Civil(DayNumber(c)), c);
  }

  /** Day of the week as `getUTCDay` numbers it: 0 is Sunday, and 1970-01-01 was a Thursday. */
  function Weekday(n: int): (w: int)
    ensures 0 <= w <= 6
  {
    (n + 4) % 7
  }

  /** Within every seven days each weekday occurs. */
  lemma WeekdayOccurs(n: int, w: int) returns (d: int)
    requires 0 <= w <= 6
    ensures n <= d <= n + 6 && Weekday(d) == w
  {
    d := n + (w - n - 4) % 7;
  }

  /** A multiple of four that is not a leap year is followed by one that is. */
  lemma LeapAfterCommonFour(x: int)
    requires x % 4 == 0 && !IsLeap(x)
    ensures IsLeap(x + 4)
  {
  }

  lemma LeapYearWithin8(y: int) returns (k: int)
    ensures 1 <= k <= 8 && IsLeap(y + k)
    ensures IsLeap(y) ==> k == 4 || (k == 8 && !IsLeap(y + 4))
    ensures !IsLeap(y) ==> k <= 7
  {
    if y % 4 != 0 {
      k := 4 - y % 4;
      assert (y + k) % 4 == 0;
      if !IsLeap(y + k) {
        LeapAfterCommonFour(y + k);
        k := k + 4;
      }
    } else {
      k := 4;
      assert (y + k) % 4 == 0;
      if !IsLeap(y) {
        LeapAfterCommonFour(y);
      } else if !IsLeap(y + 4) {
        LeapAfterCommonFour(y + 4);
        k := 8;
      }
    }
  }

  lemma NoLeapBetween(y: int, k: int)
    requires IsLeap(y) && !IsLeap(y + 4)
    requires 0 < k < 8
    ensures !IsLeap(y + k)
  {
  }

  /** Years `y + 1` up to `y + k` have 365 days each when `y` is followed by eight years without a
      leap year. */
  lemma {:induction false} CommonYears(y: int, k: int)
    requires IsLeap(y) && !IsLeap(y + 4)
    requires 1 <= k <= 8
    ensures YearStart(y + k) == YearStart(y) + 365 * k + 1
    decreases k
  {
    if k == 1 {
      YearLength(y);
    } else {
      CommonYears(y, k - 1);
      NoLeapBetween(y, k - 1);
      YearLength(y + k - 1);
    }
  }

  lemma LeapDay(y: int)
    requires IsLeap(y)
    ensures Civil(YearStart(y) + 59) == Date(y, 2, 29)
  {
    assert DaysBeforeMonth(y, 2) == 31;
    CivilOfDayNumber(Date(y, 2, 29));
  }

  /** Before 29 February of a leap year, that day itself is ahead. */
  lemma LeapDayThisYear(n: int, y: int)
    requires YearStart(y) <= n < YearStart(y) + 59 && IsLeap(y)
    ensures Civil(YearStart(y) + 59) == Date(y, 2, 29)
  {
    LeapDay(y);
  }

  lemma LeapDayAhead(n: int, y: int) returns (d: int)
    requires YearStart(y) <= n < YearStart(y + 1)
    requires IsLeap(y) ==> YearStart(y) + 59 <= n
    ensures n < d <= n + 2921
    ensures Civil(d).month == 2 && Civil(d).day == 29
  {
    var k := LeapYearWithin8(y);
    d := YearStart(y + k) + 59;
    LeapDay(y + k);
    YearsAdd(y + 1, y + k);
    if k == 8 {
      CommonYears(y, 8);
    } else {
      YearsAdd(y, y + k);
      assert d <= YearStart(y) + 366 * k + 59;
    }
  }

  /** 29 February recurs within 2921 days of any day ... */
  lemma LeapDayWithin2921(n: int) returns (d: int)
    ensures n < d <= n + 2921
    ensures Civil(d).month == 2 && Civil(d).day == 29
  {
    var y := YearFrom(n, 1970);
    if IsLeap(y) && n < YearStart(y) + 59 {
      d := YearStart(y) + 59;
      LeapDayThisYear(n, y);
    } else {
      d := LeapDayAhead(n, y);
    }
  }

  /** ... and not sooner in general: across a century that is not leap (1896 to 1904, where
      `IsLeap(1900)` fails) the gap is exactly 2921 days. */
  lemma LeapDayGapIsTight(y: int, d: int)
    requires IsLeap(y) && !IsLeap(y + 4)
    requires YearStart(y) + 59 < d < YearStart(y) + 59 + 2921
    ensures !(Civil(d).month == 2 && Civil(d).day == 29)
    ensures Civil(YearStart(y) + 59) == Date(y, 2, 29)
    ensures Civil(YearStart(y) + 59 + 2921) == Date(y + 8, 2, 29)
  {
    CommonYears(y, 8);
    LeapDay(y);
    assert (y + 4) % 4 == 0;
    LeapAfterCommonFour(y + 4);
    LeapDay(y + 8);
    var c := Civil(d);
    if c.month == 2 && c.day == 29 {
      NoLeapDayBetween(y, c);
    }
  }

  lemma NoLeapDayBetween(y: int, c: Date)
    requires IsLeap(y) && !IsLeap(y + 4) && YearStart(y + 8) == YearStart(y) + 2921
    requires ValidDate(c) && c.month == 2 && c.day == 29
    ensures !(YearStart(y) + 59 < DayNumber(c) < YearStart(y) + 59 + 2921)
  {
    assert DaysBeforeMonth(c.year, 2) == 31;
    if c.year <= y {
      YearsAdd(c.year, y);
    } else if c.year >= y + 8 {
      YearsAdd(y + 8, c.year);
    } else {
      NoLeapBetween(y, c.year - y);
      assert false;
    }
  }
}
