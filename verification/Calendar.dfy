/** The Gregorian calendar that schedule dates are counted on. */
module Calendar {
  datatype Date = Date(year: int, month: int, day: int)

  predicate Leap(year: int) {
    year % 4 == 0 && (year % 100 != 0 || year % 400 == 0)
  }

  function DaysIn(year: int, month: int): (n: int)
    ensures 28 <= n <= 31
  {
    if month == 2 then (if Leap(year) then 29 else 28)
    else if month == 4 || month == 6 || month == 9 || month == 11 then 30
    else 31
  }

  predicate Valid(d: Date) {
    1 <= d.month <= 12 && 1 <= d.day <= DaysIn(d.year, d.month)
  }

  function FirstOfNextMonth(d: Date): Date {
    if d.month == 12 then Date(d.year + 1, 1, 1) else Date(d.year, d.month + 1, 1)
  }

  function NextDay(d: Date): (r: Date)
    requires Valid(d)
    ensures Valid(r)
  {
    if d.day < DaysIn(d.year, d.month) then d.(day := d.day + 1) else FirstOfNextMonth(d)
  }

  function AddDays(d: Date, n: nat): (r: Date)
    requires Valid(d)
    ensures Valid(r)
  {
    if n == 0 then d else NextDay(AddDays(d, n - 1))
  }

  function DaysBefore(year: int, month: int): int
    requires 1 <= month <= 13
  {
    if month == 1 then 0 else DaysBefore(year, month - 1) + DaysIn(year, month - 1)
  }

  /** How many of the years 1 to n are leap years. */
  function LeapYears(n: int): int {
    n / 4 - n / 100 + n / 400
  }

  /** The days of all the years before this one, counted from year 1. */
  function YearsBefore(year: int): int {
    365 * (year - 1) + LeapYears(year - 1)
  }

  /** Days since the eve of 0001-01-01, which was a Monday. */
  function DayNumber(d: Date): int
    requires Valid(d)
  {
    YearsBefore(d.year) + DaysBefore(d.year, d.month) + d.day
  }

  /** 0 is Sunday. */
  function Weekday(d: Date): (w: nat)
    requires Valid(d)
    ensures w < 7
  {
    DayNumber(d) % 7
  }

  lemma YearLength(year: int)
    ensures DaysBefore(year, 13) == if Leap(year) then 366 else 365
  {
    assert DaysBefore(year, 2) == 31;
    assert DaysBefore(year, 3) == 31 + DaysIn(year, 2);
    assert DaysBefore(year, 5) == DaysBefore(year, 3) + 61;
    assert DaysBefore(year, 7) == DaysBefore(year, 5) + 61;
    assert DaysBefore(year, 9) == DaysBefore(year, 7) + 62;
    assert DaysBefore(year, 11) == DaysBefore(year, 9) + 61;
  }

  lemma QuotientStep(n: int, step: int)
    requires step == 4 || step == 100 || step == 400
    ensures n / step == (n - 1) / step + if n % step == 0 then 1 else 0
  {
  }

  lemma NoRemainder(step: int, p: int, q: int, rest: int)
    requires step == 4 || step == 100
    requires step * p == step * q + rest && 0 <= rest < step
    ensures rest == 0
  {
  }

  lemma LeapMultiples(year: int)
    ensures year % 400 == 0 ==> year % 100 == 0
    ensures year % 100 == 0 ==> year % 4 == 0
  {
    if year % 400 == 0 {
      assert 400 * (year / 400) == 100 * (year / 100) + year % 100;
      NoRemainder(100, 4 * (year / 400), year / 100, year % 100);
    }
    if year % 100 == 0 {
      assert 100 * (year / 100) == 4 * (year / 4) + year % 4;
      NoRemainder(4, 25 * (year / 100), year / 4, year % 4);
    }
  }

  lemma LeapYearsStep(year: int)
    ensures LeapYears(year) == LeapYears(year - 1) + if Leap(year) then 1 else 0
  {
    QuotientStep(year, 4);
    QuotientStep(year, 100);
    QuotientStep(year, 400);
    LeapMultiples(year);
  }

  lemma YearStep(year: int)
    ensures YearsBefore(year + 1) == YearsBefore(year) + if Leap(year) then 366 else 365
  {
    hide LeapYears;
    LeapYearsStep(year);
  }

  lemma NextDayNumber(d: Date)
    requires Valid(d)
    ensures DayNumber(NextDay(d)) == DayNumber(d) + 1
  {
    hide YearsBefore;
    if d.day == DaysIn(d.year, d.month) && d.month == 12 {
      YearStep(d.year);
      YearLength(d.year);
      assert DaysBefore(d.year, 13) == DaysBefore(d.year, 12) + 31;
    }
  }

  /** Counting days forward agrees with the closed-form day number. */
  lemma {:induction false} AddDaysNumber(d: Date, n: nat)
    requires Valid(d)
    ensures DayNumber(AddDays(d, n)) == DayNumber(d) + n
  {
    hide DayNumber;
    if n > 0 {
      AddDaysNumber(d, n - 1);
      NextDayNumber(AddDays(d, n - 1));
    }
  }

  /** Weekdays repeat exactly every seven days. */
  lemma WeekdayComesBack(d: Date, n: nat)
    requires Valid(d)
    ensures Weekday(AddDays(d, n)) == Weekday(d) <==> n % 7 == 0
  {
    hide DayNumber, AddDays;
    AddDaysNumber(d, n);
    var base := DayNumber(d);
    assert (base + n) % 7 == base % 7 <==> n % 7 == 0;
  }

  lemma {:induction false} AddDaysSplit(d: Date, m: nat, n: nat)
    requires Valid(d)
    ensures AddDays(d, m + n) == AddDays(AddDays(d, m), n)
  {
    if n > 0 {
      AddDaysSplit(d, m, n - 1);
    }
  }

  lemma {:induction false} WithinMonth(d: Date, n: nat)
    requires Valid(d) && d.day + n <= DaysIn(d.year, d.month)
    ensures AddDays(d, n) == d.(day := d.day + n)
  {
    if n > 0 {
      WithinMonth(d, n - 1);
    }
  }

  /** Going on past the end of a month. */
  lemma PastMonth(d: Date, n: nat)
    requires Valid(d) && d.day + n > DaysIn(d.year, d.month)
    ensures Valid(FirstOfNextMonth(d))
    ensures AddDays(d, n) == AddDays(FirstOfNextMonth(d), d.day + n - DaysIn(d.year, d.month) - 1)
  {
    var left := DaysIn(d.year, d.month) - d.day;
    WithinMonth(d, left);
    AddDaysSplit(d, left + 1, n - left - 1);
  }

  /** Over less than 59 days, a day of the month comes back only after exactly one month that has it. */
  lemma DayComesBack(d: Date, n: nat)
    requires Valid(d) && 0 < n < 59
    ensures var next := FirstOfNextMonth(d);
            AddDays(d, n).day == d.day <==>
            n == DaysIn(d.year, d.month) && d.day <= DaysIn(next.year, next.month)
  {
    hide AddDays;
    var length := DaysIn(d.year, d.month);
    if d.day + n <= length {
      WithinMonth(d, n);
    } else {
      PastMonth(d, n);
      var next := FirstOfNextMonth(d);
      var m := d.day + n - length - 1;
      if 1 + m <= DaysIn(next.year, next.month) {
        WithinMonth(next, m);
      } else {
        assert length + DaysIn(next.year, next.month) >= 59;
        PastMonth(next, m);
        WithinMonth(FirstOfNextMonth(next), m - DaysIn(next.year, next.month));
      }
    }
  }

  /**
   * A weekday and a day of the month name a date uniquely over any 59 days, except that a common-year February
   * repeats them exactly 28 days later.
   */
  lemma SameLabelAgain(d: Date, n: nat)
    requires Valid(d) && 0 < n < 59
    ensures (AddDays(d, n).day == d.day && Weekday(AddDays(d, n)) == Weekday(d)) <==>
            (n == 28 && d.month == 2 && !Leap(d.year))
  {
    hide AddDays, Weekday;
    WeekdayComesBack(d, n);
    DayComesBack(d, n);
  }
}
