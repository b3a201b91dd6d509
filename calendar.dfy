/** Proleptic Gregorian calendar dates as Python's `datetime` holds them (years 1 to 9999),
    adding whole days with `timedelta`, and `strftime("%Y-%m-%d")` as glibc renders it
    (the year without padding, month and day with two digits). */
module Calendar {
  import opened Wrappers
  import Text

  datatype CivilDate = CivilDate(year: nat, month: nat, day: nat)

  predicate IsLeapYear(y: nat)
  {
    y % 4 == 0 && (y % 100 != 0 || y % 400 == 0)
  }

  function DaysInMonth(y: nat, m: nat): (n: nat)
    requires 1 <= m <= 12
    ensures 28 <= n <= 31
  {
    if m == 2 then (if IsLeapYear(y) then 29 else 28)
    else if m == 4 || m == 6 || m == 9 || m == 11 then 30
    else 31
  }

  /** A date `datetime` can represent. */
  predicate ValidDate(d: CivilDate)
  {
    1 <= d.year <= 9999 && 1 <= d.month <= 12 && 1 <= d.day <= DaysInMonth(d.year, d.month)
  }

  const MaxDate: CivilDate := CivilDate(9999, 12, 31)

  /** Calendar order. */
  predicate Before(a: CivilDate, b: CivilDate)
  {
    a.year < b.year || (a.year == b.year && (a.month < b.month || (a.month == b.month && a.day < b.day)))
  }

  /** The following day; `None` after the last representable date, where `datetime`
      raises `OverflowError`. */
  function NextDay(d: CivilDate): (r: Option<CivilDate>)
    requires ValidDate(d)
    ensures r.None? <==> d == MaxDate
    ensures r.Some? ==> ValidDate(r.value) && Before(d, r.value)
    ensures r.Some? ==> forall e :: ValidDate(e) && Before(d, e) ==> e == r.value || Before(r.value, e)
  {
    if d.day < DaysInMonth(d.year, d.month) then Some(CivilDate(d.year, d.month, d.day + 1))
    else if d.month < 12 then Some(CivilDate(d.year, d.month + 1, 1))
    else if d.year < 9999 then Some(CivilDate(d.year + 1, 1, 1))
    else None
  }

  function DaysInYear(y: nat): nat
  {
    if IsLeapYear(y) then 366 else 365
  }

  /** Days from 0001-01-01 to January 1st of year `y`. */
  function DaysBeforeYear(y: nat): nat
  {
    if y <= 1 then 0 else DaysBeforeYear(y - 1) + DaysInYear(y - 1)
  }

  /** Days from January 1st of year `y` to the first of month `m`. */
  function DaysBeforeMonth(y: nat, m: nat): nat
    requires 1 <= m <= 12
  {
    if m == 1 then 0 else DaysBeforeMonth(y, m - 1) + DaysInMonth(y, m - 1)
  }

  /** The day's position counted from 0001-01-01 (`date.toordinal() - 1`). */
  function DayNumber(d: CivilDate): nat
    requires ValidDate(d)
  {
    DaysBeforeYear(d.year) + DaysBeforeMonth(d.year, d.month) + d.day - 1
  }

  /** December ends the year. */
  lemma YearLength(y: nat)
    ensures DaysBeforeMonth(y, 12) + DaysInMonth(y, 12) == DaysInYear(y)
  {
    assert DaysBeforeMonth(y, 2) == 31;
    assert DaysBeforeMonth(y, 3) == 31 + DaysInMonth(y, 2);
    assert DaysBeforeMonth(y, 4) == DaysBeforeMonth(y, 3) + 31;
    assert DaysBeforeMonth(y, 5) == DaysBeforeMonth(y, 4) + 30;
    assert DaysBeforeMonth(y, 6) == DaysBeforeMonth(y, 5) + 31;
    assert DaysBeforeMonth(y, 7) == DaysBeforeMonth(y, 6) + 30;
    assert DaysBeforeMonth(y, 8) == DaysBeforeMonth(y, 7) + 31;
    assert DaysBeforeMonth(y, 9) == DaysBeforeMonth(y, 8) + 31;
    assert DaysBeforeMonth(y, 10) == DaysBeforeMonth(y, 9) + 30;
    assert DaysBeforeMonth(y, 11) == DaysBeforeMonth(y, 10) + 31;
    assert DaysBeforeMonth(y, 12) == DaysBeforeMonth(y, 11) + 30;
  }

  /** A month that is not December ends before December begins. */
  lemma {:induction false} MonthBeforeDecember(y: nat, m: nat)
    requires 1 <= m < 12
    ensures DaysBeforeMonth(y, m) + DaysInMonth(y, m) <= DaysBeforeMonth(y, 12)
    decreases 12 - m
  {
    if m < 11 {
      MonthBeforeDecember(y, m + 1);
    }
  }

  lemma {:induction false} DaysBeforeYearGrows(a: nat, b: nat)
    requires a <= b
    ensures DaysBeforeYear(a) <= DaysBeforeYear(b)
    decreases b - a
  {
    if a < b {
      DaysBeforeYearGrows(a, b - 1);
    }
  }

  /** Every day of year `y` lies before January 1st of the next year. */
  lemma InYear(d: CivilDate)
    requires ValidDate(d)
    ensures DayNumber(d) < DaysBeforeYear(d.year + 1)
    ensures d.month < 12 ==> DayNumber(d) < DaysBeforeYear(d.year) + DaysBeforeMonth(d.year, 12)
  {
    YearLength(d.year);
    if d.month < 12 {
      MonthBeforeDecember(d.year, d.month);
    }
  }

  /** The following day has the next day number. */
  lemma NextDayNumber(d: CivilDate)
    requires ValidDate(d) && d != MaxDate
    ensures NextDay(d).Some? && DayNumber(NextDay(d).value) == DayNumber(d) + 1
  {
    YearLength(d.year);
  }

  /** 9999-12-31 has the largest day number. */
  lemma AtMostMaxDate(d: CivilDate)
    requires ValidDate(d)
    ensures DayNumber(d) <= DayNumber(MaxDate)
    ensures DayNumber(d) == DayNumber(MaxDate) ==> d == MaxDate
  {
    InYear(d);
    if d.year < 9999 {
      DaysBeforeYearGrows(d.year + 1, 9999);
    }
  }

  /** `d + timedelta(days=n)`: defined exactly when it does not pass 9999-12-31, and then
      `n` days later. */
  function AddDays(d: CivilDate, n: nat): (r: Option<CivilDate>)
    requires ValidDate(d)
    ensures r.Some? ==> ValidDate(r.value)
    ensures n > 0 && r.Some? ==> Before(d, r.value)
    ensures r.Some? <==> DayNumber(d) + n <= DayNumber(MaxDate)
    ensures r.Some? ==> DayNumber(r.value) == DayNumber(d) + n
    decreases n
  {
    AtMostMaxDate(d);
    if n == 0 then Some(d)
    else
      var next := NextDay(d);
      if next.None? then None
      else
        NextDayNumber(d);
        AddDays(next.value, n - 1)
  }

  /** Three more days exist after every date except the last three. */
  lemma LastThreeDays(d: CivilDate)
    requires ValidDate(d)
    ensures DayNumber(d) + 3 > DayNumber(MaxDate) <==> d.year == 9999 && d.month == 12 && d.day >= 29
  {
    InYear(d);
    if d.year < 9999 {
      DaysBeforeYearGrows(d.year + 1, 9999);
    }
  }

  /** Adding one more day is taking the next day of the sum. */
  lemma {:induction false} AddDaysSucc(d: CivilDate, n: nat)
    requires ValidDate(d)
    ensures AddDays(d, n + 1) == (if AddDays(d, n).None? then None else NextDay(AddDays(d, n).value))
    decreases n
  {
    if n > 0 {
      var next := NextDay(d);
      if next.Some? {
        AddDaysSucc(next.value, n - 1);
      }
    }
  }

  /** Two decimal digits. */
  function TwoDigits(n: nat): (r: string)
    requires n < 100
    ensures |r| == 2 && Text.IsDigit(r[0]) && Text.IsDigit(r[1])
    ensures Text.DigitsValue(r) == n
  {
    var r := [Text.DigitChar(n / 10), Text.DigitChar(n % 10)];
    assert r[..1] == [Text.DigitChar(n / 10)];
    r
  }

  /** `strftime("%Y-%m-%d")`. */
  function Format(d: CivilDate): (r: string)
    requires ValidDate(d)
  {
    Text.NatToDecimal(d.year) + "-" + TwoDigits(d.month) + "-" + TwoDigits(d.day)
  }

  /** The rendering tells dates apart: it ends in the day and month, each two digits,
      and the year is read back from what precedes them. */
  lemma FormatInjective(a: CivilDate, b: CivilDate)
    requires ValidDate(a) && ValidDate(b) && Format(a) == Format(b)
    ensures a == b
  {
    var fa, fb := Format(a), Format(b);
    var ya, yb := Text.NatToDecimal(a.year), Text.NatToDecimal(b.year);
    assert |fa| == |ya| + 6 && |fb| == |yb| + 6;
    assert fa[|fa| - 2..] == TwoDigits(a.day) && fb[|fb| - 2..] == TwoDigits(b.day);
    assert fa[|fa| - 5..|fa| - 3] == TwoDigits(a.month) && fb[|fb| - 5..|fb| - 3] == TwoDigits(b.month);
    assert fa[..|ya|] == ya && fb[..|yb|] == yb;
    Text.DigitsValueOfDecimal(a.year);
    Text.DigitsValueOfDecimal(b.year);
  }
}
