/** Calendar dates written `YYYY-MM-DD`, as the booking form's date inputs
    produce them and as the dashboard finds them inside activity descriptions.
    JavaScript reads such a string as midnight UTC of that day, so differences
    and comparisons of the parsed dates are differences and comparisons of day
    numbers: here, days counted from 0000-01-01 of the proleptic Gregorian
    calendar. */
module Dates {
  import opened Wrappers
  import opened Numerals

  predicate IsLeapYear(y: int) { y % 4 == 0 && (y % 100 != 0 || y % 400 == 0) }

  function DaysInMonth(y: int, m: int): (n: int)
    requires 1 <= m <= 12
    ensures 28 <= n <= 31
  {
    if m == 2 then (if IsLeapYear(y) then 29 else 28)
    else if m == 4 || m == 6 || m == 9 || m == 11 then 30
    else 31
  }

  function YearLength(y: int): int { if IsLeapYear(y) then 366 else 365 }

  /** Days in the months of year y that come before month m. */
  function DaysBeforeMonth(y: int, m: int): (n: nat)
    requires 1 <= m <= 13
    decreases m
  {
    if m == 1 then 0 else DaysBeforeMonth(y, m - 1) + DaysInMonth(y, m - 1)
  }

  /** Days in the years 0 .. y-1 of the proleptic Gregorian calendar: 365
      each, plus one for every leap year among them (the multiples of 4,
      less those of 100, plus those of 400). */
  function DaysBeforeYear(y: nat): int {
    365 * y + (y + 3) / 4 - (y + 99) / 100 + (y + 399) / 400
  }

  /** Adding a year adds that year's length. */
  lemma NextYear(y: nat)
    ensures DaysBeforeYear(y + 1) == DaysBeforeYear(y) + YearLength(y)
  {
    LeapStep4(y);
    LeapStep100(y);
    LeapStep400(y);
    if y % 400 == 0 {
      MultipleOf400(y);
    } else if y % 100 == 0 {
      MultipleOf100(y);
    }
  }

  lemma MultipleOf400(y: nat)
    requires y % 400 == 0
    ensures y % 100 == 0 && y % 4 == 0
  {
    var q := y / 400;
    assert y == 400 * q;
    assert y / 100 == 4 * q;
    assert y / 4 == 100 * q;
  }

  lemma MultipleOf100(y: nat)
    requires y % 100 == 0
    ensures y % 4 == 0
  {
    var q := y / 100;
    assert y == 100 * q;
    assert y / 4 == 25 * q;
  }

  /** Each count of multiples (of 4, 100 and 400) among the years grows
      by one exactly at a multiple. */
  lemma LeapStep4(y: nat)
    ensures (y + 4) / 4 - (y + 3) / 4 == if y % 4 == 0 then 1 else 0
  {
  }

  lemma LeapStep100(y: nat)
    ensures (y + 100) / 100 - (y + 99) / 100 == if y % 100 == 0 then 1 else 0
  {
  }

  lemma LeapStep400(y: nat)
    ensures (y + 400) / 400 - (y + 399) / 400 == if y % 400 == 0 then 1 else 0
  {
  }

  /** A year, month and day as written; not necessarily a real calendar date. */
  datatype Date = Date(year: nat, month: int, day: int)

  predicate ValidDate(d: Date) { 1 <= d.month <= 12 && 1 <= d.day <= DaysInMonth(d.year, d.month) }

  function DayNumber(d: Date): int
    requires ValidDate(d)
  {
    DaysBeforeYear(d.year) + DaysBeforeMonth(d.year, d.month) + d.day - 1
  }

  /** The calendar order: strict lexicographic order on (year, month, day). */
  predicate Before(d1: Date, d2: Date) {
    d1.year < d2.year || (d1.year == d2.year && (d1.month < d2.month || (d1.month == d2.month && d1.day < d2.day)))
  }

  lemma {:induction false} YearsAreOrdered(y1: nat, y2: nat)
    requires y1 < y2
    ensures DaysBeforeYear(y1 + 1) <= DaysBeforeYear(y2)
    decreases y2 - y1
  {
    NextYear(y1);
    if y1 + 1 < y2 {
      NextYear(y1 + 1);
      YearsAreOrdered(y1 + 1, y2);
    }
  }

  lemma {:induction false} MonthsAreOrdered(y: int, m1: int, m2: int)
    requires 1 <= m1 < m2 <= 13
    ensures DaysBeforeMonth(y, m1 + 1) <= DaysBeforeMonth(y, m2)
    decreases m2 - m1
  {
    if m1 + 1 < m2 { MonthsAreOrdered(y, m1 + 1, m2); }
  }

  lemma {:induction false} WholeYear(y: int)
    ensures DaysBeforeMonth(y, 13) == YearLength(y)
  {
    var months := [DaysBeforeMonth(y, 1), DaysBeforeMonth(y, 2), DaysBeforeMonth(y, 3),
                   DaysBeforeMonth(y, 4), DaysBeforeMonth(y, 5), DaysBeforeMonth(y, 6),
                   DaysBeforeMonth(y, 7), DaysBeforeMonth(y, 8), DaysBeforeMonth(y, 9),
                   DaysBeforeMonth(y, 10), DaysBeforeMonth(y, 11), DaysBeforeMonth(y, 12)];
  }

  /** A valid date lies inside its own year. */
  lemma DayInYear(d: Date)
    requires ValidDate(d)
    ensures DaysBeforeYear(d.year) <= DayNumber(d) < DaysBeforeYear(d.year + 1)
  {
    WholeYear(d.year);
    NextYear(d.year);
    if d.month < 12 { MonthsAreOrdered(d.year, d.month, 13); }
  }

  /** Day numbers order valid dates exactly as the calendar does. */
  lemma DayNumberOrder(d1: Date, d2: Date)
    requires ValidDate(d1) && ValidDate(d2)
    ensures DayNumber(d1) < DayNumber(d2) <==> Before(d1, d2)
  {
    DayInYear(d1);
    DayInYear(d2);
    if d1.year < d2.year {
      YearsAreOrdered(d1.year, d2.year);
    } else if d2.year < d1.year {
      YearsAreOrdered(d2.year, d1.year);
    } else if d1.month < d2.month {
      MonthsAreOrdered(d1.year, d1.month, d2.month);
    } else if d2.month < d1.month {
      MonthsAreOrdered(d1.year, d2.month, d1.month);
    }
  }

  /** Within one month, day numbers differ by the difference of the days. */
  lemma SameMonth(d1: Date, d2: Date)
    requires ValidDate(d1) && ValidDate(d2)
    requires d1.year == d2.year && d1.month == d2.month
    ensures DayNumber(d2) - DayNumber(d1) == d2.day - d1.day
  {
  }

  /** The calendar day after d: the next day of its month, else the first
      of the next month, else 1 January of the next year. */
  function NextDate(d: Date): (n: Date)
    requires ValidDate(d)
    ensures ValidDate(n) && Before(d, n)
  {
    if d.day < DaysInMonth(d.year, d.month) then Date(d.year, d.month, d.day + 1)
    else if d.month < 12 then Date(d.year, d.month + 1, 1)
    else Date(d.year + 1, 1, 1)
  }

  /** The day after a date has the next day number, across the end of a
      month or of a year too. */
  lemma NextDay(d: Date)
    requires ValidDate(d)
    ensures DayNumber(NextDate(d)) == DayNumber(d) + 1
  {
    if d.day == DaysInMonth(d.year, d.month) && d.month == 12 {
      NextYear(d.year);
      WholeYear(d.year);
    }
  }

  /** Exactly ten characters shaped `DDDD-DD-DD`. */
  predicate IsoShape(s: seq<char>) {
    |s| == 10 && AllDigits(s[..4]) && s[4] == '-' && AllDigits(s[5..7]) && s[7] == '-' && AllDigits(s[8..])
  }

  /** The year, month and day written in a `DDDD-DD-DD` string. */
  function IsoFields(s: seq<char>): Date
    requires IsoShape(s)
  {
    Date(DigitsValue(s[..4]), DigitsValue(s[5..7]), DigitsValue(s[8..]))
  }

  /** `new Date(s)` for a date-only string: the day number of a real calendar
      date written `YYYY-MM-DD`, or None (an invalid Date) for anything else. */
  function ParseIsoDate(s: seq<char>): (r: Option<int>)
    ensures r.Some? <==> IsoShape(s) && ValidDate(IsoFields(s))
    ensures r.Some? ==> r.value == DayNumber(IsoFields(s))
  {
    if IsoShape(s) && ValidDate(IsoFields(s)) then Some(DayNumber(IsoFields(s))) else None
  }

  /** Is there a `\d{4}-\d{2}-\d{2}` match starting at index i? */
  predicate IsoShapeAt(s: seq<char>, i: nat) { i + 10 <= |s| && IsoShape(s[i..i + 10]) }

  /** `s.match(/\d{4}-\d{2}-\d{2}/)?.[0]`: the leftmost match, scanning from index i. */
  function FindIsoDate(s: seq<char>, i: nat): (r: Option<seq<char>>)
    requires i <= |s|
    ensures r.None? <==> forall k :: i <= k <= |s| ==> !IsoShapeAt(s, k)
    ensures r.Some? ==> exists k :: i <= k <= |s| && IsoShapeAt(s, k) && r.value == s[k..k + 10] &&
                                    forall k' :: i <= k' < k ==> !IsoShapeAt(s, k')
    decreases |s| - i
  {
    if i + 10 > |s| then None
    else if IsoShape(s[i..i + 10]) then assert IsoShapeAt(s, i); Some(s[i..i + 10])
    else FindIsoDate(s, i + 1)
  }
}
