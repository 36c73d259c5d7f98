/**
  Gregorian dates to the Saka calendar.

  A Saka year starts on 22 March, or 21 March of a leap year. The program's list
  of month lengths adds up to 365, so the last day of a Saka year of 366 days
  falls through the loop.
 */
module Saka {

  /* ---------------------------- Gregorian days --------------------------- */

  predicate Leap(year: int) {
    year % 4 == 0 && (year % 100 != 0 || year % 400 == 0)
  }

  function MonthLength(leap: bool, month: nat): nat
    requires 1 <= month <= 12
  {
    if month == 2 then (if leap then 29 else 28)
    else if month == 4 || month == 6 || month == 9 || month == 11 then 30
    else 31
  }

  datatype Date = Date(year: int, month: nat, day: nat)
  {
    predicate Valid() {
      1 <= month <= 12 && 1 <= day <= MonthLength(Leap(year), month)
    }

    predicate Before(that: Date) {
      year < that.year ||
      (year == that.year && (month < that.month || (month == that.month && day < that.day)))
    }

    // The proleptic Gregorian ordinal; 1 January of year 1 is day 1.
    function Ordinal(): int
      requires Valid()
    {
      DaysBeforeYear(year) + DaysBeforeMonth(Leap(year), month) + day
    }
  }

  function YearLength(year: int): nat {
    if Leap(year) then 366 else 365
  }

  function DaysBeforeYear(year: int): int
    decreases if year >= 1 then year else 2 - year
  {
    if year == 1 then 0
    else if year > 1 then DaysBeforeYear(year - 1) + YearLength(year - 1)
    else DaysBeforeYear(year + 1) - YearLength(year)
  }

  function DaysBeforeMonth(leap: bool, month: nat): nat
    requires 1 <= month <= 12
  {
    if month == 1 then 0 else DaysBeforeMonth(leap, month - 1) + MonthLength(leap, month - 1)
  }

  lemma NextYear(year: int)
    ensures DaysBeforeYear(year + 1) == DaysBeforeYear(year) + YearLength(year)
  {}

  lemma {:induction false} YearsAdvance(a: int, b: int)
    requires a <= b
    ensures DaysBeforeYear(a) + 365 * (b - a) <= DaysBeforeYear(b)
    decreases b - a
  {
    if a < b {
      YearsAdvance(a, b - 1);
      NextYear(b - 1);
    }
  }

  lemma {:induction false} MonthsAdvance(leap: bool, a: nat, b: nat)
    requires 1 <= a < b <= 12
    ensures DaysBeforeMonth(leap, a) + MonthLength(leap, a) <= DaysBeforeMonth(leap, b)
    decreases b
  {
    if a + 1 < b {
      MonthsAdvance(leap, a, b - 1);
    }
  }

  lemma DaysBeforeEachMonth(leap: bool)
    ensures DaysBeforeMonth(leap, 3) == (if leap then 60 else 59)
    ensures DaysBeforeMonth(leap, 12) == (if leap then 335 else 334)
  {
    assert DaysBeforeMonth(leap, 2) == 31;
    assert DaysBeforeMonth(leap, 5) == DaysBeforeMonth(leap, 3) + 61;
    assert DaysBeforeMonth(leap, 7) == DaysBeforeMonth(leap, 5) + 61;
    assert DaysBeforeMonth(leap, 9) == DaysBeforeMonth(leap, 7) + 62;
    assert DaysBeforeMonth(leap, 11) == DaysBeforeMonth(leap, 9) + 61;
  }

  // How many leap years there have been before a year.
  function LeapYearsBefore(year: int): int {
    (year - 1) / 4 - (year - 1) / 100 + (year - 1) / 400
  }

  // The days before a year, counted in closed form.
  lemma {:induction false} DaysBeforeYearIs(year: int)
    ensures DaysBeforeYear(year) == 365 * (year - 1) + LeapYearsBefore(year)
    decreases if year >= 1 then year else 2 - year
  {
    if year > 1 {
      DaysBeforeYearIs(year - 1);
      OneYearMore(year - 1);
    } else if year < 1 {
      DaysBeforeYearIs(year + 1);
      OneYearMore(year);
    }
  }

  lemma OneYearMore(year: int)
    ensures LeapYearsBefore(year + 1) == LeapYearsBefore(year) + if Leap(year) then 1 else 0
  {
    OneMoreBy4(year);
    OneMoreBy100(year);
    OneMoreBy400(year);
    assert year % 400 == 0 ==> year % 100 == 0;
    assert year % 100 == 0 ==> year % 4 == 0;
  }

  lemma OneMoreBy4(year: int)
    ensures year / 4 == (year - 1) / 4 + if year % 4 == 0 then 1 else 0
  {}

  lemma OneMoreBy100(year: int)
    ensures year / 100 == (year - 1) / 100 + if year % 100 == 0 then 1 else 0
  {}

  lemma OneMoreBy400(year: int)
    ensures year / 400 == (year - 1) / 400 + if year % 400 == 0 then 1 else 0
  {}

  lemma OrdinalWithinYear(d: Date)
    requires d.Valid()
    ensures DaysBeforeYear(d.year) < d.Ordinal() <= DaysBeforeYear(d.year + 1)
  {
    DaysBeforeEachMonth(Leap(d.year));
    NextYear(d.year);
    if d.month < 12 {
      MonthsAdvance(Leap(d.year), d.month, 12);
    }
  }

  // Field by field comparison is comparison of ordinals.
  lemma BeforeIsByOrdinal(a: Date, b: Date)
    requires a.Valid() && b.Valid()
    ensures a.Before(b) <==> a.Ordinal() < b.Ordinal()
    ensures a == b <==> a.Ordinal() == b.Ordinal()
  {
    OrdinalWithinYear(a);
    OrdinalWithinYear(b);
    if a.year < b.year {
      YearsAdvance(a.year + 1, b.year);
    } else if b.year < a.year {
      YearsAdvance(b.year + 1, a.year);
    } else if a.month < b.month {
      MonthsAdvance(Leap(a.year), a.month, b.month);
    } else if b.month < a.month {
      MonthsAdvance(Leap(a.year), b.month, a.month);
    }
  }

  /* ------------------------------- Saka dates ---------------------------- */

  const SAKA_MONTH_DAYS: seq<nat> := [30, 31, 31, 31, 31, 31, 30, 30, 30, 30, 30, 30]

  function SakaChaitra1(gregYear: int): (d: Date)
    ensures d.Valid()
  {
    if gregYear % 4 == 0 && (gregYear % 100 != 0 || gregYear % 400 == 0)
    then Date(gregYear, 3, 21)
    else Date(gregYear, 3, 22)
  }

  // Chaitra 1 is always the 81st day of its Gregorian year, so the Saka year
  // that starts in a Gregorian year is as long as that year.
  lemma ChaitraIsDay81(gregYear: int)
    ensures SakaChaitra1(gregYear).Ordinal() == DaysBeforeYear(gregYear) + 81
    ensures SakaChaitra1(gregYear + 1).Ordinal() ==
            SakaChaitra1(gregYear).Ordinal() + YearLength(gregYear)
  {
    DaysBeforeEachMonth(Leap(gregYear));
    DaysBeforeEachMonth(Leap(gregYear + 1));
    NextYear(gregYear);
  }

  datatype SakaDate = SakaDate(year: int, month: nat, day: nat)
  {
    predicate Less(that: SakaDate) {
      year < that.year ||
      (year == that.year && (month < that.month || (month == that.month && day < that.day)))
    }
  }

  // Days of a Saka year before the given month, counted from 0.
  function DaysBeforeSakaMonth(month: nat): nat
    requires month <= 12
  {
    if month == 0 then 0 else DaysBeforeSakaMonth(month - 1) + SAKA_MONTH_DAYS[month - 1]
  }

  lemma SakaYearHas365Days()
    ensures DaysBeforeSakaMonth(11) == 335 && DaysBeforeSakaMonth(12) == 365
  {
    assert DaysBeforeSakaMonth(3) == 92;
    assert DaysBeforeSakaMonth(6) == 185;
    assert DaysBeforeSakaMonth(9) == 275;
  }

  // The 366th day of a Saka year: 21 March after a leap year.
  predicate LeapYearEnd(d: Date) {
    d.month == 3 && d.day == 21 && Leap(d.year - 1)
  }

  // The day a Saka date stands for.
  function SakaOrdinal(s: SakaDate): int
    requires s.month < 12
  {
    SakaChaitra1(s.year + 78).Ordinal() + DaysBeforeSakaMonth(s.month) + s.day - 1
  }

  predicate ProperSaka(s: SakaDate) {
    s.month < 12 && 1 <= s.day <= SAKA_MONTH_DAYS[s.month]
  }

  // s is what the program answers for d.
  ghost predicate Converts(d: Date, s: SakaDate)
    requires d.Valid()
  {
    ProperSaka(s) &&
    if LeapYearEnd(d) then s == SakaDate(d.year - 79, 11, 1)
    else SakaOrdinal(s) == d.Ordinal() < SakaChaitra1(s.year + 79).Ordinal()
  }

  // The Gregorian day on which each Saka month of the program begins, one day
  // earlier in a leap year: 22 March, 21 April, 22 May and so on.
  const MONTH_BEGINS: seq<(nat, nat)> := [
    (3, 22), (4, 21), (5, 22), (6, 22), (7, 23), (8, 23), (9, 23), (10, 23), (11, 22), (12, 22), (1, 21), (2, 20)]

  function BeginsOn(sakaYear: int, month: nat): Date
    requires month < 12
  {
    var year := sakaYear + 78;
    Date(if month < 10 then year else year + 1, MONTH_BEGINS[month].0, MONTH_BEGINS[month].1 - if Leap(year) then 1 else 0)
  }

  lemma DaysBeforeAllMonths(leap: bool)
    ensures forall m :: 1 <= m <= 12 ==>
              DaysBeforeMonth(leap, m) == [0, 31, 59, 90, 120, 151, 181, 212, 243, 273, 304, 334][m - 1] + if leap && m > 2 then 1 else 0
  {
    DaysBeforeEachMonth(leap);
    assert DaysBeforeMonth(leap, 2) == 31;
    assert DaysBeforeMonth(leap, 4) == DaysBeforeMonth(leap, 3) + 31;
    assert DaysBeforeMonth(leap, 5) == DaysBeforeMonth(leap, 4) + 30;
    assert DaysBeforeMonth(leap, 6) == DaysBeforeMonth(leap, 5) + 31;
    assert DaysBeforeMonth(leap, 7) == DaysBeforeMonth(leap, 6) + 30;
    assert DaysBeforeMonth(leap, 8) == DaysBeforeMonth(leap, 7) + 31;
    assert DaysBeforeMonth(leap, 9) == DaysBeforeMonth(leap, 8) + 31;
    assert DaysBeforeMonth(leap, 10) == DaysBeforeMonth(leap, 9) + 30;
    assert DaysBeforeMonth(leap, 11) == DaysBeforeMonth(leap, 10) + 31;
  }

  lemma DaysBeforeAllSakaMonths()
    ensures forall m :: 0 <= m < 12 ==>
              DaysBeforeSakaMonth(m) == [0, 30, 61, 92, 123, 154, 185, 215, 245, 275, 305, 335][m]
  {
    assert DaysBeforeSakaMonth(1) == 30;
    assert DaysBeforeSakaMonth(2) == 61;
    assert DaysBeforeSakaMonth(3) == 92;
    assert DaysBeforeSakaMonth(4) == 123;
    assert DaysBeforeSakaMonth(5) == 154;
    assert DaysBeforeSakaMonth(6) == 185;
    assert DaysBeforeSakaMonth(7) == 215;
    assert DaysBeforeSakaMonth(8) == 245;
    assert DaysBeforeSakaMonth(9) == 275;
    assert DaysBeforeSakaMonth(10) == 305;
  }

  lemma SakaMonthsBegin(sakaYear: int, month: nat)
    requires month < 12
    ensures BeginsOn(sakaYear, month).Valid()
    ensures SakaOrdinal(SakaDate(sakaYear, month, 1)) == BeginsOn(sakaYear, month).Ordinal()
  {
    hide DaysBeforeYear, DaysBeforeMonth, DaysBeforeSakaMonth;
    var year := sakaYear + 78;
    DaysBeforeAllMonths(Leap(year));
    DaysBeforeAllMonths(Leap(year + 1));
    DaysBeforeAllSakaMonths();
    NextYear(year);
    ChaitraIsDay81(year);
  }

  // 21 March is day 80 of a common year.
  lemma DayEighty(d: Date)
    requires d.Valid()
    ensures d.Before(SakaChaitra1(d.year)) <==> d.Ordinal() <= DaysBeforeYear(d.year) + 80
    ensures !Leap(d.year) ==> (d.month == 3 && d.day == 21 <==> d.Ordinal() == DaysBeforeYear(d.year) + 80)
  {
    var leap := Leap(d.year);
    DaysBeforeEachMonth(leap);
    if d.month < 3 {
      MonthsAdvance(leap, d.month, 3);
    } else if d.month > 3 {
      MonthsAdvance(leap, 3, d.month);
    }
  }

  lemma LeapYearEndIsDay366(d: Date)
    requires d.Valid()
    ensures LeapYearEnd(d) ==> d.Ordinal() == SakaChaitra1(d.year - 1).Ordinal() + 365
  {
    if LeapYearEnd(d) {
      assert !Leap(d.year);
      DayEighty(d);
      ChaitraIsDay81(d.year - 1);
      ChaitraIsDay81(d.year);
    }
  }

  method ToSaka(dob: Date) returns (s: SakaDate)
    requires dob.Valid()
    ensures Converts(dob, s)
  {
    var chaitra1 := SakaChaitra1(dob.year);
    var sakaYear := dob.year - 78;
    BeforeIsByOrdinal(dob, chaitra1);
    if dob.Before(chaitra1) {
      sakaYear := sakaYear - 1;
      chaitra1 := SakaChaitra1(dob.year - 1);
    }
    var delta := dob.Ordinal() - chaitra1.Ordinal() + 1;
    DeltaIsInRange(dob, sakaYear);
    var monthIdx := 0;
    while monthIdx < 12
      invariant monthIdx <= 12
      invariant delta >= 1
      invariant delta + DaysBeforeSakaMonth(monthIdx) == dob.Ordinal() - chaitra1.Ordinal() + 1
    {
      var monthLen := SAKA_MONTH_DAYS[monthIdx];
      if delta <= monthLen {
        ShorterThanAYear(dob, monthIdx, delta);
        return SakaDate(sakaYear, monthIdx, delta);
      }
      delta := delta - monthLen;
      monthIdx := monthIdx + 1;
    }
    SakaYearHas365Days();
    return SakaDate(sakaYear, 11, delta);
  }

  // Counted from its Chaitra 1, a date is day 1 to 365, or day 366 after a leap year.
  lemma DeltaIsInRange(d: Date, sakaYear: int)
    requires d.Valid()
    requires sakaYear == d.year - 78 - if d.Before(SakaChaitra1(d.year)) then 1 else 0
    ensures var delta := d.Ordinal() - SakaChaitra1(sakaYear + 78).Ordinal() + 1;
            1 <= delta <= 366 && (delta == 366 <==> LeapYearEnd(d)) && d.Ordinal() < SakaChaitra1(sakaYear + 79).Ordinal()
  {
    hide DaysBeforeYear, DaysBeforeMonth, MonthLength;
    OrdinalWithinYear(d);
    DayEighty(d);
    var y := d.year;
    NextYear(y);
    NextYear(y - 1);
    ChaitraIsDay81(y);
    ChaitraIsDay81(y - 1);
    assert Leap(y - 1) ==> !Leap(y);
    if d.Before(SakaChaitra1(y)) {
      assert d.Ordinal() - SakaChaitra1(y - 1).Ordinal() + 1 == d.Ordinal() - DaysBeforeYear(y) - 80 + YearLength(y - 1);
    } else {
      assert !LeapYearEnd(d);
    }
  }

  lemma ShorterThanAYear(d: Date, month: nat, delta: int)
    requires month < 12 && delta <= SAKA_MONTH_DAYS[month]
    ensures delta + DaysBeforeSakaMonth(month) <= 365
  {
    SakaYearHas365Days();
    SakaMonthsAdvance(month, 12);
  }

  lemma {:induction false} SakaMonthsAdvance(a: nat, b: nat)
    requires a < b <= 12
    ensures DaysBeforeSakaMonth(a) + SAKA_MONTH_DAYS[a] <= DaysBeforeSakaMonth(b)
    decreases b
  {
    if a + 1 < b {
      SakaMonthsAdvance(a, b - 1);
    }
  }

  /* ----------------------------- The calendar law ------------------------ */

  lemma NextSakaYearIsLater(s: SakaDate, year: int)
    requires ProperSaka(s) && s.year < year
    ensures SakaOrdinal(s) < SakaChaitra1(year + 78).Ordinal()
  {
    hide DaysBeforeYear, DaysBeforeMonth, MonthLength, Date.Ordinal, SakaChaitra1;
    ShorterThanAYear(SakaChaitra1(0), s.month, s.day);
    ChaitraIsDay81(s.year + 78);
    ChaitraIsDay81(s.year + 79);
    ChaitraIsDay81(year + 78);
    YearsAdvance(s.year + 79, year + 78);
  }

  lemma LaterSakaDatesAreLater(s: SakaDate, t: SakaDate)
    requires ProperSaka(s) && ProperSaka(t) && s.Less(t)
    ensures SakaOrdinal(s) < SakaOrdinal(t)
  {
    hide DaysBeforeYear, DaysBeforeMonth, MonthLength, Date.Ordinal, SakaChaitra1;
    if s.year < t.year {
      NextSakaYearIsLater(s, t.year);
    } else if s.month < t.month {
      SakaMonthsAdvance(s.month, t.month);
    }
  }

  // Saka dates are ordered as the days they stand for.
  lemma SakaOrdinalIsOrdered(s: SakaDate, t: SakaDate)
    requires ProperSaka(s) && ProperSaka(t)
    ensures s.Less(t) <==> SakaOrdinal(s) < SakaOrdinal(t)
  {
    if s.Less(t) {
      LaterSakaDatesAreLater(s, t);
    } else if t.Less(s) {
      LaterSakaDatesAreLater(t, s);
    }
  }

  // The Saka date names the day exactly when the day is not the 366th of its Saka year.
  lemma SakaDateNamesItsDay(d: Date, s: SakaDate)
    requires d.Valid() && Converts(d, s)
    ensures SakaOrdinal(s) == d.Ordinal() <==> !LeapYearEnd(d)
  {
    LeapYearEndIsDay366(d);
    SakaYearHas365Days();
  }

  // 21 March 2021 is answered as 1 Phalguna 1942, the date that belongs to 19 February.
  lemma MarchIsTakenForFebruary(s: SakaDate, t: SakaDate)
    requires Converts(Date(2021, 3, 21), s) && Converts(Date(2021, 2, 19), t)
    ensures s == t == SakaDate(1942, 11, 1)
  {
    var march, february := Date(2021, 3, 21), Date(2021, 2, 19);
    assert LeapYearEnd(march);
    assert DaysBeforeMonth(false, 2) == 31;
    DaysBeforeEachMonth(false);
    assert february.Ordinal() == march.Ordinal() - 30;
    SakaCollisions(march, february, s, t);
    hide DaysBeforeYear;
  }

  // Apart from those days the conversion keeps the order of days both ways, so it is one to one.
  lemma SakaKeepsOrder(a: Date, b: Date, s: SakaDate, t: SakaDate)
    requires a.Valid() && b.Valid() && Converts(a, s) && Converts(b, t)
    requires !LeapYearEnd(a) && !LeapYearEnd(b)
    ensures s.Less(t) <==> a.Before(b)
    ensures s == t <==> a == b
  {
    SakaOrdinalIsOrdered(s, t);
    SakaOrdinalIsOrdered(t, s);
    BeforeIsByOrdinal(a, b);
  }

  // Two different days share a Saka date exactly when one is the 366th day of a
  // Saka year and the other is thirty days earlier.
  lemma SakaCollisions(a: Date, b: Date, s: SakaDate, t: SakaDate)
    requires a.Valid() && b.Valid() && Converts(a, s) && Converts(b, t)
    ensures s == t && a != b <==>
            (LeapYearEnd(a) && b.Ordinal() == a.Ordinal() - 30) || (LeapYearEnd(b) && a.Ordinal() == b.Ordinal() - 30)
  {
    BeforeIsByOrdinal(a, b);
    if LeapYearEnd(a) {
      PhalgunaFirst(a, b, s, t);
    } else if LeapYearEnd(b) {
      PhalgunaFirst(b, a, t, s);
    } else {
      SakaKeepsOrder(a, b, s, t);
    }
  }

  lemma LeapYearEndsAreApart(a: Date, b: Date)
    requires a.Valid() && b.Valid() && LeapYearEnd(a) && LeapYearEnd(b) && a.year < b.year
    ensures a.Ordinal() + 365 <= b.Ordinal()
  {
    LeapYearEndIsDay366(a);
    LeapYearEndIsDay366(b);
    YearsAdvance(a.year - 1, b.year - 1);
    ChaitraIsDay81(a.year - 1);
    ChaitraIsDay81(b.year - 1);
  }

  lemma PhalgunaFirst(a: Date, b: Date, s: SakaDate, t: SakaDate)
    requires a.Valid() && b.Valid() && Converts(a, s) && Converts(b, t) && LeapYearEnd(a)
    ensures s == t && a != b <==> b.Ordinal() == a.Ordinal() - 30
    ensures LeapYearEnd(b) ==> a.Ordinal() != b.Ordinal() - 30
  {
    hide DaysBeforeYear, DaysBeforeMonth, MonthLength;
    if LeapYearEnd(b) {
      if a.year < b.year {
        LeapYearEndsAreApart(a, b);
      } else if b.year < a.year {
        LeapYearEndsAreApart(b, a);
      }
    } else {
      LeapYearEndIsDay366(a);
      SakaYearHas365Days();
      assert SakaOrdinal(s) == a.Ordinal() - 30;
      SakaOrdinalIsOrdered(s, t);
      SakaOrdinalIsOrdered(t, s);
    }
  }
}
