/**
  Dasha balance in days, shown as years, months and days.

  A year is 365.25 = 1461/4 days and a month a twelfth of it, 487/16 days; every
  step truncates toward zero.
 */
module Charts {
  import opened Options

  function TruncDiv(a: int, b: int): int
    requires b > 0
  {
    if a >= 0 then a / b else -((-a) / b)
  }

  function YearsToDays(years: int): int {
    TruncDiv(1461 * years, 4)
  }

  function MonthsToDays(months: int): int {
    TruncDiv(487 * months, 16)
  }

  datatype Ymd = Ymd(years: int, months: int, days: int)
  {
    function ToDays(): int {
      YearsToDays(years) + MonthsToDays(months) + days
    }

    function Negated(): Ymd {
      Ymd(-years, -months, -days)
    }

    predicate Less(that: Ymd) {
      years < that.years ||
      (years == that.years && (months < that.months || (months == that.months && days < that.days)))
    }
  }

  ghost function DaysAsYmd(total: int): Ymd {
    var years := TruncDiv(4 * total, 1461);
    var rest := total - YearsToDays(years);
    var months := TruncDiv(16 * rest, 487);
    Ymd(years, months, rest - MonthsToDays(months))
  }

  method DaysToYmd(days: int) returns (r: Ymd)
    ensures r == DaysAsYmd(days)
  {
    var balDays := days;
    var years := TruncDiv(4 * balDays, 1461);
    balDays := balDays - YearsToDays(years);
    var months := TruncDiv(16 * balDays, 487);
    balDays := balDays - MonthsToDays(months);
    r := Ymd(years, months, balDays);
  }

  method FormatDasaBalance(days: Option<int>) returns (r: Ymd)
    ensures r == if days.Some? && days.value > 0 then DaysAsYmd(days.value) else Ymd(0, 0, 0)
    ensures r.ToDays() == if days.Some? && days.value > 0 then days.value else 0
    ensures r.years >= 0 && 0 <= r.months <= 11 && 0 <= r.days <= 31
    ensures r == Ymd(0, 0, 0) <==> days == None || days.value <= 0
  {
    hide DaysAsYmd, Ymd.ToDays, YearsToDays, MonthsToDays, TruncDiv;
    NoDays();
    if days == None || days.value <= 0 {
      return Ymd(0, 0, 0);
    }
    YmdIsExact(days.value);
    r := DaysToYmd(days.value);
  }

  lemma NoDays()
    ensures Ymd(0, 0, 0).ToDays() == 0
  {}

  // What is left after whole years is at most 365 days.
  lemma RestOfTheYear(total: nat)
    ensures var years := total * 4 / 1461; 0 <= total - 1461 * years / 4 <= 365
  {
    var years := total * 4 / 1461;
    var q := years / 4;
    assert 1461 * years / 4 == 1461 * q + 1461 * (years - 4 * q) / 4;
  }

  // The years and months are the whole ones contained, the ranges are tight, and nothing is lost.
  lemma YmdIsExact(total: nat)
    ensures var r := DaysAsYmd(total);
            r.ToDays() == total && r.years >= 0 && 0 <= r.months <= 11 && 0 <= r.days <= 31 &&
            1461 * r.years <= 4 * total < 1461 * (r.years + 1) &&
            487 * r.months <= 16 * (total - YearsToDays(r.years)) < 487 * (r.months + 1)
  {
    RestOfTheYear(total);
  }

  // A day more is never shown as less, nor as the same.
  lemma YmdIsStrictlyIncreasing(a: nat, b: nat)
    requires a < b
    ensures DaysAsYmd(a).Less(DaysAsYmd(b))
  {
    RestOfTheYear(a);
    RestOfTheYear(b);
  }

  lemma TruncDivIsOdd(a: int, b: int)
    requires b > 0
    ensures TruncDiv(-a, b) == -TruncDiv(a, b)
  {}

  lemma YmdOfNegative(total: int)
    requires total >= 0
    ensures DaysAsYmd(-total) == DaysAsYmd(total).Negated()
  {
    var r := DaysAsYmd(total);
    TruncDivIsOdd(4 * total, 1461);
    TruncDivIsOdd(1461 * r.years, 4);
    TruncDivIsOdd(16 * (total - YearsToDays(r.years)), 487);
    TruncDivIsOdd(487 * r.months, 16);
  }

  // Every number of days, of either sign, can be read back.
  lemma YmdRoundTrip(a: int, b: int)
    ensures DaysAsYmd(a).ToDays() == a
    ensures DaysAsYmd(a) == DaysAsYmd(b) ==> a == b
  {
    forall t: int ensures DaysAsYmd(t).ToDays() == t {
      if t >= 0 {
        YmdIsExact(t);
      } else {
        YmdOfNegative(-t);
        YmdIsExact(-t);
      }
    }
  }
}
