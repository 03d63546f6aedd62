/**
  `convert_hours`: a duration in hours as days, months and years, using
  Julian-year months (30.4375 = 365.25 / 12 days), each rounded to four
  decimal places. A value that is not a number gives no conversion at all.
 */
module Units {
  import opened Wrappers
  import opened Rounding

  const HoursPerDay: real := 24.0
  const DaysPerMonth: real := 30.4375
  const DaysPerYear: real := 365.25
  /** Every unit is rounded to four places. */
  const Places: real := FourPlaces

  datatype Units = Units(days: real, months: real, years: real)

  /** The conversion before rounding. */
  function ExactUnits(hours: real): (u: Units)
    ensures u.days * HoursPerDay == hours
    ensures u.months * DaysPerMonth == u.days
    ensures u.years * DaysPerYear == u.days
    ensures u.months == 12.0 * u.years
  {
    var days := hours / HoursPerDay;
    Units(days, days / DaysPerMonth, days / DaysPerYear)
  }

  /**
    `convert_hours(hours)`; `None` stands for an argument that is not an int
    or a float, for which the source returns `(None, None, None)`.
   */
  function ConvertHours(hours: Option<real>): (r: Option<Units>)
    ensures r.None? <==> hours.None?
    ensures r.Some? ==>
      var e := ExactUnits(hours.value);
      && Abs(r.value.days - e.days) <= 0.00005
      && Abs(r.value.months - e.months) <= 0.00005
      && Abs(r.value.years - e.years) <= 0.00005
      && r.value.days * Places == RoundHalfEven(e.days * Places) as real
      && r.value.months * Places == RoundHalfEven(e.months * Places) as real
      && r.value.years * Places == RoundHalfEven(e.years * Places) as real
  {
    match hours
    case None => None
    case Some(h) =>
      var e := ExactUnits(h);
      Some(Units(RoundTo(e.days, Places), RoundTo(e.months, Places), RoundTo(e.years, Places)))
  }

  /** 8766 hours is one Julian year: 365.25 days, 12 months, 1 year. */
  lemma OneJulianYear()
    ensures ConvertHours(Some(8766.0)) == Some(Units(365.25, 12.0, 1.0))
  {
    var e := ExactUnits(8766.0);
    assert e == Units(365.25, 12.0, 1.0);
    RoundWhole(3652500);
    RoundWhole(120000);
    RoundWhole(10000);
  }
}
