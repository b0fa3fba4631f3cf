/** Naive calendar arithmetic: a date is a day number, the count of days
    since 1970-01-01 in the proleptic Gregorian calendar, with no time zone. */
module Calendar {

  /** Days since 1970-01-01 (negative before it). */
  type Day = int

  /** JavaScript's `Date.prototype.getDay` numbering. */
  const SUNDAY := 0
  const SATURDAY := 6

  /** `getDay()`: 0 for Sunday through 6 for Saturday; 1970-01-01 was a Thursday. */
  function DayOfWeek(d: Day): (w: int)
    ensures SUNDAY <= w <= SATURDAY
  {
    (d + 4) % 7
  }

  /** Moving by whole weeks keeps the day of the week. */
  lemma {:induction false} DayOfWeekShift(d: Day, weeks: int)
    ensures DayOfWeek(d + 7 * weeks) == DayOfWeek(d)
  {
    var q := (d + 4) / 7;
    assert d + 4 == 7 * q + DayOfWeek(d);
    assert d + 7 * weeks + 4 == 7 * (q + weeks) + DayOfWeek(d);
  }

  /** Moving forward by fewer than seven days advances the weekday, wrapping
      from Saturday to Sunday. */
  lemma {:induction false} DayOfWeekAdvance(d: Day, k: int)
    requires 0 <= k < 7
    ensures DayOfWeek(d + k) == (DayOfWeek(d) + k) % 7
  {
    var q := (d + 4) / 7;
    assert d + 4 == 7 * q + DayOfWeek(d);
    assert d + k + 4 == 7 * q + (DayOfWeek(d) + k);
  }

  /** A calendar date; `month` runs from 1 (January) to 12. */
  datatype CivilDate = CivilDate(year: int, month: int, day: int)

  /** The day number of a calendar date (H. Hinnant's `days_from_civil`). */
  function FromCivil(date: CivilDate): Day
  {
    var y := if date.month <= 2 then date.year - 1 else date.year;
    var era := y / 400;
    var yoe := y - era * 400;
    var mp := if date.month > 2 then date.month - 3 else date.month + 9;
    var doy := (153 * mp + 2) / 5 + date.day - 1;
    var doe := yoe * 365 + yoe / 4 - yoe / 100 + doy;
    era * 146097 + doe - 719468
  }

  /** The steps of H. Hinnant's `civil_from_days`: days are counted from
      0000-03-01 in 400-year eras of 146097 days, years start in March. */
  function ShiftedDay(z: Day): int { z + 719468 }
  function YearOfEra(doe: int): int { (doe - doe / 1460 + doe / 36524 - doe / 146096) / 365 }
  function DayOfYear(doe: int, yoe: int): int { doe - (365 * yoe + yoe / 4 - yoe / 100) }
  function MarchMonth(doy: int): int { (5 * doy + 2) / 153 }
  function DayOfMonth(doy: int, mp: int): int { doy - (153 * mp + 2) / 5 + 1 }

  /** The calendar date of a day number. */
  function ToCivil(z: Day): CivilDate
  {
    var era := ShiftedDay(z) / 146097;
    var doe := ShiftedDay(z) % 146097;
    var yoe := YearOfEra(doe);
    var doy := DayOfYear(doe, yoe);
    var mp := MarchMonth(doy);
    var m := if mp < 10 then mp + 3 else mp - 9;
    CivilDate(if m <= 2 then yoe + era * 400 + 1 else yoe + era * 400, m, DayOfMonth(doy, mp))
  }

  /** `getMonth()`: 0 for January through 11 for December. */
  function MonthIndex(d: Day): int
  {
    ToCivil(d).month - 1
  }
}
