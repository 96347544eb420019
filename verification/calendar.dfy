/**
 * The proleptic Gregorian calendar that `time.Time.Format` writes dates in.
 * Days are counted from 1970-01-01 (day 0); months are indices 0..11 from
 * January. The conversion from a day count to a date counts 400-year eras,
 * then 100-year, 4-year and 1-year cycles, in years that start on March 1
 * so that a leap day is the last day of its year.
 */
module Calendar {
  predicate Leap(year: int)
  {
    year % 4 == 0 && (year % 100 != 0 || year % 400 == 0)
  }

  function MonthLength(month: int, leap: bool): int
  {
    if month == 1 then (if leap then 29 else 28)
    else if month == 3 || month == 5 || month == 8 || month == 10 then 30
    else 31
  }

  /** The number of days in a month of a year. */
  function DaysIn(year: int, month: int): int
  {
    MonthLength(month, Leap(year))
  }

  predicate ValidDate(year: int, month: int, day: int)
  {
    0 <= month < 12 && 1 <= day <= DaysIn(year, month)
  }

  /** Days from March 1 of year 0 of a 400-year era to March 1 of year `yoe` of that era. */
  function StartOfYear(yoe: int): int
  {
    365 * yoe + yoe / 4 - yoe / 100
  }

  /** Year `yoe` of an era (from March 1) holds a February 29: the era's year yoe + 1 is a leap year. */
  predicate LongYear(yoe: int)
  {
    (yoe + 1) % 4 == 0 && ((yoe + 1) % 100 != 0 || yoe == 399)
  }

  /**
   * The day count of a date (H. Hinnant's days-from-civil): whole eras,
   * then whole years of the era, then whole months from March, then days.
   */
  function DaysFromCivil(year: int, month: int, day: int): int
  {
    var year0 := if month < 2 then year - 1 else year;
    var era := year0 / 400;
    var yoe := year0 - era * 400;
    var mp := if month < 2 then month + 10 else month - 2;
    era * 146097 + StartOfYear(yoe) + (153 * mp + 2) / 5 + day - 1 - 719468
  }

  /** The calendar month of month `mp` counted from March. */
  function MonthOfMarch(mp: int): int
  {
    if mp < 10 then mp + 2 else mp - 10
  }

  function Min(a: int, b: int): int
  {
    if a < b then a else b
  }

  /**
   * Day `doe` of an era as a year of the era and a day of that year: 100-,
   * 4- and 1-year cycles, where the era's last day belongs to the fourth
   * century and a cycle's leap day to its fourth year.
   */
  function SplitEra(doe: int): (r: (int, int))
    requires 0 <= doe < 146097
    ensures 0 <= r.0 < 400 && 0 <= r.1 <= 365 && (r.1 == 365 ==> LongYear(r.0))
    ensures doe == StartOfYear(r.0) + r.1
  {
    var n100 := Min(doe / 36524, 3);
    var d100 := doe - 36524 * n100;
    var n4 := d100 / 1461;
    var d4 := d100 - 1461 * n4;
    var n1 := Min(d4 / 365, 3);
    var yoe := 100 * n100 + 4 * n4 + n1;
    assert yoe / 4 == 25 * n100 + n4;
    assert yoe / 100 == n100;
    (yoe, d4 - 365 * n1)
  }

  /** Day `doy` of a year from March 1 as a month counted from March and a day of that month. */
  function SplitYear(doy: int, leap: bool): (r: (int, int))
    requires 0 <= doy <= 365 && (doy == 365 ==> leap)
    ensures 0 <= r.0 < 12 && 1 <= r.1 <= MonthLength(MonthOfMarch(r.0), leap)
    ensures doy == (153 * r.0 + 2) / 5 + r.1 - 1
  {
    var mp := (5 * doy + 2) / 153;
    (mp, doy - (153 * mp + 2) / 5 + 1)
  }

  /** The date of day `day` of month `mp` (from March) of year `yoe` of an era. */
  function DateInEra(era: int, yoe: int, mp: int, day: int): (ymd: (int, int, int))
    requires 0 <= yoe < 400 && 0 <= mp < 12 && 1 <= day <= MonthLength(MonthOfMarch(mp), Leap(era * 400 + yoe + 1))
    ensures ValidDate(ymd.0, ymd.1, ymd.2)
    ensures DaysFromCivil(ymd.0, ymd.1, ymd.2) == era * 146097 + StartOfYear(yoe) + (153 * mp + 2) / 5 + day - 1 - 719468
  {
    var month := MonthOfMarch(mp);
    var year0 := era * 400 + yoe;
    assert year0 / 400 == era;
    (if month < 2 then year0 + 1 else year0, month, day)
  }

  /**
   * The date of the day `days` after 1970-01-01. It is a valid date, and
   * DaysFromCivil counts it back to `days`.
   */
  function DateOfDay(days: int): (ymd: (int, int, int))
    ensures ValidDate(ymd.0, ymd.1, ymd.2)
    ensures DaysFromCivil(ymd.0, ymd.1, ymd.2) == days
  {
    var z := days + 719468;
    var era, doe := z / 146097, z % 146097;
    var yd := SplitEra(doe);
    LeapOfLongYear(era, yd.0);
    var md := SplitYear(yd.1, Leap(era * 400 + yd.0 + 1));
    DateInEra(era, yd.0, md.0, md.1)
  }

  lemma LeapOfLongYear(era: int, yoe: int)
    requires 0 <= yoe < 400
    ensures LongYear(yoe) <==> Leap(era * 400 + yoe + 1)
  {
    var k := era * 400 + yoe + 1;
    assert k % 4 == (yoe + 1) % 4 by {
      assert k == 4 * (100 * era) + (yoe + 1);
    }
    assert k % 100 == (yoe + 1) % 100 by {
      assert k == 100 * (4 * era) + (yoe + 1);
    }
    assert k % 400 == (yoe + 1) % 400 by {
      assert k == 400 * era + (yoe + 1);
    }
  }

  /** A valid date's era, year of the era, month from March and day of that year. */
  lemma CivilOfValid(year: int, month: int, day: int) returns (era: int, yoe: int, mp: int, doy: int)
    requires ValidDate(year, month, day)
    ensures 0 <= yoe < 400 && 0 <= mp < 12 && 1 <= day <= MonthLength(MonthOfMarch(mp), Leap(era * 400 + yoe + 1))
    ensures doy == (153 * mp + 2) / 5 + day - 1 && 0 <= doy <= 365 && (doy == 365 ==> LongYear(yoe))
    ensures mp == (if month < 2 then month + 10 else month - 2) && year == era * 400 + yoe + (if month < 2 then 1 else 0)
    ensures DaysFromCivil(year, month, day) == era * 146097 + StartOfYear(yoe) + doy - 719468
  {
    var year0 := if month < 2 then year - 1 else year;
    era := year0 / 400;
    yoe := year0 - era * 400;
    mp := if month < 2 then month + 10 else month - 2;
    doy := (153 * mp + 2) / 5 + day - 1;
    LeapOfLongYear(era, yoe);
  }

  lemma YearStep(yoe: int)
    requires 0 <= yoe < 399
    ensures StartOfYear(yoe + 1) == StartOfYear(yoe) + 365 + (if LongYear(yoe) then 1 else 0)
  {
  }

  lemma {:induction false} StartMonotone(a: int, b: int)
    requires 0 <= a < b < 400
    ensures StartOfYear(a) + 365 + (if LongYear(a) then 1 else 0) <= StartOfYear(b)
  {
  }

  lemma StartUnique(a: int, b: int, a2: int, b2: int)
    requires 0 <= a < 400 && 0 <= b <= 365 && (b == 365 ==> LongYear(a))
    requires 0 <= a2 < 400 && 0 <= b2 <= 365 && (b2 == 365 ==> LongYear(a2))
    requires StartOfYear(a) + b == StartOfYear(a2) + b2
    ensures a == a2 && b == b2
  {
    if a < a2 {
      StartMonotone(a, a2);
    } else if a2 < a {
      StartMonotone(a2, a);
    }
  }

  lemma MonthUnique(mp: int, day: int, mp2: int, day2: int, leap: bool)
    requires 0 <= mp < 12 && 1 <= day <= MonthLength(MonthOfMarch(mp), leap)
    requires 0 <= mp2 < 12 && 1 <= day2 <= MonthLength(MonthOfMarch(mp2), leap)
    requires (153 * mp + 2) / 5 + day == (153 * mp2 + 2) / 5 + day2
    ensures mp == mp2 && day == day2
  {
  }

  lemma YearUnique(era: int, yoe: int, era2: int, yoe2: int)
    requires 0 <= yoe < 400 && 0 <= yoe2 < 400
    requires era * 400 + yoe == era2 * 400 + yoe2
    ensures era == era2 && yoe == yoe2
  {
  }

  lemma EraUnique(era: int, doe: int, era2: int, doe2: int)
    requires 0 <= doe < 146097 && 0 <= doe2 < 146097
    requires era * 146097 + doe == era2 * 146097 + doe2
    ensures era == era2 && doe == doe2
  {
  }

  /** Two valid dates with the same day count are the same date. */
  lemma CivilInjective(year: int, month: int, day: int, year2: int, month2: int, day2: int)
    requires ValidDate(year, month, day) && ValidDate(year2, month2, day2)
    requires DaysFromCivil(year, month, day) == DaysFromCivil(year2, month2, day2)
    ensures year == year2 && month == month2 && day == day2
  {
    var era, yoe, mp, doy := CivilOfValid(year, month, day);
    var era2, yoe2, mp2, doy2 := CivilOfValid(year2, month2, day2);
    PartsUnique(era, yoe, mp, day, doy, era2, yoe2, mp2, day2, doy2);
  }

  /** An era, a year of it and a day of that year are fixed by their day count. */
  lemma PartsUnique(era: int, yoe: int, mp: int, day: int, doy: int, era2: int, yoe2: int, mp2: int, day2: int, doy2: int)
    requires 0 <= yoe < 400 && 0 <= mp < 12 && 1 <= day <= MonthLength(MonthOfMarch(mp), Leap(era * 400 + yoe + 1))
    requires doy == (153 * mp + 2) / 5 + day - 1 && 0 <= doy <= 365 && (doy == 365 ==> LongYear(yoe))
    requires 0 <= yoe2 < 400 && 0 <= mp2 < 12 && 1 <= day2 <= MonthLength(MonthOfMarch(mp2), Leap(era2 * 400 + yoe2 + 1))
    requires doy2 == (153 * mp2 + 2) / 5 + day2 - 1 && 0 <= doy2 <= 365 && (doy2 == 365 ==> LongYear(yoe2))
    requires era * 146097 + StartOfYear(yoe) + doy == era2 * 146097 + StartOfYear(yoe2) + doy2
    ensures era == era2 && yoe == yoe2 && mp == mp2 && day == day2
  {
    EraUnique(era, StartOfYear(yoe) + doy, era2, StartOfYear(yoe2) + doy2);
    StartUnique(yoe, doy, yoe2, doy2);
    MonthUnique(mp, day, mp2, day2, Leap(era * 400 + yoe + 1));
  }

  /** Every valid date is the date of its day count. */
  lemma CivilRoundTrip(year: int, month: int, day: int)
    requires ValidDate(year, month, day)
    ensures DateOfDay(DaysFromCivil(year, month, day)) == (year, month, day)
  {
    var r := DateOfDay(DaysFromCivil(year, month, day));
    CivilInjective(r.0, r.1, r.2, year, month, day);
  }

  /** The calendar's successor: the next day of the month, else the first of the next month, else January 1. */
  function NextDay(year: int, month: int, day: int): (r: (int, int, int))
  {
    if day < DaysIn(year, month) then (year, month, day + 1)
    else if month < 11 then (year, month + 1, 1)
    else (year + 1, 0, 1)
  }

  lemma SameMonthNext(year: int, month: int, day: int)
    requires ValidDate(year, month, day) && day < DaysIn(year, month)
    ensures ValidDate(year, month, day + 1) && DaysFromCivil(year, month, day + 1) == DaysFromCivil(year, month, day) + 1
  {
    var era, yoe, mp, doy := CivilOfValid(year, month, day);
    var era2, yoe2, mp2, doy2 := CivilOfValid(year, month, day + 1);
    YearUnique(era, yoe, era2, yoe2);
  }

  /** Month `mp` from March, other than February, is as long as the gap to the next month's start. */
  lemma MonthStep(mp: int)
    requires 0 <= mp < 11
    ensures (153 * (mp + 1) + 2) / 5 == (153 * mp + 2) / 5 + MonthLength(MonthOfMarch(mp), false)
  {
  }

  lemma MonthNext(year: int, month: int, day: int)
    requires 0 <= month < 11 && month != 1 && day == DaysIn(year, month)
    ensures ValidDate(year, month + 1, 1) && DaysFromCivil(year, month + 1, 1) == DaysFromCivil(year, month, day) + 1
  {
    var era, yoe, mp, doy := CivilOfValid(year, month, day);
    var era2, yoe2, mp2, doy2 := CivilOfValid(year, month + 1, 1);
    YearUnique(era, yoe, era2, yoe2);
    MonthStep(mp);
  }

  lemma YearNext(year: int)
    ensures ValidDate(year + 1, 0, 1) && DaysFromCivil(year + 1, 0, 1) == DaysFromCivil(year, 11, 31) + 1
  {
    var era, yoe, mp, doy := CivilOfValid(year, 11, 31);
    var era2, yoe2, mp2, doy2 := CivilOfValid(year + 1, 0, 1);
    YearUnique(era, yoe, era2, yoe2);
  }

  lemma MarchFirst(year: int, day: int)
    requires day == DaysIn(year, 1)
    ensures ValidDate(year, 2, 1) && DaysFromCivil(year, 2, 1) == DaysFromCivil(year, 1, day) + 1
  {
    var era, yoe, mp, doy := CivilOfValid(year, 1, day);
    var era2, yoe2, mp2, doy2 := CivilOfValid(year, 2, 1);
    LeapOfLongYear(era, yoe);
    LeapDayStep(era, yoe, doy, era2, yoe2);
  }

  /** The last day of February is followed by March 1, the first day of the next year of the era (or of the next era). */
  lemma LeapDayStep(era: int, yoe: int, doy: int, era2: int, yoe2: int)
    requires 0 <= yoe < 400 && 0 <= yoe2 < 400
    requires era2 * 400 + yoe2 == era * 400 + yoe + 1
    requires doy == if LongYear(yoe) then 365 else 364
    ensures era2 * 146097 + StartOfYear(yoe2) == era * 146097 + StartOfYear(yoe) + doy + 1
  {
    if yoe < 399 {
      YearUnique(era, yoe + 1, era2, yoe2);
      YearStep(yoe);
    } else {
      YearUnique(era + 1, 0, era2, yoe2);
    }
  }

  /** The day after a valid date is the next valid date, one day further on. */
  lemma NextDayCount(year: int, month: int, day: int)
    requires ValidDate(year, month, day)
    ensures var n := NextDay(year, month, day);
            ValidDate(n.0, n.1, n.2) && DaysFromCivil(n.0, n.1, n.2) == DaysFromCivil(year, month, day) + 1
  {
    if day < DaysIn(year, month) {
      SameMonthNext(year, month, day);
    } else if month == 1 {
      MarchFirst(year, day);
    } else if month < 11 {
      MonthNext(year, month, day);
    } else {
      YearNext(year);
    }
  }

  /** Counting on by one day moves the date to the calendar's next day. */
  lemma DayAfter(days: int)
    ensures var d := DateOfDay(days); DateOfDay(days + 1) == NextDay(d.0, d.1, d.2)
  {
    var d := DateOfDay(days);
    NextDayCount(d.0, d.1, d.2);
    var n := NextDay(d.0, d.1, d.2);
    CivilRoundTrip(n.0, n.1, n.2);
  }

  /** The hours, minutes and seconds of the `secs`-th second of a day. */
  function TimeOfDay(secs: int): (hms: (int, int, int))
    requires 0 <= secs < 86400
    ensures 0 <= hms.0 < 24 && 0 <= hms.1 < 60 && 0 <= hms.2 < 60
    ensures hms.0 * 3600 + hms.1 * 60 + hms.2 == secs
  {
    (secs / 3600, secs % 3600 / 60, secs % 60)
  }

  /** Day 0 is 1970-01-01. */
  lemma Epoch()
    ensures DateOfDay(0) == (1970, 0, 1)
  {
    assert DaysFromCivil(1970, 0, 1) == 0 by {
      assert 1969 / 400 == 4;
      assert StartOfYear(369) == 134774;
    }
    CivilRoundTrip(1970, 0, 1);
  }
}
