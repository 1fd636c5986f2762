/**
 * The calendar arithmetic of the unit parser: the Julian Day Number of a
 * civil date (Julian calendar before 15 October 1582, Gregorian from then
 * on) and the encoding of a timestamp as seconds since the parser's
 * artificial epoch, 2001-01-01 00:00 UTC.
 */
module Calendar {
  import opened JavaInt

  /** `igreg`: 15 October 1582 packed as day + 31 * (month + 12 * year). */
  const GregorianStart: int := 15 + 31 * (10 + 12 * 1582)

  /** The year the formula works with: year 0 is read as year 1, and years before it move up by one. */
  function AstronomicalYear(year: int): (iy: int)
    ensures year > 0 ==> iy == year
    ensures year == 0 ==> iy == 1
    ensures year < 0 ==> iy == year + 1
  {
    var y := if year == 0 then 1 else year;
    if y < 0 then y + 1 else y
  }

  /** Whether the packed date is on or after the Gregorian reform. */
  predicate IsGregorian(year: int, month: int, day: int) {
    day + 31 * (month + 12 * AstronomicalYear(year)) >= GregorianStart
  }

  /**
   * The Julian Day Number of a date. The source multiplies by the double
   * constants 30.6001, 0.25 and 365.25 and truncates; over months 1..12 each
   * product is written here as the exact integer expression it truncates to.
   */
  function JulianDay(year: int, month: int, day: int): int
    requires 1 <= month <= 12
  {
    var iy := AstronomicalYear(year);
    var jy := if month > 2 then iy else iy - 1;
    var jm := if month > 2 then month + 1 else month + 13;
    // (int)(30.6001 * jm)
    var j0 := day + (306001 * jm) / 10000;
    var j1 :=
      if jy >= 0 then
        // julday += 365 * jy; julday += 0.25 * jy (a double, truncated back to long)
        Quot(4 * (j0 + 365 * jy) + jy, 4)
      else
        // julday += (int) floor(365.25 * jy)
        j0 + (36525 * jy) / 100;
    var julday := j1 + 1720995;
    if IsGregorian(year, month, day) then
      var ja := Quot(jy, 100);
      julday - ja + 2 + Quot(ja, 4)
    else
      julday
  }

  /** The Julian Day Number of the artificial time origin, 2001-01-01. */
  const JulianDayOrigin: int := JulianDay(2001, 1, 1)

  /**
   * A timestamp as seconds since 2001-01-01 00:00, given the zone offset in
   * minutes east of UTC.
   */
  function EncodeTimestamp(year: int, month: int, day: int,
                           hour: int, minute: int, second: real, zone: int): real
    requires 1 <= month <= 12
  {
    (JulianDay(year, month, day) - JulianDayOrigin) as real * 86400.0
      + ((hour * 60 + minute - zone) * 60) as real + second
  }

  // ---------------------------------------------------------------------
  // Reference calendars, stated independently of the formula above.

  /** Days in the months before `month` in a common year. */
  function DaysBeforeMonth(month: int): int
    requires 1 <= month <= 12
  {
    [0, 31, 59, 90, 120, 151, 181, 212, 243, 273, 304, 334][month - 1]
  }

  predicate JulianLeapYear(a: int) {
    a % 4 == 0
  }

  predicate GregorianLeapYear(a: int) {
    a % 4 == 0 && (a % 100 != 0 || a % 400 == 0)
  }

  /** Day count in the proleptic Julian calendar; day 1 is 1 January of astronomical year 1. */
  function JulianOrdinal(a: int, month: int, day: int): int
    requires 1 <= month <= 12
  {
    365 * (a - 1) + (a - 1) / 4 + DaysBeforeMonth(month)
      + (if month > 2 && JulianLeapYear(a) then 1 else 0) + day
  }

  /** Day count in the proleptic Gregorian calendar; day 1 is 1 January of year 1. */
  function GregorianOrdinal(a: int, month: int, day: int): int
    requires 1 <= month <= 12
  {
    365 * (a - 1) + (a - 1) / 4 - (a - 1) / 100 + (a - 1) / 400 + DaysBeforeMonth(month)
      + (if month > 2 && GregorianLeapYear(a) then 1 else 0) + day
  }

  // ---------------------------------------------------------------------
  // Properties of the Julian Day Number.

  /** There is no year 0: it is read as year 1. */
  lemma YearZeroIsYearOne(month: int, day: int)
    requires 1 <= month <= 12
    ensures JulianDay(0, month, day) == JulianDay(1, month, day)
  {
  }

  /** 1 BC is followed directly by AD 1, and 1 BC is a leap year of the Julian calendar. */
  lemma NoYearZero()
    ensures JulianDay(1, 1, 1) == 1721424
    ensures JulianDay(1, 1, 1) - JulianDay(-1, 1, 1) == 366
  {
  }

  /** The standard epoch J2000.0 falls on Julian Day 2451545. */
  lemma J2000()
    ensures JulianDay(2000, 1, 1) == 2451545
  {
  }

  /** The artificial origin is Julian Day 2451911, so the epoch itself encodes as zero. */
  lemma OriginIsZero()
    ensures JulianDayOrigin == 2451911
    ensures EncodeTimestamp(2001, 1, 1, 0, 0, 0.0, 0) == 0.0
    ensures EncodeTimestamp(2001, 1, 1, 1, 0, 0.0, 0) == 3600.0
  {
  }

  /** The switch to the Gregorian calendar happens exactly at 15 October 1582. */
  lemma GregorianFromReform(year: int, month: int, day: int)
    requires 1 <= month <= 12 && 1 <= day <= 31
    ensures IsGregorian(year, month, day) <==>
      var iy := AstronomicalYear(year);
      iy > 1582 || (iy == 1582 && (month > 10 || (month == 10 && day >= 15)))
  {
    var iy := AstronomicalYear(year);
    var packed := day + 31 * (month + 12 * iy);
    if iy > 1582 {
      assert packed >= 1 + 31 * (1 + 12 * 1583);
    } else if iy < 1582 {
      assert packed <= 31 + 31 * (12 + 12 * 1581);
    }
  }

  /** The day after 4 October 1582 (Julian) is 15 October 1582 (Gregorian). */
  lemma ReformSkipsTenDays()
    ensures JulianDay(1582, 10, 4) == 2299160
    ensures JulianDay(1582, 10, 15) == 2299161
  {
  }

  /** Stepping from a - 1 to a passes a multiple of 4 exactly when 4 divides a; likewise for 100 and 400. */
  lemma DivisibilityStep(a: int)
    ensures a / 4 - (a - 1) / 4 == if a % 4 == 0 then 1 else 0
    ensures a / 100 - (a - 1) / 100 == if a % 100 == 0 then 1 else 0
    ensures a / 400 - (a - 1) / 400 == if a % 400 == 0 then 1 else 0
  {
    var q4, r4 := (a - 1) / 4, (a - 1) % 4;
    assert a - 1 == q4 * 4 + r4 && 0 <= r4 < 4;
    var q100, r100 := (a - 1) / 100, (a - 1) % 100;
    assert a - 1 == q100 * 100 + r100 && 0 <= r100 < 100;
    var q400, r400 := (a - 1) / 400, (a - 1) % 400;
    assert a - 1 == q400 * 400 + r400 && 0 <= r400 < 400;
  }

  /** The three divisibility steps add up to the Gregorian leap-year rule. */
  lemma LeapIndicator(a: int)
    ensures (if a % 4 == 0 then 1 else 0) - (if a % 100 == 0 then 1 else 0) + (if a % 400 == 0 then 1 else 0)
            == if GregorianLeapYear(a) then 1 else 0
  {
    if a % 400 == 0 {
      var q := a / 400;
      assert a == 100 * (4 * q) && a == 4 * (100 * q);
    } else if a % 100 == 0 {
      var q := a / 100;
      assert a == 4 * (25 * q);
    }
  }

  lemma CenturyQuarter(a: int)
    ensures (a / 100) / 4 == a / 400
  {
    var q, r := a / 400, a % 400;
    assert a == q * 400 + r && 0 <= r < 400;
    assert a == (4 * q + r / 100) * 100 + r % 100;
    assert a / 100 == 4 * q + r / 100;
  }

  /** The year term of the formula: 365 days a year and one more every fourth. */
  lemma YearTerm(j0: int, jy: int)
    requires j0 >= 0
    ensures (if jy >= 0 then Quot(4 * (j0 + 365 * jy) + jy, 4) else j0 + (36525 * jy) / 100)
            == j0 + 365 * jy + jy / 4
  {
    if jy < 0 {
      assert 36525 * jy == 100 * (365 * jy) + 25 * jy;
      assert (36525 * jy) / 100 == 365 * jy + (25 * jy) / 100;
      assert (25 * jy) / 100 == jy / 4;
    }
  }

  /** The truncated 30.6001 products agree with the month table, offset by a constant. */
  lemma MonthTerm(month: int)
    requires 1 <= month <= 12
    ensures month > 2 ==> (306001 * (month + 1)) / 10000 == DaysBeforeMonth(month) + 63
    ensures month <= 2 ==> (306001 * (month + 13)) / 10000 == DaysBeforeMonth(month) + 428
  {
  }

  /** The formula's shape once the truncations are resolved. */
  lemma JulianDayUnfolded(year: int, month: int, day: int)
    requires 1 <= month <= 12 && 1 <= day <= 31
    ensures var iy := AstronomicalYear(year);
            var jy := if month > 2 then iy else iy - 1;
            var base := day + DaysBeforeMonth(month) + (if month > 2 then 63 else 428)
                        + 365 * jy + jy / 4 + 1720995;
            JulianDay(year, month, day) ==
              if IsGregorian(year, month, day) then base - jy / 100 + 2 + jy / 400 else base
  {
    var iy := AstronomicalYear(year);
    var jy := if month > 2 then iy else iy - 1;
    var jm := if month > 2 then month + 1 else month + 13;
    MonthTerm(month);
    YearTerm(day + (306001 * jm) / 10000, jy);
    if IsGregorian(year, month, day) {
      GregorianFromReform(year, month, day);
      CenturyQuarter(jy);
    }
  }

  /** On and after the reform the result is the proleptic Gregorian day count, offset to JDN. */
  lemma {:induction false} JulianDayIsGregorian(year: int, month: int, day: int)
    requires 1 <= month <= 12 && 1 <= day <= 31
    requires IsGregorian(year, month, day)
    ensures JulianDay(year, month, day) == GregorianOrdinal(AstronomicalYear(year), month, day) + 1721425
  {
    var a := AstronomicalYear(year);
    JulianDayUnfolded(year, month, day);
    if month > 2 {
      DivisibilityStep(a);
      LeapIndicator(a);
    }
  }

  /** Before the reform the result is the proleptic Julian-calendar day count, offset to JDN. */
  lemma {:induction false} JulianDayIsJulian(year: int, month: int, day: int)
    requires 1 <= month <= 12 && 1 <= day <= 31
    requires !IsGregorian(year, month, day)
    ensures JulianDay(year, month, day) == JulianOrdinal(AstronomicalYear(year), month, day) + 1721423
  {
    var a := AstronomicalYear(year);
    JulianDayUnfolded(year, month, day);
    if month > 2 {
      DivisibilityStep(a);
    }
  }

  /** Within one calendar (both days before, or both on or after, the reform) consecutive days are consecutive JDNs. */
  lemma NextDay(year: int, month: int, day: int)
    requires 1 <= month <= 12 && 1 <= day < 31
    requires IsGregorian(year, month, day) == IsGregorian(year, month, day + 1)
    ensures JulianDay(year, month, day + 1) == JulianDay(year, month, day) + 1
  {
    if IsGregorian(year, month, day) {
      JulianDayIsGregorian(year, month, day);
      JulianDayIsGregorian(year, month, day + 1);
    } else {
      JulianDayIsJulian(year, month, day);
      JulianDayIsJulian(year, month, day + 1);
    }
  }

  // ---------------------------------------------------------------------
  // Properties of the timestamp encoding.

  /** Hours, minutes and seconds add to the encoded day; the zone offset subtracts. */
  lemma EncodeTimestampFields(year: int, month: int, day: int,
                              hour: int, minute: int, second: real, zone: int)
    requires 1 <= month <= 12
    ensures EncodeTimestamp(year, month, day, hour, minute, second, zone)
            == EncodeTimestamp(year, month, day, 0, 0, 0.0, 0)
               + (3600 * hour) as real + (60 * minute) as real + second - (60 * zone) as real
    ensures EncodeTimestamp(year, month, day, 0, 0, 0.0, 0)
            == (JulianDay(year, month, day) - JulianDay(2001, 1, 1)) as real * 86400.0
  {
  }

  /** The next day, in the same calendar, encodes exactly 86400 seconds later. */
  lemma EncodeTimestampNextDay(year: int, month: int, day: int,
                               hour: int, minute: int, second: real, zone: int)
    requires 1 <= month <= 12 && 1 <= day < 31
    requires IsGregorian(year, month, day) == IsGregorian(year, month, day + 1)
    ensures EncodeTimestamp(year, month, day + 1, hour, minute, second, zone)
            == EncodeTimestamp(year, month, day, hour, minute, second, zone) + 86400.0
  {
    NextDay(year, month, day);
  }
}
