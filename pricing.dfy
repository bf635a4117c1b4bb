/** Calendar days and the booking price: the `calculateDays` formula that
    the booking table, the booking forms, both booking detail views and
    the reports each compute, and `days × dailyRate`. */
module Pricing {

  /** `1000 * 60 * 60 * 24`. */
  const MsPerDay: int := 1000 * 60 * 60 * 24

  function Abs(x: int): nat
  {
    if x < 0 then -x else x
  }

  /** `Math.ceil(Math.abs(end - start) / MsPerDay)` on millisecond
      timestamps: the least number of whole days that covers the gap
      between the two instants. */
  function CalculateDays(startMs: int, endMs: int): (days: nat)
    ensures days * MsPerDay >= Abs(endMs - startMs)
    ensures days == 0 || (days - 1) * MsPerDay < Abs(endMs - startMs)
  {
    (Abs(endMs - startMs) + MsPerDay - 1) / MsPerDay
  }

  /** The two bounds of CalculateDays pin it down: no other count covers
      the gap and is the least such. */
  lemma DaysUnique(startMs: int, endMs: int, n: nat)
    requires n * MsPerDay >= Abs(endMs - startMs)
    requires n == 0 || (n - 1) * MsPerDay < Abs(endMs - startMs)
    ensures n == CalculateDays(startMs, endMs)
  {
  }

  /** The order of the two dates does not matter. */
  lemma DaysSymmetric(a: int, b: int)
    ensures CalculateDays(a, b) == CalculateDays(b, a)
  {
    assert Abs(b - a) == Abs(a - b);
  }

  /** A booking that starts and ends at the same instant lasts 0 days. */
  lemma DaysSameInstant(t: int)
    ensures CalculateDays(t, t) == 0
  {
  }

  /** Instants exactly `k` whole days apart are `k` days apart. */
  lemma DaysWhole(start: int, k: nat)
    ensures CalculateDays(start, start + k * MsPerDay) == k
  {
    assert Abs(start + k * MsPerDay - start) == k * MsPerDay;
    DaysUnique(start, start + k * MsPerDay, k);
  }

  /** A positive part of a day, beyond `k` whole days, counts as a whole
      day. */
  lemma DaysPartial(start: int, k: nat, part: int)
    requires 0 < part < MsPerDay
    ensures CalculateDays(start, start + k * MsPerDay + part) == k + 1
  {
    assert Abs(start + k * MsPerDay + part - start) == k * MsPerDay + part;
    assert (k + 1) * MsPerDay == k * MsPerDay + MsPerDay;
    DaysUnique(start, start + k * MsPerDay + part, k + 1);
  }

  /** A non-zero gap, however small, is at least one day. */
  lemma DaysPositive(a: int, b: int)
    ensures CalculateDays(a, b) == 0 <==> a == b
  {
  }

  /** `days * dailyRate`. */
  function Total(days: nat, dailyRate: int): int
  {
    days * dailyRate
  }

  /** The price is never negative when the rate is not. */
  lemma TotalNonNegative(days: nat, dailyRate: int)
    requires dailyRate >= 0
    ensures Total(days, dailyRate) >= 0
  {
  }

  // ---------------------------------------------------------------------
  // Calendar dates
  // ---------------------------------------------------------------------

  /** The number of days from 1970-01-01 to the proleptic Gregorian date
      `year-month-day`. */
  function CivilDay(year: int, month: int, day: int): int
    requires 1 <= month <= 12 && 1 <= day <= 31
  {
    var y := if month <= 2 then year - 1 else year;
    var era := y / 400;
    var yoe := y - era * 400;
    var mp := if month > 2 then month - 3 else month + 9;
    var doy := (153 * mp + 2) / 5 + day - 1;
    var doe := yoe * 365 + yoe / 4 - yoe / 100 + doy;
    era * 146097 + doe - 719468
  }

  /** The value of an `<input type="date">`: empty, or a date, held as its
      day number. Two such values compare as their `YYYY-MM-DD` strings do. */
  datatype DateField = NoDate | OnDay(day: int)

  /** `new Date('YYYY-MM-DD').getTime()`: a date-only ISO string is read as
      midnight UTC. */
  function DayStartMs(dayNumber: int): int
  {
    dayNumber * MsPerDay
  }

  lemma EpochIsDayZero()
    ensures CivilDay(1970, 1, 1) == 0
  {
  }

  /** For date-only values the day count is the distance between the day
      numbers. */
  lemma DaysBetweenDates(a: int, b: int)
    ensures CalculateDays(DayStartMs(a), DayStartMs(b)) == Abs(b - a)
  {
    if a <= b {
      assert DayStartMs(b) == DayStartMs(a) + (b - a) * MsPerDay;
      DaysWhole(DayStartMs(a), b - a);
    } else {
      assert DayStartMs(a) == DayStartMs(b) + (a - b) * MsPerDay;
      DaysWhole(DayStartMs(b), a - b);
      DaysSymmetric(DayStartMs(a), DayStartMs(b));
    }
  }

  /** The sample bookings: 2024-12-20 to 2024-12-25 at 40 a day is 200,
      2024-12-22 to 2024-12-24 at 45 is 90, and 2024-12-28 to 2024-12-30
      at 85 is 170. */
  lemma SampleBookingTotals()
    ensures Total(CalculateDays(DayStartMs(CivilDay(2024, 12, 20)), DayStartMs(CivilDay(2024, 12, 25))), 40) == 200
    ensures Total(CalculateDays(DayStartMs(CivilDay(2024, 12, 22)), DayStartMs(CivilDay(2024, 12, 24))), 45) == 90
    ensures Total(CalculateDays(DayStartMs(CivilDay(2024, 12, 28)), DayStartMs(CivilDay(2024, 12, 30))), 85) == 170
  {
    DaysBetweenDates(CivilDay(2024, 12, 20), CivilDay(2024, 12, 25));
    DaysBetweenDates(CivilDay(2024, 12, 22), CivilDay(2024, 12, 24));
    DaysBetweenDates(CivilDay(2024, 12, 28), CivilDay(2024, 12, 30));
  }
}
