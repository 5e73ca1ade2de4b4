/**
 * Calendar arithmetic behind `new Date(year, monthIndex, day)`, `getTime()` and
 * `getFullYear()`, on the proleptic Gregorian calendar with the clock at UTC
 * midnight. Instants are integer milliseconds since 1970-01-01.
 *
 * As in JavaScript, a month index outside 0..11 carries into the year, a day
 * outside the month runs on into the next or previous months, and the years
 * 0..99 given to the constructor are read as 1900..1999.
 */
module Civil {

  const MsPerDay := 86_400_000

  /** The three numbers passed to the `Date` constructor; `month` is 0-based. */
  datatype Date = Date(year: int, month: int, day: int)

  predicate IsLeapYear(y: int) {
    y % 4 == 0 && (y % 100 != 0 || y % 400 == 0)
  }

  /** Leap years up to and including `y - 1`, counted from an arbitrary origin. */
  function LeapsBefore(y: int): int {
    (y - 1) / 4 - (y - 1) / 100 + (y - 1) / 400
  }

  /** Days from 1970-01-01 to January 1 of year `y`. */
  function DaysBeforeYear(y: int): int {
    365 * (y - 1970) + LeapsBefore(y) - LeapsBefore(1970)
  }

  /** Days from January 1 to the first day of month `m` (0-based) of year `y`. */
  function DaysBeforeMonth(y: int, m: int): (r: int)
    requires 0 <= m < 12
    ensures 0 <= r <= 335
  {
    var cumulative := [0, 31, 59, 90, 120, 151, 181, 212, 243, 273, 304, 334];
    cumulative[m] + (if m >= 2 && IsLeapYear(y) then 1 else 0)
  }

  /** The year the constructor uses: 0..99 stand for 1900..1999. */
  function ConstructorYear(y: int): int {
    if 0 <= y <= 99 then 1900 + y else y
  }

  /** Days since 1970-01-01 of `new Date(year, month, day)`; `/` and `%` by 12 floor, as MakeDay does. */
  function DayNumber(d: Date): int {
    var y := ConstructorYear(d.year) + d.month / 12;
    DaysBeforeYear(y) + DaysBeforeMonth(y, d.month % 12) + d.day - 1
  }

  /** `new Date(year, month, day).getTime()`. */
  function EpochMs(d: Date): int {
    DayNumber(d) * MsPerDay
  }

  /** The first instant of calendar year `y`. */
  function YearStart(y: int): int {
    DaysBeforeYear(y) * MsPerDay
  }

  /** `new Date(t).getFullYear() == y`. */
  predicate InYear(t: int, y: int) {
    YearStart(y) <= t < YearStart(y + 1)
  }

  /** A month index in 0..11 does not carry into the year. */
  lemma DayNumberInRange(y: int, m: int, d: int)
    requires !(0 <= y <= 99) && 0 <= m < 12
    ensures DayNumber(Date(y, m, d)) == DaysBeforeYear(y) + DaysBeforeMonth(y, m) + d - 1
  {
  }

  /** `new Date(y, 0, 1)` is the start of year `y` for every year outside 0..99. */
  lemma JanuaryFirst(y: int)
    requires !(0 <= y <= 99)
    ensures EpochMs(Date(y, 0, 1)) == YearStart(y)
  {
  }

  /** Floor division by 4, 100 and 400 steps up by one exactly at the multiples of the divisor. */
  lemma FloorSteps(y: int)
    ensures y / 4 - (y - 1) / 4 == if y % 4 == 0 then 1 else 0
    ensures y / 100 - (y - 1) / 100 == if y % 100 == 0 then 1 else 0
    ensures y / 400 - (y - 1) / 400 == if y % 400 == 0 then 1 else 0
  {
  }

  /** A multiple of 400 is a multiple of 100, and a multiple of 100 is a multiple of 4. */
  lemma MultiplesNest(y: int)
    ensures y % 400 == 0 ==> y % 100 == 0
    ensures y % 100 == 0 ==> y % 4 == 0
  {
    if y % 400 == 0 {
      var k := y / 400;
      assert y == 400 * k;
      assert y == 100 * (4 * k);
    }
    if y % 100 == 0 {
      var k := y / 100;
      assert y == 100 * k;
      assert y == 4 * (25 * k);
    }
  }

  /** A year is 366 days long exactly when it is a leap year, and 365 days otherwise. */
  lemma YearLength(y: int)
    ensures DaysBeforeYear(y + 1) - DaysBeforeYear(y) == if IsLeapYear(y) then 366 else 365
  {
    FloorSteps(y);
    MultiplesNest(y);
    assert LeapsBefore(y + 1) - LeapsBefore(y) ==
      (if y % 4 == 0 then 1 else 0) - (if y % 100 == 0 then 1 else 0) + (if y % 400 == 0 then 1 else 0);
  }

  /** Later years start later. */
  lemma {:induction false} YearStartMonotone(a: int, b: int)
    requires a < b
    ensures YearStart(a) + 365 * MsPerDay <= YearStart(b)
    decreases b - a
  {
    YearLength(b - 1);
    if a < b - 1 {
      YearStartMonotone(a, b - 1);
    }
  }

  /** An instant lies in at most one calendar year. */
  lemma InOneYear(t: int, y1: int, y2: int)
    requires InYear(t, y1) && InYear(t, y2)
    ensures y1 == y2
  {
    if y1 < y2 { YearStartMonotone(y1, y2); if y1 + 1 < y2 { YearStartMonotone(y1 + 1, y2); } }
    if y2 < y1 { YearStartMonotone(y2, y1); if y2 + 1 < y1 { YearStartMonotone(y2 + 1, y1); } }
  }
}
