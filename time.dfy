/**
 * The zone-free timeline of the model.
 *
 * An instant is a whole number of microseconds since 1970-01-01 00:00:00
 * (the resolution of Python's datetime); a date is a whole number of days
 * since that same midnight. Dafny's `/` on int is Euclidean, which for a
 * positive divisor is floor division, so `DateOf` is right for instants
 * before the epoch too.
 */
module Time {

  type Instant = int
  type Date = int

  const SecondUs: int := 1_000_000
  const HourUs: int := 3_600_000_000
  const DayUs: int := 86_400_000_000

  /** The calendar date of an instant (`datetime.date()`). */
  function DateOf(t: Instant): Date
  {
    t / DayUs
  }

  /** 00:00:00.000000 of a date (`now.replace(hour=0, minute=0, second=0, microsecond=0)`). */
  function Midnight(d: Date): (t: Instant)
    ensures DateOf(t) == d
  {
    d * DayUs
  }

  /** 23:59:59.999999 of a date (`datetime.combine(d, datetime.max.time())`). */
  function LastMicrosecond(d: Date): (t: Instant)
    ensures DateOf(t) == d && t + 1 == Midnight(d + 1)
  {
    d * DayUs + DayUs - 1
  }

  /** An instant lies on date `d` exactly when it is at or after d's midnight and before the next one. */
  lemma DateOfBetween(d: Date, t: Instant)
    ensures DateOf(t) == d <==> Midnight(d) <= t < Midnight(d + 1)
  {
  }

  /**
   * `ceil(us / 3600 s)` on exact integers: the least whole number of hours
   * that covers `us` microseconds. A negative span gives a non-positive
   * count, as Python's `math.ceil` does.
   */
  function CeilHours(us: int): (h: int)
    ensures (h - 1) * HourUs < us <= h * HourUs
  {
    -((-us) / HourUs)
  }

  /** The ceiling is the unique whole number with that covering property. */
  lemma CeilHoursUnique(us: int, h: int)
    requires (h - 1) * HourUs < us <= h * HourUs
    ensures CeilHours(us) == h
  {
  }

  /** A span of at least zero and at most one day needs between 0 and 24 hours. */
  lemma CeilHoursWithinDay(us: int)
    requires -HourUs < us <= DayUs
    ensures 0 <= CeilHours(us) <= 24
  {
  }

  /** A calendar month, the key `strftime('%Y-%m')` builds for a date. */
  datatype YearMonth = YearMonth(year: int, month: int)

  /** A proleptic Gregorian calendar date. */
  datatype Civil = Civil(year: int, month: int, day: int)

  /**
   * The proleptic Gregorian calendar date of a day number (days since
   * 1970-01-01), by shifting to years that start on March 1 and counting
   * 400-year eras, 100-year centuries, 4-year cycles and 153-day blocks
   * of five months.
   */
  function CivilFromDays(z: Date): Civil
  {
    var shifted := z + 719468;
    var era := shifted / 146097;
    var dayOfEra := shifted - era * 146097;
    var yearOfEra := (dayOfEra - dayOfEra / 1460 + dayOfEra / 36524 - dayOfEra / 146096) / 365;
    var dayOfYear := dayOfEra - (365 * yearOfEra + yearOfEra / 4 - yearOfEra / 100);
    var marchMonth := (5 * dayOfYear + 2) / 153;
    var day := dayOfYear - (153 * marchMonth + 2) / 5 + 1;
    var month := if marchMonth < 10 then marchMonth + 3 else marchMonth - 9;
    Civil(yearOfEra + era * 400 + (if month <= 2 then 1 else 0), month, day)
  }

  /** The year and month of a date. */
  function MonthOf(d: Date): YearMonth
  {
    var c := CivilFromDays(d);
    YearMonth(c.year, c.month)
  }

}
