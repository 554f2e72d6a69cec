/**
 * Calendar dates and the clock and time-zone facts the converters read from
 * the system. Converting a timestamp to a local or UTC date and formatting a
 * timestamp depend on the time-zone database, so they are parameters here.
 */
module Clock {
  import opened Text

  datatype Date = Date(year: int, month: int, day: int)

  /** The dates Python's `date` can hold. */
  type CalendarDate = d: Date | 1 <= d.year <= 9999 && 1 <= d.month <= 12 && 1 <= d.day <= 31
    witness Date(1970, 1, 1)

  /** a < b for Python dates: lexicographic on (year, month, day). */
  predicate Before(a: Date, b: Date) {
    a.year < b.year
    || (a.year == b.year && (a.month < b.month || (a.month == b.month && a.day < b.day)))
  }

  /** str(date): YYYY-MM-DD. */
  function IsoFormat(d: Date): string {
    Pad(d.year, 4) + "-" + Pad(d.month, 2) + "-" + Pad(d.day, 2)
  }

  /** A local wall-clock reading, to the hour. */
  datatype LocalTime = LocalTime(date: CalendarDate, hour: int)

  datatype Clock = Clock(
    utcDate: int -> CalendarDate,   // datetime.fromtimestamp(t, timezone.utc).date()
    localDate: int -> CalendarDate, // datetime.fromtimestamp(t).date()
    xmltvStamp: int -> string,      // local time of t as "%Y%m%d%H%M%S %z"
    localStamp: int -> string,      // local time of t as "%Y%m%d%H%M%S"
    today: CalendarDate,            // date.today()
    now: LocalTime,                 // datetime.fromtimestamp(time.time())
    utcOffset: int                  // seconds the local zone is ahead of UTC now
  )
}
