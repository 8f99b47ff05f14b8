/** JavaScript Date objects as the pages use them: a time value in
    milliseconds together with the calendar date the browser's time zone
    gives it. How a value is parsed into a Date, and what the time zone is,
    are inputs. */
module LocalTime {
  import opened Outcomes
  import opened Calendar
  import opened JsValues

  /** A date `getFullYear()`, `getMonth()` and `getDate()` can report. */
  type LocalDate = d: CalDate | ValidDate(d) witness CalDate(1970, 0, 1)

  /** A valid Date: its time value and its local calendar date. */
  datatype Moment = Moment(time: int, date: LocalDate)

  /** `new Date(v)` (None for an Invalid Date) and `new Date()`. */
  datatype Clock = Clock(now: Moment, toDate: JsValue -> Option<Moment>)

  /** The number of milliseconds in a day. */
  const DayMillis := 86400000

  /** The clock reads the date-only form of `d` as midnight UTC of that
      day, as ECMAScript's date-time string format prescribes. */
  predicate ReadsAsUtcMidnight(clock: Clock, key: string, d: LocalDate)
  {
    clock.toDate(Str(key)).Some? && clock.toDate(Str(key)).value.time == DayOf(d) * DayMillis
  }
}
