/**
 * The hour of day `time.strftime("%H", time.localtime(ms / 1000))` yields.
 * The statistics take it as a function from epoch milliseconds to a label;
 * a local time zone that is a fixed offset from UTC gives one such function.
 */
module LocalTime {

  /** One of the twenty-four labels strftime("%H") produces, "00" to "23". */
  predicate IsHour(h: string)
  {
    |h| == 2 && (('0' <= h[0] <= '1' && '0' <= h[1] <= '9') || (h[0] == '2' && '0' <= h[1] <= '3'))
  }

  /** The two-digit label of hour `n`. */
  function HourLabel(n: int): string
    requires 0 <= n < 24
  {
    [('0' as int + n / 10) as char, ('0' as int + n % 10) as char]
  }

  /** Local wall-clock hour of the epoch-millisecond instant `ms`, seconds rounded down. */
  function HourOf(ms: int, utcOffset: int): (h: string)
    ensures IsHour(h)
  {
    HourLabel(((ms / 1000 + utcOffset) / 3600) % 24)
  }

  /** A clock whose every answer is one of the twenty-four labels. */
  ghost predicate IsHourFunction(hourOf: int -> string)
  {
    forall ms :: IsHour(hourOf(ms))
  }

  /** The hour lookup of a zone `utcOffset` seconds east of UTC. */
  function FixedOffsetClock(utcOffset: int): (hourOf: int -> string)
    ensures IsHourFunction(hourOf)
  {
    ms => HourOf(ms, utcOffset)
  }
}
