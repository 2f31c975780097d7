/**
 * What the executor sees of the real-time clock: the kinds of action it
 * emits, the (timestamp, action) pairs it yields, and the configuration the
 * executor hands it. The clock's own scheduling against the wall clock is
 * not part of this model; a run consumes a finite prefix of its output.
 */
module Clock {

  /** Timestamps are abstract ordered values. */
  type Timestamp = int

  /** The action half of a clock pair. Any value other than the three the
      dispatch loop compares against is `Unrecognised`. */
  datatype Action =
    | Bar
    | SessionStart
    | BeforeTradingStartBar
    | Unrecognised(code: int)
  {
    predicate IsRecognised() { !Unrecognised? }
  }

  /** One `(dt, action)` pair yielded by the clock. */
  datatype ClockEvent = ClockEvent(dt: Timestamp, action: Action)

  /** How the clock's stream ends after the prefix a run consumes: it stops
      yielding, or pulling the next pair raises. */
  datatype StreamEnd = Exhausted | ClockRaises

  datatype TimeOfDay = TimeOfDay(hour: nat, minute: nat)

  /** The arguments the executor passes to `RealtimeClock`. */
  datatype ClockConfig = ClockConfig(
    calendar: string,
    beforeTradingStart: TimeOfDay,
    timezone: string,
    minuteEmission: bool)

  /** The clock configuration built by `AlgorithmExecutor.__init__`. */
  function ConfigureClock(calendar: string, dataFrequency: string): ClockConfig {
    ClockConfig(calendar, TimeOfDay(8, 45), "America/New_York", dataFrequency == "minute")
  }
}
