/**
 * Durations and time units, counted in nanoseconds.
 * A java.time.Duration is modelled by the number of nanoseconds it spans,
 * and a java.util.concurrent.TimeUnit by its conversion factor to nanoseconds.
 * Integers are unbounded: the 64-bit overflow of toNanos is not modelled.
 */
module Durations {

  const NanosPerSecond: int := 1_000_000_000
  const NanosPerMinute: int := 60 * NanosPerSecond
  const NanosPerHour: int := 60 * NanosPerMinute

  datatype Duration = Duration(nanos: int)
  {
    /** Duration.plus: the durations add up. */
    function Plus(other: Duration): Duration
    {
      Duration(nanos + other.nanos)
    }
  }

  function OfSeconds(s: int): Duration { Duration(s * NanosPerSecond) }
  function OfMinutes(m: int): Duration { Duration(m * NanosPerMinute) }
  function OfHours(h: int): Duration { Duration(h * NanosPerHour) }

  datatype TimeUnit = Nanoseconds | Microseconds | Milliseconds | Seconds | Minutes | Hours | Days
  {
    /** Nanoseconds in one unit. */
    function Factor(): (f: int)
      ensures f > 0
    {
      match this
      case Nanoseconds => 1
      case Microseconds => 1_000
      case Milliseconds => 1_000_000
      case Seconds => NanosPerSecond
      case Minutes => NanosPerMinute
      case Hours => NanosPerHour
      case Days => 24 * NanosPerHour
    }

    /** TimeUnit.toNanos, without saturation at the bounds of a long. */
    function ToNanos(time: int): int { time * Factor() }
  }

}
