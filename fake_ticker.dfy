/**
 * The controllable clock: a nanosecond counter that only moves when told to.
 */
module Ticker {

  import opened Durations

  class FakeTicker {
    var nanos: int

    /** The starting value (the system's nanoTime at construction) is a parameter. */
    constructor (start: int)
      ensures Read() == start
    {
      nanos := start;
    }

    /** The current instant; reading has no effect on the counter. */
    function Read(): int
      reads this
    {
      nanos
    }

    /** advance(time, unit) */
    method Advance(time: int, unit: TimeUnit)
      modifies this
      ensures Read() == old(Read()) + unit.ToNanos(time)
    {
      nanos := nanos + unit.ToNanos(time);
    }

    /** advance(duration) */
    method AdvanceBy(d: Duration)
      modifies this
      ensures Read() == old(Read()) + d.nanos
    {
      nanos := nanos + d.nanos;
    }
  }

  /** Two advances leave the clock where one advance by their sum would. */
  method AdvanceTwice(t: FakeTicker, a: Duration, b: Duration)
    modifies t
    ensures t.Read() == old(t.Read()) + a.Plus(b).nanos
  {
    t.AdvanceBy(a);
    t.AdvanceBy(b);
  }
}
