/** The deterministic clock the probe's tests inject in place of the wall clock. */
module Clock {
  import opened GoTime

  class FakeClock {
    /** The current time, in nanoseconds since the epoch. */
    var currentTime: int

    /** NewFakeClock: the clock starts at time.Unix(123456789, 0). */
    constructor ()
      ensures currentTime == UnixTime(123456789, 0)
      ensures UnixSeconds(currentTime) == 123456789
    {
      currentTime := UnixTime(123456789, 0);
      UnixSecondsOfUnixTime(123456789, 0);
    }

    /** The stored time; reading it changes nothing. */
    function Now(): int
      reads this
    {
      currentTime
    }

    /** The duration from `t` up to now. */
    function Since(t: int): (d: int)
      reads this
      ensures t + d == Now()
    {
      Now() - t
    }

    /** Moves the clock forward by `d` and changes nothing else. */
    method Elapse(d: int)
      modifies this
      ensures currentTime == old(currentTime) + d
    {
      currentTime := currentTime + d;
    }
  }
}
