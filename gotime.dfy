/**
 * Go's `time.Time` and `time.Duration` as integer nanoseconds.
 * A time is the number of nanoseconds since 1970-01-01 00:00:00 UTC;
 * a duration is a signed number of nanoseconds.
 */
module GoTime {

  const NANOS_PER_SECOND: int := 1_000_000_000
  const MILLISECOND: int := 1_000_000

  /** time.Unix(sec, nsec) */
  function UnixTime(sec: int, nsec: int): int {
    sec * NANOS_PER_SECOND + nsec
  }

  /** The zero `time.Time`: January 1, year 1, 00:00:00 UTC. */
  const ZERO_TIME: int := UnixTime(-62135596800, 0)

  /** Time.Unix(): whole seconds since the epoch, rounded towards minus infinity. */
  function UnixSeconds(t: int): (sec: int)
    ensures sec * NANOS_PER_SECOND <= t < (sec + 1) * NANOS_PER_SECOND
  {
    t / NANOS_PER_SECOND
  }

  /** time.Unix followed by Time.Unix() gives back the seconds. */
  lemma UnixSecondsOfUnixTime(sec: int, nsec: int)
    requires 0 <= nsec < NANOS_PER_SECOND
    ensures UnixSeconds(UnixTime(sec, nsec)) == sec
  {
  }
}
