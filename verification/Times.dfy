/**
  Instants, half-open windows and the database clock.
 */
module Times {

  // An instant: microseconds since the Unix epoch, the resolution of timestamptz.
  type Time = int

  const SECOND: Time := 1_000_000
  const MINUTE: Time := 60 * SECOND
  const HOUR: Time := 60 * MINUTE
  const DAY: Time := 24 * HOUR
  const HALF_HOUR: Time := 30 * MINUTE

  /** A range [lo, hi): its lower bound is inclusive and its upper bound exclusive. */
  datatype Window = Window(lo: Time, hi: Time) {
    predicate Proper() {
      lo < hi
    }

    predicate Overlaps(other: Window) {
      lo < other.hi && other.lo < hi
    }

    predicate Within(other: Window) {
      other.lo <= lo && hi <= other.hi
    }
  }

  /**
    The readings of clock_timestamp(), in the order in which they are taken.
    Any amount of time may pass between two readings.
   */
  type Clock = nat -> Time

  ghost predicate Monotone(clock: Clock) {
    forall i: nat, j: nat | i <= j :: clock(i) <= clock(j)
  }

  function Min(a: Time, b: Time): Time {
    if a <= b then a else b
  }
}
