/** Instants and durations, as Go's time package has them. */
module Times {

  /** Nanoseconds since the zero time, which is 0 and stands for "not set". */
  type Time = int

  /** Nanoseconds in 64 bits. */
  type Duration = int

  const SECOND := 1_000_000_000
  const MIN_DURATION := -0x8000_0000_0000_0000
  const MAX_DURATION := 0x7FFF_FFFF_FFFF_FFFF

  predicate IsSet(t: Time) { t != 0 }

  /** True for an instant the status stores without loss. */
  predicate Whole(t: Time) { t % SECOND == 0 }

  /** Truncates to the seconds an instant is stored with, rounding down. */
  function Seconds(t: Time): (r: Time)
    ensures Whole(r) && r <= t < r + SECOND
  {
    t - t % SECOND
  }

  /** The time from u to t. Go saturates it at the ends of the 64-bit range. */
  function Sub(t: Time, u: Time): (d: Duration)
    ensures MIN_DURATION <= d <= MAX_DURATION
    ensures MIN_DURATION <= t - u <= MAX_DURATION ==> d == t - u
  {
    if t - u < MIN_DURATION then MIN_DURATION else if t - u > MAX_DURATION then MAX_DURATION else t - u
  }

  /** The difference of two durations. Go wraps it around in 64 bits. */
  function Minus(a: Duration, b: Duration): (d: Duration)
    ensures MIN_DURATION <= d <= MAX_DURATION
    ensures MIN_DURATION <= a - b <= MAX_DURATION ==> d == a - b
  {
    (a - b - MIN_DURATION) % 0x1_0000_0000_0000_0000 + MIN_DURATION
  }
}

module Options {
  datatype Option<+T> = None | Some(value: T)
}
