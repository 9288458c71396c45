/**
 * Instants and durations as the cache sees them.
 *
 * An instant is a whole number of nanoseconds since Go's zero `time.Time`
 * (January 1, year 1, UTC), so the zero value of a time field is the instant 0.
 * A `time.Duration` is a signed 64-bit count of nanoseconds.
 */
module Clock {

  const Second: int := 1_000_000_000
  const Minute: int := 60 * Second

  const MinDuration: int := -0x8000_0000_0000_0000
  const MaxDuration: int := 0x7FFF_FFFF_FFFF_FFFF

  type Duration = d: int | -0x8000_0000_0000_0000 <= d <= 0x7FFF_FFFF_FFFF_FFFF

  /**
   * `t.Sub(u)`: the duration from `u` to `t`; when that does not fit in a
   * Duration the result saturates at the bound on the side it overflowed.
   * `time.Since(u)` is `Sub(now, u)`.
   */
  function Sub(t: int, u: int): (d: Duration)
    ensures d == t - u
         || (t - u > MaxDuration && d == MaxDuration)
         || (t - u < MinDuration && d == MinDuration)
  {
    if t - u > MaxDuration then MaxDuration
    else if t - u < MinDuration then MinDuration
    else t - u
  }

  /** Saturation never changes the answer to "has less than `bound` elapsed?" for a bound above the minimum. */
  lemma SubBelow(t: int, u: int, bound: Duration)
    requires bound > MinDuration
    ensures Sub(t, u) < bound <==> t - u < bound
  {
  }
}
