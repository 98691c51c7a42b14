/** Instants and durations as Go represents them: signed 64-bit counts of
    nanoseconds (`time.Unix(0, ns)` and `time.Duration`). */
module Clock {

  const MinInt64: int := -0x8000_0000_0000_0000
  const MaxInt64: int := 0x7fff_ffff_ffff_ffff
  const MinInt32: int := -0x8000_0000
  const MaxInt32: int := 0x7fff_ffff

  type Int64 = x: int | MinInt64 <= x <= MaxInt64
  type Int32 = x: int | MinInt32 <= x <= MaxInt32

  /** Nanoseconds since the Unix epoch. */
  type Instant = Int64

  /** A signed span of nanoseconds. */
  type Duration = Int64

  const Second: Duration := 1_000_000_000
  const Minute: Duration := 60 * Second
  const Hour: Duration := 60 * Minute

  /** `t.Sub(u)`: the elapsed time from `u` to `t`. Go returns the exact
      difference when it fits a Duration and otherwise the largest or
      smallest Duration, so the sign is kept and the size never overshoots. */
  function Sub(t: Instant, u: Instant): (d: Duration)
    ensures d == t - u <==> MinInt64 <= t - u <= MaxInt64
    ensures u <= t ==> 0 <= d <= t - u
    ensures t <= u ==> t - u <= d <= 0
    ensures t - u > MaxInt64 ==> d == MaxInt64
    ensures t - u < MinInt64 ==> d == MinInt64
  {
    if t - u > MaxInt64 then MaxInt64
    else if t - u < MinInt64 then MinInt64
    else t - u
  }

  /** A later end never gives a shorter span, and while no clamping happens
      a strictly later end gives a strictly longer one. */
  lemma SubMonotone(t1: Instant, t2: Instant, u: Instant)
    requires t1 <= t2
    ensures Sub(t1, u) <= Sub(t2, u)
    ensures t1 < t2 && t2 - u <= MaxInt64 && MinInt64 <= t1 - u ==> Sub(t1, u) < Sub(t2, u)
  {
  }
}
