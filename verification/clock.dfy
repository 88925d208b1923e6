/**
 * Time as the monitor sees it. An instant is a count of nanoseconds since
 * Go's zero `time.Time` (January 1, year 1, UTC); a duration is Go's
 * `time.Duration`, an int64 count of nanoseconds. The wall clock is never
 * read here: callers pass `now` explicitly.
 */
module Clock {
  import opened Runtime

  type Instant = int
  type Duration = int

  /** The zero `time.Time`, which `time.Parse` returns on failure. */
  const ZeroTime: Instant := 0
  const Millisecond: Duration := 1_000_000

  /** `time.Since(start)` read at `now`: `Time.Sub` saturates at the int64
      bounds instead of wrapping. */
  function Since(now: Instant, start: Instant): (d: Duration)
    ensures InInt64(d)
    ensures InInt64(now - start) ==> d == now - start
    ensures now - start > MaxInt64 ==> d == MaxInt64
    ensures now - start < MinInt64 ==> d == MinInt64
  {
    SaturateInt64(now - start)
  }

  /** `time.Duration(ms) * time.Millisecond`: an int64 product, which wraps. */
  function FromMillis(ms: int): (d: Duration)
    ensures InInt64(d)
    ensures (d - ms * Millisecond) % TwoTo64 == 0
    ensures InInt64(ms * Millisecond) ==> d == ms * Millisecond
  {
    WrapInt64(ms * Millisecond)
  }
}
