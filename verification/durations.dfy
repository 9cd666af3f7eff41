/** Durations as whole nanoseconds, with the unit constants of Go's `time`
    package. A Go `time.Duration` is a signed 64-bit count of nanoseconds;
    nothing in this model does arithmetic on configured durations, so they
    are plain integers. */
module Durations {

  type Duration = int

  const Nanosecond: Duration := 1
  const Microsecond: Duration := 1000 * Nanosecond
  const Millisecond: Duration := 1000 * Microsecond
  const Second: Duration := 1000 * Millisecond
  const Minute: Duration := 60 * Second
  const Hour: Duration := 60 * Minute
}
