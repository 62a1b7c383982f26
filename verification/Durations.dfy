/** Durations as integer numbers of nanoseconds, as in Go's time.Duration. */
module Durations {
  const MILLISECOND: int := 1_000_000
  const SECOND: int := 1_000_000_000
  const MINUTE: int := 60_000_000_000
  const HOUR: int := 3_600_000_000_000
}
