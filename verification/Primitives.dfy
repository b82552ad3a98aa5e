/** Bounded machine values shared by jobs, runs and clocks. */
module Primitives {
  import opened Wrappers

  const NANOS_PER_SECOND: int := 1_000_000_000
  const MAX_DURATION_SECONDS: int := 365 * 24 * 60 * 60

  const U64_MAX: int := 0xFFFF_FFFF_FFFF_FFFF
  const I64_MAX: int := 0x7FFF_FFFF_FFFF_FFFF
  const I128_MAX: int := 0x7FFF_FFFF_FFFF_FFFF_FFFF_FFFF_FFFF_FFFF
  const I128_MIN: int := -0x8000_0000_0000_0000_0000_0000_0000_0000
  const U128_MAX: int := 0xFFFF_FFFF_FFFF_FFFF_FFFF_FFFF_FFFF_FFFF

  // The range of the timestamp library, in nanoseconds from the Unix epoch.
  const MIN_TIMESTAMP: int := -377_705_023_201 * NANOS_PER_SECOND
  const MAX_TIMESTAMP: int := 253_402_207_200 * NANOS_PER_SECOND + 999_999_999

  /** A wall-clock reading in nanoseconds. */
  type UtcTimestamp = t: int | MIN_TIMESTAMP <= t <= MAX_TIMESTAMP

  /** A reading of the monotonic clock in nanoseconds. */
  type ElapsedInstant = t: int | 0 <= t <= U128_MAX

  /** A whole number of seconds from one second to 365 days. */
  type DurationSeconds = d: int | 1 <= d <= MAX_DURATION_SECONDS witness 1

  /** A revision or sequence number: an unsigned 64-bit value that is never zero. */
  type Counter = n: int | 1 <= n <= U64_MAX witness 1

  // Identifiers are compared only by value and order, both numeric.
  type JobId = nat
  type RunId = nat

  function Max(a: int, b: int): (r: int) { if a < b then b else a }

  function Min(a: int, b: int): (r: int) { if a < b then a else b }

  // Arithmetic of an unsigned type with the given greatest value.

  function CheckedMul(a: nat, b: nat, max: nat): (r: Option<nat>) {
    if a * b <= max then Some(a * b) else None
  }

  function CheckedAdd(a: nat, b: nat, max: nat): (r: Option<nat>) {
    if a + b <= max then Some(a + b) else None
  }
}
