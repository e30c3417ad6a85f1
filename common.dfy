/** Shared value types: optional values, results, bytes, instants and durations. */
module Common {

  datatype Option<+T> = None | Some(value: T)

  /** A value or the error that the Go code returns beside it. */
  datatype Result<+T, +E> = Ok(value: T) | Err(error: E)

  /** One octet of a Go `[]byte` or of the UTF-8 bytes of a Go `string`. */
  newtype byte = x: int | 0 <= x < 256

  /** A wall-clock instant (`time.Time`) in nanoseconds since the epoch. */
  type Time = int

  /**
   * The zero `time.Time`, January 1 of year 1, 00:00:00 UTC: the value
   * `IsZero` recognises and the default of the users table's
   * password_changed_at column.
   */
  const ZeroTime: Time := -62_135_596_800_000_000_000

  /** A `time.Duration` in nanoseconds; it may be negative. */
  type Duration = int

  /** A `uuid.UUID`; the model only needs that distinct ids are distinct values. */
  type Uuid = nat

  /** The zero `uuid.UUID`, the value a field holds when a Go struct is left unfilled. */
  const NilUuid: Uuid := 0

  /** `time.Time.After`: the instant `now` lies strictly after `t`. */
  predicate After(now: Time, t: Time) {
    now > t
  }
}
