/** Ids and durations that several components share. Times and durations are integer ticks
    (nanoseconds, as in Go's time.Duration). */
module Units {
  const SECOND: int := 1_000_000_000
  const MINUTE: int := 60 * SECOND
  const HOUR: int := 60 * MINUTE

  type AccountID = nat // zero stands for the empty id; only equality and order are used
  type PlanID = nat
  type UserID = string
}
