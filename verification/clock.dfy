/** Points in time. The domain never computes with time values; it only
    stores them and asks whether one is Go's zero `time.Time`. */
module Clock {

  /** An instant, as an opaque tick count. */
  datatype Time = Time(ticks: int)

  /** The zero value of `time.Time`, which the validation library treats as empty. */
  const Zero: Time := Time(0)

  predicate IsZero(t: Time) {
    t == Zero
  }
}
