/** Small value wrappers shared by the rotation engine's modules. */
module Common {

  /** A value that may be absent (a JavaScript field that is `undefined`). */
  datatype Option<+T> = None | Some(value: T)

  /** The outcome of a host call that may throw. */
  datatype Result<+T> = Ok(value: T) | Err(message: string)

  /** `o || 0` for a numeric field: a missing value reads as zero. */
  function OrZero(o: Option<real>): (r: real)
    ensures o.None? ==> r == 0.0
    ensures o.Some? ==> r == o.value
  {
    if o.Some? then o.value else 0.0
  }
}
