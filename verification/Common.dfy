/**
  What every component shares: optional and fallible values, and what may become of one durable write.
*/
module Common {

  datatype Option<+T> = None | Some(value: T)
  datatype Result<+T, +E> = Ok(value: T) | Err(error: E)

  /** Goes through, is refused, takes effect and still reports an error, or the process dies before or after it. */
  datatype Fault = Healthy | Refuses | Tears | DiesBefore | DiesAfter

  predicate Lands(fault: Fault) {
    fault.Healthy? || fault.Tears? || fault.DiesAfter?
  }

  predicate Kills(fault: Fault) {
    fault.DiesBefore? || fault.DiesAfter?
  }
}
