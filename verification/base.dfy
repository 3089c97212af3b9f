/** Failure-carrying values and the Math helpers shared by the easing, tween and scroll modules. */
module Base {

  datatype Option<+T> = None | Some(value: T)

  /** The errors the library throws synchronously. */
  datatype Error =
    | InvalidBezierParameters   // an x control value outside [0, 1]
    | MissingElement            // scrollIntoViewIfNeeded called without an element
    | SchedulerWithoutNext      // a supplied scheduler has no next(cb) function
    | SchedulerWithoutCancel    // a supplied scheduler has no cancel(handle) function

  datatype Result<+T> = Ok(value: T) | Err(error: Error)

  /** Math.min and Math.max on numbers. */
  function Min(a: real, b: real): real {
    if a < b then a else b
  }

  function Max(a: real, b: real): real {
    if a < b then b else a
  }
}
