/** Values that stand for the results of the steps app.js cannot do by itself:
    a value that may be missing, a step that yields a value or throws, and a
    step that only succeeds or throws. A thrown JavaScript error is modelled by
    its `message`, the only part of it the program uses. */
module Outcomes {

  /** A JSON value that may be absent (`undefined` or `null`). */
  datatype Option<+T> = None | Some(value: T)

  /** A step that returns a value or throws an error with a message. */
  datatype Result<+T> = Ok(value: T) | Err(message: string)

  /** A step that returns nothing or throws an error with a message. */
  datatype Status = Done | Failed(message: string)
}
