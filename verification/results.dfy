/** Small failure-carrying datatypes shared by the other modules. */
module Results {

  /** A value that may be missing; `None` stands for a Python conversion that raises ValueError. */
  datatype Option<+T> = None | Some(value: T)

  /**
   * The end of a call that either returns normally (`Pass`) or stops at a failed
   * Python `assert` (`Fail`), carrying the assertion's message.
   */
  datatype Outcome = Pass | Fail(message: string)

  /** A value, or the message of the failed `assert` that stopped the call before it produced one. */
  datatype Result<+T> = Ok(value: T) | Failed(message: string)
}
