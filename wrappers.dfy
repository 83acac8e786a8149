/** Small failure-carrying datatypes shared by the whole model. */
module Wrappers {

  /** A Java reference that may be null: None stands for null. */
  datatype Option<+T> = None | Some(value: T)

  /** The outcome of a predictor call: a value, or the IllegalStateException
      that a predictor throws when it is used before its model is loaded
      (NotReady), or any other runtime exception (Unexpected). */
  datatype Outcome<+T> = Ok(value: T) | NotReady(message: string) | Unexpected(message: string)
}
