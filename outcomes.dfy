/** Small failure-carrying datatypes shared by the lifecycle model. */
module Outcomes {

  /** An optional value: an empty or a filled cell. */
  datatype Option<T> = None | Some(value: T)

  /** Why the process aborts. Both are Rust panics in the application:
      `NoWindow` is `unwrap()` on an empty window cell, `WindowAlreadySet`
      is the `expect("Window already set.")` on a second store. */
  datatype Abort = NoWindow | WindowAlreadySet

  /** The result of an operation that may abort the process. */
  datatype Outcome<T> = Ok(value: T) | Panic(reason: Abort)
}
