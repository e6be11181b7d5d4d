/** Option and Result stand for the null references and the exceptions of the patched code. */
module Wrappers {

  /** `None` models a null reference. */
  datatype Option<T> = None | Some(value: T)

  /** The two ways a call in this core aborts instead of returning. */
  datatype Failure =
    | ArgumentNull(paramName: string)  // Error.AssertObject on a null argument
    | NullReference                     // a member access through a null item

  datatype Result<T> = Ok(value: T) | Err(error: Failure)
}
