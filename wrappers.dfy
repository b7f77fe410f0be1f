/** Optional values and results with an error, shared by every module of the model. */
module Wrappers {

  /**
   * A value that may be absent: JavaScript's `null` or `undefined`, or PHP's
   * unset key. Each use says which one `None` stands for.
   */
  datatype Option<+T> = None | Some(value: T)

  /** The outcome of an operation that either succeeds or reports an error. */
  datatype Result<+R, +E> = Ok(value: R) | Err(error: E)
}
