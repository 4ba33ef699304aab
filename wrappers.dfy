/** Option and Result, the failure-compatible wrappers used across the model. */
module Wrappers {

  datatype Option<+T> = None | Some(value: T)

  /** A value, or the error that a Java method would have thrown instead. */
  datatype Result<+T, +E> = Success(value: T) | Failure(error: E) {
    predicate IsFailure() {
      Failure?
    }

    function PropagateFailure<U>(): Result<U, E>
      requires Failure?
    {
      Failure(error)
    }

    function Extract(): T
      requires Success?
    {
      value
    }
  }
}

/** What `build()` can throw. */
module Errors {

  datatype BuildError =
    /** A BbeNetworkBuilderException raised by the precondition checks of build(). */
    | ConfigError(message: string)
    /** A BbeNetworkBuilderException raised by getUrl. */
    | UrlNotFound(message: string)
    /** A BbeNetworkBuilderException wrapping the IOException of reading `path`. */
    | ReadFailed(path: string)
    /** The NullPointerException of `listFiles().length` when `path` exists but is not a directory. */
    | NullListing(path: string)
}
