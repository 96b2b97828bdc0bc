/** Failure-compatible wrappers used throughout the model: a nullable value,
    a value-or-exception result, and a pass-or-exception outcome. */
module Wrappers {

  /** A value that may be absent; stands for a C# null reference or a Nullable<T>. */
  datatype Option<+T> = None | Some(value: T)

  /** Either a value or the exception an operation raised. */
  datatype Result<+R, +E> = Success(value: R) | Failure(error: E) {
    predicate IsFailure() { Failure? }

    function PropagateFailure<U>(): Result<U, E>
      requires Failure?
    {
      Failure(error)
    }

    function Extract(): R
      requires Success?
    {
      value
    }
  }

  /** The outcome of an operation whose only result is success or an exception. */
  datatype Outcome<+E> = Pass | Fail(error: E)
}
