/** Option and Result values, and the regrouping of concatenations, shared by every module of the compiler model. */
module Wrappers {
  /** Concatenation regroups: streams of errors and of instructions are built by appending. */
  lemma ConcatAssoc<T>(a: seq<T>, b: seq<T>, c: seq<T>)
    ensures a + b + c == a + (b + c)
  {
  }

  datatype Option<T> = None | Some(value: T)

  /**
   * The outcome of an operation that the compiler aborts with an exception;
   * `:-` passes a failure on unchanged.
   */
  datatype Result<T> = Success(value: T) | Failure(error: string)
  {
    predicate IsFailure() { Failure? }

    function PropagateFailure<U>(): Result<U>
      requires Failure?
    {
      Failure(error)
    }

    function Extract(): T
      requires Success?
    {
      value
    }
  }
}
