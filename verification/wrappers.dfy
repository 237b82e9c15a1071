/** Optional values, standing in for Go's nil pointers, and results of
    factories that either build an entity or return an error. */
module Wrappers {

  /** A nullable value: `None` is Go's `nil`. */
  datatype Option<+T> = None | Some(value: T)

  /** The outcome of a validating factory: an entity or an error, never both. */
  datatype Result<+R, +E> = Success(value: R) | Failure(error: E)

  /** The outcome of a validating setter: the receiver as it is after the
      call, and the error the call returned (`None` for Go's `nil`). */
  datatype Mutation<+T, +E> = Mutation(after: T, error: Option<E>) {
    predicate Succeeded() { error.None? }
  }
}
