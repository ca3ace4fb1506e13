/** Values that may be missing, and operations that may fail. */
module Wrappers {
  datatype Option<+T> = None | Some(value: T)

  datatype Result<+T, +E> = Success(value: T) | Failure(error: E)

  /** What a store call raises. Nothing else in the model depends on the wording. */
  datatype StoreError = StoreError
}
