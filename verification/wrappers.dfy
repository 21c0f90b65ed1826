/** Optional values and results with typed errors, shared by every module. */
module Wrappers {
  /** A nullable field or pointer of the source (`*time.Time`, `*uuid.UUID`, ...). */
  datatype Option<T> = None | Some(value: T)

  /** A value or the error a Go function returns beside it. */
  datatype Result<T, E> = Ok(value: T) | Err(error: E)
}
