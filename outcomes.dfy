/** Optional values, and the outcome of a Java call that may throw. */
module Outcomes {

  datatype Option<+T> = None | Some(value: T)

  /** The exceptions the modelled code can raise or propagate. */
  datatype Exception =
    | ConfigurationError(message: string)       // the standard policy could not be built
    | IllegalArgumentException(message: string) // a system property key was rejected

  /** A call that either returns a value or throws. */
  datatype Result<+T> = Success(value: T) | Failure(error: Exception)
}
