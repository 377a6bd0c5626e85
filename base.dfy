/** Small shared vocabulary: optional values, results and process exit codes. */
module Base {

  datatype Option<T> = None | Some(value: T)

  datatype Result<T, E> = Success(value: T) | Failure(error: E)

  /** `EXIT_SUCCESS` and `EXIT_FAILURE` of the C library on the systems the tools target. */
  const ExitSuccess: int := 0
  const ExitFailure: int := 1
}
