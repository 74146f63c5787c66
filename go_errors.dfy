/** Go's error values and the optional and fallible results the executor passes around. */
module GoErrors {

  datatype Option<+T> = None | Some(value: T)

  /**
   * A Go `error`. The executor inspects an error's dynamic type in one place only
   * (the exit-code classification in cmd/root.go), so the two build-error types of
   * the code base are kept apart and every other error is its message.
   */
  datatype Error =
    | Other(msg: string)              // any error built by fmt.Errorf or returned by a library
    | InternalsBuildErrorPtr(code: int) // a *internals.BuildError
    | GitlabBuildError(code: int)       // a gitlab.BuildError value

  /** A Go `(T, error)` pair in which exactly one side is meaningful. */
  datatype Result<+T> = Ok(value: T) | Err(error: Error)

  /**
   * How a modelled operation ends. `Panicked` is a Go panic (it never reaches the
   * command's error handling); `StillPolling` means the scripted scheduler responses
   * ran out while an unbounded polling loop was still waiting, which the real process
   * would keep doing until it is killed.
   */
  datatype Outcome<+T> = Done(value: T) | Panicked | StillPolling
}
