/** Option and Result, and the error values the fixture loader can report. */
module Wrappers {

  datatype Option<+T> = None | Some(value: T)

  datatype Result<+T, +E> = Ok(value: T) | Err(error: E)
}

module Errors {

  /** What the API server can answer instead of a success. Which of them it
      answers is the server's business, not the loader's. */
  datatype RemoteError = NotFound | AlreadyExists | Conflict | Transport(message: string)

  datatype Error =
    | NilResourceInfo                 // "ResourceInfo is nil"
    | InvalidManifest(apiVersion: string)  // apiVersion without '/': the split has no second element
    | MissingStatus                   // "status" absent or not a map
    | InvalidStatusFormat(status: string)  // not of the form key=value
    | Remote(cause: RemoteError)      // an error returned by the cluster, propagated unchanged
}

/** How one run of a CLI workflow ends: a success message (exit status 0), or the
    process terminating with a non-zero exit status. */
module Exits {

  datatype RunOutcome = Succeeded(message: string) | Exited(code: int)

  /** `log.Fatal` and `os.Exit(1)`. */
  const FatalExit: int := 1

  /** The exit status of an unrecovered Go panic. */
  const PanicExit: int := 2
}
