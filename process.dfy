/** The process-execution boundary: what a spawned command reports back, and
    the Option/Result wrappers the route primitives return. Spawning itself is
    outside the model; every outcome below is supplied by the caller. */
module Process {

  datatype Option<+T> = None | Some(value: T)

  /** `Result<T, String>` of the source: the error is always a message. */
  datatype Result<+T> = Ok(value: T) | Err(error: string)

  /** An `ExitStatus`: whether it is a success, and how it displays
      (the text `format!("{}", status)` produces). */
  datatype ExitStatus = ExitStatus(success: bool, display: string)

  /** What `Command::output()` captures: the status and both streams,
      already decoded as text. */
  datatype Output = Output(status: ExitStatus, stdout: string, stderr: string)

  /** One external program run with its argument vector. */
  datatype Invocation = Invocation(program: string, args: seq<string>)
}
