/** What the scripts learn from the outside world: the result of running a tool with
    `subprocess.run`, and optional values. */
module Tools {

  datatype Option<+T> = None | Some(value: T)

  /** How a `subprocess.run(..., capture_output=True, text=True, timeout=...)` call ends:
      the tool ran to completion with an exit code and captured text, or the call raised
      `FileNotFoundError` (the tool is not installed), `subprocess.TimeoutExpired`, or any
      other exception (whose `str(e)` is `message`). */
  datatype Outcome =
    | Exited(code: int, stdout: string, stderr: string)
    | NotFound(message: string)
    | TimedOut
    | Raised(message: string)
}
