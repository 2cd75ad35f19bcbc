/** Failure-carrying values shared by every module of the model. */
module Wrappers {

  datatype Option<+T> = None | Some(value: T) {
    function GetOr(default: T): T {
      match this
      case Some(v) => v
      case None => default
    }
  }

  /** An error as the library reports it: a message, the failure to start an
      external program, or a message wrapped in an outer context line (what
      `anyhow`'s `.context(...)` adds). */
  datatype Error =
    | Message(text: string)
    | SpawnError(program: string)
    | Context(context: string, cause: Error)

  datatype Result<+T> = Ok(value: T) | Err(error: Error)

  /** The innermost error of a context chain. */
  function RootCause(e: Error): (r: Error)
    ensures !r.Context?
  {
    match e
    case Context(_, cause) => RootCause(cause)
    case _ => e
  }
}
