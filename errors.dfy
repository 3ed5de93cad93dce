/**
 * The errors that reach the HTTP layer. Each stands for one Go `error`
 * value the program can return; `Fiber` is a `*fiber.Error`, the only kind
 * that carries its own status code.
 */
module Errors {

  /** The status code and message of a `*fiber.Error`. */
  datatype FiberError = FiberError(code: int, message: string)

  datatype Error =
    | GlobError(reason: string)   // the error filepath.Glob reported
    | DeviceNotFound              // errors.New("device interface not found")
    | PortError(reason: string)   // an error of the serial library (open, write, read)
    | Fiber(fiber: FiberError)    // an error that already carries an HTTP status

  const DeviceNotFoundMessage: string := "device interface not found"

  /** The text `err.Error()` returns. */
  function Message(e: Error): string {
    match e
    case GlobError(reason) => reason
    case DeviceNotFound => DeviceNotFoundMessage
    case PortError(reason) => reason
    case Fiber(f) => f.message
  }
}
