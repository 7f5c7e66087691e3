/** Failure-compatible result type and the error kinds the trace engine raises. */
module Errors {

  /** The exceptions of the Python code, one constructor per kind of failure. */
  datatype Error =
    | VersionNotFound                    // ValueError('File version not found')
    | UnsupportedVersion(version: string) // ValueError(f'Version {version} not supported')
    | ExtensionNotSupported(suffix: string) // ValueError(f'File extension {suffix} not supported')
    | MissingKey(key: string)            // KeyError from msg[key]
    | Exhausted                          // StopIteration from next(reader)
    | EmptyIndexed                       // IndexError from data[0]
    | InvalidLiteral(literal: string)    // ValueError from int(...) or bytes.fromhex(...)
    | NegativeCount                      // ValueError('negative shift count') from `>>`
    | StopOutOfRange                     // ValueError from islice with a stop outside 0 <= x <= sys.maxsize
    | NotAString(key: string)            // AttributeError from calling a str method on a list
    | GeneratorStopped                   // RuntimeError('generator raised StopIteration'), see Reader.Escaped

  datatype Result<+T> = Success(value: T) | Failure(error: Error) {
    predicate IsFailure() { Failure? }
    function PropagateFailure<U>(): Result<U> requires Failure? { Failure(error) }
    function Extract(): T requires Success? { value }
  }

  datatype Option<+T> = None | Some(value: T)

  /** The errors whose message text the readers and front ends spell out: the ValueErrors of version and file-type detection. */
  predicate IsValueError(e: Error) {
    e.VersionNotFound? || e.UnsupportedVersion? || e.ExtensionNotSupported?
  }

  /** The message text the Python code attaches to the three ValueErrors of version and file-type detection. */
  function Message(e: Error): string
    requires IsValueError(e)
  {
    match e
    case VersionNotFound => "File version not found"
    case UnsupportedVersion(v) => "Version " + v + " not supported"
    case ExtensionNotSupported(s) => "File extension " + s + " not supported"
  }
}
