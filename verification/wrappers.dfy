/** Option, Result and Outcome for the values Python code returns or raises,
    and the exceptions the modelled services raise. */
module Wrappers {

  datatype Option<+T> = None | Some(value: T) {
    function GetOr(default: T): T {
      match this
      case Some(v) => v
      case None => default
    }
  }

  /** The exceptions that the modelled code raises or lets through. */
  datatype Error =
    | TypeError(message: string)
    | ValueError(message: string)
    | FileNotFoundError(message: string)
    | FileExistsError(message: string)
    | NotADirectoryError(message: string)
    | IsADirectoryError(message: string)
      /** pydantic's ValidationError, listing the fields that failed, in declaration order */
    | ValidationError(fields: seq<string>)
      /** raised inside a library the model treats as opaque (decoder, model, synthesiser) */
    | LibraryError(library: string, message: string)

  /** A value or the exception raised instead of returning it. */
  datatype Result<+T> = Ok(value: T) | Err(error: Error)

  /** The outcome of a call whose only result is its effect: it returned, or it raised. */
  datatype Outcome = Pass | Fail(error: Error)
}
