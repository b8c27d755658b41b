/** Option and Result values standing for Python's None and raised exceptions. */
module Wrappers {

  datatype Option<+T> = None | Some(value: T) {
    function GetOr(default: T): T {
      match this
      case Some(v) => v
      case None => default
    }
  }

  /** The kinds of exception the modelled code raises or lets through. */
  datatype Error =
    | ValueError(message: string)
    | FileNotFound(message: string)
    | HttpError(status: int)
    | MailerError(message: string)
    | IntegrityError(message: string)

  /** Python truthiness of an optional string: present and non-empty. */
  predicate Truthy(s: Option<string>)
  {
    s.Some? && s.value != ""
  }

  datatype Result<+T> = Ok(value: T) | Err(error: Error)
}
