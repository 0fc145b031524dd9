/** Success/failure carriers shared by the model. */
module Wrappers {

  datatype Option<T> = None | Some(value: T) {
    function GetOr(default: T): T {
      match this
      case Some(v) => v
      case None => default
    }
  }

  /** An HTTP error as raised by the backend's `HTTPException(status_code, detail)`. */
  datatype HttpError = HttpError(status: int, detail: string)

  datatype Result<T> = Ok(value: T) | Err(error: HttpError)
}
