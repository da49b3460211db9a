/** Wrappers shared by every module: optional values, results, and the HTTP
    replies the resource handlers send. */
module Common {

  datatype Option<T> = None | Some(value: T)

  datatype Result<T, E> = Success(value: T) | Failure(error: E)

  /** The reply of a handler: the status code it sends and, for 201 and 200,
      the value it returns, otherwise the `error` text of its JSON body. */
  datatype Reply<T> =
    | Created(value: T)
    | Ok(value: T)
    | BadRequest(error: string)
    | NotFound(error: string)
    | Conflict(error: string)
    | ServerError(error: string)
  {
    function Status(): int {
      match this
      case Created(_) => 201
      case Ok(_) => 200
      case BadRequest(_) => 400
      case NotFound(_) => 404
      case Conflict(_) => 409
      case ServerError(_) => 500
    }
  }

  /** What the plain model classes throw: their own exception carrying
      `errorMessage`, or the ReferenceError of an undeclared identifier. */
  datatype Exception = ModelException(message: string) | ReferenceError(identifier: string)
}
