/** Values shared by every part of the model: optional values, document ids
    and the HTTP response a handler sends. */
module Common {

  datatype Option<+T> = None | Some(value: T)

  /** A document id (a MongoDB ObjectId). The store hands ids out from a
      counter, so every id it creates is new. */
  type Id = nat

  /** The HTTP status codes the handlers send. */
  datatype Status =
    | Ok200
    | Created201
    | BadRequest400
    | Unauthorized401
    | Forbidden403
    | NotFound404
    | ServerError500
  {
    function Code(): int {
      match this
      case Ok200 => 200
      case Created201 => 201
      case BadRequest400 => 400
      case Unauthorized401 => 401
      case Forbidden403 => 403
      case NotFound404 => 404
      case ServerError500 => 500
    }
  }

  /** What a handler sends: `success: true` with a payload, or
      `success: false` with only a status (the message text is left out). */
  datatype Response<+T> = Success(status: Status, data: T) | Failure(status: Status)
}
