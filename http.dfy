/** The response statuses the backend routes send. */
module Http {

  datatype Status = Ok | Created | BadRequest | Unauthorized | NotFound | ServerError

  /** The numeric HTTP status code; only `Ok` and `Created` are successes. */
  function Code(s: Status): (code: int)
    ensures 200 <= code < 600
    ensures code < 300 <==> s == Ok || s == Created
  {
    match s
    case Ok => 200
    case Created => 201
    case BadRequest => 400
    case Unauthorized => 401
    case NotFound => 404
    case ServerError => 500
  }
}
