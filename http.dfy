/** The HTTP status codes the backend's handlers and middleware answer with. */
module Http {
  datatype Status =
    | Ok            // 200
    | Created       // 201
    | BadRequest    // 400, express-validator errors
    | Unauthorized  // 401, missing or invalid bearer token
    | Forbidden     // 403, authenticated but not an admin
    | NotFound      // 404
    | Conflict      // 409, already subscribed
    | ServerError   // 500, any error caught by a handler's try/catch
  {
    function Code(): (c: int)
      ensures 200 <= c < 600
      ensures (c < 300) <==> (Ok? || Created?)
    {
      match this
      case Ok => 200
      case Created => 201
      case BadRequest => 400
      case Unauthorized => 401
      case Forbidden => 403
      case NotFound => 404
      case Conflict => 409
      case ServerError => 500
    }

    /** The `success` flag of the JSON envelope. */
    predicate Success() {
      Ok? || Created?
    }
  }
}
