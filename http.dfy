/** The responses the mutating handlers send. */
module Http {

  /**
   * `NotFound` is what a handler's `next()` leads to: the catch-all route
   * answers 404.
   */
  datatype Status = Created(id: int) | Ok | NoContent | BadRequest | Forbidden | NotFound
  {
    function Code(): int
    {
      match this
      case Created(_) => 201
      case Ok => 200
      case NoContent => 204
      case BadRequest => 400
      case Forbidden => 403
      case NotFound => 404
    }
  }
}
