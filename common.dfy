/** Shared vocabulary of the data-room model: identifiers, optional values and
    the HTTP status codes the handlers answer with. */
module Common {

  /** Row identifiers and user identifiers are opaque strings. */
  type Id = string

  datatype Option<+T> = None | Some(value: T)

  /** The status codes the route handlers produce. */
  datatype Status =
    | Ok                // 200
    | Created           // 201
    | BadRequest        // 400
    | Unauthorized      // 401
    | NotFound          // 404
    | MethodNotAllowed  // 405
    | Conflict          // 409
    | ServerError       // 500
  {
    function Code(): int {
      match this
      case Ok => 200
      case Created => 201
      case BadRequest => 400
      case Unauthorized => 401
      case NotFound => 404
      case MethodNotAllowed => 405
      case Conflict => 409
      case ServerError => 500
    }
  }

  /** JavaScript truthiness of an optional string field of a request:
      absent and the empty string are both falsy. */
  predicate Truthy(s: Option<string>) {
    s.Some? && s.value != ""
  }

  /** The request methods the handlers distinguish. */
  datatype HttpMethod = GET | POST | PUT | PATCH | DELETE | OPTIONS | OtherMethod

  /** What a serverless handler reads before it branches: the request method (verb), the
      user id its token check yields (None when the header is missing or the
      token does not verify), and the `id` and `action` query parameters. */
  datatype ApiRequest = ApiRequest(verb: HttpMethod, user: Option<Id>, id: Option<string>, action: Option<string>)
}
