/** Request bodies, the request validation done before a handler runs, and
    the replies a handler sends back. */
module Requests {

  /** The body of a create or update request. Every field is a string as
      sent by the client; a missing field is the empty string. */
  datatype Body = Body(title: string, description: string, from: string, to: string, state: string)

  /** The request fields a validation error can name. */
  datatype Field = Title | From | To | Text

  /** A handler's reply: 200 with a value, 400 with the failing fields,
      401, 404 or 500. */
  datatype Reply<T> = Ok(value: T) | BadRequest(errors: seq<Field>) | Unauthorized | NotFound | ServerError
  {
    /** The HTTP status code sent with the reply. */
    function Status(): int {
      match this
      case Ok(_) => 200
      case BadRequest(_) => 400
      case Unauthorized => 401
      case NotFound => 404
      case ServerError => 500
    }
  }

  /** JavaScript truthiness of a request string: only the empty (or missing)
      string is falsy. */
  predicate Truthy(s: string) {
    s != ""
  }

  /** The errors reported by the create validators `check('title')`,
      `check('from')` and `check('to')` with `.not().isEmpty()`: every
      empty required field is listed, in the order the checks are declared. */
  function CreateErrors(b: Body): (errs: seq<Field>)
    ensures errs == [] <==> b.title != "" && b.from != "" && b.to != ""
    ensures Title in errs <==> b.title == ""
    ensures From in errs <==> b.from == ""
    ensures To in errs <==> b.to == ""
    ensures Text !in errs
    ensures forall i, j | 0 <= i < j < |errs| :: errs[i] != errs[j]
  {
    (if b.title == "" then [Title] else [])
      + (if b.from == "" then [From] else [])
      + (if b.to == "" then [To] else [])
  }
}
