/** Small value wrappers shared by the modules of the presentation-state model. */
module Wrappers {

  /** A value that may be absent (`undefined`/`null` in the site's code). */
  datatype Option<+T> = None | Some(value: T) {
    function GetOr(default: T): T {
      match this
      case Some(v) => v
      case None => default
    }
  }

  /** How a collaborator fetch settles: with its payload, or with a rejection whose
      `message` property may be absent. */
  datatype Settled<+T> = Fulfilled(payload: T) | Rejected(message: Option<string>)

  /** JavaScript truthiness of an optional string: absent and empty are falsy. */
  predicate Truthy(s: Option<string>) {
    s.Some? && s.value != ""
  }

  /** A list request to the backend: page number and page size. */
  datatype Request = Request(page: int, pageSize: int)
}
