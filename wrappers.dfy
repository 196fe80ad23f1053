/** Option for dictionary keys that may be absent, and Outcome for a call to
    an external service that either returns a value or raises. */
module Wrappers {

  /** A key of a partial state dictionary: present with a value, or absent. */
  datatype Option<+T> = None | Some(value: T) {

    /** The value if present, `default` otherwise (Python's `dict.get(key, default)`). */
    function GetOr(default: T): T
    {
      match this
      case Some(v) => v
      case None => default
    }
  }

  /** The reply of one external call: a typed value, or `Failure` for any
      exception the call raises (network error, service error, or a reply
      that does not fit the declared output schema). */
  datatype Outcome<+T> = Ok(value: T) | Failure {

    /** The value on success, `fallback` on failure. */
    function OrElse(fallback: T): T
    {
      match this
      case Ok(v) => v
      case Failure => fallback
    }
  }
}
