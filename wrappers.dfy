/** Option and Result values, standing in for Python's None and for the
    exceptions that the collaborators raise and the core catches. */
module Wrappers {

  datatype Option<+T> = None | Some(value: T) {
    /** The value, or `default` when there is none (Python's `dict.get(key, default)`). */
    function GetOr(default: T): T {
      match this
      case Some(v) => v
      case None => default
    }
  }

  /** The outcome of a call into a collaborator that may raise: on failure the
      error text stands for `str(e)` of the exception. */
  datatype Result<+T> = Success(value: T) | Failure(error: string)
}
