/** Small failure-carrying datatypes shared by the evaluator and analyzer models. */
module Wrappers {

  /** A value that may be absent: a missing JSON key, a missing map entry. */
  datatype Option<+T> = None | Some(value: T) {
    /** The value, or `default` when absent (nlohmann's `value(key, default)`). */
    function GetOr(default: T): T {
      match this
      case Some(v) => v
      case None => default
    }
  }

  /** The outcome of a computation that may raise an exception instead of returning. */
  datatype Result<+T> = Ok(value: T) | Thrown(reason: string)
}
