/** The optional-value and outcome datatypes, and JavaScript truthiness, shared by every module of the model. */
module Wrappers {

  /** A JavaScript value that may be `undefined` or `null` (None) or present (Some). */
  datatype Option<+T> = None | Some(value: T) {
    function GetOr(default: T): T {
      match this
      case Some(v) => v
      case None => default
    }
  }

  /** The outcome of a computation that may throw: the message of the thrown error. */
  datatype Result<+T> = Success(value: T) | Failure(error: string)

  /** JavaScript truthiness of an optional number: `undefined`, `null` and `0` are falsy. */
  predicate TruthyInt(o: Option<int>) {
    o.Some? && o.value != 0
  }

  /** JavaScript truthiness of an optional string: `undefined`, `null` and `""` are falsy. */
  predicate TruthyString(o: Option<string>) {
    o.Some? && o.value != ""
  }
}
