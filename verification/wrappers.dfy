/** Failure-carrying wrappers shared by every module of the model.

    `Option` stands for a TypeScript value that may be `undefined` or `null`;
    `Result` stands for a computation that either returns a value or throws an
    `Error` whose `message` is kept.
 */
module Wrappers {

  datatype Option<+T> = None | Some(value: T) {

    /** The value, or `default` when absent (the `??` operator). */
    function GetOr(default: T): T {
      match this
      case Some(v) => v
      case None => default
    }
  }

  /** `Ok` is a normal return, `Err(message)` a thrown `Error(message)`. */
  datatype Result<+T> = Ok(value: T) | Err(message: string) {

    predicate IsFailure() {
      Err?
    }

    function PropagateFailure<U>(): Result<U>
      requires Err?
    {
      Err(message)
    }

    function Extract(): T
      requires Ok?
    {
      value
    }
  }

  /** JavaScript truthiness of an optional string: absent and `""` are falsy. */
  predicate Truthy(s: Option<string>) {
    s.Some? && s.value != ""
  }

  /** The `a || b` operator on optional strings. */
  function OrElse(s: Option<string>, default: string): string {
    if Truthy(s) then s.value else default
  }
}
