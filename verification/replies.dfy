/** Values that stand in for JavaScript's optional fields and for the outcome of
    an awaited call into the hosted document store, which this model cannot see. */
module Replies {

  /** An optional field (`x?: T`) or a nullable value (`T | null`). */
  datatype Option<+T> = None | Some(value: T)

  /** What an awaited store call delivers: its value, or the message of the error it threw. */
  datatype Reply<+T> = Done(value: T) | Failed(message: string)

  /** A value, or the error an operation throws to its caller. */
  datatype Result<+T, +E> = Ok(value: T) | Err(error: E)

  /** The value of an optional field, or `fallback` when it is absent (`{...a, ...b}` for one key). */
  function OrElse<T>(o: Option<T>, fallback: T): T
  {
    match o
    case Some(v) => v
    case None => fallback
  }

  /** JavaScript truthiness of an optional string: `undefined`, `null` and `""` are all falsy. */
  predicate Present(s: Option<string>)
  {
    s.Some? && s.value != ""
  }
}
