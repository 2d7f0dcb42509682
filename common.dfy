/** Values shared by every part of the model: optional pointers, results and the
    error kinds the adapter distinguishes. */
module Common {

  /** An optional value; models a Go pointer that may be nil. */
  datatype Option<T> = None | Some(value: T)

  /** The error kinds that matter to the adapter. `Wrapped` is an error with a
      context message put in front of it (errors.Wrap); the other three are
      the causes an error can have. */
  datatype Error =
    | NotFound
    | AlreadyExists
    | Failed(reason: string)
    | Wrapped(context: string, cause: Error)

  /** A value or an error; models Go's `(value, error)` return pairs. */
  datatype Result<T> = Ok(value: T) | Err(error: Error)

  /** The innermost error under any number of wraps (errors.Cause). */
  function Cause(e: Error): (c: Error)
    ensures !c.Wrapped?
    ensures !e.Wrapped? ==> c == e
  {
    match e
    case Wrapped(_, inner) => Cause(inner)
    case _ => e
  }

  /** Whether an error means "the object does not exist"; wrapping does not hide it. */
  predicate IsNotFound(e: Error)
  {
    Cause(e) == NotFound
  }

  /** The string a pointer points to, or "" for nil (aws.StringValue). */
  function StringValue(p: Option<string>): string
  {
    if p.Some? then p.value else ""
  }

  /** The flag a pointer points to, or false for nil (aws.BoolValue). */
  function BoolValue(p: Option<bool>): bool
  {
    p.Some? && p.value
  }
}
