/// Shared result and failure shapes used across the model.
module Common {

  /** A value that may be absent (Go nil pointer, TypeScript null/undefined). */
  datatype Option<+T> = None | Some(value: T)

  /** The value held, or `d` when there is none (a spread that skips an
      absent field). */
  function GetOr<T>(o: Option<T>, d: T): (r: T)
    ensures o.Some? ==> r == o.value
    ensures o.None? ==> r == d
  {
    if o.Some? then o.value else d
  }

  /** A Go-style return: a value, or an error carrying its message. */
  datatype Result<+T> = Ok(value: T) | Err(error: string)

  /** What a rejected promise carried: an `Error` object with a message, or
      some other thrown value (for which callers substitute a default text). */
  datatype Thrown = ErrorObject(message: string) | NonError

  /** The outcome of one call into code outside the model (a backend request,
      browser storage, geolocation): it resolves with a value or it throws. */
  datatype Call<+T> = Resolved(value: T) | Rejected(thrown: Thrown)

  /** `error instanceof Error ? error.message : fallback` */
  function ErrorMessage(t: Thrown, fallback: string): (m: string)
    ensures t.ErrorObject? ==> m == t.message
    ensures t.NonError? ==> m == fallback
  {
    match t
    case ErrorObject(msg) => msg
    case NonError => fallback
  }

  /** `${operation}に失敗しました`: the message a controller shows for a
      failure that is not an `Error`. */
  function Fallback(operation: string): (m: string)
    ensures |m| == |operation| + 7 && m[..|operation|] == operation
    ensures m[|operation|..] == "に失敗しました"
  {
    operation + "に失敗しました"
  }
}
