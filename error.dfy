/** The typed error of the adapter: a response status plus the Go error it
    wraps.  The datatype is immutable, so no operation can change a value
    after one of the constructors below has built it. */
module Errors {
  import opened GoRuntime

  datatype HttpError = HttpError(err: ErrorValue, status: int) {

    /** `e.Error()`: the wrapped error's own text.  It forwards the call to
        `e.Err`, so it panics when `Err` is nil or when the wrapped error's
        own `Error()` panics. */
    function Error(): (msg: Call<string>)
      ensures msg.Returned? <==> err.Failure? && err.message.Returned?
      ensures err.Failure? ==> msg == err.message
      ensures err.Nil? ==> msg.Panicked?
    {
      match err
      case Nil => Panicked
      case Failure(text) => text
    }

    /** `e.Unwrap()`: the wrapped error itself. */
    function Unwrap(): (cause: ErrorValue)
      ensures cause == err
    {
      err
    }
  }

  /** A `*HttpError` used as an `error`.  The interface value is not nil even
      when the pointer is; its `Error()` then dereferences the nil pointer
      and panics. */
  function AsError(p: Option<HttpError>): (v: ErrorValue)
    ensures v.Failure?
    ensures p.Some? ==> v.message == p.value.Error()
    ensures p.None? ==> v.message.Panicked?
  {
    match p
    case Some(e) => Failure(e.Error())
    case None => Failure(Panicked)
  }

  /** `NewHttpErr(status, err)`: a non-nil error with the given status and
      cause; the status is not range-checked. */
  function NewHttpErr(status: int, err: ErrorValue): (e: HttpError)
    ensures e.status == status && e.Unwrap() == err
    ensures err.Failure? ==> e.Error() == err.message
    ensures err.Nil? ==> e.Error().Panicked?
  {
    HttpError(err, status)
  }

  /** An `HttpError` wrapping another one answers `Error()` with the inner
      error's text, so it panics when the inner one has a nil cause, and also
      when the inner pointer is itself nil. */
  lemma NestedHttpErrorText(status: int, inner: Option<HttpError>)
    ensures inner.Some? ==> NewHttpErr(status, AsError(inner)).Error() == inner.value.Error()
    ensures inner.Some? && inner.value.err.Nil? ==> NewHttpErr(status, AsError(inner)).Error().Panicked?
    ensures inner.None? ==> NewHttpErr(status, AsError(inner)).Error().Panicked?
  {
  }

  /** `NewHttpErrF(status, format, a...)`: the cause is the error
      `fmt.Errorf(format, a...)` builds, which is never nil and whose text is
      the formatted message; `sprintf` is the formatting it applies. */
  function NewHttpErrF<A>(status: int, format: string, a: seq<A>,
                          sprintf: (string, seq<A>) -> string): (e: HttpError)
    ensures e.status == status
    ensures e.Unwrap() == Failure(Returned(sprintf(format, a)))
    ensures e.Error() == Returned(sprintf(format, a))
  {
    HttpError(Failure(Returned(sprintf(format, a))), status)
  }
}
