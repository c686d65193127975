/** The few Go language notions the adapter relies on, stated as values:
    nil-able pointers, `error` interface values, calls that may panic, and
    the goroutines a `go` statement starts. */
module GoRuntime {

  /** A pointer that may be nil (`*HttpError`). */
  datatype Option<+T> = None | Some(value: T)

  /** A value of Go's `error` interface: nil, or an error observed through
      what a call of its `Error()` method does (return a text or panic). */
  datatype ErrorValue = Nil | Failure(message: Call<string>)

  /** The outcome of a Go call: it returns its results, or it panics. */
  datatype Call<+T> = Returned(value: T) | Panicked

  /** The goroutines started by `go f(arg)` statements during one request.
      Only the dispatch is recorded (which hook of a slice, with which
      argument); what a goroutine does, and when it runs, is not modelled. */
  class Goroutines<A> {
    var started: seq<(nat, A)>

    constructor ()
      ensures started == []
    {
      started := [];
    }

    /** `go hooks[hook](arg)` */
    method Go(hook: nat, arg: A)
      modifies this
      ensures started == old(started) + [(hook, arg)]
    {
      started := started + [(hook, arg)];
    }
  }
}
