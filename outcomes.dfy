/** Kotlin language plumbing the core relies on: nullable values, the way a
    call can end (normally, by coroutine cancellation, or by throwing), and
    kotlin.Result, the value that runSafely wraps a call's end into. */
module Outcomes {

  /** A Kotlin nullable value `T?`. */
  datatype Option<+T> = None | Some(value: T) {
    /** `this ?: default` */
    function GetOr(default: T): (r: T)
      ensures Some? ==> r == value
      ensures None? ==> r == default
    {
      match this
      case Some(v) => v
      case None => default
    }
  }

  /** The throwables the core tells apart. CancellationException is not
      listed: a cancelled call is `Outcome.Cancelled`. */
  datatype Throwable =
    | SerializationException(message: string)  // kotlinx.serialization
    | IOException(message: string)             // kotlinx.io
    | OtherThrowable(message: string)          // anything else

  /** How a (suspending) Kotlin call ends. */
  datatype Outcome<+T> = Returned(value: T) | Cancelled | Threw(error: Throwable)

  /** kotlin.Result: `Result.success(v)` or `Result.failure(e)`. */
  datatype Caught<+T> = Succeeded(value: T) | Failed(exception: Throwable)

  /** kotlin.Result.getOrNull */
  function GetOrNull<T>(c: Caught<T>): (r: Option<T>)
    ensures r.Some? <==> c.Succeeded?
    ensures r.Some? ==> r.value == c.value
  {
    match c
    case Succeeded(v) => Some(v)
    case Failed(_) => None
  }

  /** kotlin.Result.getOrThrow: returns the value or throws the captured
      exception again. */
  function GetOrThrow<T>(c: Caught<T>): (r: Outcome<T>)
    ensures !r.Cancelled?
    ensures r.Returned? <==> c.Succeeded?
    ensures r.Returned? ==> r.value == c.value
    ensures r.Threw? ==> r.error == c.exception
  {
    match c
    case Succeeded(v) => Returned(v)
    case Failed(e) => Threw(e)
  }
}
