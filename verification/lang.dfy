/** The few pieces of the Java platform that the loader's contracts talk about:
    optional values, results that are either a value or a thrown exception,
    and the exceptions themselves (kind, message and cause). */
module Lang {

  datatype Option<+T> = None | Some(value: T)

  /** A Java call either returns a value or throws. */
  datatype Result<+T> = Success(value: T) | Failure(error: Throwable)

  /** The exception classes that the modelled code throws or catches. */
  datatype ExceptionKind =
    | ClassNotFoundException
    | IllegalStateException
    | IllegalArgumentException
    | ClassCastException
    | RuntimeException
    | IOException
    | ReflectiveOperationException

  /** A thrown exception: its class, its message and the exception it wraps. */
  datatype Throwable = Throwable(kind: ExceptionKind, message: string, cause: Option<Throwable>)
}
