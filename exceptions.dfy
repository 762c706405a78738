/**
 * The three application exceptions (`NotFoundException.java`,
 * `UnauthorizedException.java`, `ForbiddenException.java`). Each is a
 * `RuntimeException` whose three constructors only hand a message and a
 * cause to `RuntimeException`; the classes differ in nothing but their type.
 */
module Exceptions {
  import opened Wrappers

  /** Any `Throwable` given as a cause: its class name and its (nullable) message. */
  datatype Throwable = Throwable(className: string, message: Option<string>)

  /**
   * `Throwable.toString()`: the class name, followed by ": " and the message
   * when there is one.
   */
  function ToString(t: Throwable): (s: string)
    ensures t.message.None? ==> s == t.className
    ensures t.message.Some? ==> s == t.className + ": " + t.message.value
  {
    match t.message
    case None => t.className
    case Some(m) => t.className + ": " + m
  }

  /** Which of the three classes an exception is. */
  datatype AppExceptionKind = NotFoundKind | UnauthorizedKind | ForbiddenKind

  /** An instance: its class, and what `getMessage()` and `getCause()` return. */
  datatype AppException = AppException(kind: AppExceptionKind, message: Option<string>, cause: Option<Throwable>)

  /** `new X(message)`: keeps the message, however empty, and has no cause. */
  function WithMessage(kind: AppExceptionKind, message: Option<string>): (e: AppException)
    ensures e.kind == kind && e.message == message && e.cause == None
  {
    AppException(kind, message, None)
  }

  /** `new X(message, cause)`: keeps both. */
  function WithMessageAndCause(kind: AppExceptionKind, message: Option<string>, cause: Option<Throwable>): (e: AppException)
    ensures e.kind == kind && e.message == message && e.cause == cause
  {
    AppException(kind, message, cause)
  }

  /**
   * `new X(cause)`: `RuntimeException(Throwable)` keeps the cause and takes
   * `cause.toString()` as the message, or null when the cause is null.
   */
  function WithCause(kind: AppExceptionKind, cause: Option<Throwable>): (e: AppException)
    ensures e.kind == kind && e.cause == cause
    ensures cause.None? ==> e.message.None?
    ensures cause.Some? ==> e.message == Some(ToString(cause.value))
  {
    AppException(kind, if cause.Some? then Some(ToString(cause.value)) else None, cause)
  }

  /**
   * The constructors of each class store what they are given: the message
   * (null or empty alike) and the cause, which the one-argument message
   * constructor leaves null.
   */
  lemma ConstructorsKeepMessageAndCause(kind: AppExceptionKind, message: Option<string>, cause: Throwable)
    ensures WithMessage(kind, message).message == message && WithMessage(kind, message).cause.None?
    ensures WithMessage(kind, Some("")).message == Some("")
    ensures WithMessageAndCause(kind, message, Some(cause)) == AppException(kind, message, Some(cause))
    ensures WithCause(kind, Some(cause)).cause == Some(cause)
    ensures WithCause(kind, None) == AppException(kind, None, None)
  {
  }
}
