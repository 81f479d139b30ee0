/** Java exceptions as values: a class, a message and an optional cause, and the
    result type that stands for "returns a value or throws". */
module Errors {
  import opened Text

  /** The exception classes that occur on the modelled paths. */
  datatype ExcClass =
    | PlainException            // java.lang.Exception, thrown by the retry executor
    | RuntimeException          // the wrapper every retried operation throws
    | InterruptedException      // an interrupted Thread.sleep
    | IOException               // file-system failures of the state store
    | MessagingException        // Jakarta Mail failures
    | StockExtractionException
    | NotificationException
    | OtherException(qualifiedName: string, simpleName: string)

  /** Class.getName(). */
  function QualifiedName(c: ExcClass): string
  {
    match c
    case PlainException => "java.lang.Exception"
    case RuntimeException => "java.lang.RuntimeException"
    case InterruptedException => "java.lang.InterruptedException"
    case IOException => "java.io.IOException"
    case MessagingException => "jakarta.mail.MessagingException"
    case StockExtractionException => "com.radar.stock.extractors.StockExtractionException"
    case NotificationException => "com.radar.stock.notifiers.NotificationException"
    case OtherException(q, _) => q
  }

  /** Class.getSimpleName(). */
  function SimpleName(c: ExcClass): string
  {
    match c
    case PlainException => "Exception"
    case RuntimeException => "RuntimeException"
    case InterruptedException => "InterruptedException"
    case IOException => "IOException"
    case MessagingException => "MessagingException"
    case StockExtractionException => "StockExtractionException"
    case NotificationException => "NotificationException"
    case OtherException(_, s) => s
  }

  datatype Exc = Exc(cls: ExcClass, message: string, cause: Cause)

  /** Throwable.getCause(): absent, or the exception this one wraps. */
  datatype Cause = NoCause | CausedBy(exc: Exc)

  /** Throwable.toString(): the qualified class name, ": ", the message. */
  function Describe(e: Exc): string
  {
    QualifiedName(e.cls) + ": " + e.message
  }

  /** `new RuntimeException(e)`: the message is e.toString() and the cause is e. */
  function WrapInRuntime(e: Exc): (r: Exc)
    ensures r.cls == RuntimeException && r.cause == CausedBy(e)
    ensures Contains(r.message, e.message)
  {
    ContainsInfix(QualifiedName(e.cls) + ": ", e.message, "");
    assert QualifiedName(e.cls) + ": " + e.message + "" == Describe(e);
    Exc(RuntimeException, Describe(e), CausedBy(e))
  }

  /** `e` is the RuntimeException a retried lambda throws around a failure of class `cls`. */
  predicate WrapsA(e: Exc, cls: ExcClass)
  {
    e.cause.CausedBy? && e.cause.exc.cls == cls && e == WrapInRuntime(e.cause.exc)
  }

  /** A call that returns a value or throws an exception. */
  datatype Result<+T> = Ok(value: T) | Err(error: Exc)

  /** The retried lambda: a failure is rethrown wrapped in a RuntimeException. */
  function WrapFailure<T>(r: Result<T>): (w: Result<T>)
    ensures r.Ok? ==> w == r
    ensures r.Err? ==> w == Err(WrapInRuntime(r.error))
  {
    match r
    case Ok(_) => r
    case Err(e) => Err(WrapInRuntime(e))
  }

  /** A void call that returns normally or throws an exception. */
  datatype Outcome = Pass | Fail(error: Exc)
}
