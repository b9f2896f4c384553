/** The Java exceptions the plugin throws or lets through, identified by
    their class and message. */
module Exceptions {

  datatype ExceptionClass =
    | IllegalArgumentException
    | IllegalStateException
    | NumberFormatException
    | NullPointerException
    | ClassCastException
    | RuntimeException
    | IOException
    | OpenSearchException
    | ResourceNotFoundException
    | InvalidTypeNameException
    | ParsingException

  datatype JavaException = JavaException(exceptionClass: ExceptionClass, message: string)

  function IllegalArgument(message: string): JavaException {
    JavaException(IllegalArgumentException, message)
  }

  /** A failed cast to `target`. The JVM's own wording of the message is not
      modelled; the message names the target type. */
  function ClassCast(target: string): JavaException {
    JavaException(ClassCastException, "cannot be cast to " + target)
  }

  /** `new RuntimeException(cause)`: its message is the cause's `toString()`,
      the cause's class name, a colon and the cause's message. */
  function WrappedInRuntime(cause: JavaException): JavaException {
    JavaException(RuntimeException, ClassName(cause.exceptionClass) + ": " + cause.message)
  }

  function ClassName(c: ExceptionClass): string {
    match c
    case IllegalArgumentException => "java.lang.IllegalArgumentException"
    case IllegalStateException => "java.lang.IllegalStateException"
    case NumberFormatException => "java.lang.NumberFormatException"
    case NullPointerException => "java.lang.NullPointerException"
    case ClassCastException => "java.lang.ClassCastException"
    case RuntimeException => "java.lang.RuntimeException"
    case IOException => "java.io.IOException"
    case OpenSearchException => "org.opensearch.OpenSearchException"
    case ResourceNotFoundException => "org.opensearch.ResourceNotFoundException"
    case InvalidTypeNameException => "org.opensearch.indices.InvalidTypeNameException"
    case ParsingException => "org.opensearch.common.ParsingException"
  }

  /** `Class.forName` of a class that does not exist, wrapped as the plugin
      wraps every reflection failure. */
  function ClassNotFound(className: string): JavaException {
    JavaException(RuntimeException, "java.lang.ClassNotFoundException: " + className)
  }
}
