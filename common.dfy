/** Failure-compatible wrappers used throughout the model: Java's `null`
    becomes `None`, and a thrown exception becomes a `Failure`. */
module Wrappers {

  datatype Option<+T> = None | Some(value: T)

  datatype Result<+R, +E> = Success(value: R) | Failure(error: E) {

    predicate IsFailure() {
      Failure?
    }

    function PropagateFailure<U>(): Result<U, E>
      requires Failure?
    {
      Failure(error)
    }

    function Extract(): R
      requires Success?
    {
      value
    }
  }
}

/** Values shared by the URL, request and call layers of the HTTP client:
    the server's response as far as the client inspects it, and the
    exceptions the client raises or lets through. */
module HttpTypes {
  import opened Wrappers

  /** The part of the library's `Response` that the client looks at: the
      status code. The body is passed on untouched to deserialisation. */
  datatype Response = Response(statusCode: int, body: string)

  /** The exceptions that leave `HttpClient`, each with the text it carries. */
  datatype Error =
    | UriSyntax(input: string, reason: string)          // java.net.URISyntaxException
    | IllegalArgument(message: string)                  // java.lang.IllegalArgumentException
    | InvalidRequest(message: string, response: Response)
    | Timeout                                           // java.util.concurrent.TimeoutException
    | Interrupted                                       // java.lang.InterruptedException
    | Execution(cause: string)                          // ExecutionException, I/O failures

  /** How Java renders a possibly-null string in `+` concatenation and in
      `String.format("%s", …)`: a null reference prints as "null". */
  function Show(s: Option<string>): (r: string)
    ensures s.Some? ==> r == s.value
    ensures s.None? ==> r == "null"
  {
    match s
    case Some(v) => v
    case None => "null"
  }
}
