/** The exceptions the client and the tools raise, and the text `str(e)` gives
    for each. Python raises; the model returns `Err(e)`. */
module Errors {
  import opened Results

  datatype Error =
      /** `ValueError` raised by argument validation or method dispatch. */
    | InvalidArgument(message: string)
      /** An exception raised by the HTTP library before any response arrived. */
    | Transport(reason: string)
      /** `HTTPError` from `raise_for_status`, carrying the library's own report. */
    | HttpStatus(status: int, report: string)
      /** The decoder rejected a non-empty body. */
    | Unparseable(detail: string)
      /** The body decoded but its `code` was not zero. */
    | Business(message: string)
      /** `TypeError` or `AttributeError` raised while a tool reshapes a response. */
    | TypeMismatch(message: string)
      /** The tool-level wrapper around any of the above. */
    | Tool(operation: string, cause: Error)

  /** `str(e)` for the exception `e` stands for. */
  function Message(e: Error): string
  {
    match e
    case InvalidArgument(m) => m
    case Transport(c) => c
    case HttpStatus(_, report) => report
    case Unparseable(c) => "Failed to parse response as JSON: " + c
    case Business(m) => "Business error: " + m
    case TypeMismatch(m) => m
    case Tool(op, cause) => "Failed to " + op + ": " + Message(cause)
  }

  /** The `except Exception as e: raise Exception(f"Failed to <op>: {str(e)}")`
      wrapper every tool puts around its body. */
  function Wrap<T>(op: string, r: Result<T, Error>): (w: Result<T, Error>)
    ensures r.Ok? <==> w.Ok?
    ensures r.Ok? ==> w == r
    ensures r.Err? ==> w.error.Tool? && w.error.operation == op && w.error.cause == r.error
  {
    match r
    case Ok(_) => r
    case Err(e) => Err(Tool(op, e))
  }

  /** What the caller of a failed tool reads: the operation, then the original message. */
  lemma WrappedMessage<T>(op: string, r: Result<T, Error>)
    requires r.Err?
    ensures Message(Wrap(op, r).error) == "Failed to " + op + ": " + Message(r.error)
    ensures |Message(Wrap(op, r).error)| > |Message(r.error)|
  {
  }
}
