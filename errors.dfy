/** The exceptions that can reach the scoring endpoint, the response record
    (`AMLResponse`) the service hands to the transport layer, and the five
    Flask error handlers that turn an exception into such a record. */
module Errors {
  import opened PyValues

  /** The exception classes the service tells apart. `detail` is what the
      exception's `to_dict()` returns; `status` is its `status_code`.
      `Other` is any exception of a class with no handler of its own, and
      `text` is its `str(exc)`, taken to be computable: an `__str__` that
      itself raises is not modelled. */
  datatype Exception =
    | ClientSide(detail: PyValue, status: int)
    | ServerSide(detail: PyValue, status: int)
    | RunFunction(message: string, status: int)
    | Timeout(message: string, status: int)
    | Other(text: string)

  /** A call that either returns a value or raises an exception. */
  datatype Raising<T> = Returned(value: T) | Raised(error: Exception)

  /** An `AMLResponse` argument: passed explicitly, or left to the
      constructor's own default (which lives outside this model). */
  datatype Arg<T> = Default | Given(value: T)

  /** `AMLResponse(message, status_code, response_headers, json_str,
      run_function_failed)`: what the constructor was called with. The
      class is not part of this model; its fourth positional parameter is
      taken to be `json_str`. */
  datatype AmlResponse = AmlResponse(
    body: PyValue,
    status: int,
    headers: Arg<PyValue>,
    jsonStr: Arg<bool>,
    runFunctionFailed: Arg<bool>)

  /** Status code of a `RunFunctionException` or `TimeoutException` built
      from a message alone. */
  const DefaultFailureStatus: int := 500

  /** Status of the catch-all handler's response. */
  const InternalErrorStatus: int := 500

  const InternalErrorPrefix: string := "An unexpected internal error occurred. "
  const EncounteredPrefix: string := "Encountered Exception: "

  /** Exceptions that `run_scoring` re-raises as they are. */
  predicate IsPassThrough(e: Exception) {
    e.ClientSide? || e.ServerSide?
  }

  /** Exceptions that `run_scoring` wraps into a `RunFunctionException`:
      everything its earlier `except` clauses do not catch. */
  predicate IsWrapped(e: Exception) {
    e.RunFunction? || e.Other?
  }

  /** `str(exc)` of an exception that gets wrapped, taken not to raise. */
  function Str(e: Exception): string
    requires IsWrapped(e)
  {
    if e.RunFunction? then e.message else e.text
  }

  /** The body of the catch-all handler's response, given the formatted
      traceback of the exception being handled. */
  function InternalErrorBody(traceback: string): (s: string)
    ensures InternalErrorPrefix <= s
    ensures s[|InternalErrorPrefix|..] == EncounteredPrefix + traceback
  {
    InternalErrorPrefix + EncounteredPrefix + traceback
  }

  /** The response of the error handler Flask picks for `e`: one handler per
      class of `Exception`, and the catch-all for anything else. `traceback`
      is the text `traceback.format_exc()` gives while the handler runs. */
  function ErrorResponse(e: Exception, traceback: string): (r: AmlResponse)
    // server and client exceptions: structured detail with the carried
    // status, every optional argument left to its default
    ensures IsPassThrough(e) ==> r == AmlResponse(e.detail, e.status, Default, Default, Default)
    // run-function failures and timeouts: the raw message with the carried
    // status, not JSON-encoded, flagged as a failed run
    ensures (e.RunFunction? || e.Timeout?) ==>
      r == AmlResponse(PyStr(e.message), e.status, Default, Given(false), Given(true))
    // anything else: a raw 500 whose body names the traceback
    ensures e.Other? ==>
      r == AmlResponse(PyStr(InternalErrorBody(traceback)), InternalErrorStatus, Default, Given(false), Default)
    // the flags alone tell the three groups of handlers apart
    ensures IsPassThrough(e) <==> r.jsonStr == Default
    ensures (e.RunFunction? || e.Timeout?) <==> r.runFunctionFailed == Given(true)
    ensures e.Other? <==> r.runFunctionFailed == Default && r.jsonStr == Given(false)
    // only the success path passes headers
    ensures r.headers == Default
  {
    match e
    case ServerSide(detail, status) => AmlResponse(detail, status, Default, Default, Default)
    case ClientSide(detail, status) => AmlResponse(detail, status, Default, Default, Default)
    case RunFunction(message, status) =>
      AmlResponse(PyStr(message), status, Default, Given(false), Given(true))
    case Timeout(message, status) =>
      AmlResponse(PyStr(message), status, Default, Given(false), Given(true))
    case Other(_) =>
      AmlResponse(PyStr(InternalErrorBody(traceback)), InternalErrorStatus, Default, Given(false), Default)
  }
}
