# Scoring path of the model-serving Flask service

This project models the `/score` path of a small Flask service that serves a
user-supplied `run` function. It covers three parts.

1. `run_scoring` brackets each invocation with the blueprint's `start_hooks`
   and `stop_hooks`. It classifies what the invocation produced. Client and
   server exceptions are re-raised untouched. A timeout is reported to
   telemetry and re-raised. Any other exception is reported and wrapped into
   a `RunFunctionException`. The Flask error handlers then turn each
   exception class into an `AMLResponse`.
2. A success is shaped into a response. The `aml_response_headers` and
   `aml_response_body` keys of a returned dictionary override the headers
   and the body.
3. `invoke_user_with_timer` builds the keyword arguments for `run`. It
   captures the SIGALRM handler, installs `alarm_handler` and arms a one-shot
   real-time timer. After calling `run`, it disarms the timer and puts the old
   handler back, but only when `run` returns normally.

Modules:

- `PyValues` (py_values.dfy): the Python values that flow through the path,
  and the decimal rendering of the timeout in the alarm message.
- `Errors` (errors.dfy): the exception classes, the `AMLResponse` record, and
  the five error handlers as one function.
- `Shaping` (shaping.dfy): the success response.
- `Hooks` (hooks.dfy): the `Blueprint` class. Its constants are the
  configuration. Its counters record the `start_hooks`, `stop_hooks` and
  `send_exception_to_app_insights` calls.
- `Timer` (timer.dfy): the `Process` class, which holds the process-wide
  SIGALRM slot and interval timer, and `InvokeUserWithTimer` over it. The
  pure function `TimerAfter` specifies that method. The lemma about a series
  of calls, `HandlerAfterCalls`, is stated over `TimerAfter`.
- `Scoring` (scoring.dfy): `RunScoring`, the error-handler dispatch and the
  whole request, `ScoreRealtime`.

The user's `run` is a total function from keyword arguments to
"returns a value or raises an exception". The boolean parameter
`alarmFires` says whether the `TimeoutException` raised by `alarm_handler`
escapes the call. That happens when the alarm goes off while `run` runs and
`run` does not catch it, or when it goes off after `run` returned but before
line 162 disarms the timer. A `run` that catches the alarm itself is
modelled by what `run` then returns or raises, with `alarmFires` false. The
alarm can go off only when the budget is positive, because `setitimer` with 0
disarms the timer.

Behaviour of the code worth knowing, each stated by the member named:

- The timer is disarmed and the old handler restored only on a normal
  return; there is no `finally` (`TimerAfter`). `HandlerAfterCalls` shows
  that one raising or timed-out call leaves `alarm_handler` installed for
  every later call, because each later call captures `alarm_handler` and
  then restores it. After `run` raises, the timer also stays armed.
- A budget of 0 does not stop the call: `setitimer(ITIMER_REAL, 0)` disarms
  the timer, so `run` is called with no deadline at all (`Arm`).
- `stop_hooks` runs once on success, twice on a client or server exception,
  and three times on a timeout or a wrapped exception (`TotalStops`).
- If the input keyword is configured as `request_headers` and header support
  is on, the headers overwrite the input in the keyword arguments (`Params`).

## Model

| member | source | states |
|---|---|---|
| `PyValues.DecimalString` | src/app.py:139 | the timeout is rendered as a non-empty string of decimal digits with no leading zero |
| `PyValues.DecimalRoundTrip` | src/app.py:139 | reading the rendered digits back gives the number rendered |
| `Errors.InternalErrorBody` | src/app.py:85-87 | the catch-all body is "An unexpected internal error occurred. " followed by "Encountered Exception: " and the traceback |
| `Errors.ErrorResponse` | src/app.py:43-88 | the whole record per kind: server and client exceptions give their `to_dict()` detail and status with headers, `json_str` and `run_function_failed` all left at their defaults; run-function and timeout exceptions give their raw message and status, `json_str=False`, `run_function_failed=True`; any other exception gives status 500 with the internal-error body, `json_str=False` and `run_function_failed` at its default; no handler passes headers |
| `Shaping.ShapeResponse` | src/app.py:122-136 | status is always 200 and JSON is on; a non-dictionary is the body with headers `{}`; the headers key sets the headers and clears the body; the body key sets the body and keeps any headers override; a dictionary with neither key is the body |
| `Hooks.RequestIdOf` | src/app.py:103 | the correlation id is the environment's `REQUEST_ID`, or the all-zero id when it is missing |
| `Hooks.Blueprint.constructor` | src/app.py:23 | a fresh blueprint carries its configuration, has recorded no hook or telemetry calls, and its stops cover its starts |
| `Hooks.Blueprint.StartHooks` | src/app.py:103 | appends the correlation id to the starts and changes nothing else |
| `Hooks.Blueprint.StopHooks` | src/app.py:119-120 | adds one stop and changes nothing else; calling it repeatedly is allowed |
| `Hooks.Blueprint.SendExceptionToAppInsights` | src/app.py:113 | adds one telemetry report and changes nothing else |
| `Timer.Arm` | src/app.py:157 | the timer is armed with the budget exactly when the budget is positive, and a zero budget leaves it disarmed |
| `Timer.HeadersDict` | src/app.py:154 | the header dictionary has the same keys as the headers, each mapped to its value as a string |
| `Timer.Params` | src/app.py:143-154 | the keys are the input keyword plus `request_headers` exactly when header support is on; `request_headers` is present iff support is on or it is the input keyword; the input is bound to its keyword unless the headers overwrite it |
| `Timer.AlarmTimeout` | src/app.py:138-140 | the alarm raises a timeout exception with status 500 and the message "Scoring timeout after N ms" |
| `Timer.AlarmMessageNamesBudget` | src/app.py:139 | the timeout message has the fixed prefix and suffix, and the digits between them denote the configured budget |
| `Timer.Invocation` | src/app.py:143-160 | the invocation result is the alarm's timeout exception when it escapes `run`, and otherwise `run` applied to `Params` |
| `Timer.TimerAfter` | src/app.py:156-163 | a normal return disarms the timer and restores the captured handler; a raise or an alarm leaves `alarm_handler` installed; the timer stays armed exactly when `run` raised under a positive budget |
| `Timer.HandlerAfterCalls` | src/app.py:156-163 | over any series of calls, the slot ends holding the original handler if every call returned normally, and `alarm_handler` otherwise |
| `Timer.Process.constructor` | src/app.py:156 | the process-wide signal state that line 156 reads (no line creates it): the process starts with the given handler and timer state |
| `Timer.Process.InvokeUserWithTimer` | src/app.py:142-165 | returns `Invocation` and leaves the process signal state equal to `TimerAfter` of the old state for the way the call ended |
| `Scoring.Classify` | src/app.py:105-118 | exactly one outcome per result: a returned value is scored; a client or server exception passes through; a timeout is its own outcome; a run-function or other exception is wrapped; the value or exception is carried unchanged |
| `Scoring.Surfaced` | src/app.py:105-136 | a success returns the shaped response; client, server and timeout exceptions are raised unchanged; a wrapped exception is raised as a run-function exception carrying its text with status 500; the catch-all kind is never raised (assuming `str(exc)` at line 118 does not raise and building the success response does not raise) |
| `Scoring.TotalStops` | src/app.py:43-120 | `stop_hooks` runs at least once per request: once on success, twice on a client or server exception, three times on a timeout or a wrapped exception |
| `Scoring.FinalResponse` | src/app.py:43-136 | the final response is the shaped success, or the handler's whole record for the surfaced exception by kind; no exception `run_scoring` raises reaches the catch-all handler (assuming `str(exc)` at line 118 does not raise; a failure while building the success response is not modelled) |
| `Scoring.RunScoring` | src/app.py:98-136 | returns or raises `Surfaced` of the classified invocation; starts the hooks once with the request id, stops them once plus once per reporting clause, reports to telemetry exactly on a timeout or wrapped exception, and updates the signal state as `TimerAfter` says |
| `Scoring.HandleError` | src/app.py:43-88 | returns `ErrorResponse` for the exception and stops the hooks once more |
| `Scoring.ScoreRealtime` | src/app.py:31-36 | the request ends in `FinalResponse`, with `TotalStops` stops, one start, one telemetry report exactly on a timeout or wrapped exception, and its stops still covering its starts |
| `Scoring.AlarmEndsInTimeoutResponse` | src/app.py:111-114 | a request whose timeout escapes `run` ends in the 500 raw timeout response naming the budget, with one telemetry report and three stops |

## Left out

- Flask routing, the `/ui` file endpoint, the health probe, the
  `after_request` status logging and `flask.g.apiName`: transport plumbing
  around the scoring path.
- Every `main.logger` call and the loop that logs the request headers: output
  only.
- What `start_hooks`, `stop_hooks` and `send_exception_to_app_insights` do
  inside, and exceptions raised by them. The blueprint only records the calls.
- `AMLResponse` itself: its default arguments and its JSON encoding. The
  class is not part of this model, and its fourth positional parameter is
  taken to be `json_str`, so "JSON is on" for the success response rests on
  that. The record keeps which arguments were passed explicitly
  (`Arg.Given`) and which were left to the default (`Arg.Default`).
- Header normalisation: the case-insensitive lookup and `", "` joining of
  repeated headers belong to the request object's header collection, not to
  this code. `HeadersDict` takes that collection as an already formed map.
- Real signal delivery, wall-clock time and the float seconds passed to
  `setitimer`. The budget is an integer number of milliseconds, the timer is
  either disarmed or armed with that budget, and the alarm is the
  `alarmFires` parameter. A pending alarm left armed after `run` raised is
  recorded in the state. Its delivery at some later point outside the
  invocation is not modelled.
- The text of `traceback.format_exc()`: an opaque string parameter.
- The body of the user's `run`: an opaque total function.
- The exception classes' own modules are not part of this model. The status
  500 of a `RunFunctionException` or `TimeoutException` built from a message
  alone (`DefaultFailureStatus`), and `str()` of a `RunFunctionException`
  being its message (`Errors.Str`), are assumptions.
- Exceptions that do not derive from `Exception` (such as `KeyboardInterrupt`),
  which no `except Exception` clause catches.
- `signal.signal` returning `None` for a handler not installed from Python,
  after which the restore at line 163 would itself raise.
- Dictionary keys other than strings, and dictionary subclasses: `run` output
  is inspected only for the two string keys.
- Concurrency: the model runs one request at a time against one `Process`.
  Concurrent requests would share the SIGALRM slot and the interval timer.
  `signal.signal` also raises `ValueError` when called off the main thread,
  which `run_scoring` would catch and wrap into a `RunFunctionException`;
  that path is not modelled.
- Scoring.Surfaced: `str(exc)` at line 118 is taken not to raise (`Other.text`
  is its result). If an exception's own `__str__` raises, that new exception
  leaves the `except` clause, the `finally` still stops the hooks, and Flask
  hands it to the catch-all handler: a 500 with the internal-error body,
  `json_str=False`, one telemetry report and three stops. The model does not
  show that path, so the claim that the catch-all handler is never reached
  (`Scoring.Surfaced`, `Scoring.FinalResponse`) holds only under this
  assumption.
- A failure while building the success response at line 136 (for example a
  body that cannot be JSON-encoded) is outside the `try` and would reach the
  catch-all handler. The model takes that construction not to raise, so its
  claim that the catch-all handler is never reached holds only under that
  assumption.
- Hooks.Blueprint.constructor: the budget `scoringTimeoutMs` is a natural
  number. A negative `scoring_timeout_in_ms`, which the code passes to
  `setitimer` unchecked, is not modelled.
- Timer.TimerAfter: an alarm that `run` catches itself is represented by
  `run`'s own result with `alarmFires` false. If such a `run` then raises,
  the model shows the timer still armed with the budget, although the
  one-shot timer has in fact already expired.
