/** `run_scoring` and the `/score` request as a whole: the user's `run` is
    invoked under the timer between `start_hooks` and `stop_hooks`, its
    result is classified, a success is shaped into a response, and a raised
    exception is turned into a response by the Flask error handler for its
    class, which stops the hooks once more. */
module Scoring {
  import opened PyValues
  import opened Errors
  import opened Shaping
  import opened Hooks
  import opened Timer

  /** The one way `run_scoring` ends for one invocation result. */
  datatype ScoringOutcome =
    | Scored(value: PyValue)          // `run` returned a value
    | PassedThrough(error: Exception) // client or server exception, re-raised untouched
    | TimedOut(error: Exception)      // timeout, reported and re-raised
    | Wrapped(original: Exception)    // anything else, reported and wrapped

  /** The exception an outcome carries is of the kind its case says. */
  predicate WellFormed(o: ScoringOutcome) {
    match o
    case Scored(_) => true
    case PassedThrough(e) => IsPassThrough(e)
    case TimedOut(e) => e.Timeout?
    case Wrapped(e) => IsWrapped(e)
  }

  /** The `except` clause of `run_scoring` that catches the result of the
      invocation, if any. */
  function Classify(r: Raising<PyValue>): (o: ScoringOutcome)
    ensures WellFormed(o)
    ensures o.Scored? <==> r.Returned?
    ensures o.Scored? ==> o.value == r.value
    ensures o.PassedThrough? <==> r.Raised? && IsPassThrough(r.error)
    ensures o.TimedOut? <==> r.Raised? && r.error.Timeout?
    ensures o.Wrapped? <==> r.Raised? && IsWrapped(r.error)
    ensures (o.PassedThrough? || o.TimedOut?) ==> o.error == r.error
    ensures o.Wrapped? ==> o.original == r.error
  {
    match r
    case Returned(v) => Scored(v)
    case Raised(e) =>
      if IsPassThrough(e) then PassedThrough(e)
      else if e.Timeout? then TimedOut(e)
      else Wrapped(e)
  }

  /** Whether `run_scoring` reports the failure to telemetry. */
  predicate Reported(o: ScoringOutcome) {
    o.TimedOut? || o.Wrapped?
  }

  /** What `run_scoring` returns or raises. Nothing it raises is left to
      the catch-all handler: every exception is one of the four typed kinds,
      and one that `run` raised outside those kinds becomes a
      `RunFunctionException` carrying its text. This holds under two
      assumptions: `str(exc)` of the wrapped exception does not raise, and
      building the success response does not raise. */
  function Surfaced(o: ScoringOutcome): (r: Raising<AmlResponse>)
    requires WellFormed(o)
    ensures r.Returned? <==> o.Scored?
    ensures o.Scored? ==> r.value == ShapeResponse(o.value)
    ensures r.Raised? ==> !r.error.Other?
    ensures (o.PassedThrough? || o.TimedOut?) ==> r == Raised(o.error)
    ensures o.Wrapped? ==>
      r.Raised? && r.error == RunFunction(Str(o.original), DefaultFailureStatus)
  {
    match o
    case Scored(v) => Returned(ShapeResponse(v))
    case PassedThrough(e) => Raised(e)
    case TimedOut(e) => Raised(e)
    case Wrapped(e) => Raised(RunFunction(Str(e), DefaultFailureStatus))
  }

  /** `stop_hooks` calls made by `run_scoring` itself: the one in `finally`,
      plus one in each reporting `except` clause. */
  function StopsInRunScoring(o: ScoringOutcome): nat {
    if Reported(o) then 2 else 1
  }

  /** `stop_hooks` calls for the whole request, counting the one each error
      handler makes: one on success, two when a client or server exception
      passes through, three on a timeout or a wrapped exception. */
  function TotalStops(o: ScoringOutcome): (n: nat)
    ensures n >= 1
    ensures n == 1 <==> o.Scored?
    ensures n == 2 <==> o.PassedThrough?
    ensures n == 3 <==> o.TimedOut? || o.Wrapped?
  {
    StopsInRunScoring(o) + (if o.Scored? then 0 else 1)
  }

  /** The response the request ends with: the shaped success response, or
      the error handler's response to what `run_scoring` raised. */
  function FinalResponse(o: ScoringOutcome, traceback: string): (r: AmlResponse)
    requires WellFormed(o)
    // success: status 200, JSON-encoded
    ensures o.Scored? ==> r == ShapeResponse(o.value)
    // client or server exception: its structured detail and status
    ensures o.PassedThrough? ==>
      r == AmlResponse(o.error.detail, o.error.status, Default, Default, Default)
    // timeout: its raw message and status, flagged as a failed run
    ensures o.TimedOut? ==>
      r == AmlResponse(PyStr(o.error.message), o.error.status, Default, Given(false), Given(true))
    // any other exception from `run`: its text, with status 500, flagged as a failed run
    ensures o.Wrapped? ==>
      r == AmlResponse(PyStr(Str(o.original)), DefaultFailureStatus, Default, Given(false), Given(true))
    // the catch-all handler's response is never the outcome of the
    // exceptions `run_scoring` raises
    ensures !(r.runFunctionFailed == Default && r.jsonStr == Given(false))
  {
    match Surfaced(o)
    case Returned(resp) => resp
    case Raised(e) => ErrorResponse(e, traceback)
  }

  /** `run_scoring(service_input, request_headers)`. `environ` is the
      request's WSGI environment; `run` and `alarmFires` are as for
      `invoke_user_with_timer`. */
  method RunScoring(main: Blueprint, proc: Process, input: PyValue, headers: map<string, string>,
                    environ: map<string, string>,
                    run: map<string, PyValue> -> Raising<PyValue>, alarmFires: bool)
    returns (r: Raising<AmlResponse>)
    requires alarmFires ==> main.scoringTimeoutMs > 0
    modifies main, proc
    ensures var o := Classify(Invocation(main, input, headers, run, alarmFires));
      && r == Surfaced(o)
      && main.hookStarts == old(main.hookStarts) + [RequestIdOf(environ)]
      && main.hookStops == old(main.hookStops) + StopsInRunScoring(o)
      && main.telemetryReports == old(main.telemetryReports) + (if Reported(o) then 1 else 0)
    ensures var invoked := Invocation(main, input, headers, run, alarmFires);
      proc.State() == TimerAfter(old(proc.State()), main.scoringTimeoutMs, ExitOf(alarmFires, invoked))
  {
    main.StartHooks(RequestIdOf(environ));

    var invoked := proc.InvokeUserWithTimer(main, input, headers, run, alarmFires);
    match invoked
    case Returned(response) =>
      main.StopHooks();  // finally
      r := Returned(ShapeResponse(response));
    case Raised(e) =>
      if IsPassThrough(e) {
        main.StopHooks();  // finally
        r := Raised(e);
      } else if e.Timeout? {
        main.StopHooks();
        main.SendExceptionToAppInsights();
        main.StopHooks();  // finally
        r := Raised(e);
      } else {
        main.StopHooks();
        main.SendExceptionToAppInsights();
        main.StopHooks();  // finally
        r := Raised(RunFunction(Str(e), DefaultFailureStatus));
      }
  }

  /** The Flask error handler registered for the class of `e`. */
  method HandleError(main: Blueprint, e: Exception, traceback: string) returns (resp: AmlResponse)
    modifies main
    ensures resp == ErrorResponse(e, traceback)
    ensures main.hookStops == old(main.hookStops) + 1
    ensures main.hookStarts == old(main.hookStarts)
    ensures main.telemetryReports == old(main.telemetryReports)
  {
    main.StopHooks();
    resp := ErrorResponse(e, traceback);
  }

  /** The `/score` endpoint: `run_scoring`, then the error handler for
      whatever it raised. Each request starts the hooks once and stops them
      at least once, so a blueprint whose stops covered its starts still
      does. */
  method ScoreRealtime(main: Blueprint, proc: Process, input: PyValue, headers: map<string, string>,
                       environ: map<string, string>,
                       run: map<string, PyValue> -> Raising<PyValue>, alarmFires: bool,
                       traceback: string)
    returns (resp: AmlResponse)
    requires alarmFires ==> main.scoringTimeoutMs > 0
    requires main.StopsCoverStarts()
    modifies main, proc
    ensures var o := Classify(Invocation(main, input, headers, run, alarmFires));
      && resp == FinalResponse(o, traceback)
      && main.hookStarts == old(main.hookStarts) + [RequestIdOf(environ)]
      && main.hookStops == old(main.hookStops) + TotalStops(o)
      && main.telemetryReports == old(main.telemetryReports) + (if Reported(o) then 1 else 0)
    ensures main.StopsCoverStarts()
    ensures var invoked := Invocation(main, input, headers, run, alarmFires);
      proc.State() == TimerAfter(old(proc.State()), main.scoringTimeoutMs, ExitOf(alarmFires, invoked))
  {
    var r := RunScoring(main, proc, input, headers, environ, run, alarmFires);
    match r
    case Returned(success) =>
      resp := success;
    case Raised(e) =>
      resp := HandleError(main, e, traceback);
  }

  /** A request whose alarm `TimeoutException` escapes `run` ends in the
      timeout response naming the budget, with status 500, one telemetry
      report and three `stop_hooks` calls, whatever `run` computed up to that
      point. */
  lemma AlarmEndsInTimeoutResponse(main: Blueprint, input: PyValue, headers: map<string, string>,
                                   run: map<string, PyValue> -> Raising<PyValue>, traceback: string)
    ensures var o := Classify(Invocation(main, input, headers, run, true));
      && o.TimedOut? && Reported(o) && TotalStops(o) == 3
      && FinalResponse(o, traceback) ==
         AmlResponse(PyStr(AlarmMessage(main.scoringTimeoutMs)), 500, Default, Given(false), Given(true))
  {
  }
}
