/** The service's blueprint object `main`: the configuration it carries and
    the instrumentation it is asked to do. What `start_hooks`, `stop_hooks`
    and `send_exception_to_app_insights` do inside is not modelled; the
    blueprint only records that they were called. */
module Hooks {

  /** Default correlation id when the request environment has no
      `REQUEST_ID`. */
  const NilRequestId: string := "00000000-0000-0000-0000-000000000000"

  /** `request.environ.get('REQUEST_ID', NilRequestId)`. */
  function RequestIdOf(environ: map<string, string>): (id: string)
    ensures "REQUEST_ID" in environ ==> id == environ["REQUEST_ID"]
    ensures "REQUEST_ID" !in environ ==> id == NilRequestId
  {
    if "REQUEST_ID" in environ then environ["REQUEST_ID"] else NilRequestId
  }

  class Blueprint {
    /** `main.run_input_parameter_name`: the keyword under which `run`
        receives the request body. */
    const runInputParameterName: string
    /** `main.support_request_header`: whether `run` also receives the
        request headers. */
    const supportRequestHeader: bool
    /** `main.scoring_timeout_in_ms`. */
    const scoringTimeoutMs: nat

    /** Correlation ids passed to `start_hooks`, oldest first. */
    var hookStarts: seq<string>
    /** Number of `stop_hooks` calls. */
    var hookStops: nat
    /** Number of `send_exception_to_app_insights` calls. */
    var telemetryReports: nat

    /** Every `start_hooks` call has been followed by at least one
        `stop_hooks` call. */
    predicate StopsCoverStarts()
      reads this
    {
      hookStops >= |hookStarts|
    }

    constructor (inputName: string, supportHeaders: bool, timeoutMs: nat)
      ensures runInputParameterName == inputName
      ensures supportRequestHeader == supportHeaders
      ensures scoringTimeoutMs == timeoutMs
      ensures hookStarts == [] && hookStops == 0 && telemetryReports == 0
      ensures StopsCoverStarts()
    {
      runInputParameterName := inputName;
      supportRequestHeader := supportHeaders;
      scoringTimeoutMs := timeoutMs;
      hookStarts, hookStops, telemetryReports := [], 0, 0;
    }

    method StartHooks(requestId: string)
      modifies this
      ensures hookStarts == old(hookStarts) + [requestId]
      ensures hookStops == old(hookStops) && telemetryReports == old(telemetryReports)
    {
      hookStarts := hookStarts + [requestId];
    }

    /** May be called several times for one request. */
    method StopHooks()
      modifies this
      ensures hookStops == old(hookStops) + 1
      ensures hookStarts == old(hookStarts) && telemetryReports == old(telemetryReports)
    {
      hookStops := hookStops + 1;
    }

    method SendExceptionToAppInsights()
      modifies this
      ensures telemetryReports == old(telemetryReports) + 1
      ensures hookStarts == old(hookStarts) && hookStops == old(hookStops)
    {
      telemetryReports := telemetryReports + 1;
    }
  }
}
