/** `invoke_user_with_timer` and `alarm_handler`: the user's `run` is called
    under a one-shot real-time interval timer whose SIGALRM handler raises a
    `TimeoutException`. The SIGALRM handler slot and the interval timer are
    process-wide state, held here by a `Process` object. Time itself is not
    modelled: `alarmFires` says whether the `TimeoutException` that
    `alarm_handler` raises escapes the call, that is, goes off between arming
    and disarming and is not caught inside `run`. An alarm that `run` catches
    itself shows only in what `run` returns or raises. */
module Timer {
  import opened PyValues
  import opened Errors
  import opened Hooks

  /** What the SIGALRM slot can hold: the default action, "ignore", the
      service's `alarm_handler`, or some other Python callable. */
  datatype SignalHandler = SigDfl | SigIgn | AlarmHandler | PyCallable(id: nat)

  /** The real-time interval timer: disarmed, or armed with a one-shot
      budget in milliseconds. */
  datatype Itimer = Disarmed | Armed(ms: nat)

  datatype SignalState = SignalState(sigalrm: SignalHandler, itimer: Itimer)

  /** How a call of `invoke_user_with_timer` ended. */
  datatype Exit = NormalReturn | HandlerRaised | AlarmRaised

  /** `signal.setitimer(signal.ITIMER_REAL, ms / 1000)`: a zero budget
      disarms the timer instead of arming it. */
  function Arm(ms: nat): (t: Itimer)
    ensures t.Armed? <==> ms > 0
    ensures t.Armed? ==> t.ms == ms
  {
    if ms == 0 then Disarmed else Armed(ms)
  }

  /** Keyword under which `run` receives the request headers. */
  const RequestHeadersKey: string := "request_headers"

  /** `dict(headers)`, with the header collection already in the form the
      request object gives it. */
  function HeadersDict(headers: map<string, string>): (d: PyValue)
    ensures d.PyDict? && d.entries.Keys == headers.Keys
    ensures forall k :: k in headers ==> d.entries[k] == PyStr(headers[k])
  {
    PyDict(map k | k in headers :: PyStr(headers[k]))
  }

  /** The keyword arguments `run` is called with. */
  function Params(name: string, support: bool, input: PyValue, headers: map<string, string>)
    : (p: map<string, PyValue>)
    ensures p.Keys == {name} + (if support then {RequestHeadersKey} else {})
    // the headers are passed exactly when header support is on, unless the
    // input itself is configured under the same keyword
    ensures RequestHeadersKey in p <==> support || name == RequestHeadersKey
    ensures support ==> p[RequestHeadersKey] == HeadersDict(headers)
    // the input is bound to its keyword unless the headers overwrite it
    ensures !(support && name == RequestHeadersKey) ==> p[name] == input
  {
    var p := map[name := input];
    if support then p[RequestHeadersKey := HeadersDict(headers)] else p
  }

  /** The message `alarm_handler` raises with. */
  function AlarmMessage(ms: nat): string {
    "Scoring timeout after " + DecimalString(ms) + " ms"
  }

  /** The exception `alarm_handler` raises when the timer goes off. */
  function AlarmTimeout(ms: nat): (e: Exception)
    ensures e.Timeout? && e.status == DefaultFailureStatus
    ensures e.message == AlarmMessage(ms)
  {
    Timeout(AlarmMessage(ms), DefaultFailureStatus)
  }

  /** The timeout message names the configured budget in milliseconds, and
      the budget can be read back from it. */
  lemma AlarmMessageNamesBudget(ms: nat)
    ensures var m := AlarmMessage(ms);
      && "Scoring timeout after " <= m
      && |m| >= |"Scoring timeout after "| + |" ms"|
      && m[|m| - |" ms"|..] == " ms"
      && var digits := m[|"Scoring timeout after "|..|m| - |" ms"|];
         (forall i :: 0 <= i < |digits| ==> IsDigit(digits[i])) && DecimalValue(digits) == ms
  {
    var m := AlarmMessage(ms);
    var digits := m[|"Scoring timeout after "|..|m| - |" ms"|];
    assert digits == DecimalString(ms);
    DecimalRoundTrip(ms);
  }

  /** What a call with the given configuration, input and headers returns:
      the user's `run` applied to its keyword arguments, or, when the alarm's
      `TimeoutException` escapes `run` (or goes off after `run` returned but
      before the disarm), that timeout. */
  function Invocation(main: Blueprint, input: PyValue, headers: map<string, string>,
                      run: map<string, PyValue> -> Raising<PyValue>, alarmFires: bool)
    : (r: Raising<PyValue>)
    ensures alarmFires ==> r == Raised(AlarmTimeout(main.scoringTimeoutMs))
    ensures !alarmFires ==>
      r == run(Params(main.runInputParameterName, main.supportRequestHeader, input, headers))
  {
    if alarmFires then Raised(AlarmTimeout(main.scoringTimeoutMs))
    else run(Params(main.runInputParameterName, main.supportRequestHeader, input, headers))
  }

  function ExitOf(alarmFires: bool, result: Raising<PyValue>): Exit {
    if alarmFires then AlarmRaised
    else if result.Returned? then NormalReturn
    else HandlerRaised
  }

  /** The signal state after one call, from the state `s` before it. The
      handler that was installed is captured and the timer armed with `ms`;
      only a normal return disarms the timer and puts the captured handler
      back. */
  function TimerAfter(s: SignalState, ms: nat, exit: Exit): (t: SignalState)
    ensures exit == NormalReturn ==> t == SignalState(s.sigalrm, Disarmed)
    ensures exit != NormalReturn ==> t.sigalrm == AlarmHandler
    // after `run` raises, the alarm is taken to be still pending (a `run`
    // that caught the alarm and then raised is not told apart)
    ensures t.itimer.Armed? <==> exit == HandlerRaised && ms > 0
    ensures t.itimer.Armed? ==> t.itimer.ms == ms
  {
    var captured := s.sigalrm;
    var armed := SignalState(AlarmHandler, Arm(ms));
    match exit
    case NormalReturn => SignalState(captured, Disarmed)
    case HandlerRaised => armed
    case AlarmRaised => armed.(itimer := Disarmed)  // a one-shot timer that went off
  }

  /** The signal state after a series of calls, oldest first. */
  function TimerAfterAll(s: SignalState, ms: nat, exits: seq<Exit>): SignalState {
    if exits == [] then s
    else TimerAfter(TimerAfterAll(s, ms, exits[..|exits| - 1]), ms, exits[|exits| - 1])
  }

  predicate AllNormal(exits: seq<Exit>) {
    forall i :: 0 <= i < |exits| ==> exits[i] == NormalReturn
  }

  /** Over any series of calls, the slot ends holding the handler that was
      installed before them if every call returned normally, and
      `alarm_handler` otherwise: one call that raised, or timed out, leaves
      `alarm_handler` installed for good, since later calls capture and
      restore that one. */
  lemma {:induction false} HandlerAfterCalls(s: SignalState, ms: nat, exits: seq<Exit>)
    ensures TimerAfterAll(s, ms, exits).sigalrm ==
      if AllNormal(exits) then s.sigalrm else AlarmHandler
    decreases |exits|
  {
    if exits != [] {
      var init := exits[..|exits| - 1];
      HandlerAfterCalls(s, ms, init);
      if !AllNormal(init) {
        var i :| 0 <= i < |init| && init[i] != NormalReturn;
        assert exits[i] != NormalReturn;
      }
      if AllNormal(init) && exits[|exits| - 1] == NormalReturn {
        forall i | 0 <= i < |exits| ensures exits[i] == NormalReturn {
          if i < |init| { assert exits[i] == init[i]; }
        }
      }
    }
  }

  /** The process-wide signal state. */
  class Process {
    var sigalrm: SignalHandler
    var itimer: Itimer

    function State(): SignalState
      reads this
    {
      SignalState(sigalrm, itimer)
    }

    constructor (s: SignalState)
      ensures State() == s
    {
      sigalrm, itimer := s.sigalrm, s.itimer;
    }

    /** `invoke_user_with_timer(input, headers)`. The alarm cannot go off
        when the budget is zero, since the timer is then never armed. */
    method InvokeUserWithTimer(main: Blueprint, input: PyValue, headers: map<string, string>,
                               run: map<string, PyValue> -> Raising<PyValue>, alarmFires: bool)
      returns (result: Raising<PyValue>)
      requires alarmFires ==> main.scoringTimeoutMs > 0
      modifies this
      ensures result == Invocation(main, input, headers, run, alarmFires)
      ensures State() == TimerAfter(old(State()), main.scoringTimeoutMs, ExitOf(alarmFires, result))
    {
      var params := map[main.runInputParameterName := input];
      if main.supportRequestHeader {
        params := params[RequestHeadersKey := HeadersDict(headers)];
      }

      var oldHandler := sigalrm;
      sigalrm := AlarmHandler;
      itimer := Arm(main.scoringTimeoutMs);

      if alarmFires {
        // the TimeoutException raised by alarm_handler somewhere between
        // arming and disarming escapes; the one-shot timer has expired and
        // nothing else is undone
        itimer := Disarmed;
        result := Raised(AlarmTimeout(main.scoringTimeoutMs));
        return;
      }
      result := run(params);
      if result.Raised? {
        // the exception propagates past the disarm and the restore
        return;
      }

      itimer := Disarmed;
      sigalrm := oldHandler;
    }
  }
}
