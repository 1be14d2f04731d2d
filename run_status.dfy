/**
 * The run-status panel: the `status`/`isPolling` state updated by each poll of
 * the run, the interval that re-issues the poll on every tick until the effect
 * is cleaned up, and the colour and icon shown for a status.
 */
module RunStatus {
  import opened Wrappers
  import opened JsValue

  /** A call of one of the parent's callbacks. */
  datatype Notice = StatusChanged(status: Value) | ErrorReported(message: string)

  /**
   * The panel's state: its two state variables, whether the polling interval
   * is installed, how many polls were issued and the callbacks made so far.
   */
  datatype PollState = PollState(status: Value, isPolling: bool, intervalActive: bool, polls: nat, notices: seq<Notice>)

  /** `useState("READY")`, `useState(false)`, no interval, nothing issued. */
  const Initial := PollState(Str("READY"), false, false, 0, [])

  /** The statuses after which the run does not change any more. */
  predicate IsTerminal(status: Value)
    ensures IsTerminal(status) ==> status.Str? && status != Str("READY") && status != Str("RUNNING")
  {
    status == Str("SUCCEEDED") || status == Str("FAILED") || status == Str("ABORTED")
  }

  /** `response.data.data.status`; reading through a missing level throws. */
  function NewStatusOf(response: Value): (r: Result<Value, string>)
    ensures r.Success? <==> !IsNullish(response) && !IsNullish(GetProp(response, "data"))
                            && !IsNullish(GetProp(GetProp(response, "data"), "data"))
    ensures r.Success? ==> r.value == GetProp(GetProp(GetProp(response, "data"), "data"), "status")
    ensures r.Failure? ==> r.error == TypeErrorMessage
  {
    match Deref(response, "data")
    case Failure(m) => Failure(m)
    case Success(outer) =>
      match Deref(outer, "data")
      case Failure(m) => Failure(m)
      case Success(inner) => Deref(inner, "status")
  }

  /**
   * What the `try` block of `pollStatus` yields from the settled `getRunStatus`
   * call (its body, or the message it was rejected with): the new status, or the
   * message its `catch` sees.
   */
  function PollResult(outcome: Result<Value, string>): (r: Result<Value, string>)
    ensures outcome.Failure? ==> r == Failure(outcome.error)
    ensures r.Success? <==> outcome.Success? && !IsNullish(outcome.value) && !IsNullish(GetProp(outcome.value, "data"))
                            && !IsNullish(GetProp(GetProp(outcome.value, "data"), "data"))
    ensures r.Success? ==> r.value == GetProp(GetProp(GetProp(outcome.value, "data"), "data"), "status")
    ensures outcome.Success? && r.Failure? ==> r.error == TypeErrorMessage
  {
    match outcome
    case Success(response) => NewStatusOf(response)
    case Failure(message) => Failure(message)
  }

  /** One run of `pollStatus`: one request, then either a status update or an error report. */
  function PollStep(s: PollState, outcome: Result<Value, string>): (t: PollState)
    ensures t.polls == s.polls + 1 && t.intervalActive == s.intervalActive
    ensures |t.notices| == |s.notices| + 1 && t.notices[..|s.notices|] == s.notices
  {
    var issued := s.(polls := s.polls + 1);
    match PollResult(outcome)
    case Success(newStatus) =>
      issued.(status := newStatus,
              notices := s.notices + [StatusChanged(newStatus)],
              isPolling := if IsTerminal(newStatus) then false else s.isPolling)
    case Failure(message) =>
      issued.(notices := s.notices + [ErrorReported(message)], isPolling := false)
  }

  /** A successful poll shows the new status and reports that same value to the parent. */
  lemma PollSucceeded(s: PollState, outcome: Result<Value, string>)
    requires PollResult(outcome).Success?
    ensures var t := PollStep(s, outcome);
            && t.status == PollResult(outcome).value
            && t.notices[|s.notices|] == StatusChanged(t.status)
  {
  }

  /** A failed poll reports the error's message, stops polling and leaves the status as it was. */
  lemma PollFailed(s: PollState, outcome: Result<Value, string>)
    requires PollResult(outcome).Failure?
    ensures var t := PollStep(s, outcome);
            && t.status == s.status
            && !t.isPolling
            && t.notices[|s.notices|] == ErrorReported(PollResult(outcome).error)
            && (outcome.Failure? ==> t.notices[|s.notices|] == ErrorReported(outcome.error))
  {
  }

  /** Only a terminal status or an error clears `isPolling`; nothing in a poll sets it. */
  lemma PollingClearedOnlyAtTheEnd(s: PollState, outcome: Result<Value, string>)
    ensures PollStep(s, outcome).isPolling
            <==> s.isPolling && PollResult(outcome).Success? && !IsTerminal(PollResult(outcome).value)
  {
  }

  /** The effect: nothing without a truthy `runId`; otherwise polling on, a first poll at once, and the interval installed. */
  function StartStep(s: PollState, runId: Value, first: Result<Value, string>): (t: PollState)
    ensures !Truthy(runId) ==> t == s
    ensures Truthy(runId) ==> t.intervalActive && t.polls == s.polls + 1 && |t.notices| == |s.notices| + 1
  {
    if !Truthy(runId) then s
    else PollStep(s.(isPolling := true), first).(intervalActive := true)
  }

  /** A tick of the 3000 ms interval: a poll when the interval is installed, nothing otherwise. */
  function TickStep(s: PollState, outcome: Result<Value, string>): (t: PollState)
    ensures t.intervalActive == s.intervalActive
    ensures t.polls == if s.intervalActive then s.polls + 1 else s.polls
    ensures !s.intervalActive ==> t == s
  {
    if s.intervalActive then PollStep(s, outcome) else s
  }

  /** The effect's cleanup: `clearInterval`. */
  function CleanupStep(s: PollState): (t: PollState)
    ensures !t.intervalActive
    ensures t.status == s.status && t.isPolling == s.isPolling && t.polls == s.polls && t.notices == s.notices
  {
    s.(intervalActive := false)
  }

  /** A series of ticks, one poll outcome each. */
  function Ticks(s: PollState, outcomes: seq<Result<Value, string>>): PollState
    decreases |outcomes|
  {
    if |outcomes| == 0 then s else Ticks(TickStep(s, outcomes[0]), outcomes[1..])
  }

  /** Without a run id nothing is polled and the panel stays as it started. */
  lemma NoRunNoPoll(runId: Value, first: Result<Value, string>)
    requires !Truthy(runId)
    ensures StartStep(Initial, runId, first) == Initial
  {
  }

  /** With a run id the first poll is issued immediately, before any tick, and the interval is installed. */
  lemma StartPollsAtOnce(s: PollState, runId: Value, first: Result<Value, string>)
    requires Truthy(runId)
    ensures StartStep(s, runId, first).polls == s.polls + 1
    ensures StartStep(s, runId, first).intervalActive
    ensures StartStep(s, runId, first).isPolling <==> PollResult(first).Success? && !IsTerminal(PollResult(first).value)
  {
    PollingClearedOnlyAtTheEnd(s.(isPolling := true), first);
  }

  /**
   * Reaching a terminal status does not clear the interval: every later tick
   * still issues a request, whatever the statuses, until cleanup.
   */
  lemma {:induction false} IntervalOutlivesTerminal(s: PollState, outcomes: seq<Result<Value, string>>)
    requires s.intervalActive
    ensures Ticks(s, outcomes).intervalActive
    ensures Ticks(s, outcomes).polls == s.polls + |outcomes|
    decreases |outcomes|
  {
    if |outcomes| > 0 {
      IntervalOutlivesTerminal(TickStep(s, outcomes[0]), outcomes[1..]);
    }
  }

  /** After cleanup, ticks change nothing. */
  lemma {:induction false} NoPollAfterCleanup(s: PollState, outcomes: seq<Result<Value, string>>)
    ensures Ticks(CleanupStep(s), outcomes) == CleanupStep(s)
    decreases |outcomes|
  {
    if |outcomes| > 0 {
      NoPollAfterCleanup(s, outcomes[1..]);
    }
  }

  /** What `getRunStatus` resolves to: the gateway envelope around the platform's `{data: {status}}`. */
  function StatusResponse(status: string): Value {
    Obj([Entry("data", Obj([Entry("data", Obj([Entry("status", Str(status))]))]))])
  }

  /** A run seen RUNNING and then SUCCEEDED ends shown as SUCCEEDED and not polling, with the interval still installed. */
  lemma SucceededRunExample()
    ensures var t := TickStep(StartStep(Initial, Str("run-1"), Success(StatusResponse("RUNNING"))),
                              Success(StatusResponse("SUCCEEDED")));
            && t.status == Str("SUCCEEDED")
            && !t.isPolling
            && t.intervalActive
            && t.notices == [StatusChanged(Str("RUNNING")), StatusChanged(Str("SUCCEEDED"))]
  {
    var s1 := StartStep(Initial, Str("run-1"), Success(StatusResponse("RUNNING")));
    assert s1.status == Str("RUNNING") && s1.isPolling;
  }

  /** The panel's state, updated by the effect, the interval and the cleanup. */
  class Poller {
    var status: Value
    var isPolling: bool
    var intervalActive: bool
    var polls: nat
    var notices: seq<Notice>

    function State(): PollState
      reads this
    {
      PollState(status, isPolling, intervalActive, polls, notices)
    }

    constructor ()
      ensures State() == Initial
    {
      status := Str("READY");
      isPolling := false;
      intervalActive := false;
      polls := 0;
      notices := [];
    }

    /** `pollStatus`: issue the request, then update the status or report the error. */
    method PollStatus(outcome: Result<Value, string>)
      modifies this
      ensures State() == PollStep(old(State()), outcome)
    {
      polls := polls + 1;
      var result := PollResult(outcome);
      if result.Success? {
        var newStatus := result.value;
        status := newStatus;
        notices := notices + [StatusChanged(newStatus)];
        if IsTerminal(newStatus) {
          isPolling := false;
        }
      } else {
        notices := notices + [ErrorReported(result.error)];
        isPolling := false;
      }
    }

    /** The effect body for the given `runId`. */
    method Start(runId: Value, first: Result<Value, string>)
      modifies this
      ensures State() == StartStep(old(State()), runId, first)
    {
      if Truthy(runId) {
        isPolling := true;
        PollStatus(first);
        intervalActive := true;
      }
    }

    /** One firing of the interval. */
    method Tick(outcome: Result<Value, string>)
      modifies this
      ensures State() == TickStep(old(State()), outcome)
    {
      if intervalActive {
        PollStatus(outcome);
      }
    }

    /** The function the effect returns. */
    method Cleanup()
      modifies this
      ensures State() == CleanupStep(old(State()))
    {
      intervalActive := false;
    }
  }

  /** `getStatusColor`. */
  function StatusColor(status: Value): (c: string)
    ensures status == Str("FAILED") || status == Str("ABORTED") ==> c == "text-red-600"
  {
    if status == Str("READY") then "text-blue-600"
    else if status == Str("RUNNING") then "text-yellow-600"
    else if status == Str("SUCCEEDED") then "text-green-600"
    else if status == Str("FAILED") || status == Str("ABORTED") then "text-red-600"
    else "text-gray-600"
  }

  /** `getStatusIcon`. */
  function StatusIcon(status: Value): (i: string)
    ensures status == Str("FAILED") || status == Str("ABORTED") ==> i == "❌"
  {
    if status == Str("READY") then "⏳"
    else if status == Str("RUNNING") then "🔄"
    else if status == Str("SUCCEEDED") then "✅"
    else if status == Str("FAILED") || status == Str("ABORTED") then "❌"
    else "❓"
  }

  /** The statuses the switches name. */
  predicate IsListed(status: Value) {
    status == Str("READY") || status == Str("RUNNING") || IsTerminal(status)
  }

  /**
   * Colour and icon tell the same story: red and ❌ exactly for a failed or
   * aborted run, gray and ❓ exactly for a status the switches do not name,
   * green and ✅ exactly for success.
   */
  lemma ColorAndIcon(status: Value)
    ensures StatusColor(status) == "text-red-600" <==> status == Str("FAILED") || status == Str("ABORTED")
    ensures StatusIcon(status) == "❌" <==> status == Str("FAILED") || status == Str("ABORTED")
    ensures StatusColor(status) == "text-gray-600" <==> !IsListed(status)
    ensures StatusIcon(status) == "❓" <==> !IsListed(status)
    ensures StatusColor(status) == "text-green-600" <==> StatusIcon(status) == "✅"
    ensures IsTerminal(status) <==> StatusColor(status) in {"text-green-600", "text-red-600"}
  {
  }
}
