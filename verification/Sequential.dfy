/** What one attempt does when no other actor interferes. */
module Sequential {

  import opened Workflow
  import opened Statements
  import opened Protocol

  /** How the `k`-th handling of step `i` ends, counting from 1: the handler call, with a refused
      COMPLETED write after it counting as a business error. */
  type Oracle = (nat, nat) -> HandlerOutcome

  datatype End = Ended(row: ExecRow) | Stopped(reason: Thrown)

  /** The rows after an attempt, the number of handler calls on each step so far, and how the
      attempt ended. */
  datatype AttemptResult = AttemptResult(record: Record, calls: seq<nat>, end: End)

  function Finish(r: Record, calls: seq<nat>, status: Status, result: ExecResult): AttemptResult {
    match FinalizeRunningExecution(r, status, result)
    case Some(r') => AttemptResult(r', calls, Ended(r'.exec))
    case None => AttemptResult(r, calls, Ended(r.exec))
  }

  function FinishFailed(c: Config, r: Record, i: nat, outputs: seq<Entry>, processedBy: string,
                        calls: seq<nat>): AttemptResult
    requires i < |c.steps|
  {
    Finish(r, calls, Failed, ProcessResult(processedBy, |outputs|, Some(RefOf(c.steps[i])), outputs))
  }

  /** The loop from step `i` on, over the rows `seen` when the attempt started. */
  function RunSteps(c: Config, r: Record, seen: seq<StepRow>, i: nat, outputs: seq<Entry>, processedBy: string,
                    calls: seq<nat>, oracle: Oracle): (res: AttemptResult)
    requires |r.steps| == |seen| == |calls| == |c.steps| && i <= |c.steps|
    ensures |res.record.steps| == |res.calls| == |c.steps|
    ensures forall j :: 0 <= j < i ==> res.calls[j] == calls[j] && res.record.steps[j] == r.steps[j]
    decreases |c.steps| - i
  {
    if i == |c.steps| then
      Finish(r, calls, Completed, ProcessResult(processedBy, |outputs|, None, outputs))
    else
      match ClaimPendingStep(r, i)
      case None =>
        if seen[i].status.Completed? then
          var output := if seen[i].output.Some? then seen[i].output.value else AlreadyCompleted;
          RunSteps(c, r, seen, i + 1, outputs + [EntryOf(c.steps[i], output)], processedBy, calls, oracle)
        else if seen[i].status.Failed? then
          FinishFailed(c, r, i, outputs, processedBy, calls)
        else
          AttemptResult(r, calls, Stopped(StepUnclaimable))
      case Some(claimed) =>
        if ExternalOperationDedupReason(seen[i].output).Some? then
          RunSteps(c, UpdateStatus(claimed, i, Completed, seen[i].output), seen, i + 1,
            outputs + [EntryOf(c.steps[i], seen[i].output.value)], processedBy, calls, oracle)
        else
          RunHandled(c, claimed, seen, i, outputs, processedBy, calls[i := calls[i] + 1], oracle,
            oracle(i, calls[i] + 1))
  }

  /** The same, from the end of the handler call on step `i` on. */
  function RunHandled(c: Config, r: Record, seen: seq<StepRow>, i: nat, outputs: seq<Entry>, processedBy: string,
                      calls: seq<nat>, oracle: Oracle, outcome: HandlerOutcome): (res: AttemptResult)
    requires |r.steps| == |seen| == |calls| == |c.steps| && i < |c.steps|
    ensures |res.record.steps| == |res.calls| == |c.steps|
    ensures forall j :: 0 <= j <= i ==> res.calls[j] == calls[j]
    ensures forall j :: 0 <= j < i ==> res.record.steps[j] == r.steps[j]
    decreases |c.steps| - i, 0
  {
    match outcome
    case Success(body) =>
      var output := Enrich(c.steps[i], body);
      RunSteps(c, UpdateStatus(r, i, Completed, Some(output)), seen, i + 1,
        outputs + [EntryOf(c.steps[i], output)], processedBy, calls, oracle)
    case RetryableError =>
      AttemptResult(UpdateStatus(r, i, Pending, None), calls, Stopped(TechnicalFailure))
    case BusinessError =>
      FinishFailed(c, UpdateStatus(r, i, Failed, None), i, outputs, processedBy, calls)
  }

  function RunAttempt(c: Config, r: Record, now: int, processedBy: string, calls: seq<nat>,
                      oracle: Oracle): (res: AttemptResult)
    requires |r.steps| == |calls| == |c.steps|
    ensures |res.record.steps| == |res.calls| == |c.steps|
  {
    if r.exec.status.Terminal() then
      AttemptResult(r, calls, Stopped(NotProcessable))
    else if |r.steps| == 0 then
      AttemptResult(r, calls, Stopped(NoSteps))
    else
      match ClaimPendingExecution(r, now)
      case Some(claimed) => RunSteps(c, claimed, r.steps, 0, [], processedBy, calls, oracle)
      case None => RunSteps(c, r, r.steps, 0, [], processedBy, calls, oracle)
  }
}
