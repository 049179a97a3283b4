/** What each SQL statement of the two repositories does to the rows of one execution. A
    guarded UPDATE that matches no row yields `None`. */
module Statements {

  import opened Workflow

  /** UPDATE ... SET status = 'RUNNING' WHERE id = $1 AND status = 'PENDING' on the execution. */
  function ClaimPendingExecution(r: Record, now: int): Option<Record> {
    if r.exec.status.Pending? then
      var startedAt := if r.exec.startedAt.None? then Some(now) else r.exec.startedAt;
      Some(r.(exec := r.exec.(status := Running, startedAt := startedAt)))
    else
      None
  }

  /** The same guarded claim on the step at position `i`. */
  function ClaimPendingStep(r: Record, i: nat): Option<Record>
    requires i < |r.steps|
  {
    if r.steps[i].status.Pending? then
      Some(r.(steps := r.steps[i := r.steps[i].(status := Running)]))
    else
      None
  }

  /** Unguarded write of a step status; a missing output keeps the stored one. */
  function UpdateStatus(r: Record, i: nat, status: Status, output: Option<Output>): Record
    requires i < |r.steps|
  {
    r.(steps := r.steps[i := StepRow(status, if output.Some? then output else r.steps[i].output)])
  }

  /** Terminal write of the execution, only while it is RUNNING. */
  function FinalizeRunningExecution(r: Record, status: Status, result: ExecResult): Option<Record> {
    if r.exec.status.Running? then
      Some(r.(exec := r.exec.(status := status, result := Some(result))))
    else
      None
  }

  /** UPDATE ... SET status = 'FAILED' WHERE execution_id = $1 AND status = 'RUNNING'. */
  function FailRunningSteps(rows: seq<StepRow>): (failed: seq<StepRow>)
    ensures |failed| == |rows|
  {
    seq(|rows|, i requires 0 <= i < |rows| =>
      if rows[i].status.Running? then rows[i].(status := Failed) else rows[i])
  }

  /** The database clock counts microseconds; timeouts are given in minutes. */
  const MINUTE: int := 60_000_000

  /** RUNNING since at least `timeout` minutes. */
  predicate Stale(e: ExecRow, now: int, timeout: int) {
    e.status.Running? && e.startedAt.Some? && e.startedAt.value <= now - timeout * MINUTE
  }

  /** Terminal write by recovery, only while the execution is a stale RUNNING row. */
  function FailStaleRunning(r: Record, now: int, timeout: int, result: ExecResult): Option<Record> {
    if Stale(r.exec, now, timeout) then
      Some(r.(exec := r.exec.(status := Failed, result := Some(result))))
    else
      None
  }

  /** Steps that a recovery of `rows` fails or corrects: those RUNNING, split by whether their
      comment was found. */
  function RunningRefs(c: Config, rows: seq<StepRow>, found: map<nat, string>, wanted: bool): seq<StepRef>
    requires |rows| <= |c.steps|
  {
    if |rows| == 0 then
      []
    else
      var i := |rows| - 1;
      RunningRefs(c, rows[..i], found, wanted) +
      if rows[i].status.Running? && (i in found) == wanted then [RefOf(c.steps[i])] else []
  }

  /** The step rows that a committed recovery leaves behind. */
  function RecoveredRows(c: Config, rows: seq<StepRow>, found: map<nat, string>): (recovered: seq<StepRow>)
    requires |rows| == |c.steps|
    ensures |recovered| == |rows|
  {
    seq(|rows|, i requires 0 <= i < |rows| =>
      if !rows[i].status.Running? then rows[i]
      else if i in found then StepRow(Completed, Some(RecoveredOutput(c.steps[i], found[i])))
      else rows[i].(status := Failed))
  }

  function RecoveryResultFor(c: Config, scan: ExecRow, rows: seq<StepRow>, timeout: int, found: map<nat,
                             string>): ExecResult
    requires |rows| == |c.steps|
  {
    RecoveryResult(scan.result, scan.status, timeout,
      RunningRefs(c, rows, found, false), RunningRefs(c, rows, found, true))
  }

  /** The whole recovery transaction: `None` is a lost race, after which nothing is changed. */
  function RecoverTransaction(c: Config, r: Record, scan: ExecRow, now: int, timeout: int, found: map<nat, string>)
    : Option<Record>
    requires |r.steps| == |c.steps|
  {
    FailStaleRunning(
      r.(steps := RecoveredRows(c, r.steps, found)), now, timeout,
      RecoveryResultFor(c, scan, r.steps, timeout, found))
  }
}
