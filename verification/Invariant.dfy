/** The inductive invariant of the protocol. It assumes nothing about Jira. */
module Invariant {

  import opened Workflow
  import opened Statements
  import opened Protocol

  /** Was this execution finalized by recovery? */
  predicate WasRecovered(r: Record) {
    r.exec.result.Some? && r.exec.result.value.RecoveryResult?
  }

  // ----- who holds what, and the counters -----

  /** A held step is not PENDING, and has one holder. */
  ghost predicate HoldsOk(s: State) {
    && (forall a :: 0 <= a < |s.actors| ==> HeldOk(s.record.steps, s.actors[a]))
    && (forall a, b | 0 <= a < |s.actors| && 0 <= b < |s.actors| && Held(s.actors[a]).Some? ::
          Held(s.actors[a]) == Held(s.actors[b]) ==> a == b)
  }

  predicate HeldOk(rows: seq<StepRow>, p: Actor) {
    Held(p).Some? ==> Held(p).value < |rows| && !rows[Held(p).value].status.Pending?
  }

  /** Requests of step `i` that took effect or may still do so. */
  function Sent(l: Ledger, i: nat): nat {
    Count(l.effects, i) + l.inFlight[i]
  }

  /** The accounting of a step, from its status and its counts. */
  predicate Accounted(status: Status, sent: nat, claims: nat, calls: nat, retryFailures: nat, unsafe: nat,
                      reverts: nat) {
    && claims == reverts + (if status.Pending? then 0 else 1)
    && sent <= calls <= claims
    && sent <= unsafe + (if status.Pending? then 0 else 1)
    && reverts <= retryFailures
    && unsafe <= retryFailures
  }

  predicate AccountedAt(rows: seq<StepRow>, l: Ledger, i: nat)
    requires LedgerInRange(|rows|, l) && i < |rows|
  {
    Accounted(rows[i].status, Sent(l, i), l.claims[i], l.calls[i], l.retryFailures[i], l.unsafeFailures[i],
              l.reverts[i])
  }

  /** What an attempt in the middle of a step still owes to the counts of that step. */
  predicate CallOk(c: Config, l: Ledger, pc: Pc)
    requires LedgerInRange(|c.steps|, l) && (Cursor(pc).Some? && !pc.Loop? ==> Cursor(pc).value < |c.steps|)
  {
    match pc
    case Calling(i, applied) =>
      if applied then CallsJira(c.steps[i]) && Count(l.effects, i) > 0
      else Sent(l, i) < l.calls[i] && Sent(l, i) <= l.unsafeFailures[i]
    case Succeeded(i, body) =>
      CanEnd(c.steps[i], true, Success(body)) && (CallsJira(c.steps[i]) ==> Count(l.effects, i) > 0)
    case FailedRetryably(i) => l.reverts[i] < l.retryFailures[i] && Sent(l, i) <= l.unsafeFailures[i]
    case _ => true
  }

  ghost predicate CountersOk(c: Config, s: State)
    requires InRange(c, s)
  {
    var l := s.ledger;
    && (forall i :: 0 <= i < |c.steps| ==>
          Accounted(s.record.steps[i].status, Sent(l, i), l.claims[i], l.calls[i],
                    l.retryFailures[i], l.unsafeFailures[i], l.reverts[i]))
    && (forall a :: 0 <= a < |s.actors| && s.actors[a].Attempt? ==> CallOk(c, l, s.actors[a].pc))
    && (forall i :: i in l.effects || i in l.inFlight ==> i < |c.steps| && CallsJira(c.steps[i]))
  }

  // ----- the execution row -----

  predicate ExecOk(e: ExecRow) {
    match e.status
    case Pending => e.startedAt.None? && e.result.None?
    case Running => e.startedAt.Some? && e.result.None?
    case _ => e.startedAt.Some? && e.result.Some?
  }

  /** Entries agree with the persisted outputs of the steps they stand for, all COMPLETED. */
  ghost predicate EntriesMatch(c: Config, rows: seq<StepRow>, entries: seq<Entry>)
    requires |rows| == |c.steps|
  {
    && |entries| <= |rows|
    && forall i :: 0 <= i < |entries| ==> EntryMatches(c.steps[i], rows[i], entries[i])
  }

  predicate EntryMatches(d: StepDef, row: StepRow, e: Entry) {
    row == StepRow(Completed, Some(e.output)) && e == EntryOf(d, e.output)
  }

  /** A COMPLETED step carries a handler's output under its own idempotency key. */
  predicate RowOk(d: StepDef, row: StepRow) {
    if row.status.Completed? then
      row.output.Some? && row.output.value.Persisted? &&
      row.output.value == Enrich(d, row.output.value.body) &&
      !d.shouldFail && BodyFits(d, row.output.value.body)
    else
      row.output.None?
  }

  /** The rows of an execution that the processor finalized as FAILED at step `k`. */
  ghost predicate FailedAt(c: Config, r: Record, k: nat)
    requires |r.steps| == |c.steps|
  {
    && k < |r.steps|
    && r.steps[k].status.Failed?
    && (forall i :: 0 <= i < k ==> r.steps[i].status.Completed?)
    && (forall i :: k < i < |r.steps| ==> r.steps[i].status.Pending?)
    && r.exec.result.Some?
    && r.exec.result.value.ProcessResult?
    && r.exec.result.value.failedStep == Some(RefOf(c.steps[k]))
    && r.exec.result.value.stepsProcessed == k == |r.exec.result.value.steps|
    && EntriesMatch(c, r.steps, r.exec.result.value.steps)
  }

  ghost predicate CompletedWhole(c: Config, r: Record)
    requires |r.steps| == |c.steps|
  {
    && r.exec.result.Some?
    && r.exec.result.value.ProcessResult?
    && r.exec.result.value.failedStep.None?
    && r.exec.result.value.stepsProcessed == |c.steps| == |r.exec.result.value.steps|
    && EntriesMatch(c, r.steps, r.exec.result.value.steps)
  }

  /** Steps take effect for the first time in step order: before any effect of a step every earlier
      Jira step has had one. */
  ghost predicate FirstInOrder(c: Config, log: seq<nat>) {
    forall y, i | 0 <= y < |log| && 0 <= i < log[y] && i < |c.steps| && CallsJira(c.steps[i]) :: i in log[..y]
  }

  /** The rows of an execution that no recovery has finalized. */
  ghost predicate RowsOk(c: Config, s: State)
    requires InRange(c, s)
  {
    var rows := s.record.steps;
    && (forall i, j :: 0 <= i < j < |rows| && s.ledger.claims[j] > 0 ==> rows[i].status.Completed?)
    && (forall i :: 0 <= i < |rows| ==> RowOk(c.steps[i], rows[i]))
    && (forall i :: 0 <= i < |rows| && rows[i].status.Completed? && CallsJira(c.steps[i]) ==>
          Count(s.ledger.effects, i) > 0)
    && FirstInOrder(c, s.ledger.effects)
    && (s.record.exec.status.Pending? ==> forall i :: 0 <= i < |rows| ==> s.ledger.claims[i] == 0)
    && (s.record.exec.status.Completed? ==> CompletedWhole(c, s.record))
    && (s.record.exec.status.Failed? ==> exists k :: FailedAt(c, s.record, k))
  }

  // ----- the actors -----

  /** How an attempt's private view relates to the rows while no recovery has finalized. */
  ghost predicate ViewOk(c: Config, rows: seq<StepRow>, p: Actor)
    requires ActorInRange(|c.steps|, p) && |rows| == |c.steps|
  {
    p.Attempt? ==>
      && (|p.snapshot| == |rows| ==> forall i :: 0 <= i < |rows| ==> SnapshotOk(p.snapshot[i], rows[i]))
      && (Cursor(p.pc).Some? ==> EntriesMatch(c, rows, p.outputs))
      && (Held(p).Some? ==> rows[Held(p).value].status.Running?)
      && !p.pc.Dedup?
      && (p.pc.FinalizeFailed? ==> rows[p.pc.i].status.Failed?)
  }

  predicate SnapshotOk(seen: StepRow, row: StepRow) {
    && (seen.status.Completed? || seen.status.Failed? ==> row == seen)
    && (seen.output.Some? ==> seen.status.Completed?)
    && (seen.status.Completed? ==> seen.output.Some?)
  }

  /** What each actor knows about the execution row. */
  predicate KnowsOk(r: Record, now: int, p: Actor) {
    match p
    case Attempt(_, _, _, pc) =>
      && (Cursor(pc).Some? ==> !r.exec.status.Pending?)
      && (match pc
          case ReadSteps(seen) => (seen.Pending? || seen.Running?) && (seen.Running? ==> !r.exec.status.Pending?)
          case Reread => r.exec.status.Terminal()
          case Audit(event, row) =>
            row == r.exec && row.status.Terminal() && !WasRecovered(r) &&
            event == (if row.status.Completed? then ProcessCompleted else ProcessFailed)
          case Returned(row) => row == r.exec && row.status.Terminal()
          case _ => true)
    case Recovery(timeout, rpc) =>
      match rpc
      case ReadRunning(scan) => ScanOk(r, now, timeout, scan)
      case LookUp(scan, _, _) => ScanOk(r, now, timeout, scan)
      case RegisterRecovery => WasRecovered(r) && r.exec.status.Failed?
      case RaceLost => r.exec.status.Terminal()
      case _ => true
  }

  predicate ScanOk(r: Record, now: int, timeout: int, scan: ExecRow) {
    && Stale(scan, now, timeout)
    && scan.result.None?
    && !r.exec.status.Pending?
    && r.exec.startedAt == scan.startedAt
  }

  // ----- the winner and its audit event -----

  predicate Announcing(p: Actor) {
    match p
    case Attempt(_, _, _, pc) => pc.Audit?
    case Recovery(_, rpc) => rpc.RegisterRecovery?
  }

  function EventFor(r: Record): Event {
    if WasRecovered(r) then RecoveryFailed
    else if r.exec.status.Completed? then ProcessCompleted
    else ProcessFailed
  }

  ghost predicate WinnerOk(s: State) {
    && s.wins == (if s.record.exec.status.Terminal() then 1 else 0)
    && (s.events == [] || (s.record.exec.status.Terminal() && s.events == [EventFor(s.record)]))
    && (forall a :: 0 <= a < |s.actors| && Announcing(s.actors[a]) ==> s.events == [])
    && (forall a, b | 0 <= a < |s.actors| && 0 <= b < |s.actors| ::
          Announcing(s.actors[a]) && Announcing(s.actors[b]) ==> a == b)
  }

  ghost predicate KnowledgeOk(s: State) {
    forall a :: 0 <= a < |s.actors| ==> KnowsOk(s.record, s.now, s.actors[a])
  }

  ghost predicate ViewsOk(c: Config, s: State)
    requires InRange(c, s)
  {
    forall a :: 0 <= a < |s.actors| ==> ViewOk(c, s.record.steps, s.actors[a])
  }

  ghost predicate Inv(c: Config, s: State) {
    && InRange(c, s)
    && HoldsOk(s)
    && CountersOk(c, s)
    && ExecOk(s.record.exec)
    && KnowledgeOk(s)
    && WinnerOk(s)
    && (if WasRecovered(s.record) then s.record.exec.status.Failed? else RowsOk(c, s) && ViewsOk(c, s))
  }

  lemma InvInRange(c: Config, s: State)
    requires Inv(c, s)
    ensures InRange(c, s)
  {
  }

  lemma InitInv(c: Config, now: int)
    ensures Inv(c, Init(c, now))
  {
  }
}
