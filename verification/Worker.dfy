/** The queue worker: it maps what the processor does to success, retry or final failure. */
module Worker {

  import opened Workflow
  import opened Protocol
  import opened Invariant
  import opened Sequential
  import opened Processor
  import opened Retries
  import opened StepHandlers
  import opened Validation

  datatype Job = Job(executionId: string, processedBy: string, simulateTechnicalFailure: bool)

  /** How one call of the job callback ends: the job succeeds, or the callback throws an error
      that the queue may retry, or one that it must not. */
  datatype JobEnd = Done(executionId: string, status: Status) | Retryable | Unrecoverable

  function EndFor(job: Job, end: End): JobEnd {
    match end
    case Ended(row) => if row.status.Failed? then Unrecoverable else Done(job.executionId, row.status)
    case Stopped(_) => Retryable
  }

  /** The callback. `outcome` is what the processor returned or threw, if it was called at all.
      Whatever the other actors do, the job succeeds exactly if the processor returned a row that
      is not FAILED, which is then COMPLETED as a whole in the database; it fails for good exactly if
      the processor returned a FAILED row, which is then stored; everything thrown is retryable. */
  method ProcessJob(w: World, job: Job, production: bool) returns (end: JobEnd, ghost outcome: Option<Outcome>)
    requires w.Valid()
    modifies w
    ensures w.Continues()
    ensures job.executionId == "" || job.processedBy == "" ==> outcome.None? && end.Unrecoverable? && w.s == old(w.s)
    ensures job.executionId != "" && job.processedBy != "" ==>
      if !production && job.simulateTechnicalFailure then outcome.None? && end.Retryable? && w.s == old(w.s)
      else outcome.Some?
    ensures outcome.Some? ==>
      if Admitted(w, job.executionId, job.processedBy) then Reports(w, |old(w.s).actors|, outcome.value)
      else outcome.value.Raised? && w.s == old(w.s)
    ensures outcome.Some? ==>
      && (end.Unrecoverable? <==> outcome.value.Returned? && outcome.value.row.status.Failed?)
      && (end.Done? <==> outcome.value.Returned? && !outcome.value.row.status.Failed?)
      && (end.Retryable? <==> outcome.value.Raised?)
    ensures end.Done? ==>
      && end == Done(w.c.executionId, Completed) && w.s.record.exec.status.Completed?
      && CompletedWhole(w.c, w.s.record)
    ensures outcome.Some? && IsValidUuid(job.executionId) && job.executionId == w.c.executionId &&
            old(w.schedule) == [] ==>
      var res := RunAttempt(w.c, old(w.s).record, old(w.s).now, job.processedBy, old(w.s).ledger.calls,
                            w.HandlerOracle());
      w.s.record == res.record && w.s.ledger.calls == res.calls && end == EndFor(job, res.end)
  {
    outcome := None;
    if job.executionId == "" {
      return Unrecoverable, outcome;
    }
    if job.processedBy == "" {
      return Unrecoverable, outcome;
    }
    if !production && job.simulateTechnicalFailure {
      return Retryable, outcome;
    }
    ghost var me;
    var result;
    result, me := ProcessWorkflowExecution(w, job.executionId, job.processedBy);
    outcome := Some(result);
    w.Sound();
    match result
    case Raised(_) => end := Retryable;
    case Returned(row) =>
      assert !row.status.Failed? ==> row.status.Completed? && !WasRecovered(w.s.record) && RowsOk(w.c, w.s);
      if row.status.Failed? {
        return Unrecoverable, outcome;
      }
      end := Done(job.executionId, row.status);
  }

  const ATTEMPTS: nat := 3

  function Times(n: nat, now: int): (times: seq<int>)
    ensures |times| == n && (n > 0 ==> times[0] == now && times[1..] == Times(n - 1, now))
  {
    if n == 0 then [] else [now] + Times(n - 1, now)
  }

  /** What a job of `n` attempts should leave behind. */
  function Expected(w: World, s: State, job: Job, n: nat): (res: AttemptResult)
    requires |s.record.steps| == |s.ledger.calls| == |w.c.steps| && n > 0
  {
    RunAttempts(w.c, s.record, Times(n, s.now), job.processedBy, s.ledger.calls, w.HandlerOracle())
  }

  /** The last answers of the handlers decide how the job ends: step `k` is the first one whose last
      answer is no success, or `k` is past the last step. */
  ghost predicate Decides(w: World, end: JobEnd, k: nat)
    reads w
  {
    var last := LastAnswers(w.s.ledger.calls, w.HandlerOracle());
    && k <= |w.c.steps|
    && (forall i :: 0 <= i < k ==> last(i, 1).Success?)
    && (end.Done? <==> k == |w.c.steps|)
    && (end.Unrecoverable? <==> k < |w.c.steps| && last(k, 1).BusinessError?)
    && (end.Retryable? <==> k < |w.c.steps| && last(k, 1).RetryableError?)
  }

  /** A job whose attempts run one after another, undisturbed, on a fresh execution: it calls
      handlers at most n + 2 times; if it gives up, it has called the handlers of the `k` steps that
      succeeded once each and failed three times, and the execution is left RUNNING with no step
      RUNNING; it leaves the rows of one uninterrupted attempt; and it fails for good if and
      only if the first last answer that is no success is a business error. */
  method RunJob(w: World, job: Job, production: bool) returns (end: JobEnd, ghost k: nat)
    requires w.Valid() && w.schedule == [] && w.s == Init(w.c, w.start) && |w.c.steps| > 0
    requires job.processedBy != "" && (production || !job.simulateTechnicalFailure)
    requires IsValidUuid(job.executionId) && job.executionId == w.c.executionId
    modifies w
    ensures w.Continues()
    ensures Sum(w.s.ledger.calls) <= |w.c.steps| + 2
    ensures end.Retryable? ==> Sum(w.s.ledger.calls) == k + 3
    ensures end.Retryable? ==>
      && w.s.record.exec.status.Running?
      && forall i :: 0 <= i < |w.s.record.steps| ==> !w.s.record.steps[i].status.Running?
    ensures var one := RunAttempt(w.c, old(w.s).record, w.start, job.processedBy, Zeros(|w.c.steps|),
                                  LastAnswers(w.s.ledger.calls, w.HandlerOracle()));
      w.s.record == one.record && end == EndFor(job, one.end)
    ensures Decides(w, end, k)
  {
    ghost var expected := Expected(w, w.s, job, ATTEMPTS);
    end := Retryable;
    var attempts := 0;
    while attempts < ATTEMPTS && end.Retryable?
      invariant attempts <= ATTEMPTS && w.Continues()
      invariant attempts < ATTEMPTS && end.Retryable? ==> Expected(w, w.s, job, ATTEMPTS - attempts) == expected
      invariant attempts == ATTEMPTS || !end.Retryable? ==>
        w.s.record == expected.record && w.s.ledger.calls == expected.calls && end == EndFor(job, expected.end)
    {
      ghost var outcome;
      end, outcome := ProcessJob(w, job, production);
      attempts := attempts + 1;
    }
    ghost var entries;
    ghost var c, times, oracle := w.c, Times(ATTEMPTS, w.start), w.HandlerOracle();
    HandlerCallsOfJob(c, times, job.processedBy, oracle);
    RetriesRefineOneRun(c, times, job.processedBy, oracle);
    k, entries := JobEnds(c, times, job.processedBy, oracle);
    if expected.end.Stopped? {
      var m := JobThatGivesUp(c, times, job.processedBy, oracle);
    }
  }

  /** The simplest such job: one step that is configured to fail ends every job for good. */
  lemma FailingStepEndsJob(c: Config, job: Job, times: seq<int>, oracle: Oracle)
    requires |c.steps| == 1 && c.steps[0].shouldFail && times != []
    requires forall k :: exists settings, reaction :: oracle(0, k) == OutcomeOf(c.steps[0], settings, reaction)
    ensures EndFor(job, RunAttempts(c, InitRecord(c), times, job.processedBy, Zeros(1), oracle).end) == Unrecoverable
  {
    var calls := RunAttempts(c, InitRecord(c), times, job.processedBy, Zeros(1), oracle).calls;
    var k, entries := JobEnds(c, times, job.processedBy, oracle);
    assert LastAnswers(calls, oracle)(0, 1) == oracle(0, calls[0]);
    assert oracle(0, calls[0]).BusinessError?;
  }
}
