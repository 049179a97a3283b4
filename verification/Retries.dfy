/** Attempts that run one after another amount to one uninterrupted run. */
module Retries {

  import opened Workflow
  import opened Statements
  import opened Protocol
  import opened Sequential

  /** Attempts at the given times, each started because the one before it threw. */
  function RunAttempts(c: Config, r: Record, times: seq<int>, processedBy: string, calls: seq<nat>,
                       oracle: Oracle): (res: AttemptResult)
    requires |r.steps| == |calls| == |c.steps| && times != []
    ensures |res.record.steps| == |res.calls| == |c.steps|
    decreases |times|
  {
    var first := RunAttempt(c, r, times[0], processedBy, calls, oracle);
    if |times| == 1 || first.end.Ended? then first
    else RunAttempts(c, first.record, times[1..], processedBy, first.calls, oracle)
  }

  function Sum(counts: seq<nat>): nat {
    if |counts| == 0 then 0 else Sum(counts[..|counts| - 1]) + counts[|counts| - 1]
  }

  lemma {:induction false} SumUpdate(counts: seq<nat>, i: nat, x: nat)
    requires i < |counts|
    ensures Sum(counts[i := x]) == Sum(counts) - counts[i] + x
  {
    var last := |counts| - 1;
    if i == last {
      assert counts[i := x][..last] == counts[..last];
    } else {
      assert counts[i := x][..last] == counts[..last][i := x];
      SumUpdate(counts[..last], i, x);
    }
  }

  lemma {:induction false} SumOfZeros(n: nat)
    ensures Sum(Zeros(n)) == 0
  {
    if n > 0 {
      assert Zeros(n)[..n - 1] == Zeros(n - 1);
      SumOfZeros(n - 1);
    }
  }

  // ----- between attempts: a COMPLETED prefix, the rest PENDING -----

  /** The row of a step whose last handler call succeeded. */
  predicate Settled(d: StepDef, row: StepRow, outcome: HandlerOutcome) {
    outcome.Success? && row == StepRow(Completed, Some(Enrich(d, outcome.body)))
  }

  /** The first `k` steps are COMPLETED with the answer to their last handler call, the others are
      PENDING, and the execution is RUNNING. */
  ghost predicate Progress(c: Config, r: Record, k: nat, calls: seq<nat>, oracle: Oracle) {
    && |r.steps| == |calls| == |c.steps| && k <= |c.steps|
    && r.exec.status.Running?
    && (forall i :: 0 <= i < k ==> calls[i] > 0 && Settled(c.steps[i], r.steps[i], oracle(i, calls[i])))
    && (forall i :: k <= i < |c.steps| ==> r.steps[i] == StepRow(Pending, None))
  }

  /** The entries of the first `k` steps. */
  function Entries(c: Config, rows: seq<StepRow>, k: nat): seq<Entry>
    requires k <= |rows| <= |c.steps|
  {
    if k == 0 then
      []
    else
      var output := if rows[k - 1].output.Some? then rows[k - 1].output.value else AlreadyCompleted;
      Entries(c, rows, k - 1) + [EntryOf(c.steps[k - 1], output)]
  }

  lemma {:induction false} EntriesDependOnPrefix(c: Config, rows: seq<StepRow>, rows': seq<StepRow>, k: nat)
    requires k <= |rows| == |rows'| <= |c.steps| && rows[..k] == rows'[..k]
    ensures Entries(c, rows, k) == Entries(c, rows', k)
  {
    if k > 0 {
      assert rows[..k - 1] == rows[..k][..k - 1] && rows'[..k - 1] == rows'[..k][..k - 1];
      assert rows[k - 1] == rows[..k][k - 1] && rows'[k - 1] == rows'[..k][k - 1];
      EntriesDependOnPrefix(c, rows, rows', k - 1);
    }
  }

  /** The first `k` rows are COMPLETED. */
  ghost predicate CompletedBelow(rows: seq<StepRow>, k: nat) {
    k <= |rows| && forall i :: 0 <= i < k ==> rows[i].status.Completed?
  }

  /** An attempt skips the COMPLETED prefix. */
  lemma {:induction false} SkipsPrefix(c: Config, r: Record, i: nat, k: nat, processedBy: string, calls: seq<nat>,
                                       oracle: Oracle)
    requires |r.steps| == |calls| == |c.steps| && CompletedBelow(r.steps, k) && i <= k
    ensures RunSteps(c, r, r.steps, i, Entries(c, r.steps, i), processedBy, calls, oracle) ==
            RunSteps(c, r, r.steps, k, Entries(c, r.steps, k), processedBy, calls, oracle)
    decreases k - i
  {
    if i < k {
      SkipsPrefix(c, r, i + 1, k, processedBy, calls, oracle);
    }
  }

  /** One more step settled. */
  lemma Settles(c: Config, r: Record, k: nat, calls: seq<nat>, oracle: Oracle, r': Record, calls': seq<nat>)
    requires Progress(c, r, k, calls, oracle) && k < |c.steps|
    requires calls' == calls[k := calls[k] + 1]
    requires oracle(k, calls'[k]).Success?
    requires r' == r.(steps := r.steps[k := StepRow(Completed, Some(Enrich(c.steps[k], oracle(k, calls'[k]).body)))])
    ensures Progress(c, r', k + 1, calls', oracle)
    ensures Entries(c, r'.steps, k + 1) ==
      Entries(c, r.steps, k) + [EntryOf(c.steps[k], Enrich(c.steps[k], oracle(k, calls'[k]).body))]
  {
    assert r'.steps[..k] == r.steps[..k];
    EntriesDependOnPrefix(c, r.steps, r'.steps, k);
  }

  /** An attempt that stopped at step `m`, having called each handler from step `j` on once. */
  ghost predicate StoppedAt(c: Config, r: Record, m: nat, j: nat, calls: seq<nat>, oracle: Oracle, res: AttemptResult) {
    && j <= m < |c.steps|
    && Progress(c, res.record, m, res.calls, oracle)
    && res.record.exec == r.exec
    && Sum(res.calls) == Sum(calls) + (m - j) + 1
  }

  /** How the rest of an attempt can end, from step `j` on. */
  ghost predicate Outcome(c: Config, r: Record, j: nat, calls: seq<nat>, oracle: Oracle, res: AttemptResult) {
    match res.end
    case Stopped(reason) => reason.TechnicalFailure? && exists m: nat :: StoppedAt(c, r, m, j, calls, oracle, res)
    case Ended(row) => row == res.record.exec && row.status.Terminal() && Sum(res.calls) <= Sum(calls) + |c.steps| - j
  }

  lemma {:induction false} RestOfAttempt(c: Config, r: Record, seen: seq<StepRow>, j: nat, processedBy: string,
                                         calls: seq<nat>, oracle: Oracle)
    requires Progress(c, r, j, calls, oracle) && |seen| == |c.steps|
    requires forall i :: j <= i < |seen| ==> seen[i] == StepRow(Pending, None)
    ensures Outcome(c, r, j, calls, oracle, RunSteps(c, r, seen, j, Entries(c, r.steps, j), processedBy, calls, oracle))
    decreases |c.steps| - j
  {
    if j < |c.steps| {
      HandledStep(c, r, seen, j, processedBy, calls, oracle);
      var calls' := calls[j := calls[j] + 1];
      var answer := oracle(j, calls'[j]);
      if answer.Success? {
        var output := Enrich(c.steps[j], answer.body);
        var r' := r.(steps := r.steps[j := StepRow(Completed, Some(output))]);
        Settles(c, r, j, calls, oracle, r', calls');
        RestOfAttempt(c, r', seen, j + 1, processedBy, calls', oracle);
        var res := RunSteps(c, r', seen, j + 1, Entries(c, r'.steps, j + 1), processedBy, calls', oracle);
        if res.end.Stopped? {
          var m: nat :| StoppedAt(c, r', m, j + 1, calls', oracle, res);
          assert StoppedAt(c, r, m, j, calls, oracle, res);
        }
      }
    }
  }

  /** The turn of a PENDING step, according to the handler's answer. */
  lemma HandledStep(c: Config, r: Record, seen: seq<StepRow>, j: nat, processedBy: string, calls: seq<nat>,
                    oracle: Oracle)
    requires Progress(c, r, j, calls, oracle) && j < |seen| == |c.steps| && seen[j] == StepRow(Pending, None)
    ensures
      var calls' := calls[j := calls[j] + 1];
      var res := RunSteps(c, r, seen, j, Entries(c, r.steps, j), processedBy, calls, oracle);
      && Sum(calls') == Sum(calls) + 1
      && match oracle(j, calls'[j])
         case Success(body) =>
           var output := Enrich(c.steps[j], body);
           res == RunSteps(c, r.(steps := r.steps[j := StepRow(Completed, Some(output))]), seen, j + 1,
                    Entries(c, r.steps, j) + [EntryOf(c.steps[j], output)], processedBy, calls', oracle)
         case _ => Outcome(c, r, j, calls, oracle, res)
  {
    var calls' := calls[j := calls[j] + 1];
    SumUpdate(calls, j, calls[j] + 1);
    var claimed := r.(steps := r.steps[j := StepRow(Running, None)]);
    var res := RunSteps(c, r, seen, j, Entries(c, r.steps, j), processedBy, calls, oracle);
    assert res ==
      RunHandled(c, claimed, seen, j, Entries(c, r.steps, j), processedBy, calls', oracle, oracle(j, calls'[j]));
    match oracle(j, calls'[j])
    case Success(body) =>
      var output := Enrich(c.steps[j], body);
      assert UpdateStatus(claimed, j, Completed, Some(output)).steps == r.steps[j := StepRow(Completed, Some(output))];
    case RetryableError =>
      assert res.record.steps == r.steps;
      assert StoppedAt(c, r, j, j, calls, oracle, res);
    case BusinessError =>
  }

  /** The rows with which an attempt enters its loop. */
  function Entered(r: Record, now: int): Record {
    var claimed := ClaimPendingExecution(r, now);
    if claimed.Some? then claimed.value else r
  }

  /** An attempt on a COMPLETED prefix, from its first statement to its end. */
  lemma AttemptOnPrefix(c: Config, r: Record, now: int, k: nat, processedBy: string, calls: seq<nat>, oracle: Oracle)
    requires |r.steps| == |c.steps| > 0 && !r.exec.status.Terminal()
    requires Progress(c, Entered(r, now), k, calls, oracle)
    ensures var res := RunAttempt(c, r, now, processedBy, calls, oracle);
      && Outcome(c, Entered(r, now), k, calls, oracle, res)
      && res == RunSteps(c, Entered(r, now), r.steps, k, Entries(c, r.steps, k), processedBy, calls, oracle)
  {
    var entered := Entered(r, now);
    assert entered.steps == r.steps;
    assert forall i :: 0 <= i < k ==> Settled(c.steps[i], entered.steps[i], oracle(i, calls[i]));
    SkipsPrefix(c, entered, 0, k, processedBy, calls, oracle);
    RestOfAttempt(c, entered, r.steps, k, processedBy, calls, oracle);
  }

  // ----- how often handlers are called, and where a job that gives up leaves the rows -----

  /** All attempts have failed, the last one at step `m`: each cost one call that failed, and each
      step from `k` up to `m` one that succeeded. */
  ghost predicate GaveUpAt(c: Config, k: nat, m: nat, attempts: nat, calls: seq<nat>, oracle: Oracle,
                           res: AttemptResult) {
    && k <= m < |c.steps|
    && Progress(c, res.record, m, res.calls, oracle)
    && Sum(res.calls) == Sum(calls) + (m - k) + attempts
  }

  lemma {:induction false} AttemptsOnPrefix(c: Config, r: Record, k: nat, times: seq<int>, processedBy: string,
                                            calls: seq<nat>, oracle: Oracle)
    requires times != [] && |r.steps| == |c.steps| > 0 && !r.exec.status.Terminal()
    requires Progress(c, Entered(r, times[0]), k, calls, oracle)
    ensures var res := RunAttempts(c, r, times, processedBy, calls, oracle);
      && |res.record.steps| == |c.steps|
      && Sum(res.calls) <= Sum(calls) + (|c.steps| - k) + |times| - 1
      && match res.end
         case Ended(row) => row == res.record.exec && row.status.Terminal()
         case Stopped(reason) =>
           && reason.TechnicalFailure?
           && exists m: nat :: GaveUpAt(c, k, m, |times|, calls, oracle, res)
    decreases |times|
  {
    AttemptOnPrefix(c, r, times[0], k, processedBy, calls, oracle);
    var first := RunAttempt(c, r, times[0], processedBy, calls, oracle);
    if |times| > 1 && first.end.Stopped? {
      var m: nat :| StoppedAt(c, Entered(r, times[0]), m, k, calls, oracle, first);
      AttemptsOnPrefix(c, first.record, m, times[1..], processedBy, first.calls, oracle);
      var res := RunAttempts(c, first.record, times[1..], processedBy, first.calls, oracle);
      if res.end.Stopped? {
        var last: nat :| GaveUpAt(c, m, last, |times| - 1, first.calls, oracle, res);
        assert GaveUpAt(c, k, last, |times|, calls, oracle, res);
      }
    } else if first.end.Stopped? {
      var m: nat :| StoppedAt(c, Entered(r, times[0]), m, k, calls, oracle, first);
      assert GaveUpAt(c, k, m, 1, calls, oracle, first);
    }
  }

  lemma FreshIsProgress(c: Config, now: int, oracle: Oracle)
    ensures Progress(c, Entered(InitRecord(c), now), 0, Zeros(|c.steps|), oracle)
  {
  }

  /** A job of A attempts on an n-step execution calls handlers at most n + A - 1 times. */
  lemma HandlerCallsOfJob(c: Config, times: seq<int>, processedBy: string, oracle: Oracle)
    requires times != [] && |c.steps| > 0
    ensures
      Sum(RunAttempts(c, InitRecord(c), times, processedBy, Zeros(|c.steps|), oracle).calls) <= |c.steps| + |times| - 1
  {
    FreshIsProgress(c, times[0], oracle);
    SumOfZeros(|c.steps|);
    AttemptsOnPrefix(c, InitRecord(c), 0, times, processedBy, Zeros(|c.steps|), oracle);
  }

  /** A job whose attempts all fail leaves the execution RUNNING with the first `m` steps COMPLETED
      and the others PENDING, and has called handlers exactly once per COMPLETED step and once more
      per attempt. */
  lemma JobThatGivesUp(c: Config, times: seq<int>, processedBy: string, oracle: Oracle) returns (m: nat)
    requires times != [] && |c.steps| > 0
    requires RunAttempts(c, InitRecord(c), times, processedBy, Zeros(|c.steps|), oracle).end.Stopped?
    ensures var res := RunAttempts(c, InitRecord(c), times, processedBy, Zeros(|c.steps|), oracle);
      && res.end == Stopped(TechnicalFailure)
      && res.record.exec.status.Running?
      && m < |res.record.steps|
      && forall i :: 0 <= i < |res.record.steps| ==>
           if i < m then res.record.steps[i].status.Completed? else res.record.steps[i].status.Pending?
    ensures Sum(RunAttempts(c, InitRecord(c), times, processedBy, Zeros(|c.steps|), oracle).calls) == m + |times|
  {
    FreshIsProgress(c, times[0], oracle);
    SumOfZeros(|c.steps|);
    AttemptsOnPrefix(c, InitRecord(c), 0, times, processedBy, Zeros(|c.steps|), oracle);
    var res := RunAttempts(c, InitRecord(c), times, processedBy, Zeros(|c.steps|), oracle);
    m :| GaveUpAt(c, 0, m, |times|, Zeros(|c.steps|), oracle, res);
    assert forall i :: 0 <= i < m ==> Settled(c.steps[i], res.record.steps[i], oracle(i, res.calls[i]));
  }

  // ----- retries refine one run -----

  /** A run in which each step's handler is called once and answers what it last answered in the
      job that made `calls` calls. */
  function LastAnswers(calls: seq<nat>, oracle: Oracle): Oracle {
    (i: nat, k: nat) => if i < |calls| then oracle(i, calls[i]) else BusinessError
  }

  /** The first `j` rows of `rows`, the others PENDING. */
  function Partial(rows: seq<StepRow>, j: nat): (partial: seq<StepRow>)
    requires j <= |rows|
    ensures |partial| == |rows|
  {
    rows[..j] + seq(|rows| - j, _ => StepRow(Pending, None))
  }

  /** One uninterrupted run settles the same prefix. */
  lemma {:induction false} OneRunSettlesPrefix(c: Config, r: Record, j: nat, k: nat, processedBy: string,
                                               calls: seq<nat>,
                                               final: seq<nat>, oracle: Oracle, once: seq<nat>)
    returns (later: seq<nat>)
    requires Progress(c, r, k, calls, oracle) && j <= k && |final| == |once| == |c.steps|
    requires forall i :: 0 <= i < k ==> final[i] == calls[i]
    requires forall i :: j <= i < |once| ==> once[i] == 0
    ensures |later| == |c.steps| && forall i :: k <= i < |later| ==> later[i] == 0
    ensures
      var seen := InitRecord(c).steps;
      var one := LastAnswers(final, oracle);
      RunSteps(c, r.(steps := Partial(r.steps, j)), seen, j, Entries(c, r.steps, j), processedBy, once, one) ==
      RunSteps(c, r, seen, k, Entries(c, r.steps, k), processedBy, later, one)
    decreases k - j
  {
    var seen := InitRecord(c).steps;
    var one := LastAnswers(final, oracle);
    if j == k {
      assert Partial(r.steps, k) == r.steps;
      later := once;
    } else {
      assert Settled(c.steps[j], r.steps[j], oracle(j, calls[j]));
      var now := r.(steps := Partial(r.steps, j));
      var next := r.(steps := Partial(r.steps, j + 1));
      var claimed := now.(steps := now.steps[j := StepRow(Running, None)]);
      assert ClaimPendingStep(now, j) == Option.Some(claimed);
      assert one(j, once[j] + 1) == oracle(j, calls[j]);
      assert UpdateStatus(claimed, j, Completed, r.steps[j].output).steps == next.steps;
      later := OneRunSettlesPrefix(c, r, j + 1, k, processedBy, calls, final, oracle, once[j := once[j] + 1]);
    }
  }

  /** From the same rows on, the last attempt of the job and the single run do the same. */
  lemma {:induction false} SameEnding(c: Config, r: Record, seen: seq<StepRow>, seen': seq<StepRow>, j: nat,
                                      outputs: seq<Entry>,
                                      processedBy: string, calls: seq<nat>, once: seq<nat>, oracle: Oracle,
                                      final: seq<nat>)
    requires |r.steps| == |seen| == |seen'| == |calls| == |once| == |final| == |c.steps| && j <= |c.steps|
    requires forall i :: j <= i < |c.steps| ==> r.steps[i] == seen[i] == seen'[i] == StepRow(Pending, None)
    requires RunSteps(c, r, seen, j, outputs, processedBy, calls, oracle).calls == final
    ensures
      var job := RunSteps(c, r, seen, j, outputs, processedBy, calls, oracle);
      var one := RunSteps(c, r, seen', j, outputs, processedBy, once, LastAnswers(final, oracle));
      job.record == one.record && job.end == one.end
    decreases |c.steps| - j
  {
    if j < |c.steps| {
      var calls', once' := calls[j := calls[j] + 1], once[j := once[j] + 1];
      var claimed := r.(steps := r.steps[j := StepRow(Running, None)]);
      var answer := oracle(j, calls'[j]);
      var job := RunHandled(c, claimed, seen, j, outputs, processedBy, calls', oracle, answer);
      assert RunSteps(c, r, seen, j, outputs, processedBy, calls, oracle) == job;
      assert final[j] == calls'[j];
      match answer
      case Success(body) =>
        var output := Enrich(c.steps[j], body);
        SameEnding(c, UpdateStatus(claimed, j, Completed, Some(output)), seen, seen', j + 1,
          outputs + [EntryOf(c.steps[j], output)], processedBy, calls', once', oracle, final);
      case RetryableError =>
      case BusinessError =>
    }
  }

  /** The attempt of a job that ends it leaves the rows of one uninterrupted run. */
  lemma LastAttempt(c: Config, r: Record, now: int, start: int, k: nat, processedBy: string, calls: seq<nat>,
                    oracle: Oracle)
    requires |r.steps| == |c.steps| > 0 && !r.exec.status.Terminal()
    requires Progress(c, Entered(r, now), k, calls, oracle)
    requires Entered(r, now).exec == Entered(InitRecord(c), start).exec
    ensures var res := RunAttempt(c, r, now, processedBy, calls, oracle);
      var one := RunAttempt(c, InitRecord(c), start, processedBy, Zeros(|c.steps|), LastAnswers(res.calls, oracle));
      one.record == res.record && one.end == res.end
  {
    var entered, init := Entered(r, now), InitRecord(c);
    AttemptOnPrefix(c, r, now, k, processedBy, calls, oracle);
    var res := RunAttempt(c, r, now, processedBy, calls, oracle);
    assert entered.steps == r.steps;
    assert entered.(steps := Partial(entered.steps, 0)) == Entered(init, start);
    var later := OneRunSettlesPrefix(c, entered, 0, k, processedBy, calls, res.calls, oracle, Zeros(|c.steps|));
    SameEnding(c, entered, r.steps, init.steps, k, Entries(c, entered.steps, k), processedBy, calls, later, oracle,
      res.calls);
  }

  lemma {:induction false} AttemptsRefine(c: Config, r: Record, start: int, k: nat, times: seq<int>,
                                          processedBy: string,
                                          calls: seq<nat>, oracle: Oracle)
    requires times != [] && |r.steps| == |c.steps| > 0 && !r.exec.status.Terminal()
    requires Progress(c, Entered(r, times[0]), k, calls, oracle)
    requires Entered(r, times[0]).exec == Entered(InitRecord(c), start).exec
    ensures var res := RunAttempts(c, r, times, processedBy, calls, oracle);
      var one := RunAttempt(c, InitRecord(c), start, processedBy, Zeros(|c.steps|), LastAnswers(res.calls, oracle));
      one.record == res.record && one.end == res.end
    decreases |times|
  {
    LastAttempt(c, r, times[0], start, k, processedBy, calls, oracle);
    AttemptOnPrefix(c, r, times[0], k, processedBy, calls, oracle);
    var first := RunAttempt(c, r, times[0], processedBy, calls, oracle);
    if |times| > 1 && first.end.Stopped? {
      var m: nat :| StoppedAt(c, Entered(r, times[0]), m, k, calls, oracle, first);
      AttemptsRefine(c, first.record, start, m, times[1..], processedBy, first.calls, oracle);
    }
  }

  /** Whatever answers the handlers give, a job whose attempts run one after another leaves the
      same step statuses, outputs and execution result, and ends in the same way, as one
      uninterrupted attempt in which each handler gives the last of its answers at once. */
  lemma RetriesRefineOneRun(c: Config, times: seq<int>, processedBy: string, oracle: Oracle)
    requires times != [] && |c.steps| > 0
    ensures
      var job := RunAttempts(c, InitRecord(c), times, processedBy, Zeros(|c.steps|), oracle);
      var one := RunAttempt(c, InitRecord(c), times[0], processedBy, Zeros(|c.steps|), LastAnswers(job.calls, oracle));
      one.record == job.record && one.end == job.end
  {
    FreshIsProgress(c, times[0], oracle);
    AttemptsRefine(c, InitRecord(c), times[0], 0, times, processedBy, Zeros(|c.steps|), oracle);
  }

  // ----- what a run leaves behind, in terms of its answers alone -----

  /** What step `i` persists when its handler's first answer is a success. */
  function OutputOf(c: Config, oracle: Oracle, i: nat): Output
    requires i < |c.steps|
  {
    if oracle(i, 1).Success? then Enrich(c.steps[i], oracle(i, 1).body) else AlreadyCompleted
  }

  /** The first `k` answers are successes, each persisted and listed under its own step. */
  ghost predicate Prefix(c: Config, oracle: Oracle, k: nat, rows: seq<StepRow>, entries: seq<Entry>) {
    && k == |entries| <= |rows| == |c.steps|
    && forall i :: 0 <= i < k ==>
         && oracle(i, 1).Success?
         && rows[i] == StepRow(Completed, Some(OutputOf(c, oracle, i)))
         && entries[i] == EntryOf(c.steps[i], OutputOf(c, oracle, i))
  }

  ghost predicate AllPending(rows: seq<StepRow>, from: nat) {
    forall i :: from <= i < |rows| ==> rows[i] == StepRow(Pending, None)
  }

  /** A run that stops at step `k`, or, if `k` is the number of steps, goes through. */
  ghost predicate EndsAt(c: Config, startedAt: int, processedBy: string, oracle: Oracle, k: nat, entries: seq<Entry>,
                         res: AttemptResult) {
    && Prefix(c, oracle, k, res.record.steps, entries)
    && res.record.exec.startedAt == Some(startedAt)
    && if k == |c.steps| then
         && res.record.exec.status.Completed?
         && res.record.exec.result == Some(ProcessResult(processedBy, k, None, entries))
         && res.end == Ended(res.record.exec)
       else match oracle(k, 1)
         case Success(_) => false
         case BusinessError =>
           && res.record.steps[k] == StepRow(Failed, None) && AllPending(res.record.steps, k + 1)
           && res.record.exec.status.Failed?
           && res.record.exec.result == Some(ProcessResult(processedBy, k, Some(RefOf(c.steps[k])), entries))
           && res.end == Ended(res.record.exec)
         case RetryableError =>
           && AllPending(res.record.steps, k)
           && res.record.exec.status.Running? && res.record.exec.result.None?
           && res.end == Stopped(TechnicalFailure)
  }

  lemma {:induction false} LoopEnds(c: Config, r: Record, seen: seq<StepRow>, j: nat, outputs: seq<Entry>,
                                    startedAt: int,
                                    processedBy: string, calls: seq<nat>, oracle: Oracle)
    returns (k: nat, entries: seq<Entry>)
    requires |seen| == |calls| == |c.steps| && Prefix(c, oracle, j, r.steps, outputs)
    requires AllPending(r.steps, j) && AllPending(seen, j) && forall i :: j <= i < |calls| ==> calls[i] == 0
    requires r.exec == ExecRow(Running, Some(startedAt), None)
    ensures
      EndsAt(c, startedAt, processedBy, oracle, k, entries,
        RunSteps(c, r, seen, j, outputs, processedBy, calls, oracle))
    decreases |c.steps| - j
  {
    k, entries := j, outputs;
    if j < |c.steps| {
      var claimed := r.(steps := r.steps[j := StepRow(Running, None)]);
      var calls' := calls[j := 1];
      assert RunSteps(c, r, seen, j, outputs, processedBy, calls, oracle) ==
        RunHandled(c, claimed, seen, j, outputs, processedBy, calls', oracle, oracle(j, 1));
      match oracle(j, 1)
      case Success(body) =>
        var output := Enrich(c.steps[j], body);
        k, entries := LoopEnds(c, UpdateStatus(claimed, j, Completed, Some(output)), seen, j + 1,
          outputs + [EntryOf(c.steps[j], output)], startedAt, processedBy, calls', oracle);
      case RetryableError =>
        assert UpdateStatus(claimed, j, Pending, None).steps == r.steps;
      case BusinessError =>
    }
  }

  /** A run on a fresh execution: up to the first answer that is not a success, every step is
      COMPLETED with its own answer; that answer decides the end. */
  lemma OneRunEnds(c: Config, now: int, processedBy: string, oracle: Oracle) returns (k: nat, entries: seq<Entry>)
    requires |c.steps| > 0
    ensures
      EndsAt(c, now, processedBy, oracle, k, entries,
        RunAttempt(c, InitRecord(c), now, processedBy, Zeros(|c.steps|), oracle))
  {
    var init := InitRecord(c);
    k, entries := LoopEnds(c, Entered(init, now), init.steps, 0, [], now, processedBy, Zeros(|c.steps|), oracle);
  }

  /** A job of retried attempts ends as the last answers of its handlers say: COMPLETED if and
      only if all of them are successes, FAILED if and only if the first other one is a business
      error. If it gives up at step `k`, it has made one call per step before and one per attempt. */
  lemma JobEnds(c: Config, times: seq<int>, processedBy: string, oracle: Oracle) returns (k: nat, entries: seq<Entry>)
    requires times != [] && |c.steps| > 0
    ensures var job := RunAttempts(c, InitRecord(c), times, processedBy, Zeros(|c.steps|), oracle);
      && |job.calls| == |c.steps|
      && EndsAt(c, times[0], processedBy, LastAnswers(job.calls, oracle), k, entries, job)
      && (job.end.Stopped? ==> Sum(job.calls) == k + |times|)
  {
    RetriesRefineOneRun(c, times, processedBy, oracle);
    var job := RunAttempts(c, InitRecord(c), times, processedBy, Zeros(|c.steps|), oracle);
    k, entries := OneRunEnds(c, times[0], processedBy, LastAnswers(job.calls, oracle));
    if job.end.Stopped? {
      var m := JobThatGivesUp(c, times, processedBy, oracle);
      assert job.record.steps[m].status.Pending? && job.record.steps[k].status.Pending?;
    }
  }

  // ----- attempts that find an execution in any other state -----

  lemma {:induction false} EntriesAre(c: Config, rows: seq<StepRow>, k: nat)
    requires k <= |rows| <= |c.steps|
    ensures |Entries(c, rows, k)| == k
    ensures forall i :: 0 <= i < k ==> Listed(c, rows, i, Entries(c, rows, k)[i])
  {
    if k > 0 {
      EntriesAre(c, rows, k - 1);
    }
  }

  /** The entry of a COMPLETED step: what its row persists, or the placeholder. */
  predicate Listed(c: Config, rows: seq<StepRow>, i: nat, e: Entry)
    requires i < |rows| <= |c.steps|
  {
    && e.executionStepId == c.steps[i].id && e.stepId == c.steps[i].stepId
    && e.stepOrder == c.steps[i].stepOrder && e.action == c.steps[i].action
    && (rows[i].output.Some? ==> e.output == rows[i].output.value)
    && (rows[i].output.None? ==> e.output.AlreadyCompleted?)
  }

  /** An attempt that comes to a FAILED step behind COMPLETED ones finalizes the execution as FAILED
      at that step, without calling a handler or touching a step row. */
  lemma FailedStepEndsAttempt(c: Config, r: Record, now: int, processedBy: string, calls: seq<nat>, oracle: Oracle,
                              k: nat)
    returns (entries: seq<Entry>)
    requires |r.steps| == |calls| == |c.steps| && r.exec.status.Running?
    requires k < |c.steps| && CompletedBelow(r.steps, k) && r.steps[k].status.Failed?
    ensures var res := RunAttempt(c, r, now, processedBy, calls, oracle);
      && res.record.steps == r.steps && res.calls == calls
      && res.record.exec.status.Failed? && res.record.exec.startedAt == r.exec.startedAt
      && res.record.exec.result ==
           Some(ProcessResult(processedBy, k, Some(StepRef(c.steps[k].id, c.steps[k].stepId)), entries))
      && res.end == Ended(res.record.exec)
    ensures |entries| == k && forall i :: 0 <= i < k ==> Listed(c, r.steps, i, entries[i])
  {
    entries := Entries(c, r.steps, k);
    EntriesAre(c, r.steps, k);
    SkipsPrefix(c, r, 0, k, processedBy, calls, oracle);
  }

  /** An attempt that comes to a RUNNING step throws and changes nothing. */
  lemma RunningStepStopsAttempt(c: Config, r: Record, now: int, processedBy: string, calls: seq<nat>, oracle: Oracle,
                                k: nat)
    requires |r.steps| == |calls| == |c.steps| && r.exec.status.Running?
    requires k < |c.steps| && CompletedBelow(r.steps, k) && r.steps[k].status.Running?
    ensures RunAttempt(c, r, now, processedBy, calls, oracle) == AttemptResult(r, calls, Stopped(StepUnclaimable))
  {
    SkipsPrefix(c, r, 0, k, processedBy, calls, oracle);
  }

  /** An attempt that finds every step COMPLETED only finalizes the execution. */
  lemma NothingLeftCompletes(c: Config, r: Record, now: int, processedBy: string, calls: seq<nat>, oracle: Oracle)
    returns (entries: seq<Entry>)
    requires |r.steps| == |calls| == |c.steps| > 0 && r.exec.status.Running? && CompletedBelow(r.steps, |c.steps|)
    ensures var res := RunAttempt(c, r, now, processedBy, calls, oracle);
      && res.record.steps == r.steps && res.calls == calls
      && res.record.exec.status.Completed? && res.record.exec.startedAt == r.exec.startedAt
      && res.record.exec.result == Some(ProcessResult(processedBy, |c.steps|, None, entries))
      && res.end == Ended(res.record.exec)
    ensures |entries| == |c.steps| && forall i :: 0 <= i < |c.steps| ==> Listed(c, r.steps, i, entries[i])
  {
    entries := Entries(c, r.steps, |c.steps|);
    EntriesAre(c, r.steps, |c.steps|);
    SkipsPrefix(c, r, 0, |c.steps|, processedBy, calls, oracle);
  }

  /** An attempt that comes to a PENDING step whose stored output has the id of a comment or of a
      transition completes the step with that output and does not call its handler. */
  lemma ProvenStepIsNotRepeated(c: Config, r: Record, now: int, processedBy: string, calls: seq<nat>, oracle: Oracle,
                                k: nat, output: Output)
    requires |r.steps| == |calls| == |c.steps| && r.exec.status.Running?
    requires k < |c.steps| && CompletedBelow(r.steps, k) && r.steps[k] == StepRow(Pending, Some(output))
    requires output.Persisted?
    requires (output.body.Comment? && output.body.commentId != "") ||
             (output.body.Transition? && output.body.transitionId != "")
    ensures var res := RunAttempt(c, r, now, processedBy, calls, oracle);
      && |res.calls| == |res.record.steps| == |c.steps|
      && res.calls[k] == calls[k] && res.record.steps[k] == StepRow(Completed, Some(output))
  {
    SkipsPrefix(c, r, 0, k, processedBy, calls, oracle);
  }

  /** An execution that has ended, or has no steps, is refused and left as it is. */
  lemma RefusedAttempts(c: Config, r: Record, now: int, processedBy: string, calls: seq<nat>, oracle: Oracle)
    requires |r.steps| == |calls| == |c.steps|
    ensures r.exec.status.Completed? || r.exec.status.Failed? ==>
      RunAttempt(c, r, now, processedBy, calls, oracle) == AttemptResult(r, calls, Stopped(NotProcessable))
    ensures (r.exec.status.Pending? || r.exec.status.Running?) && |c.steps| == 0 ==>
      RunAttempt(c, r, now, processedBy, calls, oracle) == AttemptResult(r, calls, Stopped(NoSteps))
  {
  }
}
