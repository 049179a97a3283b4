/** Recovery of executions that have been RUNNING for too long. */
module Recovery {

  import opened Text
  import opened Workflow
  import opened Statements
  import opened Protocol
  import opened Markers
  import opened CommentLookup
  import opened StepHandlers
  import opened Store
  import opened Validation

  // ----- what a committed recovery transaction does -----

  lemma {:induction false} RefsAre(c: Config, rows: seq<StepRow>, found: map<nat, string>, wanted: bool, ref: StepRef)
    requires |rows| <= |c.steps|
    ensures ref in RunningRefs(c, rows, found, wanted) <==>
      exists i :: 0 <= i < |rows| && rows[i].status.Running? && (i in found) == wanted && RefOf(c.steps[i]) == ref
  {
    if |rows| > 0 {
      var last := |rows| - 1;
      RefsAre(c, rows[..last], found, wanted, ref);
      var front := RunningRefs(c, rows[..last], found, wanted);
      assert ref in front <==>
        exists i :: 0 <= i < last && rows[i].status.Running? && (i in found) == wanted && RefOf(c.steps[i]) == ref by {
        assert forall i :: 0 <= i < last ==> rows[..last][i] == rows[i];
      }
    }
  }

  lemma {:induction false} RefsCount(c: Config, rows: seq<StepRow>, found: map<nat, string>)
    requires |rows| <= |c.steps|
    ensures |RunningRefs(c, rows, found, false)| + |RunningRefs(c, rows, found, true)| == |RunningSteps(rows)|
  {
    if |rows| > 0 {
      RefsCount(c, rows[..|rows| - 1], found);
    }
  }

  /** A step's reference is in the list if and only if the step is RUNNING and looked up so. */
  lemma RefIsListed(c: Config, rows: seq<StepRow>, found: map<nat, string>, wanted: bool, i: nat)
    requires c.Valid() && i < |rows| == |c.steps|
    ensures RefOf(c.steps[i]) in RunningRefs(c, rows, found, wanted) <==>
      rows[i].status.Running? && (i in found) == wanted
  {
    RefsAre(c, rows, found, wanted, RefOf(c.steps[i]));
  }

  /** A committed recovery splits exactly the RUNNING steps: those whose comment was found are
      COMPLETED with the looked-up output and listed as recovered, the others are FAILED and
      listed as failed, each once; every other step is as before, and the execution is FAILED. */
  lemma CommittedRecovery(c: Config, r: Record, scan: ExecRow, now: int, timeout: int, found: map<nat, string>)
    requires c.Valid() && |r.steps| == |c.steps|
    requires RecoverTransaction(c, r, scan, now, timeout, found).Some?
    ensures var r' := RecoverTransaction(c, r, scan, now, timeout, found).value;
      && r'.exec.status.Failed? && r'.exec.startedAt == r.exec.startedAt && |r'.steps| == |r.steps|
      && r'.exec.result.Some? && r'.exec.result.value.RecoveryResult? && r'.exec.result.value.timeout == timeout
      && r'.exec.result.value.previous == scan.result && r'.exec.result.value.previousStatus == scan.status
      && var failed := r'.exec.result.value.failedRunningSteps;
      var recovered := r'.exec.result.value.recoveredRunningSteps;
      && |failed| + |recovered| == |RunningSteps(r.steps)|
      && forall i: nat :: i < |r.steps| ==>
        && (RefOf(c.steps[i]) in recovered <==> r.steps[i].status.Running? && i in found)
        && (RefOf(c.steps[i]) in failed <==> r.steps[i].status.Running? && i !in found)
        && (RefOf(c.steps[i]) in recovered ==>
              r'.steps[i] == StepRow(Completed, Some(RecoveredOutput(c.steps[i], found[i]))))
        && (RefOf(c.steps[i]) in failed ==> r'.steps[i] == StepRow(Failed, r.steps[i].output))
        && (!r.steps[i].status.Running? ==> r'.steps[i] == r.steps[i])
  {
    RefsCount(c, r.steps, found);
    forall i: nat | i < |r.steps|
      ensures RefOf(c.steps[i]) in RunningRefs(c, r.steps, found, true) <==> r.steps[i].status.Running? && i in found
      ensures RefOf(c.steps[i]) in RunningRefs(c, r.steps, found, false) <==> r.steps[i].status.Running? && i !in found
    {
      RefIsListed(c, r.steps, found, true, i);
      RefIsListed(c, r.steps, found, false, i);
    }
  }

  /** The transaction commits exactly if the execution is still RUNNING and was started at least
      `timeout` minutes ago by the database clock, which counts microseconds. */
  lemma CommitsExactly(c: Config, r: Record, scan: ExecRow, now: int, timeout: int, found: map<nat, string>)
    requires |r.steps| == |c.steps|
    ensures RecoverTransaction(c, r, scan, now, timeout, found).Some? <==>
      r.exec.status.Running? && r.exec.startedAt.Some? && now - r.exec.startedAt.value >= timeout * 60_000_000
  {
  }

  lemma {:induction false} RefsIgnoreOthers(c: Config, rows: seq<StepRow>, found: map<nat, string>, found': map<nat,
                                            string>, wanted: bool)
    requires |rows| <= |c.steps|
    requires forall i :: 0 <= i < |rows| && rows[i].status.Running? ==> (i in found <==> i in found')
    ensures RunningRefs(c, rows, found, wanted) == RunningRefs(c, rows, found', wanted)
  {
    if |rows| > 0 {
      RefsIgnoreOthers(c, rows[..|rows| - 1], found, found', wanted);
    }
  }

  /** Answers about steps that are no longer RUNNING inside the transaction make no difference. */
  lemma StaleAnswersAreIgnored(c: Config, r: Record, scan: ExecRow, now: int, timeout: int, found: map<nat, string>,
                               found': map<nat, string>)
    requires |r.steps| == |c.steps|
    requires forall i :: 0 <= i < |r.steps| && r.steps[i].status.Running? ==>
      (i in found <==> i in found') && (i in found ==> found[i] == found'[i])
    ensures RecoverTransaction(c, r, scan, now, timeout, found) == RecoverTransaction(c, r, scan, now, timeout, found')
  {
    RefsIgnoreOthers(c, r.steps, found, found', true);
    RefsIgnoreOthers(c, r.steps, found, found', false);
    assert RecoveredRows(c, r.steps, found) == RecoveredRows(c, r.steps, found');
  }

  // ----- the transaction itself -----

  /** The rows after the RUNNING steps have been failed and the steps in `done` corrected. */
  function Corrected(c: Config, rows: seq<StepRow>, found: map<nat, string>, done: seq<nat>): (corrected: seq<StepRow>)
    requires |rows| == |c.steps|
    ensures |corrected| == |rows|
  {
    seq(|rows|, i requires 0 <= i < |rows| =>
      if !rows[i].status.Running? then rows[i]
      else if i in done && i in found then StepRow(Completed, Some(RecoveredOutput(c.steps[i], found[i])))
      else rows[i].(status := Failed))
  }

  lemma CorrectedAll(c: Config, rows: seq<StepRow>, found: map<nat, string>)
    requires |rows| == |c.steps|
    ensures Corrected(c, rows, found, []) == FailRunningSteps(rows)
    ensures Corrected(c, rows, found, RunningSteps(rows)) == RecoveredRows(c, rows, found)
  {
    RunningStepsAre(rows);
  }

  /** Correcting one more step. */
  lemma CorrectOne(c: Config, rows: seq<StepRow>, found: map<nat, string>, done: seq<nat>, i: nat)
    requires |rows| == |c.steps| && i < |rows| && rows[i].status.Running?
    ensures i !in found ==> Corrected(c, rows, found, done + [i]) == Corrected(c, rows, found, done)
    ensures i in found ==>
      Corrected(c, rows, found, done + [i]) ==
      Corrected(c, rows, found, done)[i := StepRow(Completed, Some(RecoveredOutput(c.steps[i], found[i])))]
  {
  }

  /** The references of some RUNNING steps, split like `RunningRefs`. */
  function SplitRefs(c: Config, positions: seq<nat>, found: map<nat, string>, wanted: bool): seq<StepRef>
    requires forall k :: 0 <= k < |positions| ==> positions[k] < |c.steps|
  {
    if |positions| == 0 then
      []
    else
      var last := |positions| - 1;
      SplitRefs(c, positions[..last], found, wanted) +
      if (positions[last] in found) == wanted then [RefOf(c.steps[positions[last]])] else []
  }

  lemma {:induction false} SplitRefsOfRunning(c: Config, rows: seq<StepRow>, found: map<nat, string>, wanted: bool)
    requires |rows| <= |c.steps|
    ensures SplitRefs(c, RunningSteps(rows), found, wanted) == RunningRefs(c, rows, found, wanted)
  {
    if |rows| > 0 {
      var last := |rows| - 1;
      SplitRefsOfRunning(c, rows[..last], found, wanted);
      if rows[last].status.Running? {
        assert RunningSteps(rows) == RunningSteps(rows[..last]) + [last];
        assert RunningSteps(rows)[..|RunningSteps(rows)| - 1] == RunningSteps(rows[..last]);
      } else {
        assert RunningSteps(rows) == RunningSteps(rows[..last]);
      }
    }
  }

  /** The rows and lists when the first `k` failed steps have been looked at. */
  ghost predicate HalfDone(c: Config, rows: seq<StepRow>, found: map<nat, string>, k: nat,
                           now: seq<StepRow>, remaining: seq<StepRef>, recovered: seq<StepRef>)
    requires |rows| == |c.steps| && k <= |RunningSteps(rows)|
  {
    && now == Corrected(c, rows, found, RunningSteps(rows)[..k])
    && remaining == SplitRefs(c, RunningSteps(rows)[..k], found, false)
    && recovered == SplitRefs(c, RunningSteps(rows)[..k], found, true)
  }

  lemma OneMore(c: Config, rows: seq<StepRow>, found: map<nat, string>, k: nat,
                now: seq<StepRow>, remaining: seq<StepRef>, recovered: seq<StepRef>)
    requires |rows| == |c.steps| && k < |RunningSteps(rows)|
    requires HalfDone(c, rows, found, k, now, remaining, recovered)
    ensures var i := RunningSteps(rows)[k];
      && i < |rows|
      && if i in found then
           HalfDone(c, rows, found, k + 1, now[i := StepRow(Completed, Some(RecoveredOutput(c.steps[i], found[i])))],
                    remaining, recovered + [RefOf(c.steps[i])])
         else
           HalfDone(c, rows, found, k + 1, now, remaining + [RefOf(c.steps[i])], recovered)
  {
    var running := RunningSteps(rows);
    assert running[..k + 1] == running[..k] + [running[k]];
    assert running[..k + 1][..k] == running[..k];
    CorrectOne(c, rows, found, running[..k], running[k]);
  }

  /** Correct the just-failed steps whose comment was found, and list both kinds. */
  method CorrectFailedSteps(db: Database, e: string, ghost rows: seq<StepRow>, failedSteps: seq<nat>, found: map<nat,
                            string>)
    returns (remainingFailedSteps: seq<StepRef>, recoveredSteps: seq<StepRef>)
    requires db.Valid() && e in db.records && |rows| == |db.configs[e].steps|
    requires failedSteps == RunningSteps(rows) && db.records[e].steps == FailRunningSteps(rows)
    modifies db`records
    ensures db.Valid()
    ensures db.records == old(db.records)[e := old(db.records)[e].(steps := RecoveredRows(db.configs[e], rows, found))]
    ensures remainingFailedSteps == RunningRefs(db.configs[e], rows, found, false)
    ensures recoveredSteps == RunningRefs(db.configs[e], rows, found, true)
  {
    var c := db.configs[e];
    ghost var before := db.records;
    recoveredSteps, remainingFailedSteps := [], [];
    CorrectedAll(c, rows, found);
    assert failedSteps[..0] == [];
    for k := 0 to |failedSteps|
      invariant db.Valid() && e in db.records && db.records == before[e := before[e].(steps := db.records[e].steps)]
      invariant HalfDone(c, rows, found, k, db.records[e].steps, remainingFailedSteps, recoveredSteps)
    {
      var i := failedSteps[k];
      OneMore(c, rows, found, k, db.records[e].steps, remainingFailedSteps, recoveredSteps);
      if i in found {
        db.UpdateStatus(e, i, Completed, Some(RecoveredOutput(c.steps[i], found[i])));
        recoveredSteps := recoveredSteps + [RefOf(c.steps[i])];
      } else {
        remainingFailedSteps := remainingFailedSteps + [RefOf(c.steps[i])];
      }
    }
    assert failedSteps[..|failedSteps|] == failedSteps;
    SplitRefsOfRunning(c, rows, found, false);
    SplitRefsOfRunning(c, rows, found, true);
  }

  /** What a recovery run reports about one execution. */
  datatype RecoveredExecution = RecoveredExecution(
    id: string,
    failedRunningStepsCount: nat,
    recoveredRunningStepsCount: nat)

  /** The report counts the steps that the stored result of the execution lists. */
  ghost predicate Reports(report: RecoveredExecution, e: string, r: Record) {
    && report.id == e
    && r.exec.result.Some? && r.exec.result.value.RecoveryResult?
    && report.failedRunningStepsCount == |r.exec.result.value.failedRunningSteps|
    && report.recoveredRunningStepsCount == |r.exec.result.value.recoveredRunningSteps|
  }

  /** What runs inside the transaction; if it finds nothing to finalize, its writes are void. */
  method FailAndCorrect(db: Database, e: string, scan: ExecRow, timeout: int, found: map<nat, string>)
    returns (recovered: Option<RecoveredExecution>)
    requires db.Valid() && e in db.records
    modifies db`records
    ensures db.Valid()
    ensures match RecoverTransaction(db.configs[e], old(db.records)[e], scan, db.now, timeout, found)
            case Some(r) => db.records == old(db.records)[e := r] && recovered.Some? && Reports(recovered.value, e, r)
            case None => recovered.None?
  {
    hide Database.Valid, RecoveredRows, RunningRefs, FailRunningSteps, Stale;
    ghost var r := db.records[e];
    var failedSteps := db.FailRunningByExecutionId(e);
    var remainingFailedSteps, recoveredSteps := CorrectFailedSteps(db, e, r.steps, failedSteps, found);
    var result := RecoveryResult(scan.result, scan.status, timeout, remainingFailedSteps, recoveredSteps);
    ghost var corrected := r.(steps := RecoveredRows(db.configs[e], r.steps, found));
    assert db.records == old(db.records)[e := corrected];
    assert Statements.FailStaleRunning(corrected, db.now, timeout, result) ==
      RecoverTransaction(db.configs[e], r, scan, db.now, timeout, found);
    var matched := db.FailStaleRunning(e, timeout, result);
    recovered := if matched then Some(RecoveredExecution(e, |remainingFailedSteps|, |recoveredSteps|)) else None;
  }

  /** The recovery transaction of one scanned execution: either everything it writes is kept, or,
      when the guarded write of the execution matches nothing, the database is as it was. */
  method RecoverExecution(db: Database, e: string, scan: ExecRow, timeout: int, found: map<nat, string>)
    returns (recovered: Option<RecoveredExecution>)
    requires db.Valid() && db.saved.None? && e in db.records
    modifies db
    ensures db.Valid() && db.saved.None? && db.now == old(db.now) && db.configs == old(db.configs)
    ensures match RecoverTransaction(db.configs[e], old(db.records)[e], scan, db.now, timeout, found)
            case Some(r) => db.records == old(db.records)[e := r] && recovered.Some? && Reports(recovered.value, e, r)
            case None => db.records == old(db.records) && recovered.None?
  {
    hide RecoverTransaction;
    db.Begin();
    recovered := FailAndCorrect(db, e, scan, timeout, found);
    if recovered.Some? {
      db.Commit();
    } else {
      db.Rollback();
    }
  }

  // ----- the remote lookup -----

  /** Jira, as asked for the comments of one issue about one step of one execution. */
  type Servers = (string, nat) -> Server

  ghost function Answer(d: StepDef, ready: bool, server: Server): Option<string> {
    if !ready || Trim(d.issueKey) == "" || d.id == "" then None
    else
      var found := Search(server, BuildExecutionStepMarker(d.id), 0, 0);
      if found.Some? then Some(found.value.id) else None
  }

  /** What a step writes, its lookup finds: as long as the comment that the step posted is among
      the newest 150 of an unchanging list, the lookup succeeds, with that comment if no other one
      carries the marker. */
  lemma OwnCommentIsFound(d: StepDef, executionId: string, list: seq<JiraComment>, p: nat, server: Server)
    requires CallsJira(d) && d.action.JiraComment? && Trim(d.issueKey) != "" && d.id != ""
    requires forall page: nat, startAt: nat :: server(page, startAt) == HonestPage(list, startAt)
    requires p < |list| && p < 150 && list[p].body == RequestOf(d, executionId).body
    ensures RequestOf(d, executionId).issue == Trim(d.issueKey)
    ensures Answer(d, true, server).Some?
    ensures (forall q :: 0 <= q < |list| && q < 150 && Carries(list[q], BuildExecutionStepMarker(d.id)) ==> q == p) ==>
      Answer(d, true, server) == Some(list[p].id)
  {
    var marker := BuildExecutionStepMarker(d.id);
    var newest := list[..Min(150, |list|)];
    PagedSearchIsLinearScan(server, list, marker);
    FlattenUndoesBuild(BuildGovFlowJiraComment(d.comment, executionId, d.id));
    MarkerOccurs(d.comment, executionId, d.id);
    FirstMatchFinds(newest, marker, p);
    FirstMatchCarries(newest, marker);
    assert forall comment :: comment in newest ==> exists q :: 0 <= q < |list| && q < 150 && list[q] == comment;
  }

  /** The output that recovery reconstructs is the one that the handler would have returned for
      the same comment, but for the flag, and it proves the operation to the deduplication guard. */
  lemma RecoveredOutputIsTheHandlers(d: StepDef, settings: JiraSettings, commentId: string)
    requires Sends(d, settings) && d.action.JiraComment? && commentId != ""
    ensures var outcome := OutcomeOf(d, settings, Reaction(InTime, Accepted(commentId)));
      && outcome.Success? && outcome.body.Comment? && !outcome.body.viaRemoteLookup
      && RecoveredOutput(d, commentId) == Enrich(d, outcome.body.(viaRemoteLookup := true))
      && ExternalOperationDedupReason(Some(RecoveredOutput(d, commentId))) == Some(CommentAlreadyCreated)
  {
  }

  predicate IsTarget(d: StepDef, row: StepRow) {
    row.status.Running? && d.action.JiraComment? && d.issueKey != ""
  }

  lemma {:induction false} TargetsAre(c: Config, rows: seq<StepRow>)
    requires |rows| <= |c.steps|
    ensures forall i: nat :: i in LookupTargets(c, rows) <==> i < |rows| && IsTarget(c.steps[i], rows[i])
  {
    if |rows| > 0 {
      TargetsAre(c, rows[..|rows| - 1]);
    }
  }

  /** The steps whose comment Jira shows, each with the comment's id. */
  ghost function Answers(c: Config, rows: seq<StepRow>, e: string, ready: bool, jira: Servers): map<nat, string>
    requires |rows| == |c.steps|
  {
    map i: nat | i < |rows| && IsTarget(c.steps[i], rows[i]) && Answer(c.steps[i], ready, jira(e, i)).Some? ::
      Answer(c.steps[i], ready, jira(e, i)).value
  }

  /** Jira is asked about exactly the RUNNING comment steps with an issue, and what it shows there is
      the first comment that the search for the step's marker finds. */
  lemma AnswersAreExact(c: Config, rows: seq<StepRow>, e: string, ready: bool, jira: Servers)
    requires |rows| == |c.steps|
    ensures var found := Answers(c, rows, e, ready, jira);
      forall i: nat ::
        && (i in found <==>
              && i < |rows| && rows[i].status.Running? && c.steps[i].action.JiraComment? && c.steps[i].issueKey != ""
              && ready && Trim(c.steps[i].issueKey) != "" && c.steps[i].id != ""
              && Search(jira(e, i), BuildExecutionStepMarker(c.steps[i].id), 0, 0).Some?)
        && (i in found ==> found[i] == Search(jira(e, i), BuildExecutionStepMarker(c.steps[i].id), 0, 0).value.id)
  {
    hide Search;
  }

  /** `found` holds the answers about the steps in `todo`. */
  ghost predicate Answered(c: Config, e: string, todo: seq<nat>, ready: bool, jira: Servers, found: map<nat, string>)
    requires forall i :: i in todo ==> i < |c.steps|
  {
    forall i: nat ::
      && (i in found <==> i in todo && Answer(c.steps[i], ready, jira(e, i)).Some?)
      && (i in todo && i in found ==> Answer(c.steps[i], ready, jira(e, i)) == Some(found[i]))
  }

  lemma NothingAnswered(c: Config, e: string, ready: bool, jira: Servers)
    ensures Answered(c, e, [], ready, jira, map[])
  {
  }

  lemma AnsweredOneMore(c: Config, e: string, todo: seq<nat>, ready: bool, jira: Servers, found: map<nat, string>,
                        i: nat, found': map<nat, string>)
    requires (forall j :: j in todo ==> j < |c.steps|) && i < |c.steps|
    requires Answered(c, e, todo, ready, jira, found)
    requires var answer := Answer(c.steps[i], ready, jira(e, i));
      found' == if answer.Some? then found[i := answer.value] else found
    ensures Answered(c, e, todo + [i], ready, jira, found')
  {
    hide Answer;
  }

  lemma AnsweredAll(c: Config, rows: seq<StepRow>, e: string, ready: bool, jira: Servers, found: map<nat, string>)
    requires |rows| == |c.steps|
    requires Answered(c, e, LookupTargets(c, rows), ready, jira, found)
    ensures found == Answers(c, rows, e, ready, jira)
  {
    hide Answer;
    TargetsAre(c, rows);
  }

  /** Ask Jira about every RUNNING comment step. */
  method FindRemoteRecoveredStepOutputsById(db: Database, e: string, ready: bool, jira: Servers)
    returns (found: map<nat, string>)
    requires db.Valid() && e in db.records
    ensures found == Answers(db.configs[e], db.records[e].steps, e, ready, jira)
    ensures var steps, rows := db.configs[e].steps, db.records[e].steps;
      forall i: nat ::
        && (i in found <==>
              && i < |rows| && rows[i].status.Running? && steps[i].action.JiraComment? && steps[i].issueKey != ""
              && ready && Trim(steps[i].issueKey) != "" && steps[i].id != ""
              && Search(jira(e, i), BuildExecutionStepMarker(steps[i].id), 0, 0).Some?)
        && (i in found ==> found[i] == Search(jira(e, i), BuildExecutionStepMarker(steps[i].id), 0, 0).value.id)
  {
    hide Search, Answers, Answered, LookupTargets;
    var c := db.configs[e];
    var runningJiraCommentSteps := LookupTargets(c, db.records[e].steps);
    found := map[];
    NothingAnswered(c, e, ready, jira);
    assert runningJiraCommentSteps[..0] == [];
    for k := 0 to |runningJiraCommentSteps|
      invariant forall i :: i in runningJiraCommentSteps[..k] ==> i < |c.steps|
      invariant Answered(c, e, runningJiraCommentSteps[..k], ready, jira, found)
    {
      var i := runningJiraCommentSteps[k];
      assert i in runningJiraCommentSteps;
      assert runningJiraCommentSteps[..k + 1] == runningJiraCommentSteps[..k] + [i];
      var d := c.steps[i];
      var comment, requests, starts, at := FindCommentByExecutionStepMarker(ready, Trim(d.issueKey), d.id, jira(e, i));
      ghost var before := found;
      if comment.Some? {
        found := found[i := comment.value.commentId];
      }
      AnsweredOneMore(c, e, runningJiraCommentSteps[..k], ready, jira, before, i, found);
    }
    assert runningJiraCommentSteps[..|runningJiraCommentSteps|] == runningJiraCommentSteps;
    AnsweredAll(c, db.records[e].steps, e, ready, jira, found);
    AnswersAreExact(c, db.records[e].steps, e, ready, jira);
  }

  // ----- the recovery run -----

  const MAX_RECOVERY_LIMIT: nat := 100

  /** A positive number is taken as it is; anything else stands for the configured timeout. */
  function ResolveTimeoutMinutes(timeoutMinutes: Given, configured: int): (timeout: int)
    requires configured > 0
    ensures timeout ==
      if (timeoutMinutes.Integer? || timeoutMinutes.NumericText?) && timeoutMinutes.n > 0 then timeoutMinutes.n
      else configured
  {
    match timeoutMinutes.PositiveInteger()
    case Some(n) => n
    case None => configured
  }

  /** Always within 1..100: a positive limit is kept up to 100, anything else stands for 100. */
  function ResolveLimit(limit: Given): (resolved: nat)
    ensures 1 <= resolved <= 100
    ensures (limit.Integer? || limit.NumericText?) && 1 <= limit.n <= 100 ==> resolved == limit.n
    ensures limit.Absent? || limit.Malformed? || limit.n <= 0 || limit.n > 100 ==> resolved == 100
  {
    match limit.PositiveInteger()
    case Some(n) => Min(n, MAX_RECOVERY_LIMIT)
    case None => MAX_RECOVERY_LIMIT
  }

  datatype RecoveryReport =
    | ValidationFailed
    | RecoveryReport(timeoutMinutes: int, scannedCount: nat, recoveredExecutions: seq<RecoveredExecution>)

  /** The rows of execution `e` after a recovery that nobody races. */
  ghost predicate RecoveredAs(c: Config, r: Record, e: string, now: int, timeout: int, ready: bool, jira: Servers,
                              r': Record)
    requires |r.steps| == |c.steps|
  {
    RecoverTransaction(c, r, r.exec, now, timeout, Answers(c, r.steps, e, ready, jira)) == Option.Some(r')
  }

  /** What a recovery leaves in the rows: a RUNNING comment step whose comment Jira shows is COMPLETED
      with the output that its handler would have stored, every other RUNNING step is FAILED, and all
      other rows are as they were. */
  lemma RecoveredStepRows(c: Config, r: Record, e: string, now: int, timeout: int, ready: bool, jira: Servers,
                          r': Record)
    requires |r.steps| == |c.steps| && RecoveredAs(c, r, e, now, timeout, ready, jira, r')
    ensures |r'.steps| == |r.steps|
    ensures forall i: nat :: i < |r.steps| ==>
      var d := c.steps[i];
      var comment := Search(jira(e, i), BuildExecutionStepMarker(d.id), 0, 0);
      r'.steps[i] ==
        if !r.steps[i].status.Running? then r.steps[i]
        else if d.action.JiraComment? && ready && Trim(d.issueKey) != "" && d.id != "" && comment.Some? then
          StepRow(Completed, Some(Persisted(Comment(Trim(d.issueKey), comment.value.id, true),
                                            "workflowExecutionStep:" + d.id)))
        else StepRow(Failed, r.steps[i].output)
  {
    hide Search, Answers, RunningRefs;
    AnswersAreExact(c, r.steps, e, ready, jira);
    assert r'.steps == RecoveredRows(c, r.steps, Answers(c, r.steps, e, ready, jira));
  }

  /** And how it reports them: each RUNNING step is in one of the two lists, by whether Jira shows its
      comment. */
  lemma RecoveredStepRefs(c: Config, r: Record, e: string, now: int, timeout: int, ready: bool, jira: Servers,
                          r': Record, i: nat)
    requires c.Valid() && |r.steps| == |c.steps| && i < |r.steps|
    requires RecoveredAs(c, r, e, now, timeout, ready, jira, r')
    ensures r'.exec.result.Some? && r'.exec.result.value.RecoveryResult?
    ensures
      var d := c.steps[i];
      var shown := && d.action.JiraComment? && ready && Trim(d.issueKey) != "" && d.id != ""
                   && Search(jira(e, i), BuildExecutionStepMarker(d.id), 0, 0).Some?;
      && (StepRef(d.id, d.stepId) in r'.exec.result.value.recoveredRunningSteps <==>
            r.steps[i].status.Running? && shown)
      && (StepRef(d.id, d.stepId) in r'.exec.result.value.failedRunningSteps <==>
            r.steps[i].status.Running? && !shown)
  {
    hide Search, Answers, RecoverTransaction;
    AnswersAreExact(c, r.steps, e, ready, jira);
    CommittedRecovery(c, r, r.exec, now, timeout, Answers(c, r.steps, e, ready, jira));
  }

  /** A step's own comment saves it: if Jira is ready and the comment that a RUNNING comment step
      posted is the only one with its marker among the newest 150 of an unchanging list, the step
      ends COMPLETED with that comment's id. */
  lemma OwnCommentCompletes(c: Config, r: Record, e: string, now: int, timeout: int, jira: Servers, r': Record, i: nat,
                            list: seq<JiraComment>, p: nat)
    requires c.Valid() && |r.steps| == |c.steps| && i < |r.steps|
    requires RecoveredAs(c, r, e, now, timeout, true, jira, r')
    requires r.steps[i].status.Running? && CallsJira(c.steps[i]) && c.steps[i].action.JiraComment?
    requires Trim(c.steps[i].issueKey) != "" && c.steps[i].id != ""
    requires forall page: nat, startAt: nat :: jira(e, i)(page, startAt) == HonestPage(list, startAt)
    requires p < |list| && p < 150 && list[p].body == RequestOf(c.steps[i], c.executionId).body
    requires forall q :: 0 <= q < |list| && q < 150 && Carries(list[q], BuildExecutionStepMarker(c.steps[i].id)) ==>
      q == p
    ensures |r'.steps| == |r.steps|
    ensures r'.steps[i] ==
      StepRow(Completed, Some(Persisted(Comment(Trim(c.steps[i].issueKey), list[p].id, true),
                                        "workflowExecutionStep:" + c.steps[i].id)))
    ensures r'.exec.result.Some? && r'.exec.result.value.RecoveryResult?
    ensures StepRef(c.steps[i].id, c.steps[i].stepId) in r'.exec.result.value.recoveredRunningSteps
    ensures StepRef(c.steps[i].id, c.steps[i].stepId) !in r'.exec.result.value.failedRunningSteps
  {
    hide Search, RecoveredAs, Carries, HonestPage;
    OwnCommentIsFound(c.steps[i], c.executionId, list, p, jira(e, i));
    RecoveredStepRows(c, r, e, now, timeout, true, jira, r');
    RecoveredStepRefs(c, r, e, now, timeout, true, jira, r', i);
  }

  /** Exactly the executions in `ids` have been recovered. */
  ghost predicate RecoveredExactly(configs: map<string, Config>, before: map<string, Record>, after: map<string,
                                   Record>,
                                   ids: seq<string>, now: int, timeout: int, ready: bool, jira: Servers)
    requires configs.Keys == before.Keys && forall e :: e in before ==> |before[e].steps| == |configs[e].steps|
  {
    && after.Keys == before.Keys
    && forall e :: e in before ==>
         if e in ids then RecoveredAs(configs[e], before[e], e, now, timeout, ready, jira, after[e])
         else after[e] == before[e]
  }

  lemma RecoveredOneMore(configs: map<string, Config>, before: map<string, Record>, current: map<string, Record>,
                         ids: seq<string>,
                         e: string, r: Record, now: int, timeout: int, ready: bool, jira: Servers)
    requires configs.Keys == before.Keys && forall x :: x in before ==> |before[x].steps| == |configs[x].steps|
    requires RecoveredExactly(configs, before, current, ids, now, timeout, ready, jira)
    requires e in before && e !in ids && RecoveredAs(configs[e], before[e], e, now, timeout, ready, jira, r)
    ensures RecoveredExactly(configs, before, current[e := r], ids + [e], now, timeout, ready, jira)
  {
    hide RecoveredAs;
  }

  /** Nobody else can win the race for a scanned execution if there is nobody else. */
  lemma UnracedIsRecovered(c: Config, r: Record, e: string, now: int, timeout: int, ready: bool, jira: Servers)
    requires |r.steps| == |c.steps| && Stale(r.exec, now, timeout)
    ensures var found := Answers(c, r.steps, e, ready, jira);
      && RecoverTransaction(c, r, r.exec, now, timeout, found).Some?
      && RecoveredAs(c, r, e, now, timeout, ready, jira, RecoverTransaction(c, r, r.exec, now, timeout, found).value)
  {
  }

  function Ids(recovered: seq<RecoveredExecution>): seq<string> {
    seq(|recovered|, k requires 0 <= k < |recovered| => recovered[k].id)
  }

  /** Look up and recover one scanned execution that nobody has written since the scan. */
  method RecoverScanned(db: Database, e: string, scan: ExecRow, timeout: int, ready: bool, jira: Servers)
    returns (recovered: Option<RecoveredExecution>)
    requires db.Valid() && db.saved.None? && e in db.records
    requires scan == db.records[e].exec && Stale(scan, db.now, timeout)
    modifies db
    ensures db.Valid() && db.saved.None? && db.now == old(db.now) && db.configs == old(db.configs)
    ensures e in db.records && db.records == old(db.records)[e := db.records[e]]
    ensures recovered.Some? && recovered.value.id == e && Reports(recovered.value, e, db.records[e])
    ensures RecoveredAs(db.configs[e], old(db.records)[e], e, db.now, timeout, ready, jira, db.records[e])
    ensures
      var steps, rows, rows' := db.configs[e].steps, old(db.records)[e].steps, db.records[e].steps;
      |rows'| == |rows| && forall i: nat :: i < |rows| ==>
        var d := steps[i];
        var comment := Search(jira(e, i), BuildExecutionStepMarker(d.id), 0, 0);
        rows'[i] ==
          if !rows[i].status.Running? then rows[i]
          else if d.action.JiraComment? && ready && Trim(d.issueKey) != "" && d.id != "" && comment.Some? then
            StepRow(Completed, Some(Persisted(Comment(Trim(d.issueKey), comment.value.id, true),
                                              "workflowExecutionStep:" + d.id)))
          else StepRow(Failed, rows[i].output)
  {
    hide Search, Answers, RecoverTransaction, RecoveredAs;
    UnracedIsRecovered(db.configs[e], db.records[e], e, db.now, timeout, ready, jira);
    var found := FindRemoteRecoveredStepOutputsById(db, e, ready, jira);
    recovered := RecoverExecution(db, e, scan, timeout, found);
    RecoveredStepRows(db.configs[e], old(db.records)[e], e, db.now, timeout, ready, jira, db.records[e]);
  }

  /** The loop over the scanned executions. */
  method RecoverEach(db: Database, staleExecutions: seq<string>, timeout: int, ready: bool, jira: Servers)
    returns (recoveredExecutions: seq<RecoveredExecution>)
    requires db.Valid() && db.saved.None? && Distinct(staleExecutions)
    requires forall e :: e in staleExecutions ==> e in db.records && Stale(db.records[e].exec, db.now, timeout)
    modifies db
    ensures db.Valid() && db.saved.None? && db.now == old(db.now) && db.configs == old(db.configs)
    ensures Ids(recoveredExecutions) == staleExecutions
    ensures RecoveredExactly(db.configs, old(db.records), db.records, staleExecutions, db.now, timeout, ready, jira)
    ensures forall k :: 0 <= k < |recoveredExecutions| ==>
      Reports(recoveredExecutions[k], staleExecutions[k], db.records[staleExecutions[k]])
  {
    hide Reports, RecoveredAs, RecoverTransaction, Answers, Stale;
    var scanned := db.records;
    recoveredExecutions := [];
    assert staleExecutions[..0] == [];
    for k := 0 to |staleExecutions|
      invariant db.Valid() && db.saved.None? && db.now == old(db.now) && db.configs == old(db.configs)
      invariant Ids(recoveredExecutions) == staleExecutions[..k]
      invariant RecoveredExactly(db.configs, scanned, db.records, staleExecutions[..k], db.now, timeout, ready, jira)
      invariant |recoveredExecutions| == k && forall j :: 0 <= j < k ==>
        Reports(recoveredExecutions[j], staleExecutions[j], db.records[staleExecutions[j]])
    {
      var e := staleExecutions[k];
      assert staleExecutions[..k + 1] == staleExecutions[..k] + [e];
      assert e in staleExecutions && e !in staleExecutions[..k];
      ghost var current := db.records;
      var recovered := RecoverScanned(db, e, scanned[e].exec, timeout, ready, jira);
      if recovered.None? {
        continue;
      }
      RecoveredOneMore(db.configs, scanned, current, staleExecutions[..k], e, db.records[e],
        db.now, timeout, ready, jira);
      assert Ids(recoveredExecutions + [recovered.value]) == Ids(recoveredExecutions) + [e];
      recoveredExecutions := recoveredExecutions + [recovered.value];
    }
    assert staleExecutions[..|staleExecutions|] == staleExecutions;
  }

  /** One recovery run without another writer: exactly the `limit` oldest stale executions are
      recovered, oldest first, and no other execution changes. */
  method RecoverStaleRunningExecutions(db: Database, timeoutMinutes: Given, limit: Given, configured: int,
                                       ready: bool, jira: Servers)
    returns (report: RecoveryReport)
    requires db.Valid() && db.saved.None? && configured > 0
    modifies db
    ensures db.Valid() && db.saved.None? && db.now == old(db.now) && db.configs == old(db.configs)
    ensures report.ValidationFailed? <==>
      || !(timeoutMinutes.Absent? || (timeoutMinutes.Integer? && timeoutMinutes.n > 0))
      || !(limit.Absent? || (limit.Integer? && 0 < limit.n <= 100))
    ensures report.ValidationFailed? ==> db.records == old(db.records)
    ensures report.RecoveryReport? ==>
      var timeout, ids := ResolveTimeoutMinutes(timeoutMinutes, configured), Ids(report.recoveredExecutions);
      && report.timeoutMinutes == timeout && report.scannedCount == |ids|
      && OldestStale(old(db.records), db.now, timeout, ResolveLimit(limit), ids)
      && RecoveredExactly(db.configs, old(db.records), db.records, ids, db.now, timeout, ready, jira)
      && forall k :: 0 <= k < |ids| ==>
           && ids[k] in db.records
           && Reports(report.recoveredExecutions[k], ids[k], db.records[ids[k]])
  {
    hide Reports, RecoveredAs, Stale;
    if !timeoutMinutes.OptionalPositiveInteger(None) || !limit.OptionalPositiveInteger(Some(MAX_RECOVERY_LIMIT)) {
      return ValidationFailed;
    }
    var timeout := ResolveTimeoutMinutes(timeoutMinutes, configured);
    var staleExecutions := db.FindStaleRunning(timeout, ResolveLimit(limit));
    var recoveredExecutions := RecoverEach(db, staleExecutions, timeout, ready, jira);
    report := RecoveryReport(timeout, |staleExecutions|, recoveredExecutions);
  }

  // ----- repeated runs -----

  /** `after` is what some undisturbed recovery run makes of `before`. */
  ghost predicate RecoveryRun(configs: map<string, Config>, before: map<string, Record>, after: map<string, Record>,
                              now: int, timeout: int, limit: nat) {
    && configs.Keys == before.Keys && (forall e :: e in before ==> |before[e].steps| == |configs[e].steps|)
    && exists ids: seq<string>, ready: bool, jira: Servers ::
         && OldestStale(before, now, timeout, limit, ids)
         && RecoveredExactly(configs, before, after, ids, now, timeout, ready, jira)
  }

  /** A run leaves `limit` fewer stale executions, or none. */
  lemma RunShrinks(configs: map<string, Config>, before: map<string, Record>, after: map<string, Record>,
                   now: int, timeout: int, limit: nat)
    requires RecoveryRun(configs, before, after, now, timeout, limit)
    ensures StaleSet(after, now, timeout) <= StaleSet(before, now, timeout)
    ensures |StaleSet(after, now, timeout)| ==
      |StaleSet(before, now, timeout)| - Min(limit, |StaleSet(before, now, timeout)|)
    ensures forall e :: e in StaleSet(before, now, timeout) && e !in StaleSet(after, now, timeout) ==>
      after[e].exec.status.Failed?
  {
    var ids, ready, jira :|
      && OldestStale(before, now, timeout, limit, ids)
      && RecoveredExactly(configs, before, after, ids, now, timeout, ready, jira);
    var stale := StaleSet(before, now, timeout);
    forall e | e in before
      ensures e in StaleSet(after, now, timeout) <==> e in stale && e !in ids
      ensures e in ids ==> after[e].exec.status.Failed?
    {
      assert e in ids ==> RecoveredAs(configs[e], before[e], e, now, timeout, ready, jira, after[e]);
    }
    assert StaleSet(after, now, timeout) == stale - SetOf(ids);
    assert SetOf(ids) <= stale;
    DistinctMembers(ids);
  }

  lemma OneTimeMore(n: nat, x: nat)
    requires n > 0
    ensures n * x == (n - 1) * x + x
  {
  }

  /** Repeated runs without another writer and at a fixed time: run by run the stale executions
      become `limit` fewer, and they are gone after exactly the least number of runs that can do. */
  lemma {:induction false} RepeatedRunsDrain(configs: map<string, Config>, chain: seq<map<string, Record>>,
                                             now: int, timeout: int, limit: Given, runs: nat)
    requires runs < |chain|
    requires forall k :: 0 <= k < |chain| - 1 ==>
      RecoveryRun(configs, chain[k], chain[k + 1], now, timeout, ResolveLimit(limit))
    ensures var count := |StaleSet(chain[0], now, timeout)|;
      && |StaleSet(chain[runs], now, timeout)| == count - Min(runs * ResolveLimit(limit), count)
      && (StaleSet(chain[runs], now, timeout) == {} <==> runs * ResolveLimit(limit) >= count)
  {
    hide RecoveryRun, StaleSet, ResolveLimit;
    if runs > 0 {
      RepeatedRunsDrain(configs, chain, now, timeout, limit, runs - 1);
      RunShrinks(configs, chain[runs - 1], chain[runs], now, timeout, ResolveLimit(limit));
      OneTimeMore(runs, ResolveLimit(limit));
    }
  }
}
