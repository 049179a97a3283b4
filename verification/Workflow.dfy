/** The rows, outputs and results that the workflow engine stores and passes around. */
module Workflow {

  import opened Text

  datatype Option<+T> = None | Some(value: T)

  /** Status of an execution row or of a step row. */
  datatype Status = Pending | Running | Completed | Failed
  {
    predicate Terminal() {
      Completed? || Failed?
    }
  }

  datatype ActionType = Manual | Notification | JiraTransition | JiraComment
  {
    predicate Jira() {
      JiraTransition? || JiraComment?
    }
  }

  /** The immutable part of one execution step: its own id and the joined columns of its
      workflow step. `configurationValid` is the verdict of the configuration validator. */
  datatype StepDef = StepDef(
    id: string,
    stepId: string,
    stepOrder: int,
    action: ActionType,
    shouldFail: bool,
    configurationValid: bool,
    issueKey: string,
    transitionId: string,
    comment: string)

  /** What a step handler returns as its output. */
  datatype Body =
    | Simulated(action: ActionType)
    | Comment(issueKey: string, commentId: string, viaRemoteLookup: bool)
    | Transition(issueKey: string, transitionId: string)

  /** A step output: a handler body stamped with an idempotency key, or the placeholder that
      stands in for a COMPLETED step whose row carries no output. */
  datatype Output =
    | Persisted(body: Body, idempotencyKey: string)
    | AlreadyCompleted

  /** How a handler call ends: a result, a business error, or an error marked retryable. */
  datatype HandlerOutcome = Success(body: Body) | BusinessError | RetryableError

  /** One element of `result.steps`. */
  datatype Entry = Entry(
    executionStepId: string,
    stepId: string,
    stepOrder: int,
    action: ActionType,
    output: Output)

  datatype StepRef = StepRef(executionStepId: string, stepId: string)

  /** The `result` column of an execution. */
  datatype ExecResult =
    | ProcessResult(processedBy: string, stepsProcessed: nat, failedStep: Option<StepRef>, steps: seq<Entry>)
    | RecoveryResult(
        previous: Option<ExecResult>,
        previousStatus: Status,
        timeout: int,
        failedRunningSteps: seq<StepRef>,
        recoveredRunningSteps: seq<StepRef>)

  datatype ExecRow = ExecRow(status: Status, startedAt: Option<int>, result: Option<ExecResult>)

  datatype StepRow = StepRow(status: Status, output: Option<Output>)

  /** The rows of one execution. `steps` is in step order, which is how the step query sorts them. */
  datatype Record = Record(exec: ExecRow, steps: seq<StepRow>)

  /** The immutable part of one execution. */
  datatype Config = Config(executionId: string, steps: seq<StepDef>)
  {
    /** Step rows have a primary key, so no two steps of an execution share an id. */
    ghost predicate Valid() {
      forall i, j :: 0 <= i < |steps| && 0 <= j < |steps| && steps[i].id == steps[j].id ==> i == j
    }
  }

  function IdempotencyKey(id: string): string {
    "workflowExecutionStep:" + id
  }

  function Enrich(d: StepDef, body: Body): Output {
    Persisted(body, IdempotencyKey(d.id))
  }

  function EntryOf(d: StepDef, output: Output): Entry {
    Entry(d.id, d.stepId, d.stepOrder, d.action, output)
  }

  function RefOf(d: StepDef): StepRef {
    StepRef(d.id, d.stepId)
  }

  /** The output that recovery writes for a step whose comment it found. */
  function RecoveredOutput(d: StepDef, commentId: string): Output {
    Persisted(Comment(Trim(d.issueKey), commentId, true), IdempotencyKey(d.id))
  }

  datatype DedupReason = CommentAlreadyCreated | TransitionAlreadyApplied

  /** Does a persisted output prove that the external operation was applied? */
  function ExternalOperationDedupReason(output: Option<Output>): Option<DedupReason> {
    match output
    case Some(Persisted(Comment(_, commentId, _), _)) =>
      if commentId != "" then Some(CommentAlreadyCreated) else None
    case Some(Persisted(Transition(_, transitionId), _)) =>
      if transitionId != "" then Some(TransitionAlreadyApplied) else None
    case _ => None
  }

  /** Does the handler of this step get as far as sending a request to Jira? */
  predicate CallsJira(d: StepDef) {
    d.action.Jira() && !d.shouldFail && d.configurationValid
  }

  /** The bodies that the handler of step `d` can return. */
  predicate BodyFits(d: StepDef, body: Body) {
    match d.action
    case JiraComment => body.Comment? && body.issueKey == Trim(d.issueKey) && !body.viaRemoteLookup
    case JiraTransition => body == Transition(Trim(d.issueKey), Trim(d.transitionId))
    case _ => body == Simulated(d.action)
  }

  /** The ways in which a handler call on step `d` can end, given whether its one Jira request
      took effect. A request that Jira reports as accepted did take effect; nothing is assumed
      here about requests that end in an error. */
  predicate CanEnd(d: StepDef, applied: bool, outcome: HandlerOutcome) {
    match outcome
    case Success(body) => !d.shouldFail && BodyFits(d, body) && (d.action.Jira() ==> CallsJira(d) && applied)
    case BusinessError => d.shouldFail || d.action.Jira()
    case RetryableError => CallsJira(d)
  }

  function Min(x: int, y: int): int {
    if x < y then x else y
  }
}
