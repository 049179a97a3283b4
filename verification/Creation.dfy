/** Creation of an execution: where every run of the protocol starts. */
module Creation {

  import opened Workflow
  import opened Protocol
  import opened Store
  import opened Validation

  /** A step of a workflow definition. */
  datatype WorkflowStep = WorkflowStep(
    id: string,
    stepOrder: int,
    isActive: bool,
    action: ActionType,
    shouldFail: bool,
    configurationValid: bool,
    issueKey: string,
    transitionId: string,
    comment: string)

  datatype WorkflowDef = WorkflowDef(isActive: bool, steps: set<WorkflowStep>)
  {
    /** UNIQUE (workflow_id, step_order) */
    ghost predicate Valid() {
      forall s, t :: s in steps && t in steps && s.stepOrder == t.stepOrder ==> s == t
    }
  }

  /** An execution step as the step query joins it with its workflow step. */
  function Joined(s: WorkflowStep, id: string): StepDef {
    StepDef(id, s.id, s.stepOrder, s.action, s.shouldFail, s.configurationValid, s.issueKey, s.transitionId, s.comment)
  }

  ghost predicate Ascending(steps: seq<WorkflowStep>) {
    forall j, k :: 0 <= j < k < |steps| ==> steps[j].stepOrder < steps[k].stepOrder
  }

  method FirstInOrder(steps: set<WorkflowStep>) returns (first: WorkflowStep)
    requires steps != {}
    ensures first in steps && forall s :: s in steps ==> first.stepOrder <= s.stepOrder
  {
    first :| first in steps;
    var rest := steps - {first};
    while rest != {}
      invariant rest <= steps && first in steps
      invariant forall s :: s in steps - rest ==> first.stepOrder <= s.stepOrder
      decreases rest
    {
      var s :| s in rest;
      if s.stepOrder < first.stepOrder {
        first := s;
      }
      rest := rest - {s};
    }
  }

  /** The active steps of a workflow, each once, in strictly increasing step order. */
  ghost predicate ActiveInOrder(workflow: WorkflowDef, active: seq<WorkflowStep>) {
    && Ascending(active)
    && forall s :: s in active <==> s in workflow.steps && s.isActive
  }

  /** SELECT ... WHERE is_active = true ORDER BY step_order ASC */
  method FindActiveByWorkflowId(workflow: WorkflowDef) returns (active: seq<WorkflowStep>)
    requires workflow.Valid()
    ensures ActiveInOrder(workflow, active)
  {
    var rest := set s | s in workflow.steps && s.isActive;
    active := [];
    while rest != {}
      invariant forall s :: s in rest ==> s in workflow.steps && s.isActive && s !in active
      invariant forall s :: s in workflow.steps && s.isActive ==> s in rest || s in active
      invariant forall s :: s in active ==> s in workflow.steps && s.isActive
      invariant forall s, t :: s in active && t in rest ==> s.stepOrder < t.stepOrder
      invariant Ascending(active)
      decreases rest
    {
      var first := FirstInOrder(rest);
      rest := rest - {first};
      active := active + [first];
    }
  }

  datatype Creation = Created(id: string, executionStepsCount: nat) | Refused(httpStatus: nat)

  /** An execution with one PENDING step under its own key for each of the `active` steps. */
  ghost predicate StepsOf(active: seq<WorkflowStep>, c: Config, r: Record) {
    && c.Valid() && |c.steps| == |active| == |r.steps|
    && r.exec == ExecRow(Pending, None, None)
    && (forall k :: 0 <= k < |active| ==> r.steps[k] == StepRow(Pending, None))
    && forall k :: 0 <= k < |active| ==>
         && c.steps[k].stepId == active[k].id && c.steps[k].stepOrder == active[k].stepOrder
         && c.steps[k].action == active[k].action && c.steps[k].shouldFail == active[k].shouldFail
         && c.steps[k].configurationValid == active[k].configurationValid
         && c.steps[k].issueKey == active[k].issueKey && c.steps[k].transitionId == active[k].transitionId
         && c.steps[k].comment == active[k].comment
  }

  ghost predicate CreatedFrom(workflow: WorkflowDef, c: Config, r: Record) {
    c.steps != [] && exists active :: ActiveInOrder(workflow, active) && StepsOf(active, c, r)
  }

  ghost predicate Injective(f: nat -> string) {
    forall j, k :: f(j) == f(k) ==> j == k
  }

  function Payload(active: seq<WorkflowStep>, stepId: nat -> string): (payload: seq<StepDef>)
  {
    seq(|active|, k requires 0 <= k < |active| => Joined(active[k], stepId(k)))
  }

  lemma PayloadFits(active: seq<WorkflowStep>, id: string, stepId: nat -> string)
    requires Injective(stepId)
    ensures StepsOf(active, Config(id, Payload(active, stepId)), InitRecord(Config(id, Payload(active, stepId))))
  {
  }

  /** The transaction: an execution with its steps, or, without an active step, nothing. */
  method InsertExecution(db: Database, workflow: WorkflowDef, id: string, stepId: nat -> string)
    returns (count: Option<nat>)
    requires db.Valid() && db.saved.None? && workflow.Valid()
    requires id !in db.records && Injective(stepId)
    modifies db
    ensures db.Valid() && db.saved.None? && db.now == old(db.now)
    ensures count.None? <==> forall s :: s in workflow.steps ==> !s.isActive
    ensures match count
            case None => db.records == old(db.records) && db.configs == old(db.configs)
            case Some(n) =>
              && id in db.records && n == |db.configs[id].steps|
              && db.records == old(db.records)[id := db.records[id]]
              && db.configs == old(db.configs)[id := db.configs[id]]
              && CreatedFrom(workflow, db.configs[id], db.records[id])
  {
    hide StepsOf, Ascending;
    db.Begin();
    db.Create(id);
    var workflowSteps := FindActiveByWorkflowId(workflow);
    if |workflowSteps| == 0 {
      db.Rollback();
      return None;
    }
    assert workflowSteps[0] in workflowSteps;
    var executionStepsPayload := Payload(workflowSteps, stepId);
    PayloadFits(workflowSteps, id, stepId);
    db.CreateMany(id, executionStepsPayload);
    db.Commit();
    assert db.configs[id].steps == executionStepsPayload;
    assert db.configs[id] == Config(id, executionStepsPayload);
    assert db.records[id].steps == InitRecord(Config(id, executionStepsPayload)).steps;
    assert db.records[id] == InitRecord(Config(id, executionStepsPayload));
    count := Some(|executionStepsPayload|);
  }

  /** Create an execution of a workflow, or refuse to and leave the database as it was. `id` and
      `stepId` are the generated keys of the new rows. */
  method CreateWorkflowExecution(db: Database, workflows: map<string, WorkflowDef>, workflowId: string,
                                 input: Input,
                                 startedBy: string, id: string, stepId: nat -> string)
    returns (creation: Creation)
    requires db.Valid() && db.saved.None? && forall w :: w in workflows ==> workflows[w].Valid()
    requires id !in db.records && Injective(stepId)
    modifies db
    ensures db.Valid() && db.saved.None? && db.now == old(db.now)
    ensures creation.Refused? ==> db.records == old(db.records) && db.configs == old(db.configs)
    ensures creation == Refused(400) <==> !IsValidUuid(workflowId) || input.OtherInput?
    ensures creation == Refused(401) <==> IsValidUuid(workflowId) && !input.OtherInput? && startedBy == ""
    ensures creation == Refused(404) <==>
      IsValidUuid(workflowId) && !input.OtherInput? && startedBy != "" && workflowId !in workflows
    ensures creation == Refused(409) <==>
      && IsValidUuid(workflowId) && !input.OtherInput? && startedBy != "" && workflowId in workflows
      && (workflows[workflowId].isActive ==> forall s :: s in workflows[workflowId].steps ==> !s.isActive)
    ensures creation.Created? ==>
      && creation.id == id && id in db.records && creation.executionStepsCount == |db.configs[id].steps|
      && db.records == old(db.records)[id := db.records[id]] && db.configs == old(db.configs)[id := db.configs[id]]
      && workflowId in workflows && CreatedFrom(workflows[workflowId], db.configs[id], db.records[id])
  {
    if !IsValidUuid(workflowId) || input.OtherInput? {
      return Refused(400);
    }
    if startedBy == "" {
      return Refused(401);
    }
    if workflowId !in workflows {
      return Refused(404);
    }
    if !workflows[workflowId].isActive {
      return Refused(409);
    }
    var count := InsertExecution(db, workflows[workflowId], id, stepId);
    creation := if count.Some? then Created(id, count.value) else Refused(409);
  }
}
