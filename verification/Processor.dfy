/** The processor as it runs: `ProcessWorkflowExecution` under arbitrary interference. */
module Processor {

  import opened Workflow
  import opened Statements
  import opened Protocol
  import opened Invariant
  import opened Preservation
  import opened StepHandlers
  import opened Sequential
  import opened Validation

  /** What the other actors do next, and what is left for later. */
  function TurnOfOthers(schedule: seq<seq<Action>>): seq<Action> {
    if schedule == [] then [] else schedule[0]
  }

  function Later(schedule: seq<seq<Action>>): seq<seq<Action>> {
    if schedule == [] then [] else schedule[1..]
  }

  /** The state after the other actors have taken those of these steps that are possible. */
  ghost function AfterOthers(c: Config, me: nat, s: State, acts: seq<Action>): State
    decreases |acts|
  {
    if acts == [] then s
    else if InRange(c, s) && Enabled(c, s, acts[0]) && ActorOf(acts[0]) != Some(me) then
      AfterOthers(c, me, Apply(c, s, acts[0]), acts[1..])
    else AfterOthers(c, me, s, acts[1..])
  }

  /** What one handler call meets: the Jira settings, Jira's reaction, and whether the database
      refuses the COMPLETED write after it. */
  datatype Report = Report(settings: JiraSettings, reaction: Reaction, refused: bool)

  /** The database, Jira and everybody else. At every await of an attempt the next element of
      `schedule` says what the other actors do meanwhile; `reports` says how Jira reacts to the
      `k`-th handler call on step `i`, counting from 1. */
  class World {
    const c: Config
    const start: int
    const reports: (nat, nat) -> Report
    var s: State
    var schedule: seq<seq<Action>>
    ghost var run: seq<Action>

    /** The state is one that the protocol reaches, and Jira accepts only what took effect. */
    ghost predicate Valid()
      reads this
    {
      && Reached(NOTHING, c, start, run, s)
      && |s.record.steps| == |s.ledger.calls| == |c.steps|
      && forall i, k :: reports(i, k).reaction.Honest()
    }

    /** The run goes on; without a schedule nobody interferes and no time passes. */
    twostate predicate Continues()
      reads this
    {
      Valid() && old(run) <= run && (old(schedule) == [] ==> schedule == [] && s.now == old(s).now)
    }

    constructor (c: Config, start: int, reports: (nat, nat) -> Report, schedule: seq<seq<Action>>)
      requires c.Valid() && forall i, k :: reports(i, k).reaction.Honest()
      ensures Valid() && this.c == c && s == Init(c, start) && this.schedule == schedule && this.reports == reports
    {
      this.c, this.start, this.reports, this.schedule := c, start, reports, schedule;
      s := Init(c, start);
      run := [];
    }

    predicate At(me: nat, p: Actor)
      reads this
    {
      me < |s.actors| && s.actors[me] == p
    }

    /** How handler calls end here. */
    function HandlerOutcomeAt(i: nat, k: nat): HandlerOutcome {
      if i < |c.steps| then OutcomeOf(c.steps[i], reports(i, k).settings, reports(i, k).reaction) else BusinessError
    }

    /** How handling a step ends here: a refused COMPLETED write counts as a business error. */
    function HandlerOracle(): Oracle {
      (i: nat, k: nat) =>
        if HandlerOutcomeAt(i, k).Success? && reports(i, k).refused then BusinessError else HandlerOutcomeAt(i, k)
    }

    lemma Sound()
      requires Valid()
      ensures Inv(c, s) && InRange(c, s)
    {
      ReachedInv(NOTHING, c, start, run, s);
    }

    /** One step of the protocol. */
    method Do(act: Action)
      requires Valid() && Enabled(c, s, act)
      modifies this`s, this`run
      ensures InRange(c, old(s)) && Valid() && old(run) <= run && s == Apply(c, old(s), act)
    {
      Sound();
      LeadsOn(NOTHING, c, Init(c, start), run, s, act);
      StepKeeps(c, s, act);
      s, run := Apply(c, s, act), run + [act];
    }

    /** One step of another actor, if it is possible. */
    method DoOther(me: nat, act: Action)
      requires Valid() && me < |s.actors|
      modifies this`s, this`run
      ensures Valid() && old(run) <= run && At(me, old(s).actors[me]) && InRange(c, old(s))
      ensures s == if Enabled(c, old(s), act) && ActorOf(act) != Some(me) then Apply(c, old(s), act) else old(s)
    {
      assert InRange(c, s) by { Sound(); }
      if Enabled(c, s, act) && ActorOf(act) != Some(me) {
        Sound();
        OthersUntouched(c, s, act, me);
        Do(act);
      }
    }

    /** What the other actors do while `me` awaits. */
    method Interleave(me: nat)
      requires Valid() && me < |s.actors|
      modifies this
      ensures Continues() && At(me, old(s).actors[me])
      ensures s == AfterOthers(c, me, old(s), TurnOfOthers(old(schedule))) && schedule == Later(old(schedule))
      ensures old(schedule) == [] ==> s == old(s)
    {
      var acts := TurnOfOthers(schedule);
      schedule := Later(schedule);
      assert acts[0..] == acts;
      for k := 0 to |acts|
        invariant Valid() && old(run) <= run && At(me, old(s).actors[me]) && (acts == [] ==> s == old(s))
        invariant schedule == Later(old(schedule))
        invariant AfterOthers(c, me, s, acts[k..]) == AfterOthers(c, me, old(s), acts)
      {
        assert acts[k..][0] == acts[k] && acts[k..][1..] == acts[k + 1..];
        DoOther(me, acts[k]);
      }
      assert acts[|acts|..] == [];
    }

    /** The other actors have had their turn, and then `me` has made this step. */
    twostate predicate Awaited(me: nat, act: Action)
      reads this
    {
      && schedule == Later(old(schedule))
      && var between := AfterOthers(c, me, old(s), TurnOfOthers(old(schedule)));
         InRange(c, between) && Enabled(c, between, act) && s == Apply(c, between, act)
    }

    /** The rows that a call of `me` meets: those that the others have left. */
    twostate function Met(me: nat): Record
      reads this
    {
      AfterOthers(c, me, old(s), TurnOfOthers(old(schedule))).record
    }

    twostate predicate SameRows()
      reads this
    {
      s.record == old(s).record && s.ledger.calls == old(s).ledger.calls
    }

    // ----- the calls that an attempt awaits; others may run first -----

    method StartAttempt(processedBy: string) returns (me: nat)
      requires Valid()
      modifies this
      ensures me == |old(s).actors|
      ensures Continues() && At(me, Attempt(processedBy, [], [], ReadExecution))
      ensures old(schedule) == [] ==> SameRows()
    {
      me := |s.actors|;
      Do(Action.StartAttempt(processedBy));
    }

    method FindById(me: nat) returns (status: Status)
      requires Valid() && AttemptAt(s, me) && s.actors[me].pc.ReadExecution?
      modifies this
      ensures Awaited(me, DoReadExecution(me))
      ensures status == Met(me).exec.status && s.record == Met(me)
      ensures Continues()
      ensures At(me, old(s).actors[me].(pc :=
        if status.Pending? || status.Running? then ReadSteps(status) else Threw(NotProcessable)))
      ensures old(schedule) == [] ==> SameRows() && status == s.record.exec.status
    {
      Interleave(me);
      status := s.record.exec.status;
      Do(DoReadExecution(me));
    }

    method FindByExecutionId(me: nat) returns (steps: seq<StepRow>)
      requires Valid() && AttemptAt(s, me) && s.actors[me].pc.ReadSteps?
      modifies this
      ensures Awaited(me, DoReadSteps(me))
      ensures steps == Met(me).steps && s.record == Met(me)
      ensures Continues() && |steps| == |c.steps|
      ensures At(me, old(s).actors[me].(snapshot := steps, outputs := [], pc :=
        if |steps| == 0 then Threw(NoSteps)
        else if old(s).actors[me].pc.seen.Pending? then ClaimExecution else Loop(0)))
      ensures old(schedule) == [] ==> SameRows() && steps == s.record.steps
    {
      Interleave(me);
      steps := s.record.steps;
      Do(DoReadSteps(me));
    }

    method ClaimPendingExecution(me: nat) returns (claimed: bool)
      requires Valid() && AttemptAt(s, me) && s.actors[me].pc.ClaimExecution?
      modifies this
      ensures Awaited(me, DoClaimExecution(me))
      ensures Continues()
      ensures claimed <==> Met(me).exec.status == Pending
      ensures s.record ==
        if !claimed then Met(me)
        else
          var startedAt := if Met(me).exec.startedAt.Some? then Met(me).exec.startedAt else Some(s.now);
          Record(ExecRow(Running, startedAt, Met(me).exec.result), Met(me).steps)
      ensures At(me, if claimed then old(s).actors[me].(outputs := [], pc := Loop(0))
                     else old(s).actors[me].(pc := Threw(ExecutionClaimLost)))
      ensures old(schedule) == [] ==>
        && s.ledger.calls == old(s).ledger.calls
        && match Statements.ClaimPendingExecution(old(s).record, old(s).now)
           case Some(r) => claimed && s.record == r
           case None => !claimed && s.record == old(s).record
    {
      Interleave(me);
      claimed := s.record.exec.status.Pending?;
      Do(DoClaimExecution(me));
    }

    /** The claim of the step that the attempt has come to. */
    method ClaimPendingStep(me: nat) returns (claimed: bool)
      requires Valid() && AttemptAt(s, me) && s.actors[me].pc.Loop? && s.actors[me].pc.i < |c.steps|
      modifies this
      ensures Awaited(me, DoClaimStep(me))
      ensures Continues() && ActorInRange(|c.steps|, old(s).actors[me])
      ensures var i, rows := old(s).actors[me].pc.i, Met(me).steps;
        && i < |rows| && (claimed <==> rows[i].status == Pending)
        && s.record == Met(me).(steps := if claimed then rows[i := StepRow(Running, rows[i].output)] else rows)
      ensures At(me, AfterClaim(c, old(s).actors[me], claimed))
      ensures old(schedule) == [] ==>
        var i, calls := old(s).actors[me].pc.i, old(s).ledger.calls;
        && match Statements.ClaimPendingStep(old(s).record, i)
           case Some(r) => claimed && s.record == r &&
             s.ledger.calls == if s.actors[me].pc.Calling? then calls[i := calls[i] + 1] else calls
           case None => !claimed && SameRows()
    {
      assert ActorInRange(|c.steps|, s.actors[me]) by { Sound(); }
      Interleave(me);
      claimed := s.record.steps[s.actors[me].pc.i].status.Pending?;
      Do(DoClaimStep(me));
    }

    /** The others had a turn, then the request took effect if it is to be in time, the others had
        another turn, and the call ended, leaving its request in flight if it is to be late. */
    twostate predicate Called(me: nat, outcome: HandlerOutcome, inTime: bool, late: bool)
      reads this
    {
      && schedule == Later(Later(old(schedule)))
      && var before := AfterOthers(c, me, old(s), TurnOfOthers(old(schedule)));
      InRange(c, before) && (inTime ==> Enabled(c, before, DoJiraEffect(me)))
      && var sent := if inTime then Apply(c, before, DoJiraEffect(me)) else before;
      var after := AfterOthers(c, me, sent, TurnOfOthers(Later(old(schedule))));
      InRange(c, after) && Enabled(c, after, DoHandlerEnd(me, outcome, late))
      && s == Apply(c, after, DoHandlerEnd(me, outcome, late))
    }

    /** Call the handler of the claimed step: its request may take effect, and later the call ends,
        possibly with the request still in flight. */
    method HandleStep(me: nat) returns (outcome: HandlerOutcome)
      requires Valid() && AttemptAt(s, me) && s.actors[me].pc.Calling? && !s.actors[me].pc.applied
      requires s.actors[me].pc.i < |c.steps|
      modifies this
      ensures Continues()
      ensures At(me, AfterCall(old(s).actors[me], outcome))
      ensures var i := old(s).actors[me].pc.i;
        var report := reports(i, old(s).ledger.calls[i]);
        && outcome == OutcomeOf(c.steps[i], report.settings, report.reaction)
        && Called(me, outcome, TakesEffect(c.steps[i], report.settings, report.reaction),
                  Lingers(c.steps[i], report.settings, report.reaction))
      ensures old(schedule) == [] ==> SameRows()
    {
      hide Reached, Inv, AfterOthers, CanEnd, OutcomeOf;
      var i := s.actors[me].pc.i;
      var report := reports(i, s.ledger.calls[i]);
      outcome := OutcomeOf(c.steps[i], report.settings, report.reaction);
      HandlersFitProtocol(c.steps[i], report.settings, report.reaction);
      Interleave(me);
      assert InRange(c, s) by { Sound(); }
      if TakesEffect(c.steps[i], report.settings, report.reaction) {
        Do(DoJiraEffect(me));
      }
      Interleave(me);
      Do(DoHandlerEnd(me, outcome, Lingers(c.steps[i], report.settings, report.reaction)));
    }

    /** The unguarded write of the step that the attempt holds. The database may refuse to write
        COMPLETED after a handler's success. */
    method UpdateStatus(me: nat, status: Status, output: Option<Output>) returns (stored: bool)
      requires Valid() && AttemptAt(s, me) && Held(s.actors[me]).Some? && !s.actors[me].pc.Calling?
      requires Held(s.actors[me]).value < |c.steps| && Writes(c, s.actors[me].pc) == (status, output)
      modifies this
      ensures Awaited(me, if stored then DoWriteStep(me) else DoRefuseWrite(me))
      ensures Continues() && (!stored ==> old(s).actors[me].pc.Succeeded?)
      ensures var i, rows := Held(old(s).actors[me]).value, Met(me).steps;
        && i < |rows|
        && s.record == Met(me).(steps :=
             if !stored then rows
             else rows[i := StepRow(status, if output.Some? then output else rows[i].output)])
      ensures At(me, if stored then AfterWrite(c, old(s).actors[me])
                     else old(s).actors[me].(pc := Rejected(Held(old(s).actors[me]).value)))
      ensures old(schedule) == [] ==>
        var i := Held(old(s).actors[me]).value;
        && s.ledger.calls == old(s).ledger.calls
        && s.record == (if stored then Statements.UpdateStatus(old(s).record, i, status, output) else old(s).record)
      ensures var i := Held(old(s).actors[me]).value;
        stored <==> !(old(s).actors[me].pc.Succeeded? && reports(i, old(s).ledger.calls[i]).refused)
    {
      var i := Held(s.actors[me]).value;
      stored := !s.actors[me].pc.Succeeded? || !reports(i, s.ledger.calls[i]).refused;
      Interleave(me);
      Do(if stored then DoWriteStep(me) else DoRefuseWrite(me));
    }

    /** The guarded terminal write. */
    method FinalizeRunningExecution(me: nat, status: Status, result: ExecResult) returns (row: Option<ExecRow>)
      requires Valid() && Enabled(c, s, DoFinalize(me))
      requires s.actors[me].pc.FinalizeFailed? ==> s.actors[me].pc.i < |c.steps|
      requires status == FinalStatus(s.actors[me].pc) && result == FinalResult(c, s.actors[me])
      modifies this
      ensures Awaited(me, DoFinalize(me))
      ensures Continues()
      ensures row.Some? <==> Met(me).exec.status == Running
      ensures s.record ==
        if row.None? then Met(me)
        else Record(ExecRow(status, Met(me).exec.startedAt, Some(result)), Met(me).steps)
      ensures row.Some? ==> row.value == s.record.exec
      ensures At(me, old(s).actors[me].(pc :=
        if row.Some? then Audit(FinalEvent(old(s).actors[me].pc), row.value) else Reread))
      ensures old(schedule) == [] ==>
        && s.ledger.calls == old(s).ledger.calls
        && match Statements.FinalizeRunningExecution(old(s).record, status, result)
           case Some(r) => row.Some? && s.record == r
           case None => row.None? && s.record == old(s).record
    {
      Interleave(me);
      var won := s.record.exec.status.Running?;
      Do(DoFinalize(me));
      row := if won then Some(s.record.exec) else None;
    }

    method RegisterEnd(me: nat)
      requires Valid() && AttemptAt(s, me) && s.actors[me].pc.Audit?
      modifies this
      ensures Awaited(me, DoAudit(me))
      ensures Continues() && At(me, old(s).actors[me].(pc := Pc.Returned(old(s).actors[me].pc.row)))
      ensures old(schedule) == [] ==> SameRows()
    {
      Interleave(me);
      Do(DoAudit(me));
    }

    method FindCurrent(me: nat) returns (row: ExecRow)
      requires Valid() && AttemptAt(s, me) && s.actors[me].pc.Reread?
      modifies this
      ensures Awaited(me, DoReread(me))
      ensures Continues() && At(me, old(s).actors[me].(pc := Pc.Returned(row)))
      ensures row == Met(me).exec && s.record == Met(me)
      ensures old(schedule) == [] ==> SameRows()
    {
      Interleave(me);
      row := s.record.exec;
      Do(DoReread(me));
    }
  }

  datatype Failure = Invalid | Unauthenticated | NotFound | Protocol(reason: Thrown)

  datatype Outcome = Returned(row: ExecRow) | Raised(failure: Failure)

  /** An attempt returns or throws what it does in the protocol; and if it returns, then with the
      stored, terminal row. */
  ghost predicate Reports(w: World, me: nat, outcome: Outcome)
    reads w
  {
    AttemptAt(w.s, me) &&
    match outcome
    case Returned(row) =>
      w.s.actors[me].pc == Pc.Returned(row) && row == w.s.record.exec && row.status.Terminal()
    case Raised(Protocol(reason)) => w.s.actors[me].pc == Threw(reason)
    case Raised(_) => false
  }

  /** How an undisturbed attempt must end. */
  ghost predicate Undisturbed(w: World, outcome: Outcome, expected: AttemptResult)
    reads w
  {
    && w.s.record == expected.record
    && w.s.ledger.calls == expected.calls
    && outcome == match expected.end
                  case Ended(row) => Outcome.Returned(row)
                  case Stopped(reason) => Raised(Failure.Protocol(reason))
  }

  lemma KnowsOwn(w: World, me: nat)
    requires w.Valid() && me < |w.s.actors|
    ensures KnowsOk(w.s.record, w.s.now, w.s.actors[me])
  {
    w.Sound();
  }

  /** Finalize the execution and return the row that is stored afterwards, whoever wrote it. */
  method FinalizeAndReturn(w: World, me: nat, status: Status, result: ExecResult) returns (outcome: Outcome)
    requires w.Valid() && Enabled(w.c, w.s, DoFinalize(me))
    requires w.s.actors[me].pc.FinalizeFailed? ==> w.s.actors[me].pc.i < |w.c.steps|
    requires status == FinalStatus(w.s.actors[me].pc) && result == FinalResult(w.c, w.s.actors[me])
    modifies w
    ensures w.Continues() && outcome.Returned? && Reports(w, me, outcome)
    ensures old(w.schedule) == [] ==>
      Undisturbed(w, outcome, Finish(old(w.s).record, old(w.s).ledger.calls, status, result))
  {
    hide Reached, AfterOthers, Apply, Inv;
    var row := w.FinalizeRunningExecution(me, status, result);
    if row.Some? {
      w.RegisterEnd(me);
      outcome := Outcome.Returned(row.value);
    } else {
      var current := w.FindCurrent(me);
      outcome := Outcome.Returned(current);
    }
    KnowsOwn(w, me);
  }

  /** An attempt that has pushed the output of step `i`. */
  function Pushed(c: Config, processedBy: string, steps: seq<StepRow>, i: nat, stepOutputs: seq<Entry>,
                  output: Output): Actor
    requires i < |c.steps|
  {
    Attempt(processedBy, steps, stepOutputs + [EntryOf(c.steps[i], output)], Loop(i + 1))
  }

  /** One turn of the loop: go on with an output, or end the attempt. */
  datatype Turn = Next(output: Output) | Stop(outcome: Outcome)

  /** What an undisturbed turn leaves of the run that was expected before it. */
  ghost predicate TurnOk(w: World, turn: Turn, seen: seq<StepRow>, i: nat, outputs: seq<Entry>, processedBy: string,
                         expected: AttemptResult)
    reads w
    requires i < |w.c.steps| == |seen|
  {
    match turn
    case Next(output) =>
      && |w.s.record.steps| == |w.s.ledger.calls| == |w.c.steps|
      && RunSteps(w.c, w.s.record, seen, i + 1, outputs + [EntryOf(w.c.steps[i], output)], processedBy,
                  w.s.ledger.calls, w.HandlerOracle()) == expected
    case Stop(outcome) => Undisturbed(w, outcome, expected)
  }

  /** A step that could not be claimed. */
  method Unclaimed(w: World, me: nat, processedBy: string, steps: seq<StepRow>, i: nat, stepOutputs: seq<Entry>)
    returns (turn: Turn)
    requires w.Valid() && i < |steps| == |w.c.steps| && |stepOutputs| == i
    requires w.At(me, AfterClaim(w.c, Attempt(processedBy, steps, stepOutputs, Loop(i)), false))
    modifies w
    ensures w.Continues()
    ensures turn.Next? ==> w.At(me, Pushed(w.c, processedBy, steps, i, stepOutputs, turn.output))
    ensures turn.Stop? ==> Reports(w, me, turn.outcome)
    ensures old(w.schedule) == [] ==>
      && (!old(w.s).record.steps[i].status.Pending? ==>
            TurnOk(w, turn, steps, i, stepOutputs, processedBy,
              RunSteps(w.c, old(w.s).record, steps, i, stepOutputs, processedBy, old(w.s).ledger.calls,
                       w.HandlerOracle())))
  {
    var d, seen := w.c.steps[i], steps[i];
    if seen.status.Completed? {
      return Next(if seen.output.Some? then seen.output.value else AlreadyCompleted);
    }
    if seen.status.Failed? {
      var outcome := FinalizeAndReturn(w, me, Failed,
        ProcessResult(processedBy, |stepOutputs|, Some(RefOf(d)), stepOutputs));
      return Stop(outcome);
    }
    return Stop(Raised(Failure.Protocol(StepUnclaimable)));
  }

  /** What was caught is no retryable error: mark the step FAILED and finalize the execution. */
  method Reject(w: World, me: nat, processedBy: string, steps: seq<StepRow>, i: nat, stepOutputs: seq<Entry>)
    returns (turn: Turn)
    requires w.Valid() && i < |steps| == |w.c.steps| && |stepOutputs| == i
    requires w.At(me, Attempt(processedBy, steps, stepOutputs, Rejected(i)))
    modifies w
    ensures w.Continues() && turn.Stop? && Reports(w, me, turn.outcome)
    ensures old(w.schedule) == [] ==>
      Undisturbed(w, turn.outcome,
        FinishFailed(w.c, UpdateStatus(old(w.s).record, i, Failed, None), i, stepOutputs, processedBy,
                     old(w.s).ledger.calls))
  {
    var stored := w.UpdateStatus(me, Failed, None);
    var outcome := FinalizeAndReturn(w, me, Failed,
      ProcessResult(processedBy, |stepOutputs|, Some(RefOf(w.c.steps[i])), stepOutputs));
    turn := Stop(outcome);
  }

  /** A claimed step: skip the handler if the stored output proves the operation, or call it. */
  method Claimed(w: World, me: nat, processedBy: string, steps: seq<StepRow>, i: nat, stepOutputs: seq<Entry>)
    returns (turn: Turn)
    requires w.Valid() && i < |steps| == |w.c.steps| && |stepOutputs| == i
    requires w.At(me, AfterClaim(w.c, Attempt(processedBy, steps, stepOutputs, Loop(i)), true))
    modifies w
    ensures w.Continues()
    ensures turn.Next? ==> w.At(me, Pushed(w.c, processedBy, steps, i, stepOutputs, turn.output))
    ensures turn.Stop? ==> Reports(w, me, turn.outcome)
    ensures old(w.schedule) == [] ==>
      var r, calls := old(w.s).record, old(w.s).ledger.calls;
      TurnOk(w, turn, steps, i, stepOutputs, processedBy,
           if ExternalOperationDedupReason(steps[i].output).Some? then
             RunSteps(w.c, UpdateStatus(r, i, Completed, steps[i].output), steps, i + 1,
               stepOutputs + [EntryOf(w.c.steps[i], steps[i].output.value)], processedBy, calls, w.HandlerOracle())
           else
             RunHandled(w.c, r, steps, i, stepOutputs, processedBy, calls, w.HandlerOracle(),
                        w.HandlerOracle()(i, calls[i])))
  {
    hide Reached, World.Called, World.Awaited, TakesEffect, Lingers;
    var d, seen := w.c.steps[i], steps[i];
    if ExternalOperationDedupReason(seen.output).Some? {
      var reused := w.UpdateStatus(me, Completed, seen.output);
      return Next(seen.output.value);
    }
    var handlerResult := w.HandleStep(me);
    if handlerResult.Success? {
      var enrichedOutput := Enrich(d, handlerResult.body);
      var stored := w.UpdateStatus(me, Completed, Some(enrichedOutput));
      if stored {
        return Next(enrichedOutput);
      }
    } else if handlerResult.RetryableError? {
      var reverted := w.UpdateStatus(me, Pending, None);
      return Stop(Raised(Failure.Protocol(TechnicalFailure)));
    }
    turn := Reject(w, me, processedBy, steps, i, stepOutputs);
  }

  method ProcessStep(w: World, me: nat, processedBy: string, steps: seq<StepRow>, i: nat, stepOutputs: seq<Entry>)
    returns (turn: Turn)
    requires w.Valid() && i < |steps| == |w.c.steps| && |stepOutputs| == i
    requires w.At(me, Attempt(processedBy, steps, stepOutputs, Loop(i)))
    modifies w
    ensures w.Continues()
    ensures turn.Next? ==> w.At(me, Pushed(w.c, processedBy, steps, i, stepOutputs, turn.output))
    ensures turn.Stop? ==> Reports(w, me, turn.outcome)
    ensures old(w.schedule) == [] ==>
      && TurnOk(w, turn, steps, i, stepOutputs, processedBy,
           RunSteps(w.c, old(w.s).record, steps, i, stepOutputs, processedBy, old(w.s).ledger.calls, w.HandlerOracle()))
  {
    hide Reached, Reports, Undisturbed, World.Awaited, World.Met, AfterOthers, Apply, Inv;
    var claimed := w.ClaimPendingStep(me);
    if claimed {
      turn := Claimed(w, me, processedBy, steps, i, stepOutputs);
    } else {
      turn := Unclaimed(w, me, processedBy, steps, i, stepOutputs);
    }
  }

  /** The loop over the steps. */
  method ProcessSteps(w: World, me: nat, processedBy: string, steps: seq<StepRow>) returns (outcome: Outcome)
    requires w.Valid() && |steps| == |w.c.steps|
    requires w.At(me, Attempt(processedBy, steps, [], Loop(0)))
    modifies w
    ensures w.Continues() && Reports(w, me, outcome)
    ensures old(w.schedule) == [] ==>
      && Undisturbed(w, outcome,
           RunSteps(w.c, old(w.s).record, steps, 0, [], processedBy, old(w.s).ledger.calls, w.HandlerOracle()))
  {
    var stepOutputs: seq<Entry> := [];
    var i := 0;
    while i < |steps|
      invariant i <= |steps| && |stepOutputs| == i
      invariant w.Continues() && w.At(me, Attempt(processedBy, steps, stepOutputs, Loop(i)))
      invariant old(w.schedule) == [] ==>
          && RunSteps(w.c, w.s.record, steps, i, stepOutputs, processedBy, w.s.ledger.calls, w.HandlerOracle()) ==
           RunSteps(w.c, old(w.s).record, steps, 0, [], processedBy, old(w.s).ledger.calls, w.HandlerOracle())
    {
      var turn := ProcessStep(w, me, processedBy, steps, i, stepOutputs);
      match turn
      case Stop(end) => return end;
      case Next(output) =>
        stepOutputs := stepOutputs + [EntryOf(w.c.steps[i], output)];
        i := i + 1;
    }
    outcome := FinalizeAndReturn(w, me, Completed, ProcessResult(processedBy, |stepOutputs|, None, stepOutputs));
  }

  /** Does the processor get as far as reading the execution? */
  predicate Admitted(w: World, executionId: string, processedBy: string) {
    IsValidUuid(executionId) && processedBy != "" && executionId == w.c.executionId
  }

  /** From the read of the execution on. */
  method ProcessAdmitted(w: World, processedBy: string) returns (outcome: Outcome, me: nat)
    requires w.Valid()
    modifies w
    ensures w.Continues() && me == |old(w.s).actors| && Reports(w, me, outcome)
    ensures old(w.schedule) == [] ==>
      && Undisturbed(w, outcome,
           RunAttempt(w.c, old(w.s).record, old(w.s).now, processedBy, old(w.s).ledger.calls, w.HandlerOracle()))
  {
    hide Reached, AfterOthers, Apply, Inv, InRange, Enabled;
    me := w.StartAttempt(processedBy);
    var status := w.FindById(me);
    if !status.Pending? && !status.Running? {
      return Raised(Failure.Protocol(NotProcessable)), me;
    }
    var steps := w.FindByExecutionId(me);
    if |steps| == 0 {
      return Raised(Failure.Protocol(NoSteps)), me;
    }
    if status.Pending? {
      var claimed := w.ClaimPendingExecution(me);
      if !claimed {
        return Raised(Failure.Protocol(ExecutionClaimLost)), me;
      }
    }
    outcome := ProcessSteps(w, me, processedBy, steps);
  }

  /** The processor. Whatever the other actors do, it returns or throws what its attempt `me` does
      in the protocol, and it returns only with the stored, terminal row; undisturbed, it does what
      `RunAttempt` says. */
  method ProcessWorkflowExecution(w: World, executionId: string, processedBy: string)
    returns (outcome: Outcome, ghost me: nat)
    requires w.Valid()
    modifies w
    ensures w.Continues()
    ensures outcome == Raised(Invalid) <==> !IsValidUuid(executionId)
    ensures outcome == Raised(Unauthenticated) <==> IsValidUuid(executionId) && processedBy == ""
    ensures outcome == Raised(NotFound) <==>
      IsValidUuid(executionId) && processedBy != "" && executionId != w.c.executionId
    ensures !Admitted(w, executionId, processedBy) ==> w.s == old(w.s)
    ensures Admitted(w, executionId, processedBy) ==>
      me == |old(w.s).actors| && Reports(w, me, outcome)
    ensures Admitted(w, executionId, processedBy) && old(w.schedule) == [] ==>
      && Undisturbed(w, outcome,
           RunAttempt(w.c, old(w.s).record, old(w.s).now, processedBy, old(w.s).ledger.calls, w.HandlerOracle()))
  {
    me := 0;
    if !IsValidUuid(executionId) {
      return Raised(Invalid), me;
    }
    if processedBy == "" {
      return Raised(Unauthenticated), me;
    }
    if executionId != w.c.executionId {
      return Raised(NotFound), me;
    }
    hide Reports, Undisturbed, Reached;
    var result, self := ProcessAdmitted(w, processedBy);
    outcome, me := result, self;
  }
}
