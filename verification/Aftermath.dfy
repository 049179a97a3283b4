/** What happens below an execution that recovery has failed while attempts were still alive. */
module Aftermath {

  import opened Text
  import opened Workflow
  import opened Protocol
  import opened Invariant
  import opened Preservation
  import opened Safety

  /** Does an attempt with this snapshot, going on at step `i`, come to a PENDING step? It skips the
      steps that its snapshot shows as COMPLETED and stops at any other. */
  predicate MeetsPending(snapshot: seq<StepRow>, rows: seq<StepRow>, i: nat)
    requires |snapshot| == |rows|
    decreases |rows| - i
  {
    i < |rows| &&
    (rows[i].status.Pending? || (snapshot[i].status.Completed? && MeetsPending(snapshot, rows, i + 1)))
  }

  /** A handler call on such a step can only end in a business error. */
  predicate OnlyRejects(d: StepDef) {
    d.shouldFail || (d.action.Jira() && !d.configurationValid)
  }

  /** Can this actor, on its own, still bring about a change of the rows? */
  predicate MayWrite(c: Config, rows: seq<StepRow>, p: Actor)
    requires |rows| == |c.steps|
  {
    p.Attempt? &&
    match p.pc
    case ReadSteps(seen) => !seen.Pending? && MeetsPending(rows, rows, 0)
    case Loop(i) => |p.snapshot| == |rows| && MeetsPending(p.snapshot, rows, i)
    case Calling(i, _) => i < |rows| && (!rows[i].status.Failed? || !OnlyRejects(c.steps[i]))
    case Dedup(i, _) => i < |rows| && MayRewrite(c, rows, p, i)
    case Succeeded(_, _) => true
    case FailedRetryably(_) => true
    case Rejected(i) => i < |rows| && !rows[i].status.Failed?
    case _ => false
  }

  /** About to write COMPLETED: the row changes now, or the attempt goes on to a PENDING step. */
  predicate MayRewrite(c: Config, rows: seq<StepRow>, p: Actor, i: nat)
    requires p.Attempt? && i < |rows| == |c.steps| && (Cursor(p.pc).Some? ==> Cursor(p.pc).value == i)
  {
    || rows[i] != StepRow(Writes(c, p.pc).0, Writes(c, p.pc).1)
    || (|p.snapshot| == |rows| && MeetsPending(p.snapshot, rows, i + 1))
  }

  ghost predicate Settled(c: Config, s: State)
    requires InRange(c, s)
  {
    forall a :: 0 <= a < |s.actors| ==> !MayWrite(c, s.record.steps, s.actors[a])
  }

  // ----- a settled execution stays as recovery left it -----

  /** Nothing is written, and every actor is as before or can write nothing either. */
  ghost predicate StaysSettled(c: Config, s: State, s': State)
    requires |s.record.steps| == |c.steps|
  {
    && s'.record == s.record && OnlyLateEffects(s.ledger, s'.ledger)
    && forall a :: 0 <= a < |s'.actors| ==>
         (a < |s.actors| && s'.actors[a] == s.actors[a]) || !MayWrite(c, s.record.steps, s'.actors[a])
  }

  lemma SettledClaim(c: Config, s: State, a: nat)
    requires InRange(c, s) && Enabled(c, s, DoClaimStep(a)) && !MayWrite(c, s.record.steps, s.actors[a])
    ensures StaysSettled(c, s, ApplyClaimStep(c, s, a))
  {
    assert ActorInRange(|c.steps|, s.actors[a]);
  }

  lemma SettledWrite(c: Config, s: State, a: nat)
    requires InRange(c, s) && Enabled(c, s, DoWriteStep(a)) && !MayWrite(c, s.record.steps, s.actors[a])
    ensures StaysSettled(c, s, ApplyWriteStep(c, s, a))
  {
    assert ActorInRange(|c.steps|, s.actors[a]);
    var i, s' := Held(s.actors[a]).value, ApplyWriteStep(c, s, a);
    assert s'.record.steps[i] == s.record.steps[i];
    assert s'.record.steps == s.record.steps;
  }

  lemma SettledCall(c: Config, s: State, act: Action)
    requires Inv(c, s) && Enabled(c, s, act) && InRange(c, Apply(c, s, act))
    requires act.DoJiraEffect? || act.DoHandlerEnd? || act.DoRefuseWrite? || act.Crash?
    requires !MayWrite(c, s.record.steps, s.actors[act.a])
    ensures StaysSettled(c, s, Apply(c, s, act))
  {
    hide HoldsOk, KnowledgeOk, WinnerOk, RowsOk, ViewsOk;
    var p := s.actors[act.a];
    assert ActorInRange(|c.steps|, p) && (p.Attempt? ==> CallOk(c, s.ledger, p.pc));
  }

  lemma SettledElsewhere(c: Config, s: State, act: Action)
    requires InRange(c, s) && WasRecovered(s.record) && s.record.exec.status.Failed? && Enabled(c, s, act)
    requires !act.Tick? && !act.StartAttempt? && !act.StartRecovery? && !act.DoLateEffect?
    requires !act.DoClaimStep? && !act.DoWriteStep?
    requires !act.DoJiraEffect? && !act.DoHandlerEnd? && !act.DoRefuseWrite? && !act.Crash?
    requires !MayWrite(c, s.record.steps, s.actors[act.a])
    ensures StaysSettled(c, s, Apply(c, s, act))
  {
    assert ActorInRange(|c.steps|, s.actors[act.a]);
  }

  /** One step of a settled execution changes no row, and its actor cannot do so later either. */
  lemma SettledStep(c: Config, s: State, act: Action)
    requires Inv(c, s) && WasRecovered(s.record) && Settled(c, s) && Enabled(c, s, act)
    ensures InRange(c, Apply(c, s, act)) && StaysSettled(c, s, Apply(c, s, act))
  {
    hide HoldsOk, CountersOk, KnowledgeOk, WinnerOk, RowsOk, ViewsOk;
    assert InRange(c, Apply(c, s, act)) by { StepKeeps(c, s, act); }
    match act
    case Tick(_) =>
    case StartAttempt(_) =>
    case StartRecovery(_) =>
    case DoLateEffect(i) => LateEffectOnly(s, i);
    case DoClaimStep(a) => SettledClaim(c, s, a);
    case DoWriteStep(a) => SettledWrite(c, s, a);
    case DoJiraEffect(_) => SettledCall(c, s, act);
    case DoHandlerEnd(_, _, _) => SettledCall(c, s, act);
    case DoRefuseWrite(_) => SettledCall(c, s, act);
    case Crash(_, _) => SettledCall(c, s, act);
    case _ => SettledElsewhere(c, s, act);
  }

  lemma {:induction false} SettledRun(asm: Assumptions, c: Config, s: State, acts: seq<Action>, t: State)
    requires Inv(c, s) && WasRecovered(s.record) && Settled(c, s) && Leads(asm, c, s, acts, t)
    ensures t.record == s.record && OnlyLateEffects(s.ledger, t.ledger)
    decreases |acts|
  {
    if acts != [] {
      StepKeeps(c, s, acts[0]);
      SettledStep(c, s, acts[0]);
      SettledRun(asm, c, Apply(c, s, acts[0]), acts[1..], t);
    }
  }

  /** Under any assumptions: if no attempt can write any more, a recovered execution keeps every row
      for good. */
  lemma SettledForGood(asm: Assumptions, c: Config, now: int, acts: seq<Action>, s: State, more: seq<Action>, t: State)
    requires Reached(asm, c, now, acts, s) && Leads(asm, c, s, more, t)
    requires InRange(c, s) && WasRecovered(s.record) && Settled(c, s)
    ensures t.record == s.record && OnlyLateEffects(s.ledger, t.ledger)
  {
    ReachedInv(asm, c, now, acts, s);
    SettledRun(asm, c, s, more, t);
  }

  // ----- an unsettled execution can still change -----

  /** Some run from here changes a row. */
  ghost predicate CanChange(c: Config, s: State) {
    exists more, t :: Leads(NOTHING, c, s, more, t) && t.record != s.record
  }

  lemma ChangesNow(c: Config, s: State, act: Action)
    requires InRange(c, s) && Enabled(c, s, act) && Apply(c, s, act).record != s.record
    ensures CanChange(c, s)
  {
    var t := Apply(c, s, act);
    assert [act][1..] == [] && Leads(NOTHING, c, t, [], t);
    assert Leads(NOTHING, c, s, [act], t);
  }

  lemma ChangesLater(c: Config, s: State, act: Action)
    requires InRange(c, s) && Enabled(c, s, act) && Apply(c, s, act).record == s.record
    requires CanChange(c, Apply(c, s, act))
    ensures CanChange(c, s)
  {
    var s' := Apply(c, s, act);
    var more, t :| Leads(NOTHING, c, s', more, t) && t.record != s'.record;
    assert ([act] + more)[1..] == more;
    assert Leads(NOTHING, c, s, [act] + more, t);
  }

  lemma {:induction false} LoopChanges(c: Config, s: State, a: nat)
    requires Inv(c, s) && AttemptAt(s, a) && s.actors[a].pc.Loop? && MayWrite(c, s.record.steps, s.actors[a])
    ensures CanChange(c, s)
    decreases |c.steps| - s.actors[a].pc.i
  {
    hide HoldsOk, CountersOk, KnowledgeOk, WinnerOk, RowsOk, ViewsOk;
    var i, act := s.actors[a].pc.i, DoClaimStep(a);
    var s' := Apply(c, s, act);
    StepKeeps(c, s, act);
    if s.record.steps[i].status.Pending? {
      assert s'.record.steps[i].status.Running?;
      ChangesNow(c, s, act);
    } else {
      LoopChanges(c, s', a);
      ChangesLater(c, s, act);
    }
  }

  /** A write of the held step that changes its row, or lets the attempt go on to one. */
  lemma WriteChanges(c: Config, s: State, a: nat)
    requires Inv(c, s) && Enabled(c, s, DoWriteStep(a))
    requires MayWrite(c, s.record.steps, s.actors[a]) || s.actors[a].pc.FailedRetryably?
    ensures CanChange(c, s)
  {
    hide CountersOk, KnowledgeOk, WinnerOk, RowsOk, ViewsOk;
    assert HeldOk(s.record.steps, s.actors[a]) && ActorInRange(|c.steps|, s.actors[a]);
    var i, act := Held(s.actors[a]).value, DoWriteStep(a);
    var s' := Apply(c, s, act);
    StepKeeps(c, s, act);
    if s'.record.steps[i] != s.record.steps[i] {
      ChangesNow(c, s, act);
    } else {
      assert s'.record.steps == s.record.steps;
      if s.actors[a].pc.Succeeded? {
        RefusalChanges(c, s, a);
      } else {
        LoopChanges(c, s', a);
        ChangesLater(c, s, act);
      }
    }
  }

  /** The row of the step is not FAILED, and the attempt is about to write FAILED. */
  lemma RejectionChanges(c: Config, s: State, a: nat)
    requires Inv(c, s) && AttemptAt(s, a) && s.actors[a].pc.Rejected?
    requires MayWrite(c, s.record.steps, s.actors[a])
    ensures CanChange(c, s)
  {
    hide HoldsOk, CountersOk, KnowledgeOk, WinnerOk, RowsOk, ViewsOk;
    assert ActorInRange(|c.steps|, s.actors[a]);
    var i, s' := s.actors[a].pc.i, Apply(c, s, DoWriteStep(a));
    assert s'.record.steps[i].status.Failed?;
    ChangesNow(c, s, DoWriteStep(a));
  }

  /** The database may refuse the COMPLETED write, after which the attempt writes FAILED. */
  lemma RefusalChanges(c: Config, s: State, a: nat)
    requires Inv(c, s) && AttemptAt(s, a) && s.actors[a].pc.Succeeded?
    requires s.actors[a].pc.i < |c.steps| && !s.record.steps[s.actors[a].pc.i].status.Failed?
    ensures CanChange(c, s)
  {
    hide HoldsOk, CountersOk, KnowledgeOk, WinnerOk, RowsOk, ViewsOk;
    StepKeeps(c, s, DoRefuseWrite(a));
    RejectionChanges(c, Apply(c, s, DoRefuseWrite(a)), a);
    ChangesLater(c, s, DoRefuseWrite(a));
  }

  /** A body that the handler of the step can return. */
  function SomeBody(d: StepDef): (body: Body)
    ensures BodyFits(d, body)
  {
    match d.action
    case JiraComment => Comment(Trim(d.issueKey), "", false)
    case JiraTransition => Transition(Trim(d.issueKey), Trim(d.transitionId))
    case _ => Simulated(d.action)
  }

  /** A call whose request is not needed, or has taken effect, can succeed and then write COMPLETED,
      or have that write refused. */
  lemma SuccessChanges(c: Config, s: State, a: nat)
    requires Inv(c, s) && AttemptAt(s, a) && s.actors[a].pc.Calling? && s.actors[a].pc.i < |c.steps|
    requires !OnlyRejects(c.steps[s.actors[a].pc.i])
    requires c.steps[s.actors[a].pc.i].action.Jira() ==> s.actors[a].pc.applied
    ensures CanChange(c, s)
  {
    hide HoldsOk, CountersOk, KnowledgeOk, WinnerOk, RowsOk, ViewsOk;
    var i := s.actors[a].pc.i;
    var act := DoHandlerEnd(a, Success(SomeBody(c.steps[i])), false);
    var s' := Apply(c, s, act);
    StepKeeps(c, s, act);
    WriteChanges(c, s', a);
    ChangesLater(c, s, act);
  }

  lemma CallChanges(c: Config, s: State, a: nat)
    requires Inv(c, s) && AttemptAt(s, a) && s.actors[a].pc.Calling?
    requires MayWrite(c, s.record.steps, s.actors[a])
    ensures CanChange(c, s)
  {
    hide HoldsOk, CountersOk, KnowledgeOk, WinnerOk, RowsOk, ViewsOk;
    assert ActorInRange(|c.steps|, s.actors[a]);
    var d := c.steps[s.actors[a].pc.i];
    if OnlyRejects(d) {
      var act := DoHandlerEnd(a, BusinessError, false);
      StepKeeps(c, s, act);
      RejectionChanges(c, Apply(c, s, act), a);
      ChangesLater(c, s, act);
    } else if d.action.Jira() && !s.actors[a].pc.applied {
      StepKeeps(c, s, DoJiraEffect(a));
      SuccessChanges(c, Apply(c, s, DoJiraEffect(a)), a);
      ChangesLater(c, s, DoJiraEffect(a));
    } else {
      SuccessChanges(c, s, a);
    }
  }

  lemma ReadChanges(c: Config, s: State, a: nat)
    requires Inv(c, s) && AttemptAt(s, a) && s.actors[a].pc.ReadSteps? && MayWrite(c, s.record.steps, s.actors[a])
    ensures CanChange(c, s)
  {
    hide HoldsOk, CountersOk, KnowledgeOk, WinnerOk, RowsOk, ViewsOk;
    StepKeeps(c, s, DoReadSteps(a));
    LoopChanges(c, Apply(c, s, DoReadSteps(a)), a);
    ChangesLater(c, s, DoReadSteps(a));
  }

  lemma UnsettledChanges(c: Config, s: State, a: nat)
    requires Inv(c, s) && a < |s.actors| && MayWrite(c, s.record.steps, s.actors[a])
    ensures CanChange(c, s)
  {
    hide HoldsOk, CountersOk, KnowledgeOk, WinnerOk, RowsOk, ViewsOk;
    match s.actors[a].pc
    case ReadSteps(_) => ReadChanges(c, s, a);
    case Loop(_) => LoopChanges(c, s, a);
    case Calling(_, _) => CallChanges(c, s, a);
    case Rejected(_) => RejectionChanges(c, s, a);
    case _ => WriteChanges(c, s, a);
  }

  /** Exactly when the rows of a recovered execution are final: no attempt that is still alive can
      write one. */
  lemma RecoveredIsFinalExactly(c: Config, now: int, acts: seq<Action>, s: State)
    requires Reached(NOTHING, c, now, acts, s) && InRange(c, s) && WasRecovered(s.record)
    ensures !CanChange(c, s) <==> Settled(c, s)
  {
    ReachedInv(NOTHING, c, now, acts, s);
    if Settled(c, s) {
      forall more, t | Leads(NOTHING, c, s, more, t)
        ensures t.record == s.record
      {
        SettledRun(NOTHING, c, s, more, t);
      }
    } else {
      var a :| 0 <= a < |s.actors| && MayWrite(c, s.record.steps, s.actors[a]);
      UnsettledChanges(c, s, a);
    }
  }

  /** In particular if no attempt is between its read of the steps and its end. */
  lemma NobodyInTheLoop(asm: Assumptions, c: Config, now: int, acts: seq<Action>, s: State)
    requires Reached(asm, c, now, acts, s)
    requires forall a :: 0 <= a < |s.actors| && s.actors[a].Attempt? ==>
      && !s.actors[a].pc.ReadSteps? && Held(s.actors[a]).None?
      && (s.actors[a].pc.Loop? ==> s.actors[a].pc.i == |c.steps|)
    ensures InRange(c, s) && Settled(c, s)
  {
    ReachedInv(asm, c, now, acts, s);
  }
}
