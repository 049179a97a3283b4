/** Nobody is ever stuck, and nobody goes on for ever. */
module Progress {

  import opened Workflow
  import opened Statements
  import opened Protocol
  import opened Invariant
  import opened Preservation

  /** Does the actor itself take this step? A crash is something that happens to it. */
  predicate OwnStep(act: Action, a: nat) {
    ActorOf(act) == Some(a) && !act.Crash?
  }

  predicate Over(p: Actor) {
    match p
    case Attempt(_, _, _, pc) => pc.Returned? || pc.Threw? || pc.Crashed?
    case Recovery(_, rpc) => rpc.NothingStale? || rpc.RaceLost? || rpc.Recovered? || rpc.RecoveryCrashed?
  }

  /** How many steps an attempt at this place of a workflow of `n` steps can still take. */
  function AttemptRank(n: nat, pc: Pc): int {
    match pc
    case ReadExecution => 4 * n + 6
    case ReadSteps(_) => 4 * n + 5
    case ClaimExecution => 4 * n + 4
    case Loop(i) => 4 * (n - i) + 3
    case Calling(i, applied) => 4 * (n - i) + (if applied then 1 else 2)
    case Dedup(i, _) => 4 * (n - i)
    case Succeeded(i, _) => 4 * (n - i)
    case Rejected(_) => 3
    case FinalizeFailed(_) => 2
    case FailedRetryably(_) => 1
    case Reread => 1
    case Audit(_, _) => 1
    case _ => 0
  }

  function RecoveryRank(n: nat, rpc: RecoveryPc): int {
    match rpc
    case Scan => n + 4
    case ReadRunning(_) => n + 3
    case LookUp(_, todo, _) => |todo| + 2
    case RegisterRecovery => 1
    case _ => 0
  }

  function Rank(n: nat, p: Actor): int {
    if p.Attempt? then AttemptRank(n, p.pc) else RecoveryRank(n, p.rpc)
  }

  lemma RankIsNatural(c: Config, s: State, a: nat)
    requires InRange(c, s) && a < |s.actors|
    ensures Rank(|c.steps|, s.actors[a]) >= 0
    ensures Rank(|c.steps|, s.actors[a]) == 0 <==> Over(s.actors[a])
  {
    assert ActorInRange(|c.steps|, s.actors[a]);
  }

  lemma {:induction false} FewTargets(c: Config, rows: seq<StepRow>)
    requires |rows| <= |c.steps|
    ensures |LookupTargets(c, rows)| <= |rows|
  {
    if |rows| > 0 {
      FewTargets(c, rows[..|rows| - 1]);
    }
  }

  lemma AttemptStepsCount(c: Config, s: State, act: Action, a: nat)
    requires InRange(c, s) && Enabled(c, s, act) && ActorOf(act) == Some(a) && AttemptAt(s, a)
    ensures AttemptAt(Apply(c, s, act), a)
    ensures
      var before := AttemptRank(|c.steps|, s.actors[a].pc);
      var after := AttemptRank(|c.steps|, Apply(c, s, act).actors[a].pc);
      if act.Crash? then after <= before else after < before
  {
    hide CanEnd, CallsJira, UpdateStatus, ExternalOperationDedupReason, FinalResult, FinalizeRunningExecution;
    assert ActorInRange(|c.steps|, s.actors[a]);
    match act
    case Crash(_, lingering) =>
    case DoReadExecution(_) =>
    case DoReadSteps(_) =>
    case DoClaimExecution(_) =>
    case DoClaimStep(_) =>
    case DoJiraEffect(_) =>
    case DoHandlerEnd(_, outcome, _) =>
    case DoRefuseWrite(_) =>
    case DoWriteStep(_) =>
    case DoFinalize(_) =>
    case DoReread(_) =>
    case DoAudit(_) =>
  }

  lemma RecoveryStepsCount(c: Config, s: State, act: Action, a: nat)
    requires InRange(c, s) && Enabled(c, s, act) && ActorOf(act) == Some(a) && RecoveryAt(s, a)
    ensures RecoveryAt(Apply(c, s, act), a)
    ensures
      var before := RecoveryRank(|c.steps|, s.actors[a].rpc);
      var after := RecoveryRank(|c.steps|, Apply(c, s, act).actors[a].rpc);
      if act.Crash? then after <= before else after < before
  {
    FewTargets(c, s.record.steps);
  }

  /** Every own step brings an actor nearer to its end, and nothing that others do, no crash and no
      late effect takes it further away. */
  lemma StepsCount(c: Config, s: State, act: Action, a: nat)
    requires InRange(c, s) && Enabled(c, s, act) && a < |s.actors|
    ensures a < |Apply(c, s, act).actors|
    ensures var before, after := Rank(|c.steps|, s.actors[a]), Rank(|c.steps|, Apply(c, s, act).actors[a]);
      if OwnStep(act, a) then after < before else after <= before
  {
    hide InRange, Enabled, Apply, AttemptRank, RecoveryRank;
    if ActorOf(act) != Some(a) {
      OthersUntouched(c, s, act, a);
    } else if s.actors[a].Attempt? {
      AttemptStepsCount(c, s, act, a);
    } else {
      RecoveryStepsCount(c, s, act, a);
    }
  }

  /** How often the actor itself acts in a run. */
  function OwnSteps(acts: seq<Action>, a: nat): nat {
    if |acts| == 0 then 0 else (if OwnStep(acts[0], a) then 1 else 0) + OwnSteps(acts[1..], a)
  }

  /** Nobody goes on for ever: whatever the others do and in whatever order, the steps that an actor
      takes are at most the decrease of its rank. */
  lemma {:induction false} RankBoundsSteps(asm: Assumptions, c: Config, s: State, acts: seq<Action>, t: State, a: nat)
    requires Inv(c, s) && Leads(asm, c, s, acts, t) && a < |s.actors|
    ensures Inv(c, t) && a < |t.actors|
    ensures OwnSteps(acts, a) + Rank(|c.steps|, t.actors[a]) <= Rank(|c.steps|, s.actors[a])
    decreases |acts|
  {
    hide Inv, InRange, Enabled, Apply, Rank;
    if |acts| > 0 {
      StepsCount(c, s, acts[0], a);
      StepKeeps(c, s, acts[0]);
      RankBoundsSteps(asm, c, Apply(c, s, acts[0]), acts[1..], t, a);
    }
  }

  /** An attempt on `n` steps takes at most `4 * n + 6` steps in all and a recovery at most `n + 4`,
      in every run from the moment it starts, under any interference. */
  lemma EverybodyEnds(asm: Assumptions, c: Config, now: int, acts: seq<Action>, s: State, start: Action,
                      more: seq<Action>, t: State)
    requires Reached(asm, c, now, acts, s) && (start.StartAttempt? || start.StartRecovery?) && Enabled(c, s, start)
    requires InRange(c, s) && Leads(asm, c, Apply(c, s, start), more, t)
    ensures OwnSteps(more, |s.actors|) <= if start.StartAttempt? then 4 * |c.steps| + 6 else |c.steps| + 4
  {
    var a := |s.actors|;
    ReachedInv(asm, c, now, acts, s);
    StepKeeps(c, s, start);
    RankBoundsSteps(asm, c, Apply(c, s, start), more, t, a);
    RankIsNatural(c, t, a) by {
      assert InRange(c, t);
    }
  }

  /** Nobody is ever stuck: an actor that is not over has a next step of its own. */
  lemma NextStep(c: Config, s: State, a: nat) returns (act: Action)
    requires Inv(c, s) && a < |s.actors| && !Over(s.actors[a])
    ensures OwnStep(act, a) && Enabled(c, s, act) && Permits(EVERYTHING, s, act)
  {
    hide Inv;
    InvInRange(c, s);
    var p := s.actors[a];
    assert ActorInRange(|c.steps|, p);
    match p
    case Attempt(_, _, _, pc) =>
      match pc {
        case ReadExecution => act := DoReadExecution(a);
        case ReadSteps(_) => act := DoReadSteps(a);
        case ClaimExecution => act := DoClaimExecution(a);
        case Loop(i) => act := if i < |c.steps| then DoClaimStep(a) else DoFinalize(a);
        case Calling(i, applied) => act := EndOfCall(c, s, a);
        case Reread => act := DoReread(a);
        case Audit(_, _) => act := DoAudit(a);
        case FinalizeFailed(_) => act := DoFinalize(a);
        case _ => act := DoWriteStep(a);
      }
    case Recovery(_, rpc) =>
      match rpc {
        case Scan => act := DoScan(a);
        case ReadRunning(_) => act := DoReadRunning(a);
        case LookUp(_, todo, _) => act := if todo == [] then DoRecover(a) else DoLookUp(a, None);
        case _ => act := DoAuditRecovery(a);
      }
  }

  /** A handler call can always end, in a way that keeps every assumption. */
  lemma EndOfCall(c: Config, s: State, a: nat) returns (act: Action)
    requires Inv(c, s) && AttemptAt(s, a) && s.actors[a].pc.Calling?
    ensures OwnStep(act, a) && Enabled(c, s, act) && Permits(EVERYTHING, s, act)
  {
    assert ActorInRange(|c.steps|, s.actors[a]);
    var i, applied := s.actors[a].pc.i, s.actors[a].pc.applied;
    var d := c.steps[i];
    if !d.action.Jira() && !d.shouldFail {
      act := DoHandlerEnd(a, Success(Simulated(d.action)), false);
    } else if applied {
      var body := if d.action.JiraComment? then Comment(Text.Trim(d.issueKey), "1", false)
                  else Transition(Text.Trim(d.issueKey), Text.Trim(d.transitionId));
      act := DoHandlerEnd(a, Success(body), false);
    } else {
      act := DoHandlerEnd(a, BusinessError, false);
    }
  }

  /** Nor is anything excluded that the results have to withstand: time passes and attempts and
      recoveries start at any moment; everybody may crash anywhere; a request that is sent may take effect,
      or stay in flight when its call ends in an error or its attempt crashes, and what is in flight may
      land at any time; and a COMPLETED write after a success may be refused. */
  lemma NothingIsExcluded(c: Config, s: State, a: nat, i: nat, elapsed: nat, processedBy: string, timeout: nat)
    ensures Enabled(c, s, Tick(elapsed)) && Enabled(c, s, StartAttempt(processedBy))
    ensures timeout > 0 ==> Enabled(c, s, StartRecovery(timeout))
    ensures a < |s.actors| ==> Enabled(c, s, Crash(a, false))
    ensures i in s.ledger.inFlight ==> Enabled(c, s, DoLateEffect(i))
    ensures AttemptAt(s, a) && s.actors[a].pc.Succeeded? ==> Enabled(c, s, DoRefuseWrite(a))
    ensures AttemptAt(s, a) && s.actors[a].pc == Calling(i, false) && i < |c.steps| && CallsJira(c.steps[i]) ==>
      && Enabled(c, s, DoJiraEffect(a)) && Enabled(c, s, Crash(a, true))
      && forall lingering ::
           && Enabled(c, s, DoHandlerEnd(a, RetryableError, lingering))
           && Enabled(c, s, DoHandlerEnd(a, BusinessError, lingering))
    ensures AttemptAt(s, a) && s.actors[a].pc == Calling(i, true) && i < |c.steps| && CallsJira(c.steps[i]) ==>
      && Enabled(c, s, DoHandlerEnd(a, RetryableError, false))
      && Enabled(c, s, DoHandlerEnd(a, BusinessError, false))
      && forall body :: BodyFits(c.steps[i], body) ==> Enabled(c, s, DoHandlerEnd(a, Success(body), false))
  {
  }

  /** From every reachable state every actor, left alone, comes to its end, in no more steps than its
      rank, and without breaking any assumption on Jira. */
  lemma {:induction false} LeftAloneEnds(c: Config, s: State, a: nat) returns (acts: seq<Action>, t: State)
    requires Inv(c, s) && a < |s.actors|
    ensures Leads(EVERYTHING, c, s, acts, t) && |acts| <= Rank(|c.steps|, s.actors[a])
    ensures forall k :: 0 <= k < |acts| ==> OwnStep(acts[k], a)
    ensures a < |t.actors| && Over(t.actors[a])
    decreases Rank(|c.steps|, s.actors[a])
  {
    hide Inv;
    assert InRange(c, s) by { InvInRange(c, s); }
    RankIsNatural(c, s, a);
    if Over(s.actors[a]) {
      return [], s;
    }
    var act := NextStep(c, s, a);
    StepsCount(c, s, act, a);
    StepKeeps(c, s, act);
    var more;
    more, t := LeftAloneEnds(c, Apply(c, s, act), a);
    acts := [act] + more;
    assert acts[1..] == more;
  }
}
