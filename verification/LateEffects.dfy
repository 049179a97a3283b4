/** Requests that take effect after the call that sent them has ended, and exactly which results
    about effects need which assumption. */
module LateEffects {

  import opened Workflow
  import opened Protocol
  import opened Invariant
  import opened Safety
  import opened Counterexamples

  const PENDING := StepRow(Pending, None)
  const RUNNING := StepRow(Running, None)
  const STARTED := ExecRow(Running, Some(0), None)

  /** An attempt on the pair of comment steps whose snapshot shows both as PENDING. */
  function At(outputs: seq<Entry>, pc: Pc): Actor {
    Attempt("u", [PENDING, PENDING], outputs, pc)
  }

  /** The first step, done by the handler. */
  const DONE := StepRow(Completed, Some(Enrich(FIRST_COMMENT, ANSWER)))
  const FIRST_ENTRY := EntryOf(FIRST_COMMENT, Enrich(FIRST_COMMENT, ANSWER))

  // ----- a call that timed out, and its retry -----

  const TIME_OUT: seq<Action> := [DoHandlerEnd(0, RetryableError, true), DoWriteStep(0)]
  const RETRY: seq<Action> := [StartAttempt("u"), DoReadExecution(1)] + [DoReadSteps(1), DoClaimStep(1)]

  /** The first call on step 0 ended retryably, its request is in flight, and the step is reverted. */
  function TimedOut(): State {
    State(Record(STARTED, [PENDING, PENDING]), 0, [At([], Threw(TechnicalFailure))], [],
          Ledger([], multiset{0}, [1, 0], [1, 0], [1, 0], [1, 0], [1, 0]), 0)
  }

  /** A second attempt is in the handler of step 0. */
  function Retried(): State {
    State(Record(STARTED, [RUNNING, PENDING]), 0,
          [At([], Threw(TechnicalFailure)), At([], Calling(0, false))], [],
          Ledger([], multiset{0}, [2, 0], [2, 0], [1, 0], [1, 0], [1, 0]), 0)
  }

  lemma ReachTimedOut(asm: Assumptions)
    requires !asm.retryableMeansNoEffect
    ensures Leads(asm, PAIR, InHandler(PAIR), TIME_OUT, TimedOut())
  {
    var s0 := InHandler(PAIR);
    assert InitRecord(PAIR).steps == [PENDING, PENDING] && Zeros(2) == [0, 0];
    var s1 := Apply(PAIR, s0, DoHandlerEnd(0, RetryableError, true));
    assert s1.ledger == Ledger([], multiset{0}, [1, 0], [1, 0], [1, 0], [1, 0], [0, 0]);
    var s2 := Apply(PAIR, s1, DoWriteStep(0));
    assert s2.ledger == TimedOut().ledger && s2.record == TimedOut().record && s2.actors == TimedOut().actors;
    RunOfTwo(asm, PAIR, s0, DoHandlerEnd(0, RetryableError, true), s1, DoWriteStep(0), TimedOut());
  }

  function Rejoined(): State {
    TimedOut().(actors := TimedOut().actors + [Attempt("u", [], [], ReadSteps(Running))])
  }

  lemma ReachRetried(asm: Assumptions)
    ensures Leads(asm, PAIR, TimedOut(), RETRY, Retried())
  {
    var s1 := Apply(PAIR, TimedOut(), StartAttempt("u"));
    assert Apply(PAIR, s1, DoReadExecution(1)).actors == Rejoined().actors;
    RunOfTwo(asm, PAIR, TimedOut(), StartAttempt("u"), s1, DoReadExecution(1), Rejoined());
    var s2 := Apply(PAIR, Rejoined(), DoReadSteps(1));
    var s3 := Apply(PAIR, s2, DoClaimStep(1));
    assert s3.actors == Retried().actors && s3.record == Retried().record && s3.ledger == Retried().ledger;
    RunOfTwo(asm, PAIR, Rejoined(), DoReadSteps(1), s2, DoClaimStep(1), Retried());
    LeadsThrough(asm, PAIR, TimedOut(), [StartAttempt("u"), DoReadExecution(1)], Rejoined(),
      [DoReadSteps(1), DoClaimStep(1)], Retried());
  }

  /** Without (A) the retry can be in the handler while the first request is in flight. */
  lemma UpToRetry(asm: Assumptions) returns (acts: seq<Action>)
    requires !asm.retryableMeansNoEffect
    ensures Reached(asm, PAIR, 0, acts, Retried())
  {
    ReachHandler(asm, PAIR);
    ReachTimedOut(asm);
    ReachRetried(asm);
    ChainOfThree(asm, PAIR, Init(PAIR, 0), TO_HANDLER, InHandler(PAIR), TIME_OUT, TimedOut(), RETRY, Retried());
    acts := TO_HANDLER + TIME_OUT + RETRY;
  }

  // ----- the retry succeeds -----

  const SUCCEED: seq<Action> :=
    [DoJiraEffect(1), DoHandlerEnd(1, Success(ANSWER), false)] + [DoWriteStep(1), DoClaimStep(1)]

  function FirstSucceeded(): State {
    Retried().(actors := [At([], Threw(TechnicalFailure)), At([], Succeeded(0, ANSWER))],
               ledger := Retried().ledger.(effects := [0]))
  }

  /** Step 0 is COMPLETED and the second attempt is in the handler of step 1. */
  function InSecond(): State {
    State(Record(STARTED, [DONE, RUNNING]), 0,
          [At([], Threw(TechnicalFailure)), At([FIRST_ENTRY], Calling(1, false))], [],
          Ledger([0], multiset{0}, [2, 1], [2, 1], [1, 0], [1, 0], [1, 0]), 0)
  }

  lemma ReachFirstSucceeded(asm: Assumptions)
    ensures Leads(asm, PAIR, Retried(), [DoJiraEffect(1), DoHandlerEnd(1, Success(ANSWER), false)], FirstSucceeded())
  {
    TrimIssueKey();
    var s1 := Apply(PAIR, Retried(), DoJiraEffect(1));
    var s2 := Apply(PAIR, s1, DoHandlerEnd(1, Success(ANSWER), false));
    assert s2.actors == FirstSucceeded().actors && s2.ledger == FirstSucceeded().ledger;
    RunOfTwo(asm, PAIR, Retried(), DoJiraEffect(1), s1, DoHandlerEnd(1, Success(ANSWER), false), s2);
  }

  function FirstWritten(): State {
    FirstSucceeded().(record := Record(STARTED, [DONE, PENDING]),
                      actors := [At([], Threw(TechnicalFailure)), At([FIRST_ENTRY], Loop(1))])
  }

  lemma WriteFirst(asm: Assumptions)
    ensures Step(asm, PAIR, FirstSucceeded(), DoWriteStep(1), FirstWritten())
  {
    var t := Apply(PAIR, FirstSucceeded(), DoWriteStep(1));
    assert t.record == FirstWritten().record;
    assert t.actors[1].outputs == [FIRST_ENTRY];
    assert t.actors[1] == At([FIRST_ENTRY], Loop(1));
    assert t.actors == FirstWritten().actors;
  }

  lemma ClaimSecond(asm: Assumptions)
    ensures Step(asm, PAIR, FirstWritten(), DoClaimStep(1), InSecond())
  {
    var t := Apply(PAIR, FirstWritten(), DoClaimStep(1));
    assert t.record == InSecond().record;
    assert t.actors == InSecond().actors;
    assert t.ledger == InSecond().ledger;
  }

  lemma ReachInSecond(asm: Assumptions)
    ensures Leads(asm, PAIR, Retried(), SUCCEED, InSecond())
  {
    hide Step, Retried, FirstSucceeded, FirstWritten, InSecond;
    ReachFirstSucceeded(asm);
    WriteFirst(asm);
    ClaimSecond(asm);
    RunOfTwo(asm, PAIR, FirstSucceeded(), DoWriteStep(1), FirstWritten(), DoClaimStep(1), InSecond());
    LeadsThrough(asm, PAIR, Retried(), [DoJiraEffect(1), DoHandlerEnd(1, Success(ANSWER), false)], FirstSucceeded(),
      [DoWriteStep(1), DoClaimStep(1)], InSecond());
  }

  lemma ReachLate(asm: Assumptions) returns (t: State)
    ensures Leads(asm, PAIR, InSecond(), [DoJiraEffect(1), DoLateEffect(0)], t)
    ensures t.ledger.effects == [0, 1, 0] && !WasRecovered(t.record)
  {
    var s1 := Apply(PAIR, InSecond(), DoJiraEffect(1));
    t := Apply(PAIR, s1, DoLateEffect(0));
    RunOfTwo(asm, PAIR, InSecond(), DoJiraEffect(1), s1, DoLateEffect(0), t);
  }

  /** Without (A): step 0's request times out and is retried with success, step 1 takes effect, and
      then the first request arrives. No recovery is involved. */
  lemma LateEffectOutOfOrder(asm: Assumptions) returns (acts: seq<Action>, s: State)
    requires !asm.retryableMeansNoEffect
    ensures Reached(asm, PAIR, 0, acts, s) && !WasRecovered(s.record) && s.ledger.effects == [0, 1, 0]
  {
    var before := UpToRetry(asm);
    ReachInSecond(asm);
    s := ReachLate(asm);
    ChainOfThree(asm, PAIR, Init(PAIR, 0), before, Retried(), SUCCEED, InSecond(),
      [DoJiraEffect(1), DoLateEffect(0)], s);
    acts := before + SUCCEED + [DoJiraEffect(1), DoLateEffect(0)];
  }

  const FINISH: seq<Action> :=
    [DoJiraEffect(1), DoHandlerEnd(1, Success(ANSWER), false)] + [DoWriteStep(1), DoFinalize(1)]

  function SecondSucceeded(): State {
    InSecond().(actors := [At([], Threw(TechnicalFailure)), At([FIRST_ENTRY], Succeeded(1, ANSWER))],
                ledger := InSecond().ledger.(effects := [0, 1]))
  }

  lemma ReachSecondSucceeded(asm: Assumptions)
    ensures Leads(asm, PAIR, InSecond(), [DoJiraEffect(1), DoHandlerEnd(1, Success(ANSWER), false)], SecondSucceeded())
  {
    TrimIssueKey();
    var s1 := Apply(PAIR, InSecond(), DoJiraEffect(1));
    var s2 := Apply(PAIR, s1, DoHandlerEnd(1, Success(ANSWER), false));
    assert s2.actors == SecondSucceeded().actors && s2.ledger == SecondSucceeded().ledger;
    RunOfTwo(asm, PAIR, InSecond(), DoJiraEffect(1), s1, DoHandlerEnd(1, Success(ANSWER), false), s2);
  }

  lemma WriteSecond(asm: Assumptions) returns (t: State)
    ensures Step(asm, PAIR, SecondSucceeded(), DoWriteStep(1), t)
    ensures InRange(PAIR, t) && AttemptAt(t, 1) && t.actors[1].pc == Loop(2) && t.record.exec == STARTED
    ensures t.ledger.inFlight == multiset{0}
  {
    t := Apply(PAIR, SecondSucceeded(), DoWriteStep(1));
  }

  lemma FinalizeStarted(asm: Assumptions, s: State, a: nat) returns (t: State)
    requires InRange(PAIR, s) && Enabled(PAIR, s, DoFinalize(a)) && s.record.exec == STARTED
    ensures Step(asm, PAIR, s, DoFinalize(a), t) && InRange(PAIR, t)
    ensures t.record.exec.status == FinalStatus(s.actors[a].pc) && !WasRecovered(t.record)
    ensures t.ledger == s.ledger
  {
    t := Apply(PAIR, s, DoFinalize(a));
  }

  lemma ReachCompleted(asm: Assumptions) returns (t: State)
    ensures Leads(asm, PAIR, InSecond(), FINISH, t)
    ensures t.record.exec.status.Completed? && !WasRecovered(t.record) && t.ledger.inFlight == multiset{0}
  {
    hide Step, SecondSucceeded, InSecond;
    ReachSecondSucceeded(asm);
    var s1 := WriteSecond(asm);
    t := FinalizeStarted(asm, s1, 1);
    RunOfTwo(asm, PAIR, SecondSucceeded(), DoWriteStep(1), s1, DoFinalize(1), t);
    LeadsThrough(asm, PAIR, InSecond(), [DoJiraEffect(1), DoHandlerEnd(1, Success(ANSWER), false)], SecondSucceeded(),
      [DoWriteStep(1), DoFinalize(1)], t);
  }

  /** Without (A) an execution can be COMPLETED while a request of it is in flight. */
  lemma CompletedInFlight(asm: Assumptions) returns (acts: seq<Action>, s: State)
    requires !asm.retryableMeansNoEffect
    ensures Reached(asm, PAIR, 0, acts, s) && s.ledger.inFlight == multiset{0}
    ensures s.record.exec.status.Completed? && !WasRecovered(s.record)
  {
    var before := UpToRetry(asm);
    ReachInSecond(asm);
    s := ReachCompleted(asm);
    ChainOfThree(asm, PAIR, Init(PAIR, 0), before, Retried(), SUCCEED, InSecond(), FINISH, s);
    acts := before + SUCCEED + FINISH;
  }

  // ----- a call that is rejected -----

  /** Attempt `a` is in the handler of step 0; its call is rejected, and the execution is finalized. */
  function Reject(a: nat, lingering: bool): seq<Action> {
    [DoHandlerEnd(a, BusinessError, lingering), DoWriteStep(a)] + [DoFinalize(a), Tick(0)]
  }

  lemma RejectCall(asm: Assumptions, s: State, a: nat, lingering: bool) returns (t: State)
    requires InRange(PAIR, s) && AttemptAt(s, a) && s.actors[a].pc == Calling(0, false)
    requires s.record.exec == STARTED && (asm.rejectionMeansNoEffect ==> !lingering)
    ensures Step(asm, PAIR, s, DoHandlerEnd(a, BusinessError, lingering), t) && InRange(PAIR, t)
    ensures AttemptAt(t, a) && t.actors[a].pc == Rejected(0) && t.record == s.record
    ensures t.ledger.inFlight == s.ledger.inFlight + if lingering then multiset{0} else multiset{}
  {
    t := Apply(PAIR, s, DoHandlerEnd(a, BusinessError, lingering));
  }

  lemma WriteRejection(asm: Assumptions, s: State, a: nat) returns (t: State)
    requires InRange(PAIR, s) && AttemptAt(s, a) && s.actors[a].pc == Rejected(0)
    ensures Step(asm, PAIR, s, DoWriteStep(a), t) && InRange(PAIR, t)
    ensures AttemptAt(t, a) && t.actors[a].pc == FinalizeFailed(0)
    ensures t.record.exec == s.record.exec && t.ledger.inFlight == s.ledger.inFlight
  {
    t := Apply(PAIR, s, DoWriteStep(a));
  }

  lemma ReachFailed(asm: Assumptions, s: State, a: nat, lingering: bool) returns (t: State)
    requires InRange(PAIR, s) && AttemptAt(s, a) && s.actors[a].pc == Calling(0, false)
    requires s.record.exec == STARTED && (asm.rejectionMeansNoEffect ==> !lingering)
    ensures Leads(asm, PAIR, s, Reject(a, lingering), t)
    ensures t.record.exec.status.Failed? && !WasRecovered(t.record)
    ensures t.ledger.inFlight == s.ledger.inFlight + if lingering then multiset{0} else multiset{}
  {
    var s1 := RejectCall(asm, s, a, lingering);
    var s2 := WriteRejection(asm, s1, a);
    t := FinalizeStarted(asm, s2, a);
    RunOfTwo(asm, PAIR, s, DoHandlerEnd(a, BusinessError, lingering), s1, DoWriteStep(a), s2);
    RunOfTwo(asm, PAIR, s2, DoFinalize(a), t, Tick(0), t);
    LeadsThrough(asm, PAIR, s, [DoHandlerEnd(a, BusinessError, lingering), DoWriteStep(a)], s2,
      [DoFinalize(a), Tick(0)], t);
  }

  lemma InFirstHandler()
    ensures var s := InHandler(PAIR);
      && InRange(PAIR, s) && AttemptAt(s, 0) && s.actors[0].pc == Calling(0, false)
      && s.record.exec == STARTED && s.ledger.inFlight == multiset{}
  {
  }

  lemma RejectedInFlight(asm: Assumptions) returns (acts: seq<Action>, s: State)
    requires !asm.rejectionMeansNoEffect
    ensures Reached(asm, PAIR, 0, acts, s) && s.ledger.inFlight == multiset{0}
    ensures s.record.exec.status.Failed? && !WasRecovered(s.record)
  {
    hide InHandler;
    ReachHandler(asm, PAIR);
    InFirstHandler();
    s := ReachFailed(asm, InHandler(PAIR), 0, true);
    LeadsThrough(asm, PAIR, Init(PAIR, 0), TO_HANDLER, InHandler(PAIR), Reject(0, true), s);
    acts := TO_HANDLER + Reject(0, true);
  }

  lemma RetriedAndRejected(asm: Assumptions) returns (acts: seq<Action>, s: State)
    requires !asm.retryableMeansNoEffect
    ensures Reached(asm, PAIR, 0, acts, s) && s.ledger.inFlight == multiset{0}
    ensures s.record.exec.status.Failed? && !WasRecovered(s.record)
  {
    var before := UpToRetry(asm);
    s := ReachFailed(asm, Retried(), 1, false);
    LeadsThrough(asm, PAIR, Init(PAIR, 0), before, Retried(), Reject(1, false), s);
    acts := before + Reject(1, false);
  }

  /** Without (A) or without (R) an execution can be FAILED while a request of it is in flight. */
  lemma FailedInFlight(asm: Assumptions) returns (acts: seq<Action>, s: State)
    requires !asm.retryableMeansNoEffect || !asm.rejectionMeansNoEffect
    ensures Reached(asm, PAIR, 0, acts, s) && s.ledger.inFlight == multiset{0}
    ensures s.record.exec.status.Failed? && !WasRecovered(s.record)
  {
    hide Reached;
    if asm.retryableMeansNoEffect {
      acts, s := RejectedInFlight(asm);
    } else {
      acts, s := RetriedAndRejected(asm);
    }
  }

  // ----- a lookup that is not sound -----

  lemma BothInHandlers()
    ensures var s := BothIn(false);
      && InRange(PAIR, s) && MayLinger(PAIR, s, 0) && MayLinger(PAIR, s, 1)
      && s.actors[0].pc.i == 0 && s.actors[1].pc.i == 1 && s.ledger.effects == []
  {
  }

  lemma ReachEffectBeforeEarlier(asm: Assumptions) returns (t: State)
    ensures Leads(asm, PAIR, BothIn(false), [DoJiraEffect(1), DoJiraEffect(0)], t) && t.ledger.effects == [1, 0]
  {
    hide BothIn;
    BothInHandlers();
    var s1 := Apply(PAIR, BothIn(false), DoJiraEffect(1));
    t := Apply(PAIR, s1, DoJiraEffect(0));
    RunOfTwo(asm, PAIR, BothIn(false), DoJiraEffect(1), s1, DoJiraEffect(0), t);
  }

  /** Without (B) recovery completes a step that has not taken effect, and the next step takes
      effect first. */
  lemma UnsoundLookupOutOfOrder(asm: Assumptions) returns (acts: seq<Action>, s: State)
    requires !asm.lookupIsSound
    ensures Reached(asm, PAIR, 0, acts, s) && s.ledger.effects == [1, 0]
  {
    var before := UpToRecovery(asm, false);
    ReachSkip(asm, false);
    ReachSecondStep(asm, false);
    s := ReachEffectBeforeEarlier(asm);
    var skip := [DoReadSteps(1), DoClaimStep(1)];
    var claim := [Tick(0), DoClaimStep(1)];
    var effects := [DoJiraEffect(1), DoJiraEffect(0)];
    ChainOfThree(asm, PAIR, RecoveredUnderHolder(false), skip, Skipped(false), claim, BothIn(false), effects, s);
    LeadsThrough(asm, PAIR, Init(PAIR, 0), before, RecoveredUnderHolder(false), skip + claim + effects, s);
    acts := before + (skip + claim + effects);
  }

  // ----- exactly which result needs which assumption -----

  /** Over all runs, as long as no recovery ends the execution, effects come in step order. */
  ghost predicate EffectsInOrderUntilRecovery(asm: Assumptions) {
    forall c: Config, now: int, acts: seq<Action>, s: State ::
      Reached(asm, c, now, acts, s) && !WasRecovered(s.record) ==> Increasing(s.ledger.effects)
  }

  ghost predicate EffectsAlwaysInOrder(asm: Assumptions) {
    forall c: Config, now: int, acts: seq<Action>, s: State ::
      Reached(asm, c, now, acts, s) ==> Increasing(s.ledger.effects)
  }

  ghost predicate FirstEffectsAlwaysInOrder(asm: Assumptions) {
    forall c: Config, now: int, acts: seq<Action>, s: State ::
      Reached(asm, c, now, acts, s) ==> FirstInOrder(c, s.ledger.effects)
  }

  /** Until a recovery ends the execution effects are in step order over all runs if and only if (A). */
  lemma EffectOrderExactly(asm: Assumptions)
    ensures EffectsInOrderUntilRecovery(asm) <==> asm.retryableMeansNoEffect
  {
    if asm.retryableMeansNoEffect {
      forall c: Config, now: int, acts: seq<Action>, s: State | Reached(asm, c, now, acts, s) && !WasRecovered(s.record)
        ensures Increasing(s.ledger.effects)
      {
        EffectsInOrder(asm, c, now, acts, s);
      }
    } else {
      var acts, s := LateEffectOutOfOrder(asm);
      assert s.ledger.effects[1] > s.ledger.effects[2];
    }
  }

  /** They are so in every state, also after a recovery, if and only if (A) and (B). */
  lemma EffectOrderAlwaysExactly(asm: Assumptions)
    ensures EffectsAlwaysInOrder(asm) <==> asm.retryableMeansNoEffect && asm.lookupIsSound
  {
    if asm.retryableMeansNoEffect && asm.lookupIsSound {
      forall c: Config, now: int, acts: seq<Action>, s: State | Reached(asm, c, now, acts, s)
        ensures Increasing(s.ledger.effects)
      {
        EffectsInOrder(asm, c, now, acts, s);
      }
    } else if asm.lookupIsSound {
      var acts, s := LateEffectOutOfOrder(asm);
      assert s.ledger.effects[1] > s.ledger.effects[2];
    } else {
      var acts, s := UnsoundLookupOutOfOrder(asm);
      assert s.ledger.effects[0] > s.ledger.effects[1];
    }
  }

  /** The first effects of the steps are in step order in every state if and only if (B). */
  lemma FirstEffectOrderExactly(asm: Assumptions)
    ensures FirstEffectsAlwaysInOrder(asm) <==> asm.lookupIsSound
  {
    if asm.lookupIsSound {
      forall c: Config, now: int, acts: seq<Action>, s: State | Reached(asm, c, now, acts, s)
        ensures FirstInOrder(c, s.ledger.effects)
      {
        CompletedTookEffect(asm, c, now, acts, s);
      }
    } else {
      var acts, s := UnsoundLookupOutOfOrder(asm);
      assert CallsJira(PAIR.steps[0]) && s.ledger.effects[0] == 1 && 0 !in s.ledger.effects[..0];
      assert !FirstInOrder(PAIR, s.ledger.effects);
    }
  }

  /** Over all runs, a step that reads as COMPLETED has taken effect. */
  ghost predicate CompletedAlwaysTookEffect(asm: Assumptions) {
    forall c: Config, now: int, acts: seq<Action>, s: State, i: nat ::
      (Reached(asm, c, now, acts, s) && i < |c.steps| && i < |s.record.steps| &&
       s.record.steps[i].status.Completed? && CallsJira(c.steps[i])) ==> Count(s.ledger.effects, i) > 0
  }

  /** Recovery keeps step-level truth if and only if (B). */
  lemma StepTruthExactly(asm: Assumptions)
    ensures CompletedAlwaysTookEffect(asm) <==> asm.lookupIsSound
  {
    if asm.lookupIsSound {
      forall c: Config, now: int, acts: seq<Action>, s: State, i: nat |
        Reached(asm, c, now, acts, s) && i < |c.steps| && i < |s.record.steps| &&
        s.record.steps[i].status.Completed? && CallsJira(c.steps[i])
        ensures Count(s.ledger.effects, i) > 0
      {
        CompletedTookEffect(asm, c, now, acts, s);
      }
    } else {
      var acts := UpToRecovery(asm, false);
      var s := RecoveredUnderHolder(false);
      assert s.record.steps[0].status.Completed? && CallsJira(PAIR.steps[0]) && s.ledger.effects == [];
    }
  }

  /** Over all runs, the effects of an execution that ended as `status` are final. */
  ghost predicate EffectsOfEndedFinal(asm: Assumptions, status: Status) {
    forall c: Config, now: int, acts: seq<Action>, s: State ::
      Reached(asm, c, now, acts, s) && s.record.exec.status == status && !WasRecovered(s.record) ==>
        EffectsFinal(asm, c, s)
  }

  lemma NothingInFlightIsFinal(asm: Assumptions, c: Config, now: int, acts: seq<Action>, s: State)
    requires Reached(asm, c, now, acts, s) && s.record.exec.status.Terminal() && !WasRecovered(s.record)
    requires if s.record.exec.status.Completed? then asm.retryableMeansNoEffect
             else asm.retryableMeansNoEffect && asm.rejectionMeansNoEffect
    ensures EffectsFinal(asm, c, s)
  {
    if s.record.exec.status.Completed? {
      CompletedExactlyOnce(asm, c, now, acts, s);
    } else {
      FailedLeavesNothing(asm, c, now, acts, s);
    }
    EffectsFinalExactly(asm, c, now, acts, s);
  }

  /** The effects of every COMPLETED execution are final if and only if (A), and those of every
      execution that the processor has failed if and only if (A) and (R). */
  lemma FinalEffectsExactly(asm: Assumptions)
    ensures EffectsOfEndedFinal(asm, Completed) <==> asm.retryableMeansNoEffect
    ensures EffectsOfEndedFinal(asm, Failed) <==> asm.retryableMeansNoEffect && asm.rejectionMeansNoEffect
  {
    hide Reached, WasRecovered, EffectsFinal;
    if asm.retryableMeansNoEffect {
      forall c: Config, now: int, acts: seq<Action>, s: State |
        Reached(asm, c, now, acts, s) && s.record.exec.status == Completed && !WasRecovered(s.record)
        ensures EffectsFinal(asm, c, s)
      {
        NothingInFlightIsFinal(asm, c, now, acts, s);
      }
    } else {
      var acts, s := CompletedInFlight(asm);
      EffectsFinalExactly(asm, PAIR, 0, acts, s);
    }
    if asm.retryableMeansNoEffect && asm.rejectionMeansNoEffect {
      forall c: Config, now: int, acts: seq<Action>, s: State |
        Reached(asm, c, now, acts, s) && s.record.exec.status == Failed && !WasRecovered(s.record)
        ensures EffectsFinal(asm, c, s)
      {
        NothingInFlightIsFinal(asm, c, now, acts, s);
      }
    } else {
      var acts, s := FailedInFlight(asm);
      EffectsFinalExactly(asm, PAIR, 0, acts, s);
    }
  }
}
