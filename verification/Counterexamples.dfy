/** Concrete runs that show what the safety results need and where they end. */
module Counterexamples {

  import opened Text
  import opened Workflow
  import opened Statements
  import opened Protocol
  import opened Invariant
  import opened Honesty
  import opened Safety

  const FIRST_COMMENT := StepDef("s1", "w1", 1, JiraComment, false, true, "GOV-1", "", "hello")
  const SECOND_COMMENT := StepDef("s2", "w2", 2, JiraComment, false, true, "GOV-1", "", "bye")
  const SINGLE := Config("e", [FIRST_COMMENT])
  const PAIR := Config("e", [FIRST_COMMENT, SECOND_COMMENT])

  ghost predicate Step(asm: Assumptions, c: Config, s: State, act: Action, t: State) {
    InRange(c, s) && Enabled(c, s, act) && Permits(asm, s, act) && t == Apply(c, s, act)
  }

  lemma RunOfTwo(asm: Assumptions, c: Config, s: State, a: Action, t: State, b: Action, u: State)
    requires Step(asm, c, s, a, t) && Step(asm, c, t, b, u)
    ensures Leads(asm, c, s, [a, b], u)
  {
    assert Leads(asm, c, u, [], u);
    assert [b][1..] == [] && [a, b][1..] == [b];
    assert Leads(asm, c, t, [b], u);
  }

  lemma ChainOfThree(asm: Assumptions, c: Config, s: State, p: seq<Action>, t: State, q: seq<Action>, u: State,
              r: seq<Action>, v: State)
    requires Leads(asm, c, s, p, t) && Leads(asm, c, t, q, u) && Leads(asm, c, u, r, v)
    ensures Leads(asm, c, s, p + q + r, v)
  {
    LeadsThrough(asm, c, s, p, t, q, u);
    LeadsThrough(asm, c, s, p + q, u, r, v);
  }

  /** The first attempt has read the execution as PENDING. */
  function Seen(c: Config): State {
    Init(c, 0).(actors := [Attempt("u", [], [], ReadSteps(Pending))])
  }

  /** It has read the steps and claimed the execution. */
  function Claimed(c: Config): State {
    var init := Init(c, 0);
    init.(record := init.record.(exec := ExecRow(Running, Some(0), None)),
          actors := [Attempt("u", init.record.steps, [], Loop(0))])
  }

  /** It has claimed its first step and is in the handler. */
  function InHandler(c: Config): State
    requires |c.steps| > 0
  {
    var s := Claimed(c);
    s.(record := s.record.(steps := s.record.steps[0 := StepRow(Running, None)]),
       actors := [Attempt("u", s.record.steps, [], Calling(0, false))],
       ledger := s.ledger.(claims := s.ledger.claims[0 := 1], calls := s.ledger.calls[0 := 1]))
  }

  const TO_HANDLER: seq<Action> :=
    [StartAttempt("u"), DoReadExecution(0)] + [DoReadSteps(0), DoClaimExecution(0)] + [Tick(0), DoClaimStep(0)]

  lemma ReachSeen(asm: Assumptions, c: Config)
    ensures Leads(asm, c, Init(c, 0), [StartAttempt("u"), DoReadExecution(0)], Seen(c))
  {
    var s := Apply(c, Init(c, 0), StartAttempt("u"));
    assert Apply(c, s, DoReadExecution(0)).actors == Seen(c).actors;
    RunOfTwo(asm, c, Init(c, 0), StartAttempt("u"), s, DoReadExecution(0), Seen(c));
  }

  lemma ReachClaimed(asm: Assumptions, c: Config)
    requires |c.steps| > 0
    ensures Leads(asm, c, Seen(c), [DoReadSteps(0), DoClaimExecution(0)], Claimed(c))
  {
    var s := Apply(c, Seen(c), DoReadSteps(0));
    assert Apply(c, s, DoClaimExecution(0)).actors == Claimed(c).actors;
    RunOfTwo(asm, c, Seen(c), DoReadSteps(0), s, DoClaimExecution(0), Claimed(c));
  }

  lemma ReachCall(asm: Assumptions, c: Config)
    requires |c.steps| > 0
    ensures Leads(asm, c, Claimed(c), [Tick(0), DoClaimStep(0)], InHandler(c))
  {
    var s := Apply(c, Claimed(c), Tick(0));
    assert Apply(c, s, DoClaimStep(0)).actors == InHandler(c).actors;
    RunOfTwo(asm, c, Claimed(c), Tick(0), s, DoClaimStep(0), InHandler(c));
  }

  lemma ReachHandler(asm: Assumptions, c: Config)
    requires |c.steps| > 0
    ensures Leads(asm, c, Init(c, 0), TO_HANDLER, InHandler(c))
  {
    ReachSeen(asm, c);
    ReachClaimed(asm, c);
    ReachCall(asm, c);
    ChainOfThree(asm, c, Init(c, 0), [StartAttempt("u"), DoReadExecution(0)], Seen(c),
      [DoReadSteps(0), DoClaimExecution(0)], Claimed(c),
      [Tick(0), DoClaimStep(0)], InHandler(c));
  }

  // ----- a retryable failure after an effect -----

  const EFFECT_THEN_ERROR: seq<Action> := [DoJiraEffect(0), DoHandlerEnd(0, RetryableError, false)]
  const REVERT: seq<Action> := EFFECT_THEN_ERROR + [DoWriteStep(0), StartAttempt("u")]

  /** The request took effect, yet the call ended retryably and the step was reverted; then a
      second attempt starts. */
  function Reverted(): State {
    State(
      Record(ExecRow(Running, Some(0), None), [StepRow(Pending, None)]), 0,
      [Attempt("u", [StepRow(Pending, None)], [], Threw(TechnicalFailure)), Attempt("u", [], [], ReadExecution)], [],
      Ledger([0], multiset{}, [1], [1], [1], [1], [1]), 0)
  }

  function EndedRetryably(): State {
    State(
      Record(ExecRow(Running, Some(0), None), [StepRow(Running, None)]), 0,
      [Attempt("u", [StepRow(Pending, None)], [], FailedRetryably(0))], [],
      Ledger([0], multiset{}, [1], [1], [1], [1], [0]), 0)
  }

  lemma ReachRetryableEnd(asm: Assumptions)
    requires !asm.retryableMeansNoEffect
    ensures Leads(asm, SINGLE, InHandler(SINGLE), EFFECT_THEN_ERROR, EndedRetryably())
  {
    var s0 := InHandler(SINGLE);
    var s1 := Apply(SINGLE, s0, DoJiraEffect(0));
    var s2 := Apply(SINGLE, s1, DoHandlerEnd(0, RetryableError, false));
    assert InitRecord(SINGLE).steps == [StepRow(Pending, None)] && Zeros(1) == [0];
    assert s2.actors == EndedRetryably().actors;
    assert s2.ledger == EndedRetryably().ledger;
    assert s2.record == EndedRetryably().record;
    RunOfTwo(asm, SINGLE, s0, DoJiraEffect(0), s1, DoHandlerEnd(0, RetryableError, false), s2);
  }

  lemma ReachRevert(asm: Assumptions)
    ensures Leads(asm, SINGLE, EndedRetryably(), [DoWriteStep(0), StartAttempt("u")], Reverted())
  {
    var s1 := Apply(SINGLE, EndedRetryably(), DoWriteStep(0));
    var s2 := Apply(SINGLE, s1, StartAttempt("u"));
    assert s2.actors == Reverted().actors;
    RunOfTwo(asm, SINGLE, EndedRetryably(), DoWriteStep(0), s1, StartAttempt("u"), s2);
  }

  lemma ReachReverted(asm: Assumptions)
    requires !asm.retryableMeansNoEffect
    ensures Leads(asm, SINGLE, InHandler(SINGLE), REVERT, Reverted())
  {
    ReachRetryableEnd(asm);
    ReachRevert(asm);
    LeadsThrough(asm, SINGLE, InHandler(SINGLE), EFFECT_THEN_ERROR, EndedRetryably(),
      [DoWriteStep(0), StartAttempt("u")], Reverted());
  }

  const REPEAT: seq<Action> := [DoReadExecution(1), DoReadSteps(1)] + [DoClaimStep(1), DoJiraEffect(1)]

  /** The second attempt has come to the reverted step. */
  function Back(): State {
    var s := Reverted();
    s.(actors := [s.actors[0], Attempt("u", s.record.steps, [], Loop(0))])
  }

  lemma ComeBack(asm: Assumptions)
    ensures Leads(asm, SINGLE, Reverted(), [DoReadExecution(1), DoReadSteps(1)], Back())
  {
    var s1 := Apply(SINGLE, Reverted(), DoReadExecution(1));
    assert Apply(SINGLE, s1, DoReadSteps(1)).actors == Back().actors;
    RunOfTwo(asm, SINGLE, Reverted(), DoReadExecution(1), s1, DoReadSteps(1), Back());
  }

  lemma ApplyAgain(asm: Assumptions) returns (t: State)
    ensures Leads(asm, SINGLE, Back(), [DoClaimStep(1), DoJiraEffect(1)], t) && t.ledger.effects == [0, 0]
  {
    var s1 := Apply(SINGLE, Back(), DoClaimStep(1));
    t := Apply(SINGLE, s1, DoJiraEffect(1));
    RunOfTwo(asm, SINGLE, Back(), DoClaimStep(1), s1, DoJiraEffect(1), t);
  }

  lemma ReachRepeated(asm: Assumptions) returns (t: State)
    ensures Leads(asm, SINGLE, Reverted(), REPEAT, t) && t.ledger.effects == [0, 0]
  {
    ComeBack(asm);
    t := ApplyAgain(asm);
    LeadsThrough(asm, SINGLE, Reverted(), [DoReadExecution(1), DoReadSteps(1)], Back(),
      [DoClaimStep(1), DoJiraEffect(1)], t);
  }

  lemma RetryAfterEffectRepeatsIt(asm: Assumptions) returns (acts: seq<Action>, s: State)
    requires !asm.retryableMeansNoEffect
    ensures Reached(asm, SINGLE, 0, acts, s) && Count(s.ledger.effects, 0) == 2
  {
    ReachHandler(asm, SINGLE);
    ReachReverted(asm);
    s := ReachRepeated(asm);
    ChainOfThree(asm, SINGLE, Init(SINGLE, 0), TO_HANDLER, InHandler(SINGLE), REVERT, Reverted(), REPEAT, s);
    acts := TO_HANDLER + REVERT + REPEAT;
  }

  /** No step of any execution takes effect twice in any run. */
  ghost predicate NeverTwice(asm: Assumptions) {
    forall c: Config, now: int, acts: seq<Action>, s: State, i: nat ::
      Reached(asm, c, now, acts, s) && i < |c.steps| ==> Count(s.ledger.effects, i) <= 1
  }

  /** Requests take effect at most once if and only if a retryable failure had no effect. */
  lemma AtMostOnceExactly(asm: Assumptions)
    ensures NeverTwice(asm) <==> asm.retryableMeansNoEffect
  {
    if asm.retryableMeansNoEffect {
      forall c: Config, now: int, acts: seq<Action>, s: State, i: nat | Reached(asm, c, now, acts, s) && i < |c.steps|
        ensures Count(s.ledger.effects, i) <= 1
      {
        EffectAtMostOnce(asm, c, now, acts, s, i);
      }
    } else {
      var acts, s := RetryAfterEffectRepeatsIt(asm);
    }
  }

  // ----- recovery rewrites a step that is still held -----

  /** While the first attempt is in the handler of step 0, its request applied or not, a second
      attempt has read the execution as RUNNING and a recovery run has scanned it. */
  function Scanned(applied: bool): State {
    var s := InHandler(PAIR);
    s.(now := MINUTE,
       actors := [
         s.actors[0].(pc := Calling(0, applied)),
         Attempt("u", [], [], ReadSteps(Running)),
         Recovery(1, ReadRunning(s.record.exec))],
       ledger := s.ledger.(effects := if applied then [0] else []))
  }

  function Noise(applied: bool): Action {
    if applied then DoJiraEffect(0) else Tick(0)
  }

  function Joined(applied: bool, now: int, pc: Pc): State {
    var s := InHandler(PAIR);
    s.(now := now,
       actors := [s.actors[0].(pc := Calling(0, applied)), Attempt("u", [], [], pc)],
       ledger := s.ledger.(effects := if applied then [0] else []))
  }

  lemma ReachJoin(asm: Assumptions, applied: bool)
    ensures Leads(asm, PAIR, InHandler(PAIR), [Noise(applied), StartAttempt("u")], Joined(applied, 0, ReadExecution))
  {
    var s1 := Apply(PAIR, InHandler(PAIR), Noise(applied));
    var s2 := Apply(PAIR, s1, StartAttempt("u"));
    assert s2.actors == Joined(applied, 0, ReadExecution).actors;
    RunOfTwo(asm, PAIR, InHandler(PAIR), Noise(applied), s1, StartAttempt("u"), s2);
  }

  lemma ReachStale(asm: Assumptions, applied: bool)
    ensures Leads(asm, PAIR, Joined(applied, 0, ReadExecution), [DoReadExecution(1), Tick(MINUTE)],
      Joined(applied, MINUTE, ReadSteps(Running)))
  {
    var s0 := Joined(applied, 0, ReadExecution);
    var s1 := Apply(PAIR, s0, DoReadExecution(1));
    assert s1.actors == Joined(applied, MINUTE, ReadSteps(Running)).actors;
    RunOfTwo(asm, PAIR, s0, DoReadExecution(1), s1, Tick(MINUTE), Joined(applied, MINUTE, ReadSteps(Running)));
  }

  lemma ReachScan(asm: Assumptions, applied: bool)
    ensures Leads(asm, PAIR, Joined(applied, MINUTE, ReadSteps(Running)), [StartRecovery(1), DoScan(2)],
      Scanned(applied))
  {
    var s0 := Joined(applied, MINUTE, ReadSteps(Running));
    var s1 := Apply(PAIR, s0, StartRecovery(1));
    assert Apply(PAIR, s1, DoScan(2)).actors == Scanned(applied).actors;
    RunOfTwo(asm, PAIR, s0, StartRecovery(1), s1, DoScan(2), Scanned(applied));
  }

  lemma ReachScanned(asm: Assumptions, applied: bool)
    ensures Leads(asm, PAIR, InHandler(PAIR),
      [Noise(applied), StartAttempt("u")] + [DoReadExecution(1), Tick(MINUTE)] + [StartRecovery(1), DoScan(2)],
      Scanned(applied))
  {
    ReachJoin(asm, applied);
    ReachStale(asm, applied);
    ReachScan(asm, applied);
    ChainOfThree(asm, PAIR, InHandler(PAIR), [Noise(applied), StartAttempt("u")], Joined(applied, 0, ReadExecution),
      [DoReadExecution(1), Tick(MINUTE)], Joined(applied, MINUTE, ReadSteps(Running)),
      [StartRecovery(1), DoScan(2)], Scanned(applied));
  }

  /** Recovery finds a comment for step 0, whether or not there is one, and completes the step. */
  function RecoveredUnderHolder(applied: bool): State {
    var s := Scanned(applied);
    s.(record := Record(
         ExecRow(Failed, Some(0), Some(RecoveryResult(None, Running, 1, [], [StepRef("s1", "w1")]))),
         [StepRow(Completed, Some(RecoveredOutput(FIRST_COMMENT, "7"))), StepRow(Pending, None)]),
       actors := s.actors[2 := Recovery(1, RegisterRecovery)],
       wins := 1)
  }

  lemma Targets()
    ensures LookupTargets(PAIR, [StepRow(Running, None), StepRow(Pending, None)]) == [0]
    ensures RunningRefs(PAIR, [StepRow(Running, None), StepRow(Pending, None)], map[0 := "7"], true) ==
      [StepRef("s1", "w1")]
    ensures RunningRefs(PAIR, [StepRow(Running, None), StepRow(Pending, None)], map[0 := "7"], false) == []
  {
    var rows := [StepRow(Running, None), StepRow(Pending, None)];
    assert rows[..1] == [StepRow(Running, None)] && rows[..1][..0] == [];
    assert LookupTargets(PAIR, rows[..1]) == [0];
    assert RunningRefs(PAIR, rows[..1], map[0 := "7"], true) == [StepRef("s1", "w1")];
    assert RunningRefs(PAIR, rows[..1], map[0 := "7"], false) == [];
  }

  function Answered(applied: bool): State {
    var s := Scanned(applied);
    s.(actors := s.actors[2 := Recovery(1, LookUp(s.record.exec, [], map[0 := "7"]))])
  }

  function Asking(applied: bool): State {
    var s := Scanned(applied);
    s.(actors := s.actors[2 := Recovery(1, LookUp(s.record.exec, [0], map[]))])
  }

  lemma ListRunningStep(asm: Assumptions, applied: bool)
    ensures Step(asm, PAIR, Scanned(applied), DoReadRunning(2), Asking(applied))
  {
    hide LookupTargets;
    Targets();
    assert Scanned(applied).record.steps == [StepRow(Running, None), StepRow(Pending, None)];
    assert Apply(PAIR, Scanned(applied), DoReadRunning(2)).actors == Asking(applied).actors;
  }

  lemma ReachAnswer(asm: Assumptions, applied: bool)
    requires asm.lookupIsSound ==> applied
    ensures Leads(asm, PAIR, Scanned(applied), [DoReadRunning(2), DoLookUp(2, Some("7"))], Answered(applied))
  {
    ListRunningStep(asm, applied);
    assert Apply(PAIR, Asking(applied), DoLookUp(2, Some("7"))).actors == Answered(applied).actors;
    RunOfTwo(asm, PAIR, Scanned(applied), DoReadRunning(2), Asking(applied), DoLookUp(2, Some("7")), Answered(applied));
  }

  lemma RecoverRows(applied: bool)
    ensures
      var r := Answered(applied).record;
      RecoverTransaction(PAIR, r, r.exec, MINUTE, 1, map[0 := "7"]) ==
      Option.Some(RecoveredUnderHolder(applied).record)
  {
    hide RunningRefs;
    Targets();
    var rows := Answered(applied).record.steps;
    assert rows == [StepRow(Running, None), StepRow(Pending, None)];
    assert RecoveredRows(PAIR, rows, map[0 := "7"]) == RecoveredUnderHolder(applied).record.steps;
  }

  lemma CommitRecovery(asm: Assumptions, applied: bool)
    ensures Step(asm, PAIR, Answered(applied), DoRecover(2), RecoveredUnderHolder(applied))
  {
    RecoverRows(applied);
    assert Apply(PAIR, Answered(applied), DoRecover(2)).actors == RecoveredUnderHolder(applied).actors;
  }

  lemma ReachRecovery(asm: Assumptions, applied: bool)
    ensures Leads(asm, PAIR, Answered(applied), [Tick(0), DoRecover(2)], RecoveredUnderHolder(applied))
  {
    CommitRecovery(asm, applied);
    RunOfTwo(asm, PAIR, Answered(applied), Tick(0), Answered(applied), DoRecover(2), RecoveredUnderHolder(applied));
  }

  lemma ReachRecovered(asm: Assumptions, applied: bool)
    requires asm.lookupIsSound ==> applied
    ensures Leads(asm, PAIR, Scanned(applied),
      [DoReadRunning(2), DoLookUp(2, Some("7"))] + [Tick(0), DoRecover(2)], RecoveredUnderHolder(applied))
  {
    ReachAnswer(asm, applied);
    ReachRecovery(asm, applied);
    LeadsThrough(asm, PAIR, Scanned(applied), [DoReadRunning(2), DoLookUp(2, Some("7"))], Answered(applied),
      [Tick(0), DoRecover(2)], RecoveredUnderHolder(applied));
  }

  /** The second attempt has read the steps and skipped step 0. */
  function Skipped(applied: bool): State {
    var s := RecoveredUnderHolder(applied);
    s.(actors := s.actors[1 :=
      Attempt("u", s.record.steps, [EntryOf(FIRST_COMMENT, RecoveredOutput(FIRST_COMMENT, "7"))], Loop(1))])
  }

  lemma ReachSkip(asm: Assumptions, applied: bool)
    ensures Leads(asm, PAIR, RecoveredUnderHolder(applied), [DoReadSteps(1), DoClaimStep(1)], Skipped(applied))
  {
    var s0 := RecoveredUnderHolder(applied);
    var s1 := Apply(PAIR, s0, DoReadSteps(1));
    var s2 := Apply(PAIR, s1, DoClaimStep(1));
    assert s2.actors[1].outputs == Skipped(applied).actors[1].outputs;
    assert s2.actors[1] == Skipped(applied).actors[1];
    assert s2.actors == Skipped(applied).actors;
    RunOfTwo(asm, PAIR, s0, DoReadSteps(1), s1, DoClaimStep(1), Skipped(applied));
  }

  /** It claims step 1 while the first attempt is still in the handler of step 0. */
  function BothIn(applied: bool): State {
    var s := Skipped(applied);
    s.(record := s.record.(steps := s.record.steps[1 := StepRow(Running, None)]),
       actors := s.actors[1 := s.actors[1].(pc := Calling(1, false))],
       ledger := s.ledger.(claims := s.ledger.claims[1 := 1], calls := s.ledger.calls[1 := 1]))
  }

  lemma ReachSecondStep(asm: Assumptions, applied: bool)
    ensures Leads(asm, PAIR, Skipped(applied), [Tick(0), DoClaimStep(1)], BothIn(applied))
  {
    var s0 := Skipped(applied);
    assert s0.record.steps[1] == StepRow(Pending, None) && s0.ledger.claims[1] == s0.ledger.calls[1] == 0;
    assert s0.actors[1].snapshot[1].output.None?;
    assert Apply(PAIR, s0, DoClaimStep(1)).actors == BothIn(applied).actors;
    RunOfTwo(asm, PAIR, s0, Tick(0), s0, DoClaimStep(1), BothIn(applied));
  }

  /** Only then does the first attempt's call on step 0 end, in an error. */
  function Ended(applied: bool, outcome: HandlerOutcome): State {
    var s := BothIn(applied);
    if outcome.BusinessError? then
      s.(actors := s.actors[0 := s.actors[0].(pc := Rejected(0))])
    else
      s.(actors := s.actors[0 := s.actors[0].(pc := FailedRetryably(0))],
         ledger := s.ledger.(retryFailures := s.ledger.retryFailures[0 := 1],
                             unsafeFailures := s.ledger.unsafeFailures[0 := if applied then 1 else 0]))
  }

  lemma EndHeldCall(asm: Assumptions, applied: bool, outcome: HandlerOutcome)
    requires outcome.RetryableError? || outcome.BusinessError?
    requires asm.retryableMeansNoEffect && outcome.RetryableError? ==> !applied
    requires asm.rejectionMeansNoEffect && outcome.BusinessError? ==> !applied
    ensures Step(asm, PAIR, BothIn(applied), DoHandlerEnd(0, outcome, false), Ended(applied, outcome))
  {
    assert Apply(PAIR, BothIn(applied), DoHandlerEnd(0, outcome, false)).actors == Ended(applied, outcome).actors;
  }

  lemma EndedFacts(applied: bool, outcome: HandlerOutcome)
    requires outcome.RetryableError? || outcome.BusinessError?
    ensures var s := Ended(applied, outcome);
      && InRange(PAIR, s) && AttemptAt(s, 0)
      && s.actors[0].pc == (if outcome.BusinessError? then Rejected(0) else FailedRetryably(0))
      && s.record.steps[1].status.Running?
  {
  }

  lemma WriteOverRecovery(asm: Assumptions, applied: bool, outcome: HandlerOutcome) returns (t: State)
    requires outcome.RetryableError? || outcome.BusinessError?
    ensures !InOrder(t.record.steps)
    ensures Step(asm, PAIR, Ended(applied, outcome), DoWriteStep(0), t)
  {
    hide Ended;
    EndedFacts(applied, outcome);
    var s := Ended(applied, outcome);
    t := Apply(PAIR, s, DoWriteStep(0));
    assert t.record.steps[1].status.Running? && !t.record.steps[0].status.Completed?;
  }

  lemma EndInError(asm: Assumptions, applied: bool, outcome: HandlerOutcome) returns (t: State)
    requires outcome.RetryableError? || outcome.BusinessError?
    requires asm.retryableMeansNoEffect && outcome.RetryableError? ==> !applied
    requires asm.rejectionMeansNoEffect && outcome.BusinessError? ==> !applied
    ensures !InOrder(t.record.steps)
    ensures Leads(asm, PAIR, BothIn(applied), [DoHandlerEnd(0, outcome, false), DoWriteStep(0)], t)
  {
    EndHeldCall(asm, applied, outcome);
    t := WriteOverRecovery(asm, applied, outcome);
    RunOfTwo(asm, PAIR, BothIn(applied), DoHandlerEnd(0, outcome, false), Ended(applied, outcome), DoWriteStep(0), t);
  }

  lemma ReachDisorder(asm: Assumptions, applied: bool, outcome: HandlerOutcome) returns (t: State)
    requires outcome.RetryableError? || outcome.BusinessError?
    requires asm.retryableMeansNoEffect && outcome.RetryableError? ==> !applied
    requires asm.rejectionMeansNoEffect && outcome.BusinessError? ==> !applied
    ensures !InOrder(t.record.steps)
    ensures Leads(asm, PAIR, RecoveredUnderHolder(applied),
      [DoReadSteps(1), DoClaimStep(1)] + [Tick(0), DoClaimStep(1)] +
      [DoHandlerEnd(0, outcome, false), DoWriteStep(0)], t)
  {
    ReachSkip(asm, applied);
    ReachSecondStep(asm, applied);
    t := EndInError(asm, applied, outcome);
    ChainOfThree(asm, PAIR, RecoveredUnderHolder(applied), [DoReadSteps(1), DoClaimStep(1)], Skipped(applied),
      [Tick(0), DoClaimStep(1)], BothIn(applied), [DoHandlerEnd(0, outcome, false), DoWriteStep(0)], t);
  }

  lemma UpToRecovery(asm: Assumptions, applied: bool) returns (acts: seq<Action>)
    requires asm.lookupIsSound ==> applied
    ensures Reached(asm, PAIR, 0, acts, RecoveredUnderHolder(applied))
  {
    ReachHandler(asm, PAIR);
    ReachScanned(asm, applied);
    ReachRecovered(asm, applied);
    var join := [Noise(applied), StartAttempt("u")];
    var scan := join + [DoReadExecution(1), Tick(MINUTE)] + [StartRecovery(1), DoScan(2)];
    var recover := [DoReadRunning(2), DoLookUp(2, Some("7"))] + [Tick(0), DoRecover(2)];
    ChainOfThree(asm, PAIR, Init(PAIR, 0), TO_HANDLER, InHandler(PAIR), scan, Scanned(applied),
      recover, RecoveredUnderHolder(applied));
    acts := TO_HANDLER + scan + recover;
  }

  /** Without one of the three assumptions some run gets the statuses out of order. */
  lemma OrderNeedsEveryAssumption(asm: Assumptions) returns (acts: seq<Action>, s: State)
    requires asm != EVERYTHING
    ensures Reached(asm, PAIR, 0, acts, s) && !InOrder(s.record.steps)
  {
    var applied := asm.lookupIsSound;
    var outcome := if asm.rejectionMeansNoEffect then RetryableError else BusinessError;
    acts := UpToRecovery(asm, applied);
    s := ReachDisorder(asm, applied, outcome);
    var skip := [DoReadSteps(1), DoClaimStep(1)];
    var more := skip + [Tick(0), DoClaimStep(1)] + [DoHandlerEnd(0, outcome, false), DoWriteStep(0)];
    LeadsThrough(asm, PAIR, Init(PAIR, 0), acts, RecoveredUnderHolder(applied), more, s);
    acts := acts + more;
  }

  ghost predicate OrderAlways(asm: Assumptions) {
    forall c: Config, now: int, acts: seq<Action>, s: State :: Reached(asm, c, now, acts, s) ==> InOrder(s.record.steps)
  }

  /** Statuses stay in order over every run if and only if all three assumptions are made. */
  lemma OrderExactly(asm: Assumptions)
    ensures OrderAlways(asm) <==> asm == EVERYTHING
  {
    if asm == EVERYTHING {
      forall c: Config, now: int, acts: seq<Action>, s: State | Reached(asm, c, now, acts, s)
        ensures InOrder(s.record.steps)
      {
        AlwaysInOrder(c, now, acts, s);
      }
    } else {
      var acts, s := OrderNeedsEveryAssumption(asm);
    }
  }

  // ----- an execution that recovery has failed is not frozen -----

  lemma TrimIssueKey()
    ensures Trim("GOV-1") == "GOV-1"
  {
  }

  /** Even with every assumption, a live attempt goes on to claim the next step after recovery has
      failed its execution. */
  lemma RecoveryDoesNotFreezeSteps() returns (acts: seq<Action>, s: State, more: seq<Action>, t: State)
    ensures Reached(EVERYTHING, PAIR, 0, acts, s) && WasRecovered(s.record)
    ensures Leads(EVERYTHING, PAIR, s, more, t)
    ensures |s.record.steps| == |t.record.steps| == 2
    ensures s.record.steps[1].status.Pending? && t.record.steps[1].status.Running?
  {
    acts := UpToRecovery(EVERYTHING, true);
    s := RecoveredUnderHolder(true);
    more, t := HolderGoesOn();
  }

  const ANSWER: Body := Comment("GOV-1", "7", false)

  /** The first attempt has completed step 0 once more. */
  function Rewritten(): State {
    var s := RecoveredUnderHolder(true);
    var output := Enrich(FIRST_COMMENT, ANSWER);
    s.(record := s.record.(steps := s.record.steps[0 := StepRow(Completed, Some(output))]),
       actors := s.actors[0 := Attempt("u", InitRecord(PAIR).steps, [EntryOf(FIRST_COMMENT, output)], Loop(1))])
  }

  lemma ReachRewrite()
    ensures Leads(EVERYTHING, PAIR, RecoveredUnderHolder(true),
      [DoHandlerEnd(0, Success(ANSWER), false), DoWriteStep(0)], Rewritten())
  {
    var s0 := RecoveredUnderHolder(true);
    TrimIssueKey();
    var s1 := Apply(PAIR, s0, DoHandlerEnd(0, Success(ANSWER), false));
    assert s1.actors[0] == Attempt("u", InitRecord(PAIR).steps, [], Succeeded(0, ANSWER));
    var t := Apply(PAIR, s1, DoWriteStep(0));
    assert t.actors[0] == Rewritten().actors[0];
    assert t.actors == Rewritten().actors;
    RunOfTwo(EVERYTHING, PAIR, s0, DoHandlerEnd(0, Success(ANSWER), false), s1, DoWriteStep(0), Rewritten());
  }

  lemma HolderGoesOn() returns (more: seq<Action>, t: State)
    ensures Leads(EVERYTHING, PAIR, RecoveredUnderHolder(true), more, t)
    ensures |t.record.steps| == 2 && t.record.steps[1].status.Running?
  {
    ReachRewrite();
    var s0 := Rewritten();
    assert s0.record.steps[1] == StepRow(Pending, None);
    t := Apply(PAIR, s0, DoClaimStep(0));
    RunOfTwo(EVERYTHING, PAIR, s0, Tick(0), s0, DoClaimStep(0), t);
    var rewrite := [DoHandlerEnd(0, Success(ANSWER), false), DoWriteStep(0)];
    LeadsThrough(EVERYTHING, PAIR, RecoveredUnderHolder(true), rewrite, s0, [Tick(0), DoClaimStep(0)], t);
    more := rewrite + [Tick(0), DoClaimStep(0)];
  }
}
