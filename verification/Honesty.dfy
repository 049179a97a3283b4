/** What the protocol keeps in addition when Jira can be trusted. */
module Honesty {

  import opened Workflow
  import opened Statements
  import opened Protocol
  import opened Invariant
  import opened Preservation

  // ----- (A) no call has failed retryably after or before an effect -----

  ghost predicate NoUnsafeFailure(s: State) {
    forall i :: 0 <= i < |s.ledger.unsafeFailures| ==> s.ledger.unsafeFailures[i] == 0
  }

  lemma SafeStep(asm: Assumptions, c: Config, s: State, act: Action)
    requires InRange(c, s) && NoUnsafeFailure(s) && Enabled(c, s, act) && Permits(asm, s, act)
    requires asm.retryableMeansNoEffect
    ensures NoUnsafeFailure(Apply(c, s, act))
  {
  }

  lemma {:induction false} SafeRun(asm: Assumptions, c: Config, s: State, acts: seq<Action>, t: State)
    requires asm.retryableMeansNoEffect
    requires Inv(c, s) && NoUnsafeFailure(s) && Leads(asm, c, s, acts, t)
    ensures Inv(c, t) && NoUnsafeFailure(t)
    decreases |acts|
  {
    if acts != [] {
      StepKeeps(c, s, acts[0]);
      SafeStep(asm, c, s, acts[0]);
      SafeRun(asm, c, Apply(c, s, acts[0]), acts[1..], t);
    }
  }

  // ----- (A) and (R): a step treated as rejected has had no effect and will have none -----

  ghost predicate QuietOk(c: Config, s: State)
    requires InRange(c, s)
  {
    && (forall a :: 0 <= a < |s.actors| ==> QuietRejection(s.ledger, s.actors[a]))
    && (WasRecovered(s.record) || FailedIsQuiet(s.record.steps, s.ledger))
  }

  predicate QuietRejection(l: Ledger, p: Actor) {
    p.Attempt? && p.pc.Rejected? ==> Sent(l, p.pc.i) == 0
  }

  ghost predicate FailedIsQuiet(rows: seq<StepRow>, l: Ledger) {
    forall i :: 0 <= i < |rows| && rows[i].status.Failed? ==> Sent(l, i) == 0
  }

  /** Requests are sent for the step that actor `a` holds only. */
  ghost predicate SendsHeld(s: State, s': State, a: nat)
    requires OnlyActor(s, s', a)
  {
    forall j: nat :: Sent(s'.ledger, j) > Sent(s.ledger, j) ==> Held(s.actors[a]) == Some(j)
  }

  lemma QuietKept(c: Config, s: State, s': State, a: nat)
    requires Inv(c, s) && InRange(c, s') && QuietOk(c, s) && OnlyActor(s, s', a) && SendsHeld(s, s', a)
    requires QuietRejection(s'.ledger, s'.actors[a])
    requires WasRecovered(s.record) ==> WasRecovered(s'.record)
    requires WasRecovered(s'.record) || forall i :: 0 <= i < |c.steps| && s'.record.steps[i].status.Failed? ==>
      s'.record.steps[i] == s.record.steps[i] || Sent(s'.ledger, i) == 0
    ensures QuietOk(c, s')
  {
    hide CountersOk, KnowledgeOk, WinnerOk, RowsOk;
    forall b | 0 <= b < |s'.actors|
      ensures QuietRejection(s'.ledger, s'.actors[b])
    {
      if b != a {
        assert QuietRejection(s.ledger, s.actors[b]);
        assert Held(s.actors[b]).Some? ==> Held(s.actors[b]) != Held(s.actors[a]);
      }
    }
    if !WasRecovered(s'.record) {
      assert ViewOk(c, s.record.steps, s.actors[a]);
      forall i | 0 <= i < |c.steps| && s'.record.steps[i].status.Failed? && s'.record.steps[i] == s.record.steps[i]
        ensures Sent(s'.ledger, i) == 0
      {
        assert Held(s.actors[a]) != Some(i);
      }
    }
  }

  lemma QuietEffect(c: Config, s: State, a: nat)
    requires Inv(c, s) && QuietOk(c, s) && Enabled(c, s, DoJiraEffect(a))
    ensures InRange(c, ApplyJiraEffect(s, a)) && QuietOk(c, ApplyJiraEffect(s, a))
  {
    hide HoldsOk, CountersOk, KnowledgeOk, WinnerOk, RowsOk, ViewsOk, QuietOk;
    CountsAppend(s.ledger.effects, s.actors[a].pc.i);
    QuietKept(c, s, ApplyJiraEffect(s, a), a);
  }

  lemma QuietLateEffect(c: Config, s: State, i: nat)
    requires Inv(c, s) && QuietOk(c, s) && Enabled(c, s, DoLateEffect(i))
    ensures QuietOk(c, ApplyLateEffect(s, i))
  {
    hide HoldsOk, CountersOk, KnowledgeOk, WinnerOk, RowsOk, ViewsOk;
    CountsAppend(s.ledger.effects, i);
    assert forall j: nat :: Sent(ApplyLateEffect(s, i).ledger, j) == Sent(s.ledger, j);
    forall a | 0 <= a < |s.actors|
      ensures QuietRejection(ApplyLateEffect(s, i).ledger, s.actors[a])
    {
      assert QuietRejection(s.ledger, s.actors[a]);
    }
  }

  /** A call that ends in a business error, or whose write is refused, sent nothing. */
  lemma QuietCallEnd(c: Config, s: State, act: Action)
    requires Inv(c, s) && NoUnsafeFailure(s) && QuietOk(c, s) && Enabled(c, s, act)
    requires Permits(Assumptions(true, true, false), s, act) && (act.DoHandlerEnd? || act.DoRefuseWrite? || act.Crash?)
    requires InRange(c, Apply(c, s, act))
    ensures QuietOk(c, Apply(c, s, act))
  {
    hide HoldsOk, KnowledgeOk, WinnerOk, RowsOk, ViewsOk, QuietOk;
    var p, s' := s.actors[act.a], Apply(c, s, act);
    assert ActorInRange(|c.steps|, p) && (p.Attempt? ==> CallOk(c, s.ledger, p.pc));
    QuietKept(c, s, s', act.a);
  }

  lemma QuietInside(c: Config, s: State, act: Action)
    requires Inv(c, s) && QuietOk(c, s) && Enabled(c, s, act) && InRange(c, Apply(c, s, act))
    requires act.DoClaimStep? || act.DoWriteStep?
    ensures QuietOk(c, Apply(c, s, act))
  {
    hide HoldsOk, CountersOk, KnowledgeOk, WinnerOk, RowsOk, ViewsOk;
    assert QuietRejection(s.ledger, s.actors[act.a]) && ActorInRange(|c.steps|, s.actors[act.a]);
    QuietKept(c, s, Apply(c, s, act), act.a);
  }

  lemma QuietReading(c: Config, s: State, act: Action)
    requires Inv(c, s) && QuietOk(c, s) && Enabled(c, s, act) && InRange(c, Apply(c, s, act))
    requires act.DoReadExecution? || act.DoReadSteps? || act.DoClaimExecution?
    ensures QuietOk(c, Apply(c, s, act))
  {
    hide HoldsOk, CountersOk, KnowledgeOk, WinnerOk, RowsOk, ViewsOk;
    assert QuietRejection(s.ledger, s.actors[act.a]) && ActorInRange(|c.steps|, s.actors[act.a]);
    QuietKept(c, s, Apply(c, s, act), act.a);
  }

  lemma QuietEnding(c: Config, s: State, act: Action)
    requires Inv(c, s) && QuietOk(c, s) && Enabled(c, s, act) && InRange(c, Apply(c, s, act))
    requires act.DoFinalize? || act.DoReread? || act.DoAudit?
    ensures QuietOk(c, Apply(c, s, act))
  {
    hide HoldsOk, CountersOk, KnowledgeOk, WinnerOk, RowsOk, ViewsOk;
    assert QuietRejection(s.ledger, s.actors[act.a]) && ActorInRange(|c.steps|, s.actors[act.a]);
    QuietKept(c, s, Apply(c, s, act), act.a);
  }

  lemma QuietScanning(c: Config, s: State, act: Action)
    requires Inv(c, s) && QuietOk(c, s) && Enabled(c, s, act) && InRange(c, Apply(c, s, act))
    requires act.DoScan? || act.DoReadRunning? || act.DoLookUp? || act.DoAuditRecovery?
    ensures QuietOk(c, Apply(c, s, act))
  {
    hide HoldsOk, CountersOk, KnowledgeOk, WinnerOk, RowsOk, ViewsOk;
    assert QuietRejection(s.ledger, s.actors[act.a]) && ActorInRange(|c.steps|, s.actors[act.a]);
    QuietKept(c, s, Apply(c, s, act), act.a);
  }

  lemma QuietRecover(c: Config, s: State, a: nat)
    requires Inv(c, s) && QuietOk(c, s) && Enabled(c, s, DoRecover(a)) && InRange(c, ApplyRecover(c, s, a))
    ensures QuietOk(c, ApplyRecover(c, s, a))
  {
    hide HoldsOk, CountersOk, WinnerOk, RowsOk, ViewsOk, QuietOk;
    if s.record.exec.status.Running? {
      RecoverShape(c, s, a);
    }
    QuietKept(c, s, ApplyRecover(c, s, a), a);
  }

  lemma QuietStep(asm: Assumptions, c: Config, s: State, act: Action)
    requires asm.retryableMeansNoEffect && asm.rejectionMeansNoEffect
    requires Inv(c, s) && NoUnsafeFailure(s) && QuietOk(c, s) && Enabled(c, s, act) && Permits(asm, s, act)
    ensures InRange(c, Apply(c, s, act)) && QuietOk(c, Apply(c, s, act))
  {
    hide HoldsOk, CountersOk, KnowledgeOk, WinnerOk, RowsOk, ViewsOk;
    StepKeeps(c, s, act);
    match act
    case Tick(_) =>
    case StartAttempt(_) =>
    case StartRecovery(_) =>
    case DoJiraEffect(a) => QuietEffect(c, s, a);
    case DoLateEffect(i) => QuietLateEffect(c, s, i);
    case DoHandlerEnd(_, _, _) => QuietCallEnd(c, s, act);
    case DoRefuseWrite(_) => QuietCallEnd(c, s, act);
    case Crash(_, _) => QuietCallEnd(c, s, act);
    case DoRecover(a) => QuietRecover(c, s, a);
    case DoClaimStep(_) => QuietInside(c, s, act);
    case DoWriteStep(_) => QuietInside(c, s, act);
    case DoFinalize(_) => QuietEnding(c, s, act);
    case DoReread(_) => QuietEnding(c, s, act);
    case DoAudit(_) => QuietEnding(c, s, act);
    case DoReadExecution(_) => QuietReading(c, s, act);
    case DoReadSteps(_) => QuietReading(c, s, act);
    case DoClaimExecution(_) => QuietReading(c, s, act);
    case _ => QuietScanning(c, s, act);
  }

  lemma {:induction false} QuietRun(asm: Assumptions, c: Config, s: State, acts: seq<Action>, t: State)
    requires asm.retryableMeansNoEffect && asm.rejectionMeansNoEffect
    requires Inv(c, s) && NoUnsafeFailure(s) && QuietOk(c, s) && Leads(asm, c, s, acts, t)
    ensures Inv(c, t) && NoUnsafeFailure(t) && QuietOk(c, t)
    decreases |acts|
  {
    if acts != [] {
      StepKeeps(c, s, acts[0]);
      SafeStep(asm, c, s, acts[0]);
      QuietStep(asm, c, s, acts[0]);
      QuietRun(asm, c, Apply(c, s, acts[0]), acts[1..], t);
    }
  }

  // ----- (B): whatever reads as completed has taken effect -----

  predicate Evident(c: Config, log: seq<nat>, i: nat) {
    i < |c.steps| && CallsJira(c.steps[i]) ==> Count(log, i) > 0
  }

  ghost predicate EvidentBelow(c: Config, log: seq<nat>, n: nat) {
    forall i :: 0 <= i < n ==> Evident(c, log, i)
  }

  /** Does this row read as if the step were done? */
  predicate Shows(row: StepRow) {
    row.status.Completed? || row.output.Some?
  }

  ghost predicate ShownIsEvident(c: Config, log: seq<nat>, rows: seq<StepRow>) {
    forall i :: 0 <= i < |rows| && Shows(rows[i]) ==> Evident(c, log, i)
  }

  /** What an actor takes as done has taken effect. */
  ghost predicate TrustOk(c: Config, log: seq<nat>, p: Actor) {
    match p
    case Attempt(_, snapshot, _, pc) =>
      && ShownIsEvident(c, log, snapshot)
      && (Cursor(pc).Some? ==> EvidentBelow(c, log, Cursor(pc).value))
      && (pc.Dedup? ==> Evident(c, log, pc.i))
    case Recovery(_, rpc) =>
      rpc.LookUp? ==> forall i :: i in rpc.found ==> Count(log, i) > 0
  }

  ghost predicate EvidenceOk(c: Config, s: State)
    requires InRange(c, s)
  {
    && ShownIsEvident(c, s.ledger.effects, s.record.steps)
    && (forall i :: 0 <= i < |c.steps| && s.ledger.claims[i] > 0 ==> EvidentBelow(c, s.ledger.effects, i))
    && (forall a :: 0 <= a < |s.actors| ==> TrustOk(c, s.ledger.effects, s.actors[a]))
    && FirstInOrder(c, s.ledger.effects)
  }

  /** Effects are never taken back. */
  ghost predicate EffectsGrow(log: seq<nat>, log': seq<nat>) {
    forall i: nat :: Count(log, i) <= Count(log', i)
  }

  lemma EvidentGrows(c: Config, log: seq<nat>, log': seq<nat>)
    requires EffectsGrow(log, log')
    ensures forall i: nat :: Evident(c, log, i) ==> Evident(c, log', i)
  {
    forall i: nat | Evident(c, log, i)
      ensures Evident(c, log', i)
    {
      assert Count(log, i) <= Count(log', i);
    }
  }

  lemma TrustGrows(c: Config, log: seq<nat>, log': seq<nat>, p: Actor)
    requires EffectsGrow(log, log') && TrustOk(c, log, p)
    ensures TrustOk(c, log', p)
  {
    EvidentGrows(c, log, log');
  }

  lemma EvidenceKept(c: Config, s: State, s': State, a: nat)
    requires InRange(c, s) && InRange(c, s') && EvidenceOk(c, s) && OnlyActor(s, s', a)
    requires EffectsGrow(s.ledger.effects, s'.ledger.effects)
    requires FirstInOrder(c, s'.ledger.effects) && TrustOk(c, s'.ledger.effects, s'.actors[a])
    requires forall i :: 0 <= i < |c.steps| && Shows(s'.record.steps[i]) ==>
      Shows(s.record.steps[i]) || Evident(c, s'.ledger.effects, i)
    requires forall i :: 0 <= i < |c.steps| && s'.ledger.claims[i] > 0 ==>
      s.ledger.claims[i] > 0 || EvidentBelow(c, s'.ledger.effects, i)
    ensures EvidenceOk(c, s')
  {
    hide FirstInOrder;
    EvidentGrows(c, s.ledger.effects, s'.ledger.effects);
    forall b | 0 <= b < |s'.actors|
      ensures TrustOk(c, s'.ledger.effects, s'.actors[b])
    {
      if b != a {
        TrustGrows(c, s.ledger.effects, s'.ledger.effects, s.actors[b]);
      }
    }
  }

  /** A claimed step may take effect now or, if its request is in flight, later. */
  lemma EvidenceEffect(c: Config, s: State, s': State, i: nat)
    requires InRange(c, s) && InRange(c, s') && EvidenceOk(c, s) && i < |c.steps| && s.ledger.claims[i] > 0
    requires s'.ledger.effects == s.ledger.effects + [i] && s'.ledger.claims == s.ledger.claims && s'.record == s.record
    ensures EffectsGrow(s.ledger.effects, s'.ledger.effects) && FirstInOrder(c, s'.ledger.effects)
    ensures ShownIsEvident(c, s'.ledger.effects, s'.record.steps)
    ensures forall j :: 0 <= j < |c.steps| && s'.ledger.claims[j] > 0 ==> EvidentBelow(c, s'.ledger.effects, j)
  {
    CountsAppend(s.ledger.effects, i);
    forall j | 0 <= j < i && CallsJira(c.steps[j])
      ensures j in s.ledger.effects
    {
      assert Evident(c, s.ledger.effects, j);
    }
    FirstInOrderAppend(c, s.ledger.effects, i);
    EvidentGrows(c, s.ledger.effects, s'.ledger.effects);
  }

  lemma EvidenceJiraEffect(c: Config, s: State, a: nat)
    requires Inv(c, s) && EvidenceOk(c, s) && Enabled(c, s, DoJiraEffect(a)) && InRange(c, ApplyJiraEffect(s, a))
    ensures EvidenceOk(c, ApplyJiraEffect(s, a))
  {
    hide KnowledgeOk, WinnerOk, RowsOk, ViewsOk, FirstInOrder;
    var p, s' := s.actors[a], ApplyJiraEffect(s, a);
    assert HeldOk(s.record.steps, p) && ActorInRange(|c.steps|, p) && AccountedAt(s.record.steps, s.ledger, p.pc.i);
    EvidenceEffect(c, s, s', p.pc.i);
    TrustGrows(c, s.ledger.effects, s'.ledger.effects, p);
    EvidenceKept(c, s, s', a);
  }

  lemma EvidenceLateEffect(c: Config, s: State, i: nat)
    requires Inv(c, s) && EvidenceOk(c, s) && Enabled(c, s, DoLateEffect(i)) && InRange(c, ApplyLateEffect(s, i))
    ensures EvidenceOk(c, ApplyLateEffect(s, i))
  {
    hide HoldsOk, KnowledgeOk, WinnerOk, RowsOk, ViewsOk, FirstInOrder;
    var s' := ApplyLateEffect(s, i);
    InFlightWasClaimed(c, s, i);
    EvidenceEffect(c, s, s', i);
    forall b | 0 <= b < |s'.actors|
      ensures TrustOk(c, s'.ledger.effects, s'.actors[b])
    {
      TrustGrows(c, s.ledger.effects, s'.ledger.effects, s.actors[b]);
    }
  }

  lemma EvidenceClaim(c: Config, s: State, a: nat)
    requires InRange(c, s) && EvidenceOk(c, s) && Enabled(c, s, DoClaimStep(a)) && InRange(c, ApplyClaimStep(c, s, a))
    ensures EvidenceOk(c, ApplyClaimStep(c, s, a))
  {
    hide FirstInOrder;
    var p, i := s.actors[a], s.actors[a].pc.i;
    assert TrustOk(c, s.ledger.effects, p) && ActorInRange(|c.steps|, p);
    assert Shows(p.snapshot[i]) ==> Evident(c, s.ledger.effects, i);
    EvidenceKept(c, s, ApplyClaimStep(c, s, a), a);
  }

  lemma EvidenceWrite(c: Config, s: State, a: nat)
    requires InRange(c, s) && CountersOk(c, s) && EvidenceOk(c, s) && Enabled(c, s, DoWriteStep(a))
    requires InRange(c, ApplyWriteStep(c, s, a))
    ensures EvidenceOk(c, ApplyWriteStep(c, s, a))
  {
    hide FirstInOrder;
    var p, i := s.actors[a], Held(s.actors[a]).value;
    assert TrustOk(c, s.ledger.effects, p) && ActorInRange(|c.steps|, p) && CallOk(c, s.ledger, p.pc);
    EvidenceKept(c, s, ApplyWriteStep(c, s, a), a);
  }

  lemma EvidenceRecover(c: Config, s: State, a: nat)
    requires Inv(c, s) && EvidenceOk(c, s) && Enabled(c, s, DoRecover(a)) && InRange(c, ApplyRecover(c, s, a))
    ensures EvidenceOk(c, ApplyRecover(c, s, a))
  {
    hide HoldsOk, CountersOk, WinnerOk, RowsOk, ViewsOk, FirstInOrder;
    assert TrustOk(c, s.ledger.effects, s.actors[a]);
    if s.record.exec.status.Running? {
      RecoverShape(c, s, a);
    }
    EvidenceKept(c, s, ApplyRecover(c, s, a), a);
  }

  lemma EvidenceLookUp(c: Config, s: State, a: nat, answer: Option<string>)
    requires InRange(c, s) && EvidenceOk(c, s) && Enabled(c, s, DoLookUp(a, answer))
    requires InRange(c, ApplyLookUp(s, a, answer))
    requires Permits(Assumptions(false, false, true), s, DoLookUp(a, answer))
    ensures EvidenceOk(c, ApplyLookUp(s, a, answer))
  {
    hide FirstInOrder;
    assert TrustOk(c, s.ledger.effects, s.actors[a]);
    EvidenceKept(c, s, ApplyLookUp(s, a, answer), a);
  }

  lemma EvidenceReading(c: Config, s: State, act: Action)
    requires InRange(c, s) && EvidenceOk(c, s) && Enabled(c, s, act) && InRange(c, Apply(c, s, act))
    requires act.DoReadExecution? || act.DoReadSteps? || act.DoClaimExecution?
    ensures EvidenceOk(c, Apply(c, s, act))
  {
    hide FirstInOrder;
    assert TrustOk(c, s.ledger.effects, s.actors[act.a]);
    EvidenceKept(c, s, Apply(c, s, act), act.a);
  }

  lemma EvidenceEnding(c: Config, s: State, act: Action)
    requires InRange(c, s) && EvidenceOk(c, s) && Enabled(c, s, act) && InRange(c, Apply(c, s, act))
    requires act.DoFinalize? || act.DoReread? || act.DoAudit?
    ensures EvidenceOk(c, Apply(c, s, act))
  {
    hide FirstInOrder;
    assert TrustOk(c, s.ledger.effects, s.actors[act.a]);
    EvidenceKept(c, s, Apply(c, s, act), act.a);
  }

  lemma EvidenceScanning(c: Config, s: State, act: Action)
    requires InRange(c, s) && EvidenceOk(c, s) && Enabled(c, s, act) && InRange(c, Apply(c, s, act))
    requires act.DoScan? || act.DoReadRunning? || act.DoAuditRecovery?
    ensures EvidenceOk(c, Apply(c, s, act))
  {
    hide FirstInOrder;
    assert TrustOk(c, s.ledger.effects, s.actors[act.a]);
    EvidenceKept(c, s, Apply(c, s, act), act.a);
  }

  lemma EvidenceCallEnd(c: Config, s: State, act: Action)
    requires InRange(c, s) && EvidenceOk(c, s) && Enabled(c, s, act) && InRange(c, Apply(c, s, act))
    requires act.Crash? || act.DoHandlerEnd? || act.DoRefuseWrite?
    ensures EvidenceOk(c, Apply(c, s, act))
  {
    hide FirstInOrder;
    assert TrustOk(c, s.ledger.effects, s.actors[act.a]);
    EvidenceKept(c, s, Apply(c, s, act), act.a);
  }

  lemma EvidenceStart(c: Config, s: State, p: Actor)
    requires InRange(c, s) && EvidenceOk(c, s) && Fresh(p) && InRange(c, s.(actors := s.actors + [p]))
    ensures EvidenceOk(c, s.(actors := s.actors + [p]))
  {
    hide FirstInOrder;
    var s' := s.(actors := s.actors + [p]);
    forall b | 0 <= b < |s'.actors|
      ensures TrustOk(c, s'.ledger.effects, s'.actors[b])
    {
      if b < |s.actors| {
        assert TrustOk(c, s.ledger.effects, s.actors[b]);
      }
    }
  }

  lemma EvidenceStep(asm: Assumptions, c: Config, s: State, act: Action)
    requires asm.lookupIsSound && Inv(c, s) && EvidenceOk(c, s) && Enabled(c, s, act) && Permits(asm, s, act)
    ensures InRange(c, Apply(c, s, act)) && EvidenceOk(c, Apply(c, s, act))
  {
    hide HoldsOk, KnowledgeOk, WinnerOk, RowsOk, ViewsOk, FirstInOrder;
    StepKeeps(c, s, act);
    match act
    case Tick(_) =>
    case StartAttempt(processedBy) => EvidenceStart(c, s, Attempt(processedBy, [], [], ReadExecution));
    case StartRecovery(timeout) => EvidenceStart(c, s, Recovery(timeout, Scan));
    case DoJiraEffect(a) => EvidenceJiraEffect(c, s, a);
    case DoLateEffect(i) => EvidenceLateEffect(c, s, i);
    case DoClaimStep(a) => EvidenceClaim(c, s, a);
    case DoWriteStep(a) => EvidenceWrite(c, s, a);
    case DoRecover(a) => EvidenceRecover(c, s, a);
    case DoLookUp(a, answer) => EvidenceLookUp(c, s, a, answer);
    case DoReadExecution(_) => EvidenceReading(c, s, act);
    case DoReadSteps(_) => EvidenceReading(c, s, act);
    case DoClaimExecution(_) => EvidenceReading(c, s, act);
    case DoFinalize(_) => EvidenceEnding(c, s, act);
    case DoReread(_) => EvidenceEnding(c, s, act);
    case DoHandlerEnd(_, _, _) => EvidenceCallEnd(c, s, act);
    case DoRefuseWrite(_) => EvidenceCallEnd(c, s, act);
    case Crash(_, _) => EvidenceCallEnd(c, s, act);
    case DoAudit(_) => EvidenceEnding(c, s, act);
    case _ => EvidenceScanning(c, s, act);
  }

  lemma {:induction false} EvidenceRun(asm: Assumptions, c: Config, s: State, acts: seq<Action>, t: State)
    requires asm.lookupIsSound && Inv(c, s) && EvidenceOk(c, s) && Leads(asm, c, s, acts, t)
    ensures Inv(c, t) && EvidenceOk(c, t)
    decreases |acts|
  {
    if acts != [] {
      StepKeeps(c, s, acts[0]);
      EvidenceStep(asm, c, s, acts[0]);
      EvidenceRun(asm, c, Apply(c, s, acts[0]), acts[1..], t);
    }
  }

  // ----- (A), (R) and (B): statuses stay in order -----

  /** Statuses in step order: COMPLETED..., then at most one RUNNING or FAILED, then PENDING.... */
  ghost predicate InOrder(rows: seq<StepRow>) {
    forall i, j :: 0 <= i < j < |rows| && !rows[j].status.Pending? ==> rows[i].status.Completed?
  }

  /** COMPLETED rows stay COMPLETED. */
  ghost predicate CompletedStays(rows: seq<StepRow>, rows': seq<StepRow>) {
    |rows| == |rows'| && forall i :: 0 <= i < |rows| && rows[i].status.Completed? ==> rows'[i].status.Completed?
  }

  predicate OutputOk(row: StepRow) {
    row.output.Some? ==> row.status.Completed?
  }

  predicate SeenOk(seen: StepRow, row: StepRow) {
    OutputOk(seen) && (seen.status.Completed? ==> row.status.Completed?)
  }

  /** The call of a held step whose row is COMPLETED already: its request has taken effect. */
  predicate AheadOk(log: seq<nat>, pc: Pc, i: nat) {
    (pc.Succeeded? || (pc.Calling? && pc.applied)) && Count(log, i) > 0
  }

  /** What an attempt may rely on although recovery can rewrite the step that it holds. */
  ghost predicate PlaceOk(rows: seq<StepRow>, log: seq<nat>, p: Actor)
    requires ActorInRange(|rows|, p)
  {
    p.Attempt? ==>
      && (|p.snapshot| == |rows| ==> forall i :: 0 <= i < |rows| ==> SeenOk(p.snapshot[i], rows[i]))
      && (Cursor(p.pc).Some? ==> forall i :: 0 <= i < Cursor(p.pc).value ==> rows[i].status.Completed?)
      && (Held(p).Some? && rows[Held(p).value].status.Completed? ==> AheadOk(log, p.pc, Held(p).value))
      && !p.pc.Dedup?
  }

  ghost predicate OrderOk(c: Config, s: State)
    requires InRange(c, s)
  {
    && InOrder(s.record.steps)
    && (forall i :: 0 <= i < |c.steps| ==> OutputOk(s.record.steps[i]))
    && (forall a :: 0 <= a < |s.actors| ==> PlaceOk(s.record.steps, s.ledger.effects, s.actors[a]))
  }

  lemma PlaceKept(rows: seq<StepRow>, rows': seq<StepRow>, log: seq<nat>, log': seq<nat>, p: Actor)
    requires CompletedStays(rows, rows') && ActorInRange(|rows|, p) && PlaceOk(rows, log, p) && EffectsGrow(log, log')
    requires Held(p).Some? && !rows[Held(p).value].status.Completed? ==> !rows'[Held(p).value].status.Completed?
    ensures PlaceOk(rows', log', p)
  {
  }

  /** Actor `a` moves on the rows; every other actor keeps its place. */
  lemma OrderKept(c: Config, s: State, s': State, a: nat)
    requires InRange(c, s) && InRange(c, s') && HoldsOk(s) && OrderOk(c, s) && OnlyActor(s, s', a)
    requires EffectsGrow(s.ledger.effects, s'.ledger.effects)
    requires CompletedStays(s.record.steps, s'.record.steps) && InOrder(s'.record.steps)
    requires forall i :: 0 <= i < |c.steps| ==> OutputOk(s'.record.steps[i])
    requires forall i :: 0 <= i < |c.steps| && s'.record.steps[i].status.Completed? ==>
      s.record.steps[i].status.Completed? || Held(s.actors[a]) == Some(i)
    requires PlaceOk(s'.record.steps, s'.ledger.effects, s'.actors[a])
    ensures OrderOk(c, s')
  {
    forall b | 0 <= b < |s'.actors|
      ensures PlaceOk(s'.record.steps, s'.ledger.effects, s'.actors[b])
    {
      if b != a {
        assert PlaceOk(s.record.steps, s.ledger.effects, s.actors[b]);
        assert Held(s.actors[b]).Some? ==> Held(s.actors[b]) != Held(s.actors[a]);
        PlaceKept(s.record.steps, s'.record.steps, s.ledger.effects, s'.ledger.effects, s.actors[b]);
      }
    }
  }

  /** Actor `a` leaves the step rows alone. */
  lemma OrderPrivate(c: Config, s: State, s': State, a: nat)
    requires InRange(c, s) && InRange(c, s') && HoldsOk(s) && OrderOk(c, s) && OnlyActor(s, s', a)
    requires s'.record.steps == s.record.steps && EffectsGrow(s.ledger.effects, s'.ledger.effects)
    requires PlaceOk(s.record.steps, s'.ledger.effects, s'.actors[a])
    ensures OrderOk(c, s')
  {
    OrderKept(c, s, s', a);
  }

  /** Steps outside the loop body. */
  lemma OrderReading(c: Config, s: State, act: Action)
    requires InRange(c, s) && HoldsOk(s) && OrderOk(c, s) && Enabled(c, s, act) && InRange(c, Apply(c, s, act))
    requires act.DoReadExecution? || act.DoReadSteps? || act.DoClaimExecution?
    ensures OrderOk(c, Apply(c, s, act))
  {
    assert PlaceOk(s.record.steps, s.ledger.effects, s.actors[act.a]);
    OrderPrivate(c, s, Apply(c, s, act), act.a);
  }

  lemma OrderEnding(c: Config, s: State, act: Action)
    requires InRange(c, s) && HoldsOk(s) && OrderOk(c, s) && Enabled(c, s, act) && InRange(c, Apply(c, s, act))
    requires act.DoReread? || act.DoAudit? || act.Crash?
    ensures OrderOk(c, Apply(c, s, act))
  {
    assert PlaceOk(s.record.steps, s.ledger.effects, s.actors[act.a]);
    OrderPrivate(c, s, Apply(c, s, act), act.a);
  }

  lemma OrderFinalize(c: Config, s: State, a: nat)
    requires InRange(c, s) && HoldsOk(s) && OrderOk(c, s) && Enabled(c, s, DoFinalize(a))
    requires InRange(c, ApplyFinalize(c, s, a))
    ensures OrderOk(c, ApplyFinalize(c, s, a))
  {
    assert PlaceOk(s.record.steps, s.ledger.effects, s.actors[a]);
    OrderPrivate(c, s, ApplyFinalize(c, s, a), a);
  }

  lemma OrderScanning(c: Config, s: State, act: Action)
    requires InRange(c, s) && HoldsOk(s) && OrderOk(c, s) && Enabled(c, s, act) && InRange(c, Apply(c, s, act))
    requires act.DoScan? || act.DoReadRunning? || act.DoLookUp? || act.DoAuditRecovery?
    ensures OrderOk(c, Apply(c, s, act))
  {
    OrderPrivate(c, s, Apply(c, s, act), act.a);
  }

  lemma OrderHandlerEnd(c: Config, s: State, a: nat, outcome: HandlerOutcome, lingering: bool)
    requires InRange(c, s) && HoldsOk(s) && CountersOk(c, s) && OrderOk(c, s)
    requires Enabled(c, s, DoHandlerEnd(a, outcome, lingering))
    requires Permits(EVERYTHING, s, DoHandlerEnd(a, outcome, lingering))
    requires InRange(c, ApplyHandlerEnd(c, s, a, outcome, lingering))
    ensures OrderOk(c, ApplyHandlerEnd(c, s, a, outcome, lingering))
  {
    assert PlaceOk(s.record.steps, s.ledger.effects, s.actors[a]) && CallOk(c, s.ledger, s.actors[a].pc);
    OrderPrivate(c, s, ApplyHandlerEnd(c, s, a, outcome, lingering), a);
  }

  lemma OrderRefuseWrite(c: Config, s: State, a: nat)
    requires InRange(c, s) && HoldsOk(s) && OrderOk(c, s)
    requires Enabled(c, s, DoRefuseWrite(a)) && Permits(EVERYTHING, s, DoRefuseWrite(a))
    ensures InRange(c, ApplyRefuseWrite(s, a)) && OrderOk(c, ApplyRefuseWrite(s, a))
  {
    assert PlaceOk(s.record.steps, s.ledger.effects, s.actors[a]) && ActorInRange(|c.steps|, s.actors[a]);
    OrderPrivate(c, s, ApplyRefuseWrite(s, a), a);
  }

  lemma OrderStart(c: Config, s: State, p: Actor)
    requires InRange(c, s) && OrderOk(c, s) && Fresh(p) && InRange(c, s.(actors := s.actors + [p]))
    ensures OrderOk(c, s.(actors := s.actors + [p]))
  {
    var s' := s.(actors := s.actors + [p]);
    forall b | 0 <= b < |s'.actors|
      ensures PlaceOk(s'.record.steps, s'.ledger.effects, s'.actors[b])
    {
      if b < |s.actors| {
        assert PlaceOk(s.record.steps, s.ledger.effects, s.actors[b]);
      }
    }
  }

  lemma OrderClaim(c: Config, s: State, a: nat)
    requires InRange(c, s) && HoldsOk(s) && OrderOk(c, s) && Enabled(c, s, DoClaimStep(a))
    requires InRange(c, ApplyClaimStep(c, s, a))
    ensures OrderOk(c, ApplyClaimStep(c, s, a))
  {
    var p, s' := s.actors[a], ApplyClaimStep(c, s, a);
    assert PlaceOk(s.record.steps, s.ledger.effects, p) && ActorInRange(|c.steps|, p);
    assert SeenOk(p.snapshot[p.pc.i], s.record.steps[p.pc.i]);
    if s.record.steps[p.pc.i].status.Pending? {
      assert PlaceOk(s'.record.steps, s'.ledger.effects, s'.actors[a]);
      OrderKept(c, s, s', a);
    } else {
      OrderPrivate(c, s, s', a);
    }
  }

  lemma OrderJiraEffect(c: Config, s: State, a: nat)
    requires InRange(c, s) && HoldsOk(s) && OrderOk(c, s) && Enabled(c, s, DoJiraEffect(a))
    requires InRange(c, ApplyJiraEffect(s, a))
    ensures OrderOk(c, ApplyJiraEffect(s, a))
  {
    CountsAppend(s.ledger.effects, s.actors[a].pc.i);
    assert PlaceOk(s.record.steps, s.ledger.effects, s.actors[a]) && ActorInRange(|c.steps|, s.actors[a]);
    OrderPrivate(c, s, ApplyJiraEffect(s, a), a);
  }

  lemma OrderLateEffect(c: Config, s: State, i: nat)
    requires InRange(c, s) && OrderOk(c, s) && Enabled(c, s, DoLateEffect(i))
    ensures InRange(c, ApplyLateEffect(s, i)) && OrderOk(c, ApplyLateEffect(s, i))
  {
    var s' := ApplyLateEffect(s, i);
    CountsAppend(s.ledger.effects, i);
    forall b | 0 <= b < |s'.actors|
      ensures PlaceOk(s'.record.steps, s'.ledger.effects, s'.actors[b])
    {
      assert PlaceOk(s.record.steps, s.ledger.effects, s.actors[b]) && ActorInRange(|c.steps|, s.actors[b]);
      PlaceKept(s.record.steps, s'.record.steps, s.ledger.effects, s'.ledger.effects, s.actors[b]);
    }
  }

  /** Rewriting row `i`, all earlier rows being COMPLETED and row `i` not yet, or for good. */
  lemma RewriteInOrder(rows: seq<StepRow>, i: nat, row: StepRow)
    requires InOrder(rows) && i < |rows|
    requires forall j :: 0 <= j < i ==> rows[j].status.Completed?
    requires row.status.Completed? || !rows[i].status.Completed?
    ensures InOrder(rows[i := row]) && CompletedStays(rows, rows[i := row])
  {
  }

  lemma OrderWrite(c: Config, s: State, a: nat)
    requires InRange(c, s) && HoldsOk(s) && OrderOk(c, s) && Enabled(c, s, DoWriteStep(a))
    requires InRange(c, ApplyWriteStep(c, s, a))
    ensures OrderOk(c, ApplyWriteStep(c, s, a))
  {
    var p, s', i := s.actors[a], ApplyWriteStep(c, s, a), Held(s.actors[a]).value;
    assert PlaceOk(s.record.steps, s.ledger.effects, p) && ActorInRange(|c.steps|, p) && HeldOk(s.record.steps, p);
    RewriteInOrder(s.record.steps, i, s'.record.steps[i]);
    assert s'.record.steps == s.record.steps[i := s'.record.steps[i]];
    assert PlaceOk(s'.record.steps, s'.ledger.effects, s'.actors[a]);
    OrderKept(c, s, s', a);
  }

  /** If the held step has had an effect, its holder is about to write COMPLETED. */
  lemma HolderOfEffect(c: Config, s: State, b: nat)
    requires InRange(c, s) && CountersOk(c, s) && NoUnsafeFailure(s) && QuietOk(c, s)
    requires b < |s.actors| && Held(s.actors[b]).Some? && !s.actors[b].pc.Dedup?
    requires Count(s.ledger.effects, Held(s.actors[b]).value) > 0
    ensures AheadOk(s.ledger.effects, s.actors[b].pc, Held(s.actors[b]).value)
  {
    assert ActorInRange(|c.steps|, s.actors[b]) && CallOk(c, s.ledger, s.actors[b].pc);
    assert QuietRejection(s.ledger, s.actors[b]);
  }

  /** Recovery completes the RUNNING step only if its comment was found, so only if the step has
      had its effect; its holder is then about to write COMPLETED as well. */
  lemma OrderRecover(c: Config, s: State, s': State, a: nat)
    requires InRange(c, s) && InRange(c, s') && CountersOk(c, s) && NoUnsafeFailure(s) && QuietOk(c, s)
    requires EvidenceOk(c, s) && OrderOk(c, s) && OnlyActor(s, s', a)
    requires s.actors[a].Recovery? && s.actors[a].rpc.LookUp? && s'.actors[a].Recovery? && s'.ledger == s.ledger
    requires s'.record.steps == RecoveredRows(c, s.record.steps, s.actors[a].rpc.found)
    ensures OrderOk(c, s')
  {
    hide CountersOk, QuietOk, FirstInOrder, NoUnsafeFailure;
    var rows, rows' := s.record.steps, s'.record.steps;
    assert TrustOk(c, s.ledger.effects, s.actors[a]);
    assert CompletedStays(rows, rows');
    assert InOrder(rows') by {
      assert forall i :: 0 <= i < |c.steps| ==> (rows'[i].status.Pending? <==> rows[i].status.Pending?);
    }
    forall b | 0 <= b < |s'.actors|
      ensures PlaceOk(rows', s'.ledger.effects, s'.actors[b])
    {
      var p := s.actors[b];
      assert PlaceOk(rows, s.ledger.effects, p) && ActorInRange(|c.steps|, p);
      if Held(p).Some? && rows'[Held(p).value].status.Completed? && !rows[Held(p).value].status.Completed? {
        HolderOfEffect(c, s, b);
      }
    }
  }

  lemma OrderRecoverStep(c: Config, s: State, a: nat)
    requires Inv(c, s) && NoUnsafeFailure(s) && QuietOk(c, s) && EvidenceOk(c, s) && OrderOk(c, s)
    requires Enabled(c, s, DoRecover(a))
    ensures InRange(c, ApplyRecover(c, s, a)) && OrderOk(c, ApplyRecover(c, s, a))
  {
    hide HoldsOk, CountersOk, WinnerOk, RowsOk, ViewsOk, QuietOk, EvidenceOk, NoUnsafeFailure;
    if s.record.exec.status.Running? {
      RecoverShape(c, s, a);
      OrderRecover(c, s, ApplyRecover(c, s, a), a);
    } else {
      OrderPrivate(c, s, ApplyRecover(c, s, a), a);
    }
  }

  /** Everything that holds when Jira can be trusted in all three respects. */
  ghost predicate Trusted(c: Config, s: State) {
    Inv(c, s) && NoUnsafeFailure(s) && QuietOk(c, s) && EvidenceOk(c, s) && OrderOk(c, s)
  }

  /** Steps inside the loop body. */
  lemma OrderInside(c: Config, s: State, act: Action)
    requires InRange(c, s) && HoldsOk(s) && CountersOk(c, s) && OrderOk(c, s) && Enabled(c, s, act)
    requires Permits(EVERYTHING, s, act) && InRange(c, Apply(c, s, act))
    requires act.DoClaimStep? || act.DoJiraEffect? || act.DoLateEffect? || act.DoHandlerEnd? || act.DoRefuseWrite? ||
             act.DoWriteStep?
    ensures OrderOk(c, Apply(c, s, act))
  {
    hide HoldsOk, CountersOk, OrderOk;
    match act
    case DoClaimStep(a) => OrderClaim(c, s, a);
    case DoJiraEffect(a) => OrderJiraEffect(c, s, a);
    case DoLateEffect(i) => OrderLateEffect(c, s, i);
    case DoHandlerEnd(a, outcome, lingering) => OrderHandlerEnd(c, s, a, outcome, lingering);
    case DoRefuseWrite(a) => OrderRefuseWrite(c, s, a);
    case DoWriteStep(a) => OrderWrite(c, s, a);
  }

  lemma OrderStep(c: Config, s: State, act: Action)
    requires Trusted(c, s) && Enabled(c, s, act) && Permits(EVERYTHING, s, act)
    ensures InRange(c, Apply(c, s, act)) && OrderOk(c, Apply(c, s, act))
  {
    hide CountersOk, KnowledgeOk, WinnerOk, RowsOk, ViewsOk, HoldsOk, QuietOk, EvidenceOk, NoUnsafeFailure;
    assert InRange(c, Apply(c, s, act)) by { StepKeeps(c, s, act); }
    match act
    case Tick(_) =>
    case StartAttempt(processedBy) => OrderStart(c, s, Attempt(processedBy, [], [], ReadExecution));
    case StartRecovery(timeout) => OrderStart(c, s, Recovery(timeout, Scan));
    case DoRecover(a) => OrderRecoverStep(c, s, a);
    case DoScan(_) => OrderScanning(c, s, act);
    case DoReadRunning(_) => OrderScanning(c, s, act);
    case DoLookUp(_, _) => OrderScanning(c, s, act);
    case DoAuditRecovery(_) => OrderScanning(c, s, act);
    case DoReread(_) => OrderEnding(c, s, act);
    case DoAudit(_) => OrderEnding(c, s, act);
    case Crash(_, _) => OrderEnding(c, s, act);
    case DoReadExecution(_) => OrderReading(c, s, act);
    case DoReadSteps(_) => OrderReading(c, s, act);
    case DoClaimExecution(_) => OrderReading(c, s, act);
    case DoFinalize(a) => OrderFinalize(c, s, a);
    case _ => OrderInside(c, s, act);
  }

  lemma TrustedStep(c: Config, s: State, act: Action)
    requires Trusted(c, s) && Enabled(c, s, act) && Permits(EVERYTHING, s, act)
    ensures InRange(c, Apply(c, s, act)) && Trusted(c, Apply(c, s, act))
  {
    hide Inv, QuietOk, EvidenceOk, OrderOk, NoUnsafeFailure, Enabled, Permits, Apply;
    InvInRange(c, s);
    StepKeeps(c, s, act);
    SafeStep(EVERYTHING, c, s, act);
    QuietStep(EVERYTHING, c, s, act);
    EvidenceStep(EVERYTHING, c, s, act);
    OrderStep(c, s, act);
  }

  lemma {:induction false} TrustedRun(c: Config, s: State, acts: seq<Action>, t: State)
    requires Trusted(c, s) && Leads(EVERYTHING, c, s, acts, t)
    ensures Trusted(c, t)
    decreases |acts|
  {
    if acts != [] {
      TrustedStep(c, s, acts[0]);
      TrustedRun(c, Apply(c, s, acts[0]), acts[1..], t);
    }
  }

  lemma InitTrusted(c: Config, now: int)
    ensures Trusted(c, Init(c, now))
  {
    InitInv(c, now);
  }
}
