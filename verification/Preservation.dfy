/** Every step of the protocol keeps the invariant. */
module Preservation {

  import opened Workflow
  import opened Statements
  import opened Protocol
  import opened Invariant

  // ----- one actor moves, the others keep what they have -----

  /** Only actor `a` differs between the two states. */
  ghost predicate OnlyActor(s: State, s': State, a: nat) {
    && a < |s.actors| == |s'.actors|
    && |s'.record.steps| == |s.record.steps|
    && forall b :: 0 <= b < |s.actors| && b != a ==> s'.actors[b] == s.actors[b]
  }

  /** A step goes back to PENDING only by a write of its holder, which lets go of it; a step is
      taken only while PENDING. */
  lemma HoldsKept(s: State, s': State, a: nat)
    requires HoldsOk(s) && OnlyActor(s, s', a)
    requires HeldOk(s'.record.steps, s'.actors[a])
    requires Held(s'.actors[a]).Some? ==>
      Held(s'.actors[a]) == Held(s.actors[a]) || s.record.steps[Held(s'.actors[a]).value].status.Pending?
    requires forall i :: 0 <= i < |s.record.steps| && s'.record.steps[i].status.Pending? ==>
      s.record.steps[i].status.Pending? || Held(s.actors[a]) == Some(i)
    ensures HoldsOk(s')
  {
    forall b | 0 <= b < |s'.actors|
      ensures HeldOk(s'.record.steps, s'.actors[b])
    {
      if b != a {
        assert HeldOk(s.record.steps, s.actors[b]);
      }
    }
    forall b, d | 0 <= b < |s'.actors| && 0 <= d < |s'.actors| && Held(s'.actors[b]).Some?
      ensures Held(s'.actors[b]) == Held(s'.actors[d]) ==> b == d
    {
      assert b != a ==> HeldOk(s.record.steps, s.actors[b]);
      assert d != a ==> HeldOk(s.record.steps, s.actors[d]);
    }
  }

  /** The execution row only moves forward: PENDING, RUNNING, then one terminal row for good. */
  predicate Forward(e: ExecRow, e': ExecRow) {
    && (!e.status.Pending? ==> !e'.status.Pending? && e'.startedAt == e.startedAt)
    && (e.status.Terminal() ==> e' == e)
  }

  lemma KnowledgeKept(s: State, s': State, a: nat)
    requires KnowledgeOk(s) && OnlyActor(s, s', a) && s'.now == s.now
    requires Forward(s.record.exec, s'.record.exec)
    requires KnowsOk(s'.record, s.now, s'.actors[a])
    ensures KnowledgeOk(s')
  {
    forall b | 0 <= b < |s'.actors|
      ensures KnowsOk(s'.record, s'.now, s'.actors[b])
    {
      if b != a {
        assert KnowsOk(s.record, s.now, s.actors[b]);
      }
    }
  }

  /** COMPLETED and FAILED rows are final, and a held row is written by its holder only. */
  ghost predicate RowsFinal(rows: seq<StepRow>, rows': seq<StepRow>, p: Actor)
    requires |rows| == |rows'|
  {
    && (forall i :: 0 <= i < |rows| && (rows[i].status.Completed? || rows[i].status.Failed?) ==> rows'[i] == rows[i])
    && (Held(p).Some? && Held(p).value < |rows| ==> rows'[Held(p).value] == rows[Held(p).value])
  }

  lemma ViewKept(c: Config, rows: seq<StepRow>, rows': seq<StepRow>, p: Actor)
    requires ActorInRange(|c.steps|, p) && |rows| == |rows'| == |c.steps|
    requires ViewOk(c, rows, p) && RowsFinal(rows, rows', p)
    ensures ViewOk(c, rows', p)
  {
  }

  lemma ViewsKept(c: Config, s: State, s': State, a: nat)
    requires InRange(c, s) && InRange(c, s') && ViewsOk(c, s) && OnlyActor(s, s', a)
    requires forall b :: 0 <= b < |s.actors| && b != a ==> RowsFinal(s.record.steps, s'.record.steps, s.actors[b])
    requires ViewOk(c, s'.record.steps, s'.actors[a])
    ensures ViewsOk(c, s')
  {
    forall b | 0 <= b < |s'.actors|
      ensures ViewOk(c, s'.record.steps, s'.actors[b])
    {
      if b != a {
        ViewKept(c, s.record.steps, s'.record.steps, s.actors[b]);
      }
    }
  }

  /** Counts of the steps other than `i` do not change. */
  ghost predicate OnlyStep(n: nat, l: Ledger, l': Ledger, i: nat)
    requires LedgerInRange(n, l) && LedgerInRange(n, l')
  {
    forall j :: 0 <= j < n && j != i ==>
      && Count(l'.effects, j) == Count(l.effects, j)
      && l'.inFlight[j] == l.inFlight[j]
      && l'.claims[j] == l.claims[j]
      && l'.calls[j] == l.calls[j]
      && l'.retryFailures[j] == l.retryFailures[j]
      && l'.unsafeFailures[j] == l.unsafeFailures[j]
      && l'.reverts[j] == l.reverts[j]
  }

  /** Actor `a` holds step `i` before or after its move, and only the counts of `i` change. */
  lemma CountersKept(c: Config, s: State, s': State, a: nat, i: nat)
    requires InRange(c, s) && InRange(c, s') && HoldsOk(s) && CountersOk(c, s) && OnlyActor(s, s', a)
    requires i < |c.steps| && OnlyStep(|c.steps|, s.ledger, s'.ledger, i)
    requires forall j: nat :: j >= |c.steps| ==> Sent(s'.ledger, j) == Sent(s.ledger, j)
    requires Held(s.actors[a]) == Some(i) || s.record.steps[i].status.Pending?
    requires forall j :: 0 <= j < |c.steps| && j != i ==> s'.record.steps[j].status == s.record.steps[j].status
    requires AccountedAt(s'.record.steps, s'.ledger, i)
    requires s'.actors[a].Attempt? ==> CallOk(c, s'.ledger, s'.actors[a].pc)
    requires Sent(s'.ledger, i) > Sent(s.ledger, i) ==> CallsJira(c.steps[i])
    ensures CountersOk(c, s')
  {
    forall b | 0 <= b < |s'.actors| && s'.actors[b].Attempt?
      ensures CallOk(c, s'.ledger, s'.actors[b].pc)
    {
      if b != a {
        var pc := s.actors[b].pc;
        assert CallOk(c, s.ledger, pc);
        assert HeldOk(s.record.steps, s.actors[b]);
        assert Held(s.actors[b]) != Some(i);
      }
    }
    forall j: nat | j in s'.ledger.effects || j in s'.ledger.inFlight
      ensures j < |c.steps| && CallsJira(c.steps[j])
    {
      assert Sent(s'.ledger, j) > 0;
    }
  }

  /** The execution row and its audit events stay as they are. */
  lemma WinnerKept(s: State, s': State, a: nat)
    requires WinnerOk(s) && OnlyActor(s, s', a)
    requires s'.record.exec == s.record.exec && s'.wins == s.wins && s'.events == s.events
    requires Announcing(s'.actors[a]) ==> Announcing(s.actors[a])
    ensures WinnerOk(s')
  {
    assert forall b :: 0 <= b < |s.actors| && Announcing(s'.actors[b]) ==> Announcing(s.actors[b]);
  }

  /** Neither the step rows nor the ledger change. */
  lemma CountersSame(c: Config, s: State, s': State, a: nat)
    requires InRange(c, s) && InRange(c, s') && CountersOk(c, s) && OnlyActor(s, s', a)
    requires s'.ledger == s.ledger && s'.record.steps == s.record.steps
    requires s'.actors[a].Attempt? ==> CallOk(c, s.ledger, s'.actors[a].pc)
    ensures CountersOk(c, s')
  {
  }

  lemma RowsKept(c: Config, s: State, s': State)
    requires InRange(c, s) && InRange(c, s') && RowsOk(c, s)
    requires s'.record == s.record && s'.ledger.effects == s.ledger.effects && s'.ledger.claims == s.ledger.claims
    ensures RowsOk(c, s')
  {
    hide FirstInOrder;
  }

  /** An actor that changes nothing but its own private state. */
  lemma PrivateMove(c: Config, s: State, s': State, a: nat)
    requires Inv(c, s) && OnlyActor(s, s', a)
    requires s' == s.(actors := s'.actors)
    requires ActorInRange(|c.steps|, s'.actors[a])
    requires Held(s'.actors[a]).Some? ==> Held(s'.actors[a]) == Held(s.actors[a])
    requires s'.actors[a].Attempt? ==> CallOk(c, s.ledger, s'.actors[a].pc)
    requires KnowsOk(s.record, s.now, s'.actors[a])
    requires Announcing(s'.actors[a]) ==> Announcing(s.actors[a])
    requires !WasRecovered(s.record) ==> ViewOk(c, s.record.steps, s'.actors[a])
    ensures Inv(c, s')
  {
    hide CountersOk, KnowledgeOk, WinnerOk, RowsOk, ViewsOk;
    assert HeldOk(s.record.steps, s.actors[a]);
    HoldsKept(s, s', a);
    KnowledgeKept(s, s', a);
    CountersSame(c, s, s', a);
    WinnerKept(s, s', a);
    if !WasRecovered(s.record) {
      ViewsKept(c, s, s', a);
      RowsKept(c, s, s');
    }
  }

  lemma TickKeeps(c: Config, s: State, elapsed: nat)
    requires Inv(c, s)
    ensures Inv(c, Apply(c, s, Tick(elapsed)))
  {
  }

  predicate Fresh(p: Actor) {
    match p
    case Attempt(_, snapshot, outputs, pc) => snapshot == [] && outputs == [] && pc.ReadExecution?
    case Recovery(_, rpc) => rpc.Scan?
  }

  lemma StartKeepsHolds(c: Config, s: State, s': State, p: Actor)
    requires InRange(c, s) && HoldsOk(s) && WinnerOk(s) && Fresh(p) && s' == s.(actors := s.actors + [p])
    ensures InRange(c, s') && HoldsOk(s') && WinnerOk(s')
  {
    assert forall b :: 0 <= b < |s'.actors| ==> s'.actors[b] == if b < |s.actors| then s.actors[b] else p;
  }

  lemma StartKeeps(c: Config, s: State, s': State, p: Actor)
    requires Inv(c, s) && Fresh(p) && s' == s.(actors := s.actors + [p])
    ensures Inv(c, s')
  {
    hide HoldsOk, WinnerOk, FirstInOrder;
    assert forall b :: 0 <= b < |s'.actors| ==> s'.actors[b] == if b < |s.actors| then s.actors[b] else p;
    StartKeepsHolds(c, s, s', p);
    assert CountersOk(c, s');
    assert KnowledgeOk(s');
    if !WasRecovered(s.record) {
      assert RowsOk(c, s');
      assert ViewsOk(c, s');
    }
  }

  // ----- moves that touch only the actor itself -----

  lemma ReadExecutionKeeps(c: Config, s: State, a: nat)
    requires Inv(c, s) && Enabled(c, s, DoReadExecution(a))
    ensures Inv(c, Apply(c, s, DoReadExecution(a)))
  {
    hide HoldsOk, CountersOk, WinnerOk, RowsOk;
    PrivateMove(c, s, ApplyReadExecution(s, a), a);
  }

  lemma ReadStepsKeeps(c: Config, s: State, a: nat)
    requires Inv(c, s) && Enabled(c, s, DoReadSteps(a))
    ensures Inv(c, Apply(c, s, DoReadSteps(a)))
  {
    hide HoldsOk, CountersOk, WinnerOk;
    PrivateMove(c, s, ApplyReadSteps(s, a), a);
  }

  lemma RereadKeeps(c: Config, s: State, a: nat)
    requires Inv(c, s) && Enabled(c, s, DoReread(a))
    ensures Inv(c, Apply(c, s, DoReread(a)))
  {
    hide HoldsOk, CountersOk, WinnerOk, RowsOk;
    PrivateMove(c, s, Apply(c, s, DoReread(a)), a);
  }

  lemma ScanKeeps(c: Config, s: State, a: nat)
    requires Inv(c, s) && Enabled(c, s, DoScan(a))
    ensures Inv(c, Apply(c, s, DoScan(a)))
  {
    hide HoldsOk, CountersOk, WinnerOk, RowsOk;
    PrivateMove(c, s, ApplyScan(s, a), a);
  }

  lemma ReadRunningKeeps(c: Config, s: State, a: nat)
    requires Inv(c, s) && Enabled(c, s, DoReadRunning(a))
    ensures Inv(c, Apply(c, s, DoReadRunning(a)))
  {
    hide HoldsOk, CountersOk, WinnerOk, RowsOk;
    PrivateMove(c, s, ApplyReadRunning(c, s, a), a);
  }

  lemma LookUpKeeps(c: Config, s: State, a: nat, answer: Option<string>)
    requires Inv(c, s) && Enabled(c, s, DoLookUp(a, answer))
    ensures Inv(c, Apply(c, s, DoLookUp(a, answer)))
  {
    var s' := ApplyLookUp(s, a, answer);
    var todo := s.actors[a].rpc.todo;
    assert todo[0] in todo && forall i :: i in todo[1..] ==> i in todo;
    assert ActorInRange(|c.steps|, s.actors[a]) && KnowsOk(s.record, s.now, s.actors[a]);
    PrivateMove(c, s, s', a);
  }

  // ----- the loop of an attempt -----

  /** A freshly claimed execution has had no step claimed. */
  lemma StartKeepsRows(c: Config, s: State, a: nat)
    requires Inv(c, s) && Enabled(c, s, DoClaimExecution(a)) && s.record.exec.status.Pending?
    ensures InRange(c, ApplyClaimExecution(s, a))
    ensures RowsOk(c, ApplyClaimExecution(s, a)) && ViewsOk(c, ApplyClaimExecution(s, a))
    ensures WinnerOk(ApplyClaimExecution(s, a))
  {
    hide HoldsOk, CountersOk, FirstInOrder;
    ViewsKept(c, s, ApplyClaimExecution(s, a), a);
  }

  lemma ClaimExecutionKeeps(c: Config, s: State, a: nat)
    requires Inv(c, s) && Enabled(c, s, DoClaimExecution(a))
    ensures Inv(c, Apply(c, s, DoClaimExecution(a)))
  {
    hide CountersOk, WinnerOk, RowsOk;
    var s' := ApplyClaimExecution(s, a);
    if s.record.exec.status.Pending? {
      StartKeepsRows(c, s, a);
      CountersSame(c, s, s', a);
      HoldsKept(s, s', a);
      KnowledgeKept(s, s', a);
    } else {
      PrivateMove(c, s, s', a);
    }
  }

  /** The attempt that claims step `i` has seen every earlier step COMPLETED, so the execution
      cannot have been finalized by the processor. */
  lemma ClaimMeansUnfinished(c: Config, s: State, a: nat)
    requires Inv(c, s) && Enabled(c, s, DoClaimStep(a)) && !WasRecovered(s.record)
    requires s.record.steps[s.actors[a].pc.i].status.Pending?
    ensures s.record.exec.status.Running?
    ensures ExternalOperationDedupReason(s.actors[a].snapshot[s.actors[a].pc.i].output).None?
  {
    var i := s.actors[a].pc.i;
    assert ViewOk(c, s.record.steps, s.actors[a]);
    assert KnowsOk(s.record, s.now, s.actors[a]);
    assert SnapshotOk(s.actors[a].snapshot[i], s.record.steps[i]);
  }

  lemma ClaimKeepsViews(c: Config, s: State, a: nat)
    requires Inv(c, s) && Enabled(c, s, DoClaimStep(a)) && !WasRecovered(s.record)
    requires s.record.steps[s.actors[a].pc.i].status.Pending?
    ensures InRange(c, ApplyClaimStep(c, s, a)) && ViewsOk(c, ApplyClaimStep(c, s, a))
  {
    hide CountersOk, KnowledgeOk, WinnerOk, RowsOk;
    ClaimMeansUnfinished(c, s, a);
    assert ViewOk(c, s.record.steps, s.actors[a]);
    ViewsKept(c, s, ApplyClaimStep(c, s, a), a);
  }

  lemma ClaimKeepsRows(c: Config, s: State, a: nat)
    requires Inv(c, s) && Enabled(c, s, DoClaimStep(a)) && !WasRecovered(s.record)
    requires s.record.steps[s.actors[a].pc.i].status.Pending?
    ensures InRange(c, ApplyClaimStep(c, s, a)) && RowsOk(c, ApplyClaimStep(c, s, a))
  {
    hide HoldsOk, CountersOk, KnowledgeOk, WinnerOk, FirstInOrder;
    ClaimMeansUnfinished(c, s, a);
    assert ViewOk(c, s.record.steps, s.actors[a]);
  }

  lemma ClaimKeepsCounters(c: Config, s: State, a: nat)
    requires Inv(c, s) && Enabled(c, s, DoClaimStep(a))
    requires s.record.steps[s.actors[a].pc.i].status.Pending?
    ensures InRange(c, ApplyClaimStep(c, s, a))
    ensures HoldsOk(ApplyClaimStep(c, s, a)) && CountersOk(c, ApplyClaimStep(c, s, a))
  {
    hide KnowledgeOk, WinnerOk, RowsOk, ViewsOk;
    var s' := ApplyClaimStep(c, s, a);
    assert AccountedAt(s.record.steps, s.ledger, s.actors[a].pc.i);
    HoldsKept(s, s', a);
    CountersKept(c, s, s', a, s.actors[a].pc.i);
  }

  lemma ClaimStepKeeps(c: Config, s: State, a: nat)
    requires Inv(c, s) && Enabled(c, s, DoClaimStep(a))
    requires s.record.steps[s.actors[a].pc.i].status.Pending?
    ensures Inv(c, Apply(c, s, DoClaimStep(a)))
  {
    var s' := ApplyClaimStep(c, s, a);
    assert KnowsOk(s.record, s.now, s.actors[a]);
    ClaimKeepsCounters(c, s, a);
    KnowledgeKept(s, s', a);
    WinnerKept(s, s', a);
    if !WasRecovered(s.record) {
      ClaimKeepsRows(c, s, a);
      ClaimKeepsViews(c, s, a);
    }
  }

  /** Skipping a COMPLETED step pushes the output that its row carries. */
  lemma SkipView(c: Config, rows: seq<StepRow>, p: Actor, p': Actor)
    requires ActorInRange(|c.steps|, p) && |rows| == |c.steps| && ViewOk(c, rows, p)
    requires p.Attempt? && p.pc.Loop? && p.pc.i < |rows| && p.snapshot[p.pc.i].status.Completed?
    requires p.snapshot[p.pc.i].output.Some?
    requires p' == p.(outputs := p.outputs + [EntryOf(c.steps[p.pc.i], p.snapshot[p.pc.i].output.value)],
                      pc := Loop(p.pc.i + 1))
    ensures ViewOk(c, rows, p')
  {
    assert SnapshotOk(p.snapshot[p.pc.i], rows[p.pc.i]);
  }

  lemma MissView(c: Config, s: State, a: nat)
    requires Inv(c, s) && Enabled(c, s, DoClaimStep(a)) && !WasRecovered(s.record)
    requires !s.record.steps[s.actors[a].pc.i].status.Pending?
    ensures InRange(c, ApplyClaimStep(c, s, a)) && ViewOk(c, s.record.steps, ApplyClaimStep(c, s, a).actors[a])
  {
    hide HoldsOk, CountersOk, KnowledgeOk, WinnerOk, RowsOk;
    var p, s' := s.actors[a], ApplyClaimStep(c, s, a);
    assert ViewOk(c, s.record.steps, p) && ActorInRange(|c.steps|, p);
    var seen := p.snapshot[p.pc.i];
    assert SnapshotOk(seen, s.record.steps[p.pc.i]);
    if seen.status.Completed? {
      SkipView(c, s.record.steps, p, s'.actors[a]);
    }
  }

  lemma ClaimMissKeeps(c: Config, s: State, a: nat)
    requires Inv(c, s) && Enabled(c, s, DoClaimStep(a))
    requires !s.record.steps[s.actors[a].pc.i].status.Pending?
    ensures Inv(c, Apply(c, s, DoClaimStep(a)))
  {
    hide HoldsOk, CountersOk, WinnerOk, RowsOk, ViewsOk;
    assert KnowsOk(s.record, s.now, s.actors[a]) && ActorInRange(|c.steps|, s.actors[a]);
    if !WasRecovered(s.record) {
      MissView(c, s, a);
    }
    PrivateMove(c, s, ApplyClaimStep(c, s, a), a);
  }

  // ----- the handler -----

  lemma CountAppend(log: seq<nat>, i: nat, j: nat)
    ensures Count(log + [i], j) == Count(log, j) + if i == j then 1 else 0
  {
  }

  lemma CountsAppend(log: seq<nat>, i: nat)
    ensures forall j: nat :: Count(log + [i], j) == Count(log, j) + if i == j then 1 else 0
  {
    forall j: nat
      ensures Count(log + [i], j) == Count(log, j) + if i == j then 1 else 0
    {
      CountAppend(log, i, j);
    }
  }

  /** A step may take effect once every earlier Jira step has. */
  lemma FirstInOrderAppend(c: Config, log: seq<nat>, i: nat)
    requires FirstInOrder(c, log)
    requires forall j :: 0 <= j < i && j < |c.steps| && CallsJira(c.steps[j]) ==> j in log
    ensures FirstInOrder(c, log + [i])
  {
    forall y, j | 0 <= y < |log + [i]| && 0 <= j < (log + [i])[y] && j < |c.steps| && CallsJira(c.steps[j])
      ensures j in (log + [i])[..y]
    {
      assert (log + [i])[..y] == log[..y];
      assert y == |log| ==> log[..y] == log;
    }
  }

  /** The steps before a claimed one have taken effect, if no recovery has ended the execution. */
  lemma EarlierTookEffect(c: Config, s: State, i: nat)
    requires Inv(c, s) && !WasRecovered(s.record) && i < |c.steps| && s.ledger.claims[i] > 0
    ensures forall j :: 0 <= j < i && CallsJira(c.steps[j]) ==> j in s.ledger.effects
  {
    forall j | 0 <= j < i && CallsJira(c.steps[j])
      ensures j in s.ledger.effects
    {
      assert Count(s.ledger.effects, j) > 0;
    }
  }

  lemma EffectKeepsCounters(c: Config, s: State, a: nat)
    requires Inv(c, s) && Enabled(c, s, DoJiraEffect(a))
    ensures InRange(c, ApplyJiraEffect(s, a))
    ensures HoldsOk(ApplyJiraEffect(s, a)) && CountersOk(c, ApplyJiraEffect(s, a))
  {
    hide KnowledgeOk, WinnerOk, RowsOk, ViewsOk;
    var p, s' := s.actors[a], ApplyJiraEffect(s, a);
    assert ActorInRange(|c.steps|, p) && HeldOk(s.record.steps, p) && CallOk(c, s.ledger, p.pc);
    assert AccountedAt(s.record.steps, s.ledger, p.pc.i);
    HoldsKept(s, s', a);
    CountsAppend(s.ledger.effects, p.pc.i);
    CountersKept(c, s, s', a, p.pc.i);
  }

  /** The rows of an execution whose ledger gains an effect of a claimed step. */
  lemma EffectKeepsRows(c: Config, s: State, s': State, i: nat)
    requires Inv(c, s) && InRange(c, s') && !WasRecovered(s.record) && s'.record == s.record
    requires i < |c.steps| && s.ledger.claims[i] > 0
    requires s'.ledger.effects == s.ledger.effects + [i] && s'.ledger.claims == s.ledger.claims
    ensures RowsOk(c, s')
  {
    hide FirstInOrder;
    EarlierTookEffect(c, s, i);
    FirstInOrderAppend(c, s.ledger.effects, i);
    CountsAppend(s.ledger.effects, i);
  }

  lemma JiraEffectKeeps(c: Config, s: State, a: nat)
    requires Inv(c, s) && Enabled(c, s, DoJiraEffect(a))
    ensures Inv(c, Apply(c, s, DoJiraEffect(a)))
  {
    hide CountersOk, WinnerOk, RowsOk;
    var s' := ApplyJiraEffect(s, a);
    assert KnowsOk(s.record, s.now, s.actors[a]);
    EffectKeepsCounters(c, s, a);
    KnowledgeKept(s, s', a);
    WinnerKept(s, s', a);
    if !WasRecovered(s.record) {
      HolderMeansUnfinished(c, s, a);
      EffectKeepsRows(c, s, s', s.actors[a].pc.i);
      assert ViewOk(c, s.record.steps, s.actors[a]);
      ViewsKept(c, s, s', a);
    }
  }

  /** A request in flight was sent by a call, so its step has been claimed. */
  lemma InFlightWasClaimed(c: Config, s: State, i: nat)
    requires Inv(c, s) && i in s.ledger.inFlight
    ensures i < |c.steps| && CallsJira(c.steps[i]) && s.ledger.claims[i] > 0
  {
    assert AccountedAt(s.record.steps, s.ledger, i);
  }

  lemma LateEffectKeepsCounters(c: Config, s: State, i: nat)
    requires InRange(c, s) && CountersOk(c, s) && i in s.ledger.inFlight
    ensures InRange(c, ApplyLateEffect(s, i)) && CountersOk(c, ApplyLateEffect(s, i))
  {
    var l, l' := s.ledger, ApplyLateEffect(s, i).ledger;
    CountsAppend(l.effects, i);
    assert forall j: nat :: Sent(l', j) == Sent(l, j);
    forall j: nat | j in l'.effects || j in l'.inFlight
      ensures j < |c.steps| && CallsJira(c.steps[j])
    {
      assert Sent(l', j) > 0;
    }
  }

  lemma LateEffectKeeps(c: Config, s: State, i: nat)
    requires Inv(c, s) && Enabled(c, s, DoLateEffect(i))
    ensures Inv(c, Apply(c, s, DoLateEffect(i)))
  {
    hide CountersOk, RowsOk;
    LateEffectKeepsCounters(c, s, i);
    InFlightWasClaimed(c, s, i);
    if !WasRecovered(s.record) {
      EffectKeepsRows(c, s, ApplyLateEffect(s, i), i);
    }
  }

  /** A call of step `i` ends: only the actor and the counts of its step change. */
  lemma CallMove(c: Config, s: State, s': State, a: nat, i: nat)
    requires Inv(c, s) && InRange(c, s') && OnlyActor(s, s', a) && i < |c.steps|
    requires s' == s.(actors := s'.actors, ledger := s'.ledger)
    requires Held(s.actors[a]) == Some(i) && (Held(s'.actors[a]).Some? ==> Held(s'.actors[a]) == Some(i))
    requires OnlyStep(|c.steps|, s.ledger, s'.ledger, i)
    requires forall j: nat :: j >= |c.steps| ==> Sent(s'.ledger, j) == Sent(s.ledger, j)
    requires s'.ledger.effects == s.ledger.effects && s'.ledger.claims == s.ledger.claims
    requires Sent(s'.ledger, i) > Sent(s.ledger, i) ==> CallsJira(c.steps[i])
    requires AccountedAt(s'.record.steps, s'.ledger, i)
    requires s'.actors[a].Attempt? && CallOk(c, s'.ledger, s'.actors[a].pc)
    requires KnowsOk(s.record, s.now, s'.actors[a]) && !Announcing(s'.actors[a])
    requires !WasRecovered(s.record) ==> ViewOk(c, s.record.steps, s'.actors[a])
    ensures Inv(c, s')
  {
    hide CountersOk, KnowledgeOk, WinnerOk, RowsOk, ViewsOk;
    assert HeldOk(s.record.steps, s.actors[a]);
    HoldsKept(s, s', a);
    KnowledgeKept(s, s', a);
    CountersKept(c, s, s', a, i);
    WinnerKept(s, s', a);
    if !WasRecovered(s.record) {
      ViewsKept(c, s, s', a);
      RowsKept(c, s, s');
    }
  }

  /** How a call that ends or crashes changes the counts of its step. */
  lemma LingerKeepsCounts(c: Config, s: State, a: nat, lingering: bool)
    requires InRange(c, s) && HoldsOk(s) && CountersOk(c, s)
    requires AttemptAt(s, a) && s.actors[a].pc.Calling? && (lingering ==> MayLinger(c, s, a))
    ensures var i, l := s.actors[a].pc.i, Linger(s.ledger, s.actors[a].pc.i, lingering);
      && i < |c.steps|
      && AccountedAt(s.record.steps, l, i) && Sent(l, i) <= l.calls[i]
      && OnlyStep(|c.steps|, s.ledger, l, i)
      && (Sent(l, i) > Sent(s.ledger, i) ==> CallsJira(c.steps[i]))
      && Sent(l, i) <= l.unsafeFailures[i] + if s.actors[a].pc.applied || lingering then 1 else 0
  {
    assert ActorInRange(|c.steps|, s.actors[a]) && HeldOk(s.record.steps, s.actors[a]);
    assert CallOk(c, s.ledger, s.actors[a].pc) && AccountedAt(s.record.steps, s.ledger, s.actors[a].pc.i);
  }

  lemma EndKeepsCounts(c: Config, s: State, a: nat, outcome: HandlerOutcome, lingering: bool)
    requires InRange(c, s) && HoldsOk(s) && CountersOk(c, s) && Enabled(c, s, DoHandlerEnd(a, outcome, lingering))
    ensures var i, s' := s.actors[a].pc.i, ApplyHandlerEnd(c, s, a, outcome, lingering);
      && InRange(c, s') && AccountedAt(s.record.steps, s'.ledger, i) && OnlyStep(|c.steps|, s.ledger, s'.ledger, i)
      && (Sent(s'.ledger, i) > Sent(s.ledger, i) ==> CallsJira(c.steps[i]))
      && CallOk(c, s'.ledger, AfterCall(s.actors[a], outcome).pc)
  {
    LingerKeepsCounts(c, s, a, lingering);
    assert ActorInRange(|c.steps|, s.actors[a]) && CallOk(c, s.ledger, s.actors[a].pc);
  }

  lemma HandlerEndKeeps(c: Config, s: State, a: nat, outcome: HandlerOutcome, lingering: bool)
    requires Inv(c, s) && Enabled(c, s, DoHandlerEnd(a, outcome, lingering))
    ensures Inv(c, Apply(c, s, DoHandlerEnd(a, outcome, lingering)))
  {
    hide HoldsOk, CountersOk, WinnerOk, RowsOk, CallOk, AccountedAt, CanEnd;
    var p, s' := s.actors[a], ApplyHandlerEnd(c, s, a, outcome, lingering);
    EndKeepsCounts(c, s, a, outcome, lingering);
    assert ActorInRange(|c.steps|, p) && KnowsOk(s.record, s.now, p);
    assert !WasRecovered(s.record) ==> ViewOk(c, s.record.steps, p);
    CallMove(c, s, s', a, p.pc.i);
  }

  lemma CrashKeeps(c: Config, s: State, a: nat, lingering: bool)
    requires Inv(c, s) && Enabled(c, s, Crash(a, lingering))
    ensures Inv(c, Apply(c, s, Crash(a, lingering)))
  {
    hide WinnerOk, RowsOk;
    if lingering {
      var p, i := s.actors[a], s.actors[a].pc.i;
      assert ActorInRange(|c.steps|, p) && HeldOk(s.record.steps, p) && CallOk(c, s.ledger, p.pc);
      assert AccountedAt(s.record.steps, s.ledger, i);
      assert !WasRecovered(s.record) ==> ViewOk(c, s.record.steps, p);
      CallMove(c, s, ApplyCrash(s, a, true), a, i);
    } else {
      assert !WasRecovered(s.record) ==> ViewOk(c, s.record.steps, s.actors[a]);
      PrivateMove(c, s, ApplyCrash(s, a, false), a);
    }
  }

  lemma RefuseWriteKeeps(c: Config, s: State, a: nat)
    requires Inv(c, s) && Enabled(c, s, DoRefuseWrite(a))
    ensures Inv(c, Apply(c, s, DoRefuseWrite(a)))
  {
    hide HoldsOk, WinnerOk, RowsOk;
    var p := s.actors[a];
    assert ActorInRange(|c.steps|, p) && KnowsOk(s.record, s.now, p);
    PrivateMove(c, s, ApplyRefuseWrite(s, a), a);
  }

  /** A write of a step changes one row, lets go of the step, and may count as a revert. */
  lemma WriteShape(c: Config, s: State, a: nat)
    requires InRange(c, s) && Enabled(c, s, DoWriteStep(a))
    ensures Held(s.actors[a]).Some? && Held(s.actors[a]).value < |c.steps|
    ensures InRange(c, ApplyWriteStep(c, s, a)) && OnlyActor(s, ApplyWriteStep(c, s, a), a)
    ensures var s', i := ApplyWriteStep(c, s, a), Held(s.actors[a]).value;
      && Held(s'.actors[a]).None? && s'.actors[a].Attempt? && CallOk(c, s'.ledger, s'.actors[a].pc)
      && s'.record == s.record.(steps := s.record.steps[i := s'.record.steps[i]])
      && s' == s.(record := s'.record, actors := s'.actors, ledger := s.ledger.(reverts := s'.ledger.reverts))
      && (s'.record.steps[i].status.Pending? <==> s.actors[a].pc.FailedRetryably?)
      && s'.ledger.reverts ==
           if s.actors[a].pc.FailedRetryably? then s.ledger.reverts[i := s.ledger.reverts[i] + 1] else s.ledger.reverts
  {
    assert ActorInRange(|c.steps|, s.actors[a]);
  }

  lemma WriteKeepsCounters(c: Config, s: State, a: nat)
    requires Inv(c, s) && Enabled(c, s, DoWriteStep(a))
    ensures InRange(c, ApplyWriteStep(c, s, a))
    ensures HoldsOk(ApplyWriteStep(c, s, a)) && CountersOk(c, ApplyWriteStep(c, s, a))
  {
    WriteShape(c, s, a);
    var p, s', l, i := s.actors[a], ApplyWriteStep(c, s, a), s.ledger, Held(s.actors[a]).value;
    assert HeldOk(s.record.steps, p) && CallOk(c, l, p.pc);
    assert AccountedAt(s.record.steps, l, i);
    HoldsKept(s, s', a);
    CountersKept(c, s, s', a, i);
  }

  /** An attempt that holds a step works on an execution that is still RUNNING. */
  lemma HolderMeansUnfinished(c: Config, s: State, a: nat)
    requires Inv(c, s) && a < |s.actors| && Held(s.actors[a]).Some? && !WasRecovered(s.record)
    ensures s.record.exec.status.Running?
    ensures s.record.steps[Held(s.actors[a]).value].status.Running?
    ensures s.ledger.claims[Held(s.actors[a]).value] > 0
  {
    assert ViewOk(c, s.record.steps, s.actors[a]);
    assert KnowsOk(s.record, s.now, s.actors[a]);
  }

  /** A RUNNING step may become COMPLETED with a handler's output, FAILED, or PENDING again. */
  lemma RewriteKeepsRows(c: Config, s: State, s': State, i: nat, row: StepRow)
    requires InRange(c, s) && InRange(c, s') && RowsOk(c, s)
    requires s.record.exec.status.Running? && s'.record.exec == s.record.exec
    requires i < |c.steps| && s.record.steps[i].status.Running? && s.ledger.claims[i] > 0
    requires s'.record.steps == s.record.steps[i := row]
    requires s'.ledger.effects == s.ledger.effects && s'.ledger.claims == s.ledger.claims
    requires RowOk(c.steps[i], row)
    requires row.status.Completed? && CallsJira(c.steps[i]) ==> Count(s.ledger.effects, i) > 0
    ensures RowsOk(c, s')
  {
    hide FirstInOrder;
  }

  lemma WriteKeepsRows(c: Config, s: State, a: nat)
    requires Inv(c, s) && Enabled(c, s, DoWriteStep(a)) && !WasRecovered(s.record)
    ensures InRange(c, ApplyWriteStep(c, s, a))
    ensures RowsOk(c, ApplyWriteStep(c, s, a))
  {
    var p, s' := s.actors[a], ApplyWriteStep(c, s, a);
    HolderMeansUnfinished(c, s, a);
    WriteKeepsCounters(c, s, a);
    assert ViewOk(c, s.record.steps, p) && CallOk(c, s.ledger, p.pc);
    var i := Cursor(p.pc).value;
    assert RowOk(c.steps[i], s.record.steps[i]);
    RewriteKeepsRows(c, s, s', i, s'.record.steps[i]);
  }

  lemma WriteKeepsViews(c: Config, s: State, a: nat)
    requires Inv(c, s) && Enabled(c, s, DoWriteStep(a)) && !WasRecovered(s.record)
    ensures InRange(c, ApplyWriteStep(c, s, a))
    ensures ViewsOk(c, ApplyWriteStep(c, s, a))
  {
    WriteShape(c, s, a);
    var p, s', i := s.actors[a], ApplyWriteStep(c, s, a), Held(s.actors[a]).value;
    HolderMeansUnfinished(c, s, a);
    assert ViewOk(c, s.record.steps, p);
    assert ViewOk(c, s'.record.steps, s'.actors[a]);
    forall b | 0 <= b < |s.actors| && b != a
      ensures Held(s.actors[b]) != Some(i)
    {
    }
    ViewsKept(c, s, s', a);
  }

  lemma WriteStepKeeps(c: Config, s: State, a: nat)
    requires Inv(c, s) && Enabled(c, s, DoWriteStep(a))
    ensures Inv(c, Apply(c, s, DoWriteStep(a)))
  {
    hide HoldsOk, CountersOk, WinnerOk, RowsOk, ViewsOk;
    var p, s' := s.actors[a], ApplyWriteStep(c, s, a);
    assert KnowsOk(s.record, s.now, p) && ActorInRange(|c.steps|, p);
    WriteKeepsCounters(c, s, a);
    KnowledgeKept(s, s', a);
    WinnerKept(s, s', a);
    if !WasRecovered(s.record) {
      WriteKeepsRows(c, s, a);
      WriteKeepsViews(c, s, a);
    }
  }

  // ----- the guarded terminal writes -----

  /** The announcer is the only one and has not announced before. */
  lemma AnnouncedOnce(s: State, s': State, a: nat)
    requires WinnerOk(s) && OnlyActor(s, s', a)
    requires s' == s.(actors := s'.actors, events := s.events + [EventFor(s.record)])
    requires Announcing(s.actors[a]) && !Announcing(s'.actors[a]) && s.record.exec.status.Terminal()
    ensures WinnerOk(s')
  {
  }

  lemma AnnounceKeeps(c: Config, s: State, s': State, a: nat)
    requires Inv(c, s) && OnlyActor(s, s', a)
    requires s' == s.(actors := s'.actors, events := s.events + [EventFor(s.record)])
    requires Announcing(s.actors[a]) && !Announcing(s'.actors[a]) && s.record.exec.status.Terminal()
    requires ActorInRange(|c.steps|, s'.actors[a]) && Held(s'.actors[a]).None?
    requires s'.actors[a].Attempt? ==> CallOk(c, s.ledger, s'.actors[a].pc)
    requires KnowsOk(s.record, s.now, s'.actors[a])
    requires !WasRecovered(s.record) ==> ViewOk(c, s.record.steps, s'.actors[a])
    ensures Inv(c, s')
  {
    hide HoldsOk, CountersOk, KnowledgeOk, WinnerOk, RowsOk, ViewsOk;
    HoldsKept(s, s', a);
    KnowledgeKept(s, s', a);
    CountersSame(c, s, s', a);
    AnnouncedOnce(s, s', a);
    if !WasRecovered(s.record) {
      ViewsKept(c, s, s', a);
      RowsKept(c, s, s');
    }
  }

  lemma AuditKeeps(c: Config, s: State, a: nat)
    requires Inv(c, s) && Enabled(c, s, DoAudit(a))
    ensures Inv(c, Apply(c, s, DoAudit(a)))
  {
    hide HoldsOk, CountersOk, WinnerOk, RowsOk;
    var p := s.actors[a];
    assert KnowsOk(s.record, s.now, p) && ActorInRange(|c.steps|, p);
    assert !WasRecovered(s.record) ==> ViewOk(c, s.record.steps, p);
    AnnounceKeeps(c, s, ApplyAudit(s, a), a);
  }

  lemma AuditRecoveryKeeps(c: Config, s: State, a: nat)
    requires Inv(c, s) && Enabled(c, s, DoAuditRecovery(a))
    ensures Inv(c, Apply(c, s, DoAuditRecovery(a)))
  {
    hide HoldsOk, CountersOk, WinnerOk, RowsOk;
    assert KnowsOk(s.record, s.now, s.actors[a]);
    AnnounceKeeps(c, s, Apply(c, s, DoAuditRecovery(a)), a);
  }

  /** While the execution is RUNNING nobody has announced a winner. */
  lemma NobodyAnnounces(c: Config, s: State, b: nat)
    requires Inv(c, s) && s.record.exec.status.Running? && b < |s.actors|
    ensures !Announcing(s.actors[b]) && s.events == [] && s.wins == 0
  {
    assert KnowsOk(s.record, s.now, s.actors[b]);
  }

  /** The write that ends the execution is the first to do so. */
  lemma FirstWinner(c: Config, s: State, s': State, a: nat)
    requires Inv(c, s) && s.record.exec.status.Running? && OnlyActor(s, s', a)
    requires s'.record.exec.status.Terminal() && s'.wins == s.wins + 1 && s'.events == s.events
    ensures WinnerOk(s')
  {
    forall b | 0 <= b < |s.actors|
      ensures !Announcing(s.actors[b]) && s.events == [] && s.wins == 0
    {
      NobodyAnnounces(c, s, b);
    }
  }

  /** The rows below an attempt that is about to finalize, as its result will describe them. */
  lemma FinalRows(c: Config, s: State, a: nat)
    requires Inv(c, s) && Enabled(c, s, DoFinalize(a)) && s.record.exec.status.Running?
    ensures EntriesMatch(c, s.record.steps, s.actors[a].outputs)
    ensures s.actors[a].pc.FinalizeFailed? ==>
      var k := s.actors[a].pc.i;
      && k < |c.steps| && s.record.steps[k].status.Failed? && |s.actors[a].outputs| == k
      && forall j :: k < j < |c.steps| ==> s.record.steps[j].status.Pending?
  {
    hide HoldsOk, KnowledgeOk, WinnerOk, FirstInOrder;
    var p := s.actors[a];
    assert ViewOk(c, s.record.steps, p) && ActorInRange(|c.steps|, p);
    if p.pc.FinalizeFailed? {
      assert forall j :: p.pc.i < j < |c.steps| ==> s.ledger.claims[j] == 0;
    }
  }

  lemma FinalizeKeepsRows(c: Config, s: State, a: nat)
    requires Inv(c, s) && Enabled(c, s, DoFinalize(a)) && s.record.exec.status.Running?
    ensures InRange(c, ApplyFinalize(c, s, a)) && RowsOk(c, ApplyFinalize(c, s, a))
  {
    hide HoldsOk, CountersOk, KnowledgeOk, WinnerOk, ViewsOk, FirstInOrder;
    FinalRows(c, s, a);
    var p, s' := s.actors[a], ApplyFinalize(c, s, a);
    if p.pc.FinalizeFailed? {
      assert forall i :: 0 <= i < p.pc.i ==> EntryMatches(c.steps[i], s.record.steps[i], p.outputs[i]);
      assert FailedAt(c, s'.record, p.pc.i);
    } else {
      assert ActorInRange(|c.steps|, p);
      assert CompletedWhole(c, s'.record);
    }
  }

  lemma FinalizeKeepsViews(c: Config, s: State, a: nat)
    requires Inv(c, s) && Enabled(c, s, DoFinalize(a)) && s.record.exec.status.Running?
    ensures InRange(c, ApplyFinalize(c, s, a)) && ViewsOk(c, ApplyFinalize(c, s, a))
  {
    hide HoldsOk, CountersOk, KnowledgeOk, WinnerOk, RowsOk;
    assert ViewOk(c, s.record.steps, s.actors[a]);
    ViewsKept(c, s, ApplyFinalize(c, s, a), a);
  }

  lemma WinKeeps(c: Config, s: State, a: nat)
    requires Inv(c, s) && Enabled(c, s, DoFinalize(a)) && s.record.exec.status.Running?
    ensures Inv(c, Apply(c, s, DoFinalize(a)))
  {
    hide CountersOk, KnowledgeOk, WinnerOk, RowsOk, ViewsOk;
    var s' := ApplyFinalize(c, s, a);
    FirstWinner(c, s, s', a);
    HoldsKept(s, s', a);
    KnowledgeKept(s, s', a);
    CountersSame(c, s, s', a);
    FinalizeKeepsRows(c, s, a);
    FinalizeKeepsViews(c, s, a);
  }

  lemma FinalizeKeeps(c: Config, s: State, a: nat)
    requires Inv(c, s) && Enabled(c, s, DoFinalize(a))
    ensures Inv(c, Apply(c, s, DoFinalize(a)))
  {
    hide HoldsOk, CountersOk, WinnerOk, RowsOk;
    assert KnowsOk(s.record, s.now, s.actors[a]) && ActorInRange(|c.steps|, s.actors[a]);
    if s.record.exec.status.Running? {
      WinKeeps(c, s, a);
    } else {
      PrivateMove(c, s, ApplyFinalize(c, s, a), a);
    }
  }

  /** Once scanned as stale, an execution that is still RUNNING is still stale. */
  lemma StillStale(c: Config, s: State, a: nat)
    requires Inv(c, s) && Enabled(c, s, DoRecover(a)) && s.record.exec.status.Running?
    ensures Stale(s.record.exec, s.now, s.actors[a].timeout)
  {
    assert KnowsOk(s.record, s.now, s.actors[a]);
  }

  /** Changing statuses among those that are not PENDING leaves the accounting alone. */
  lemma CountersSurvive(c: Config, s: State, s': State, a: nat)
    requires InRange(c, s) && InRange(c, s') && CountersOk(c, s) && OnlyActor(s, s', a)
    requires s'.ledger == s.ledger && s'.actors[a].Recovery?
    requires forall i :: 0 <= i < |c.steps| ==>
      (s'.record.steps[i].status.Pending? <==> s.record.steps[i].status.Pending?)
    ensures CountersOk(c, s')
  {
    forall i | 0 <= i < |c.steps|
      ensures AccountedAt(s'.record.steps, s.ledger, i)
    {
      assert AccountedAt(s.record.steps, s.ledger, i);
    }
  }

  /** A committed recovery ends the execution as FAILED. */
  lemma RecoverShape(c: Config, s: State, a: nat)
    requires Inv(c, s) && Enabled(c, s, DoRecover(a)) && s.record.exec.status.Running?
    ensures var s', r := ApplyRecover(c, s, a), ApplyRecover(c, s, a).record;
      && InRange(c, s') && OnlyActor(s, s', a)
      && s' == s.(record := r, actors := s'.actors, wins := s.wins + 1)
      && s'.actors[a] == s.actors[a].(rpc := RegisterRecovery)
      && r.steps == RecoveredRows(c, s.record.steps, s.actors[a].rpc.found)
      && r.exec.status.Failed? && WasRecovered(r) && r.exec.startedAt == s.record.exec.startedAt
  {
    StillStale(c, s, a);
  }

  lemma RecoverKeepsCounters(c: Config, s: State, s': State, a: nat, found: map<nat, string>)
    requires InRange(c, s) && HoldsOk(s) && CountersOk(c, s) && RecoveryAt(s, a)
    requires InRange(c, s') && OnlyActor(s, s', a) && s'.ledger == s.ledger && s'.actors[a].Recovery?
    requires s'.record.steps == RecoveredRows(c, s.record.steps, found)
    ensures HoldsOk(s') && CountersOk(c, s')
  {
    assert forall i :: 0 <= i < |c.steps| ==>
      (s'.record.steps[i].status.Pending? <==> s.record.steps[i].status.Pending?);
    assert HoldsOk(s') by { HoldsKept(s, s', a); }
    CountersSurvive(c, s, s', a);
  }

  lemma CommitKeeps(c: Config, s: State, a: nat)
    requires Inv(c, s) && Enabled(c, s, DoRecover(a)) && s.record.exec.status.Running?
    ensures Inv(c, Apply(c, s, DoRecover(a)))
  {
    var p, s' := s.actors[a], ApplyRecover(c, s, a);
    RecoverShape(c, s, a);
    RecoverKeepsCounters(c, s, s', a, p.rpc.found);
    FirstWinner(c, s, s', a);
    KnowledgeKept(s, s', a);
  }

  lemma RecoverKeeps(c: Config, s: State, a: nat)
    requires Inv(c, s) && Enabled(c, s, DoRecover(a))
    ensures Inv(c, Apply(c, s, DoRecover(a)))
  {
    hide HoldsOk, CountersOk, WinnerOk, RowsOk;
    assert KnowsOk(s.record, s.now, s.actors[a]) && ActorInRange(|c.steps|, s.actors[a]);
    if s.record.exec.status.Running? {
      CommitKeeps(c, s, a);
    } else {
      PrivateMove(c, s, ApplyRecover(c, s, a), a);
    }
  }

  // ----- every step, every run -----

  lemma StepKeeps(c: Config, s: State, act: Action)
    requires Inv(c, s) && Enabled(c, s, act)
    ensures Inv(c, Apply(c, s, act))
  {
    hide HoldsOk, CountersOk, KnowledgeOk, WinnerOk, RowsOk, ViewsOk;
    match act
    case Tick(elapsed) => TickKeeps(c, s, elapsed);
    case StartAttempt(processedBy) => StartKeeps(c, s, Apply(c, s, act), Attempt(processedBy, [], [], ReadExecution));
    case StartRecovery(timeout) => StartKeeps(c, s, Apply(c, s, act), Recovery(timeout, Scan));
    case Crash(a, lingering) => CrashKeeps(c, s, a, lingering);
    case DoReadExecution(a) => ReadExecutionKeeps(c, s, a);
    case DoReadSteps(a) => ReadStepsKeeps(c, s, a);
    case DoClaimExecution(a) => ClaimExecutionKeeps(c, s, a);
    case DoClaimStep(a) =>
      if s.record.steps[s.actors[a].pc.i].status.Pending? {
        ClaimStepKeeps(c, s, a);
      } else {
        ClaimMissKeeps(c, s, a);
      }
    case DoJiraEffect(a) => JiraEffectKeeps(c, s, a);
    case DoHandlerEnd(a, outcome, lingering) => HandlerEndKeeps(c, s, a, outcome, lingering);
    case DoLateEffect(i) => LateEffectKeeps(c, s, i);
    case DoRefuseWrite(a) => RefuseWriteKeeps(c, s, a);
    case DoWriteStep(a) => WriteStepKeeps(c, s, a);
    case DoFinalize(a) => FinalizeKeeps(c, s, a);
    case DoReread(a) => RereadKeeps(c, s, a);
    case DoAudit(a) => AuditKeeps(c, s, a);
    case DoScan(a) => ScanKeeps(c, s, a);
    case DoReadRunning(a) => ReadRunningKeeps(c, s, a);
    case DoLookUp(a, answer) => LookUpKeeps(c, s, a, answer);
    case DoRecover(a) => RecoverKeeps(c, s, a);
    case DoAuditRecovery(a) => AuditRecoveryKeeps(c, s, a);
  }

  lemma {:induction false} RunKeeps(asm: Assumptions, c: Config, s: State, acts: seq<Action>, t: State)
    requires Inv(c, s) && Leads(asm, c, s, acts, t)
    ensures Inv(c, t)
    decreases |acts|
  {
    if acts != [] {
      StepKeeps(c, s, acts[0]);
      RunKeeps(asm, c, Apply(c, s, acts[0]), acts[1..], t);
    }
  }

  lemma ReachedInv(asm: Assumptions, c: Config, now: int, acts: seq<Action>, s: State)
    requires Reached(asm, c, now, acts, s)
    ensures Inv(c, s)
  {
    InitInv(c, now);
    RunKeeps(asm, c, Init(c, now), acts, s);
  }
}
