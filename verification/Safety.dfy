/** What holds in every state that any interleaving of attempts, crashes and recovery runs can
    reach. */
module Safety {

  import opened Workflow
  import opened Protocol
  import opened Invariant
  import opened Preservation
  import opened Honesty

  // ----- accounting -----

  /** Successful claims equal reverts plus one if the step is not PENDING. A handler runs at most
      once more than it failed retryably, and its request takes effect, or is still on its way,
      at most once more than it failed retryably after or before an effect. */
  lemma ExactAccounting(asm: Assumptions, c: Config, now: int, acts: seq<Action>, s: State, i: nat)
    requires Reached(asm, c, now, acts, s) && i < |c.steps|
    ensures |s.record.steps| == |c.steps| && LedgerInRange(|c.steps|, s.ledger)
    ensures s.ledger.claims[i] == s.ledger.reverts[i] + if s.record.steps[i].status.Pending? then 0 else 1
    ensures Count(s.ledger.effects, i) + s.ledger.inFlight[i] <= s.ledger.calls[i] <= s.ledger.claims[i]
    ensures s.ledger.claims[i] <= 1 + s.ledger.retryFailures[i]
    ensures Count(s.ledger.effects, i) + s.ledger.inFlight[i] <=
      s.ledger.unsafeFailures[i] + if s.record.steps[i].status.Pending? then 0 else 1
    ensures s.ledger.unsafeFailures[i] <= s.ledger.retryFailures[i]
  {
    ReachedInv(asm, c, now, acts, s);
    assert AccountedAt(s.record.steps, s.ledger, i);
  }

  /** Between claim and write a step has one holder and is not PENDING, although step writes are
      unguarded and recovery may rewrite the step under its holder. */
  lemma OneHolderPerStep(asm: Assumptions, c: Config, now: int, acts: seq<Action>, s: State, a: nat, b: nat)
    requires Reached(asm, c, now, acts, s) && a < |s.actors| && b < |s.actors|
    requires Held(s.actors[a]).Some? && Held(s.actors[a]) == Held(s.actors[b])
    ensures a == b && Held(s.actors[a]).value < |s.record.steps|
    ensures !s.record.steps[Held(s.actors[a]).value].status.Pending?
    ensures !WasRecovered(s.record) ==>
      s.record.exec.status.Running? && s.record.steps[Held(s.actors[a]).value].status.Running?
  {
    ReachedInv(asm, c, now, acts, s);
    assert HeldOk(s.record.steps, s.actors[a]);
    if !WasRecovered(s.record) {
      HolderMeansUnfinished(c, s, a);
    }
  }

  // ----- one winner -----

  lemma ExecForward(c: Config, s: State, act: Action)
    requires Inv(c, s) && Enabled(c, s, act)
    ensures Forward(s.record.exec, Apply(c, s, act).record.exec)
    ensures WasRecovered(s.record) ==> WasRecovered(Apply(c, s, act).record)
  {
    hide HoldsOk, CountersOk, WinnerOk, RowsOk, ViewsOk;
  }

  lemma {:induction false} ExecForwardRun(asm: Assumptions, c: Config, s: State, acts: seq<Action>, t: State)
    requires Inv(c, s) && Leads(asm, c, s, acts, t)
    ensures Forward(s.record.exec, t.record.exec)
    decreases |acts|
  {
    if acts != [] {
      StepKeeps(c, s, acts[0]);
      ExecForward(c, s, acts[0]);
      ExecForwardRun(asm, c, Apply(c, s, acts[0]), acts[1..], t);
    }
  }

  /** At most one guarded write moves the execution out of RUNNING; its row is then final, and
      at most one audit event reports its end, the one that fits the row. */
  lemma SingleWinner(asm: Assumptions, c: Config, now: int, acts: seq<Action>, s: State, more: seq<Action>, t: State)
    requires Reached(asm, c, now, acts, s) && Leads(asm, c, s, more, t)
    ensures s.wins == if s.record.exec.status.Terminal() then 1 else 0
    ensures s.events == [] || s.record.exec.status.Terminal()
    ensures s.events != [] ==>
      var result := s.record.exec.result;
      s.events ==
        if result.Some? && result.value.RecoveryResult? then [RecoveryFailed]
        else if s.record.exec.status == Completed then [ProcessCompleted]
        else [ProcessFailed]
    ensures s.record.exec.status.Terminal() ==> t.record.exec == s.record.exec && t.wins == 1 && |t.events| <= 1
    ensures s.record.exec.startedAt.Some? ==> t.record.exec.startedAt == s.record.exec.startedAt
  {
    ReachedInv(asm, c, now, acts, s);
    RunKeeps(asm, c, s, more, t);
    ExecForwardRun(asm, c, s, more, t);
  }

  // ----- what the processor leaves behind is final -----

  /** Nothing happens any more, except that requests which are still on their way arrive. */
  ghost predicate OnlyLateEffects(l: Ledger, l': Ledger) {
    && l' == l.(effects := l'.effects, inFlight := l'.inFlight)
    && l.effects <= l'.effects
    && multiset(l'.effects) + l'.inFlight == multiset(l.effects) + l.inFlight
  }

  lemma NothingNew(l: Ledger)
    ensures OnlyLateEffects(l, l)
  {
  }

  lemma LateEffectOnly(s: State, i: nat)
    requires i in s.ledger.inFlight
    ensures OnlyLateEffects(s.ledger, ApplyLateEffect(s, i).ledger)
  {
  }

  lemma NobodyHolds(c: Config, s: State, a: nat)
    requires Inv(c, s) && s.record.exec.status.Terminal() && !WasRecovered(s.record) && a < |s.actors|
    ensures Held(s.actors[a]).None?
  {
    if Held(s.actors[a]).Some? {
      HolderMeansUnfinished(c, s, a);
    }
  }

  lemma FinalStep(c: Config, s: State, act: Action)
    requires Inv(c, s) && Enabled(c, s, act)
    requires s.record.exec.status.Terminal() && !WasRecovered(s.record)
    ensures Apply(c, s, act).record == s.record
    ensures OnlyLateEffects(s.ledger, Apply(c, s, act).ledger)
  {
    hide HoldsOk, CountersOk, KnowledgeOk, WinnerOk, RowsOk, ViewsOk, WasRecovered, OnlyLateEffects;
    NothingNew(s.ledger);
    match act
    case Tick(_) =>
    case StartAttempt(_) =>
    case StartRecovery(_) =>
    case DoClaimStep(a) =>
      if s.record.steps[s.actors[a].pc.i].status.Pending? {
        ClaimMeansUnfinished(c, s, a);
      }
    case DoLateEffect(i) => LateEffectOnly(s, i);
    case _ => NobodyHolds(c, s, act.a);
  }

  lemma {:induction false} FinalRun(asm: Assumptions, c: Config, s: State, acts: seq<Action>, t: State)
    requires Inv(c, s) && Leads(asm, c, s, acts, t)
    requires s.record.exec.status.Terminal() && !WasRecovered(s.record)
    ensures t.record == s.record && OnlyLateEffects(s.ledger, t.ledger)
    decreases |acts|
  {
    if acts != [] {
      StepKeeps(c, s, acts[0]);
      FinalStep(c, s, acts[0]);
      FinalRun(asm, c, Apply(c, s, acts[0]), acts[1..], t);
    }
  }

  lemma NothingLate(l: Ledger, l': Ledger)
    requires OnlyLateEffects(l, l') && l.inFlight == multiset{}
    ensures l' == l
  {
    assert |multiset(l'.effects) + l'.inFlight| == |l'.effects| + |l'.inFlight|;
    assert |multiset(l.effects) + l.inFlight| == |l.effects|;
    assert l'.effects[..|l.effects|] == l.effects;
  }

  lemma LateEffectArrives(asm: Assumptions, c: Config, s: State, i: nat) returns (t: State)
    requires InRange(c, s) && i in s.ledger.inFlight
    ensures Leads(asm, c, s, [DoLateEffect(i)], t) && t.ledger.effects != s.ledger.effects
  {
    t := Apply(c, s, DoLateEffect(i));
    assert [DoLateEffect(i)][1..] == [] && Leads(asm, c, t, [], t);
    assert |t.ledger.effects| == |s.ledger.effects| + 1;
  }

  /** Nothing that `asm` allows changes the effects of the execution any more. */
  ghost predicate EffectsFinal(asm: Assumptions, c: Config, s: State) {
    forall more, t :: Leads(asm, c, s, more, t) ==> t.ledger.effects == s.ledger.effects
  }

  /** The effects of an execution that the processor has finalized are final if and only if no
      request is still on its way. */
  lemma EffectsFinalExactly(asm: Assumptions, c: Config, now: int, acts: seq<Action>, s: State)
    requires Reached(asm, c, now, acts, s)
    requires s.record.exec.status.Terminal() && !WasRecovered(s.record)
    ensures EffectsFinal(asm, c, s) <==> s.ledger.inFlight == multiset{}
  {
    hide OnlyLateEffects, WasRecovered, Reached, Leads;
    assert Inv(c, s) by {
      ReachedInv(asm, c, now, acts, s);
    }
    if s.ledger.inFlight == multiset{} {
      forall more, t | Leads(asm, c, s, more, t)
        ensures t.ledger.effects == s.ledger.effects
      {
        FinalRun(asm, c, s, more, t);
        NothingLate(s.ledger, t.ledger);
      }
    } else {
      var i :| i in s.ledger.inFlight;
      var t := LateEffectArrives(asm, c, s, i);
    }
  }

  /** Idempotency keys tell the steps of an execution apart. */
  lemma KeysIdentifySteps(c: Config, i: nat, j: nat)
    requires c.Valid() && i < |c.steps| && j < |c.steps|
    ensures IdempotencyKey(c.steps[i].id) == IdempotencyKey(c.steps[j].id) <==> i == j
  {
    assert IdempotencyKey(c.steps[i].id)[22..] == c.steps[i].id;
    assert IdempotencyKey(c.steps[j].id)[22..] == c.steps[j].id;
  }

  /** A COMPLETED execution: every step is COMPLETED, `result.steps` has one entry per step in
      step order, each with the output that the row persists under the step's own key, whoever
      completed the step; every Jira step had its effect; and no row ever changes again. */
  lemma CompletedExecution(asm: Assumptions, c: Config, now: int, acts: seq<Action>, s: State, more: seq<Action>,
                           t: State)
    requires Reached(asm, c, now, acts, s) && Leads(asm, c, s, more, t)
    requires s.record.exec.status.Completed?
    ensures |s.record.steps| == |c.steps|
    ensures s.record.exec.result.Some? && s.record.exec.result.value.ProcessResult?
    ensures var result := s.record.exec.result.value;
      && result.failedStep.None?
      && result.stepsProcessed == |result.steps| == |c.steps|
      && forall i :: 0 <= i < |c.steps| ==>
        var d, row := c.steps[i], s.record.steps[i];
        && row.status.Completed? && row.output.Some? && row.output.value.Persisted?
        && row.output.value.idempotencyKey == "workflowExecutionStep:" + d.id
        && result.steps[i] == Entry(d.id, d.stepId, d.stepOrder, d.action, row.output.value)
        && (CallsJira(d) ==> Count(s.ledger.effects, i) > 0)
    ensures t.record == s.record && OnlyLateEffects(s.ledger, t.ledger)
  {
    ReachedInv(asm, c, now, acts, s);
    FinalRun(asm, c, s, more, t);
    var result := s.record.exec.result.value;
    forall i | 0 <= i < |c.steps|
      ensures s.record.steps[i].status.Completed? && RowOk(c.steps[i], s.record.steps[i])
      ensures result.steps[i] == EntryOf(c.steps[i], s.record.steps[i].output.value)
    {
      assert EntryMatches(c.steps[i], s.record.steps[i], result.steps[i]);
    }
  }

  /** An execution that the processor finalized FAILED at step `k`: the steps before `k` are
      COMPLETED, `k` is FAILED, the later ones are PENDING, the result holds exactly the first
      `k` entries, and no row ever changes again. */
  lemma FailedByProcessor(asm: Assumptions, c: Config, now: int, acts: seq<Action>, s: State, more: seq<Action>,
                          t: State)
    returns (k: nat)
    requires Reached(asm, c, now, acts, s) && Leads(asm, c, s, more, t)
    requires s.record.exec.status.Failed? && !WasRecovered(s.record)
    ensures |s.record.steps| == |c.steps| && FailedAt(c, s.record, k)
    ensures s.record.exec.result.value.failedStep == Some(StepRef(c.steps[k].id, c.steps[k].stepId))
    ensures t.record == s.record && OnlyLateEffects(s.ledger, t.ledger)
  {
    ReachedInv(asm, c, now, acts, s);
    FinalRun(asm, c, s, more, t);
    k :| FailedAt(c, s.record, k);
  }

  /** Until a recovery finalizes the execution, statuses are in order and the first effects of the
      steps come in step order, with no assumption on Jira. */
  lemma OrderUntilRecovery(asm: Assumptions, c: Config, now: int, acts: seq<Action>, s: State)
    requires Reached(asm, c, now, acts, s) && !WasRecovered(s.record)
    ensures InOrder(s.record.steps) && FirstInOrder(c, s.ledger.effects)
  {
    ReachedInv(asm, c, now, acts, s);
    forall i, j | 0 <= i < j < |c.steps| && !s.record.steps[j].status.Pending?
      ensures s.record.steps[i].status.Completed?
    {
      assert AccountedAt(s.record.steps, s.ledger, j);
      assert s.ledger.claims[j] > 0;
    }
  }

  // ----- what callers are told -----

  /** An attempt that returns, returns the stored terminal row. */
  lemma ReturnsStoredRow(asm: Assumptions, c: Config, now: int, acts: seq<Action>, s: State, a: nat)
    requires Reached(asm, c, now, acts, s) && AttemptAt(s, a) && s.actors[a].pc.Returned?
    ensures s.actors[a].pc.row == s.record.exec && s.record.exec.status.Terminal()
  {
    ReachedInv(asm, c, now, acts, s);
    assert KnowsOk(s.record, s.now, s.actors[a]);
  }

  /** The recovery transaction of a scanned execution loses its race exactly when somebody has
      already moved the execution out of RUNNING, and then it changes no row. */
  lemma LostRaceMeansFinalized(asm: Assumptions, c: Config, now: int, acts: seq<Action>, s: State, a: nat)
    requires Reached(asm, c, now, acts, s) && Enabled(c, s, DoRecover(a))
    ensures InRange(c, s)
    ensures Apply(c, s, DoRecover(a)).actors[a].rpc.RaceLost? <==> s.record.exec.status.Terminal()
    ensures Apply(c, s, DoRecover(a)).actors[a].rpc.RaceLost? ==> Apply(c, s, DoRecover(a)).record == s.record
    ensures s.record.exec.status.Terminal() ==> s.wins == 1
  {
    hide HoldsOk, CountersOk, RowsOk, ViewsOk;
    ReachedInv(asm, c, now, acts, s);
    assert KnowsOk(s.record, s.now, s.actors[a]);
  }

  // ----- under assumptions on Jira -----

  lemma ReachedSafe(asm: Assumptions, c: Config, now: int, acts: seq<Action>, s: State)
    requires asm.retryableMeansNoEffect && Reached(asm, c, now, acts, s)
    ensures Inv(c, s) && NoUnsafeFailure(s)
  {
    InitInv(c, now);
    SafeRun(asm, c, Init(c, now), acts, s);
  }

  /** Under (A) no step takes effect twice, and a PENDING step has neither taken effect nor a
      request on its way. */
  lemma EffectAtMostOnce(asm: Assumptions, c: Config, now: int, acts: seq<Action>, s: State, i: nat)
    requires asm.retryableMeansNoEffect && Reached(asm, c, now, acts, s) && i < |c.steps|
    ensures |s.record.steps| == |c.steps|
    ensures Count(s.ledger.effects, i) + s.ledger.inFlight[i] <= if s.record.steps[i].status.Pending? then 0 else 1
  {
    ReachedSafe(asm, c, now, acts, s);
    ExactAccounting(asm, c, now, acts, s, i);
  }

  /** Under (B) a step that reads as COMPLETED has taken effect, also below an execution that
      recovery has failed, and the first effects of the steps come in step order. */
  lemma CompletedTookEffect(asm: Assumptions, c: Config, now: int, acts: seq<Action>, s: State)
    requires asm.lookupIsSound && Reached(asm, c, now, acts, s)
    ensures |s.record.steps| == |c.steps|
    ensures forall i :: 0 <= i < |c.steps| && s.record.steps[i].status.Completed? && CallsJira(c.steps[i]) ==>
      Count(s.ledger.effects, i) > 0
    ensures FirstInOrder(c, s.ledger.effects)
  {
    InitInv(c, now);
    EvidenceRun(asm, c, Init(c, now), acts, s);
    forall i | 0 <= i < |c.steps| && s.record.steps[i].status.Completed? && CallsJira(c.steps[i])
      ensures Count(s.ledger.effects, i) > 0
    {
      assert Evident(c, s.ledger.effects, i);
    }
  }

  /** Under (A), (R) and (B) statuses are always in order, even under an execution that recovery
      has failed; so at most one step is RUNNING. */
  lemma AlwaysInOrder(c: Config, now: int, acts: seq<Action>, s: State)
    requires Reached(EVERYTHING, c, now, acts, s)
    ensures InOrder(s.record.steps)
    ensures forall i, j | 0 <= i < |s.record.steps| && 0 <= j < |s.record.steps| ::
      s.record.steps[i].status.Running? && s.record.steps[j].status.Running? ==> i == j
  {
    InitTrusted(c, now);
    TrustedRun(c, Init(c, now), acts, s);
  }

  lemma StepKeepsCompleted(c: Config, s: State, act: Action)
    requires Inv(c, s) && OrderOk(c, s) && Enabled(c, s, act)
    ensures CompletedStays(s.record.steps, Apply(c, s, act).record.steps)
  {
    hide CountersOk, KnowledgeOk, WinnerOk, RowsOk, ViewsOk;
    match act
    case DoWriteStep(a) => assert PlaceOk(s.record.steps, s.ledger.effects, s.actors[a]);
    case _ =>
  }

  lemma {:induction false} CompletedRun(c: Config, s: State, acts: seq<Action>, t: State)
    requires Trusted(c, s) && Leads(EVERYTHING, c, s, acts, t)
    ensures CompletedStays(s.record.steps, t.record.steps)
    decreases |acts|
  {
    if acts != [] {
      TrustedStep(c, s, acts[0]);
      StepKeepsCompleted(c, s, acts[0]);
      CompletedRun(c, Apply(c, s, acts[0]), acts[1..], t);
    }
  }

  /** Under the same assumptions a COMPLETED step stays COMPLETED. */
  lemma CompletedForGood(c: Config, now: int, acts: seq<Action>, s: State, more: seq<Action>, t: State)
    requires Reached(EVERYTHING, c, now, acts, s) && Leads(EVERYTHING, c, s, more, t)
    ensures CompletedStays(s.record.steps, t.record.steps)
  {
    InitTrusted(c, now);
    TrustedRun(c, Init(c, now), acts, s);
    CompletedRun(c, s, more, t);
  }

  // ----- exactly once, in step order -----

  ghost predicate Increasing(log: seq<nat>) {
    forall x, y :: 0 <= x < y < |log| ==> log[x] < log[y]
  }

  lemma RepetitionCounts(log: seq<nat>, x: nat, y: nat)
    requires x < y < |log| && log[x] == log[y]
    ensures Count(log, log[x]) >= 2
  {
    assert log == log[..y] + log[y..];
    assert log[..y][x] == log[x] && log[y..][0] == log[x];
    assert log[x] in multiset(log[..y]) && log[x] in multiset(log[y..]);
  }

  /** First effects in order, and none twice: then all effects are in order. */
  lemma OnceInOrder(c: Config, log: seq<nat>)
    requires FirstInOrder(c, log)
    requires forall i :: i in log ==> i < |c.steps| && CallsJira(c.steps[i]) && Count(log, i) <= 1
    ensures Increasing(log)
  {
    forall x, y | 0 <= x < y < |log|
      ensures log[x] < log[y]
    {
      assert log[x] in log && log[y] in log;
      if log[x] == log[y] {
        RepetitionCounts(log, x, y);
      } else if log[y] < log[x] {
        assert log[y] in log[..x];
        var z :| 0 <= z < x && log[z] == log[y];
        RepetitionCounts(log, z, y);
      }
    }
  }

  lemma AtMostOnceInOrder(asm: Assumptions, c: Config, now: int, acts: seq<Action>, s: State)
    requires asm.retryableMeansNoEffect && Reached(asm, c, now, acts, s) && FirstInOrder(c, s.ledger.effects)
    ensures Increasing(s.ledger.effects)
  {
    ReachedInv(asm, c, now, acts, s);
    forall i | i in s.ledger.effects
      ensures i < |c.steps| && CallsJira(c.steps[i]) && Count(s.ledger.effects, i) <= 1
    {
      EffectAtMostOnce(asm, c, now, acts, s, i);
    }
    OnceInOrder(c, s.ledger.effects);
  }

  /** Under (A) effects come in step order, each step once, until recovery ends the execution; and
      under (A) and (B) they always do. */
  lemma EffectsInOrder(asm: Assumptions, c: Config, now: int, acts: seq<Action>, s: State)
    requires asm.retryableMeansNoEffect && Reached(asm, c, now, acts, s)
    requires asm.lookupIsSound || !WasRecovered(s.record)
    ensures Increasing(s.ledger.effects)
  {
    if asm.lookupIsSound {
      CompletedTookEffect(asm, c, now, acts, s);
    } else {
      OrderUntilRecovery(asm, c, now, acts, s);
    }
    AtMostOnceInOrder(asm, c, now, acts, s);
  }

  /** The steps below `n` that call Jira, in step order. */
  function JiraSteps(c: Config, n: nat): seq<nat>
    requires n <= |c.steps|
  {
    if n == 0 then [] else JiraSteps(c, n - 1) + if CallsJira(c.steps[n - 1]) then [n - 1] else []
  }

  lemma HeadIsMember(log: seq<nat>)
    ensures log != [] ==> exists i: nat :: i in log
  {
    if log != [] {
      assert log[0] in log;
    }
  }

  lemma {:induction false} IncreasingListIsUnique(c: Config, n: nat, log: seq<nat>)
    requires n <= |c.steps| && Increasing(log)
    requires forall i: nat :: i in log <==> i < n && CallsJira(c.steps[i])
    ensures log == JiraSteps(c, n)
  {
    if n == 0 {
      HeadIsMember(log);
    } else if CallsJira(c.steps[n - 1]) {
      assert n - 1 in log;
      var last := |log| - 1;
      assert log[last] in log && log == log[..last] + [log[last]];
      assert log[last] == n - 1;
      forall i: nat
        ensures i in log[..last] <==> i < n - 1 && CallsJira(c.steps[i])
      {
        assert i in log <==> i in log[..last] || i == n - 1;
      }
      IncreasingListIsUnique(c, n - 1, log[..last]);
    } else {
      IncreasingListIsUnique(c, n - 1, log);
    }
  }

  /** Under (A) the effects of a COMPLETED execution are exactly those of its Jira steps, each once,
      in step order, and no request is on its way, so that this is final. */
  lemma CompletedExactlyOnce(asm: Assumptions, c: Config, now: int, acts: seq<Action>, s: State)
    requires asm.retryableMeansNoEffect && Reached(asm, c, now, acts, s)
    requires s.record.exec.status.Completed?
    ensures s.ledger.effects == JiraSteps(c, |c.steps|) && s.ledger.inFlight == multiset{}
  {
    var log := s.ledger.effects;
    ReachedInv(asm, c, now, acts, s);
    CompletedExecution(asm, c, now, acts, s, [], s);
    EffectsInOrder(asm, c, now, acts, s);
    forall i: nat
      ensures i in log <==> i < |c.steps| && CallsJira(c.steps[i])
    {
      if i < |c.steps| && CallsJira(c.steps[i]) {
        assert Count(log, i) > 0;
      }
    }
    IncreasingListIsUnique(c, |c.steps|, log);
    forall i | 0 <= i < |c.steps| && CallsJira(c.steps[i])
      ensures s.ledger.inFlight[i] == 0
    {
      EffectAtMostOnce(asm, c, now, acts, s, i);
      assert Count(log, i) > 0;
    }
    assert forall i: nat :: i !in s.ledger.inFlight;
  }

  /** Under (A) and (R) no request of an execution that the processor has failed is on its way, and
      the step that failed has had no effect. */
  lemma FailedLeavesNothing(asm: Assumptions, c: Config, now: int, acts: seq<Action>, s: State)
    requires asm.retryableMeansNoEffect && asm.rejectionMeansNoEffect && Reached(asm, c, now, acts, s)
    requires s.record.exec.status.Failed? && !WasRecovered(s.record)
    ensures s.ledger.inFlight == multiset{}
    ensures forall i :: 0 <= i < |s.record.steps| && s.record.steps[i].status.Failed? ==>
      Count(s.ledger.effects, i) == 0
  {
    InitInv(c, now);
    QuietRun(asm, c, Init(c, now), acts, s);
    var k := FailedByProcessor(asm, c, now, acts, s, [], s);
    forall i | 0 <= i < |c.steps| && CallsJira(c.steps[i])
      ensures s.ledger.inFlight[i] == 0
    {
      EffectAtMostOnce(asm, c, now, acts, s, i);
      assert i < k ==> s.record.steps[i].status.Completed? && Count(s.ledger.effects, i) > 0;
      assert i == k ==> Sent(s.ledger, i) == 0;
    }
    assert forall i: nat :: i !in s.ledger.inFlight;
  }
}
