/** The concurrent protocol that drives one execution: any number of processor attempts and
    recovery runs, each database statement or transaction being one atomic step. An attempt
    works on its own snapshot of the rows and may stop for good at any await. */
module Protocol {

  import opened Workflow
  import opened Statements

  /** Why an attempt threw. None of these is unrecoverable, so the queue may retry. */
  datatype Thrown = NotProcessable | NoSteps | ExecutionClaimLost | StepUnclaimable | TechnicalFailure

  /** The audit events that report the end of an execution. */
  datatype Event = ProcessCompleted | ProcessFailed | RecoveryFailed

  /** Where an attempt is; each value names the next statement or call it will make. */
  datatype Pc =
    | ReadExecution
    | ReadSteps(seen: Status)
    | ClaimExecution
    | Loop(i: nat)                        // claim step i, or finalize when i is past the last step
    | Calling(i: nat, applied: bool)      // inside the handler of step i
    | Dedup(i: nat, output: Output)       // write COMPLETED without calling the handler
    | Succeeded(i: nat, body: Body)       // write COMPLETED with the handler's output
    | FailedRetryably(i: nat)             // write PENDING, then throw
    | Rejected(i: nat)                    // treated as a business error: write FAILED
    | FinalizeFailed(i: nat)
    | Reread                              // a finalize matched no row
    | Audit(event: Event, row: ExecRow)   // a finalize won
    | Returned(row: ExecRow)
    | Threw(reason: Thrown)
    | Crashed

  datatype RecoveryPc =
    | Scan
    | ReadRunning(scan: ExecRow)
    | LookUp(scan: ExecRow, todo: seq<nat>, found: map<nat, string>)
    | RegisterRecovery
    | NothingStale
    | RaceLost
    | Recovered
    | RecoveryCrashed

  datatype Actor =
    | Attempt(processedBy: string, snapshot: seq<StepRow>, outputs: seq<Entry>, pc: Pc)
    | Recovery(timeout: int, rpc: RecoveryPc)

  /** What happened to each step so far. `effects` lists the steps whose Jira request took effect,
      in the order in which that happened, and `inFlight` holds the requests that may still take
      effect although the call that sent them has ended. The others count, per step, successful
      claims, handler calls, calls that ended retryably, those among them whose request had taken
      effect or was left in flight, and reverts to PENDING. */
  datatype Ledger = Ledger(
    effects: seq<nat>,
    inFlight: multiset<nat>,
    claims: seq<nat>,
    calls: seq<nat>,
    retryFailures: seq<nat>,
    unsafeFailures: seq<nat>,
    reverts: seq<nat>)

  /** `wins` counts the guarded writes that moved the execution out of RUNNING. */
  datatype State = State(
    record: Record,
    now: int,
    actors: seq<Actor>,
    events: seq<Event>,
    ledger: Ledger,
    wins: nat)

  /** `lingering` says that a call ends, or its attempt crashes, while its request is in flight. */
  datatype Action =
    | Tick(elapsed: nat)
    | StartAttempt(processedBy: string)
    | StartRecovery(timeout: int)
    | Crash(a: nat, lingering: bool)
    | DoReadExecution(a: nat)
    | DoReadSteps(a: nat)
    | DoClaimExecution(a: nat)
    | DoClaimStep(a: nat)
    | DoJiraEffect(a: nat)
    | DoHandlerEnd(a: nat, outcome: HandlerOutcome, lingering: bool)
    | DoLateEffect(i: nat)
    | DoRefuseWrite(a: nat)
    | DoWriteStep(a: nat)
    | DoFinalize(a: nat)
    | DoReread(a: nat)
    | DoAudit(a: nat)
    | DoScan(a: nat)
    | DoReadRunning(a: nat)
    | DoLookUp(a: nat, answer: Option<string>)
    | DoRecover(a: nat)
    | DoAuditRecovery(a: nat)

  function Zeros(n: nat): (z: seq<nat>)
    ensures |z| == n && forall i :: 0 <= i < n ==> z[i] == 0
  {
    seq(n, _ => 0)
  }

  /** The rows that creation inserts: the execution and every step PENDING. */
  function InitRecord(c: Config): (r: Record)
    ensures |r.steps| == |c.steps|
  {
    Record(ExecRow(Pending, None, None), seq(|c.steps|, _ => StepRow(Pending, None)))
  }

  function Init(c: Config, now: int): State {
    var z := Zeros(|c.steps|);
    State(InitRecord(c), now, [], [], Ledger([], multiset{}, z, z, z, z, z), 0)
  }

  /** The loop position of an attempt that has entered its loop. */
  function Cursor(pc: Pc): Option<nat> {
    match pc
    case Loop(i) => Some(i)
    case Calling(i, _) => Some(i)
    case Dedup(i, _) => Some(i)
    case Succeeded(i, _) => Some(i)
    case FailedRetryably(i) => Some(i)
    case Rejected(i) => Some(i)
    case FinalizeFailed(i) => Some(i)
    case _ => None
  }

  /** The step that an actor holds: an attempt holds a step from its successful claim until its
      next write of that step. */
  function Held(p: Actor): Option<nat> {
    if p.Attempt? && !p.pc.Loop? && !p.pc.FinalizeFailed? then Cursor(p.pc) else None
  }

  ghost predicate ActorInRange(n: nat, p: Actor) {
    match p
    case Attempt(_, snapshot, outputs, pc) =>
      && (pc.ClaimExecution? ==> |snapshot| == n)
      && (Cursor(pc).Some? ==>
            && |snapshot| == n
            && |outputs| == Cursor(pc).value
            && (if pc.Loop? then pc.i <= n else Cursor(pc).value < n))
    case Recovery(_, rpc) =>
      rpc.LookUp? ==>
        && (forall i :: i in rpc.todo ==> i < n)
        && (forall i :: i in rpc.found ==> i < n)
  }

  predicate LedgerInRange(n: nat, l: Ledger) {
    |l.claims| == |l.calls| == |l.retryFailures| == |l.unsafeFailures| == |l.reverts| == n
  }

  /** Lengths and positions fit the number of steps. */
  ghost predicate InRange(c: Config, s: State) {
    && |s.record.steps| == |c.steps|
    && LedgerInRange(|c.steps|, s.ledger)
    && forall a :: 0 <= a < |s.actors| ==> ActorInRange(|c.steps|, s.actors[a])
  }

  predicate AttemptAt(s: State, a: nat) {
    a < |s.actors| && s.actors[a].Attempt?
  }

  predicate RecoveryAt(s: State, a: nat) {
    a < |s.actors| && s.actors[a].Recovery?
  }

  /** The request of attempt `a` is sent and has not taken effect yet. */
  predicate MayLinger(c: Config, s: State, a: nat) {
    && AttemptAt(s, a) && s.actors[a].pc.Calling? && !s.actors[a].pc.applied
    && s.actors[a].pc.i < |c.steps| && CallsJira(c.steps[s.actors[a].pc.i])
  }

  predicate Enabled(c: Config, s: State, act: Action) {
    match act
    case Tick(_) => true
    case StartAttempt(_) => true
    case StartRecovery(timeout) => timeout > 0
    case Crash(a, lingering) => a < |s.actors| && (lingering ==> MayLinger(c, s, a))
    case DoReadExecution(a) => AttemptAt(s, a) && s.actors[a].pc.ReadExecution?
    case DoReadSteps(a) => AttemptAt(s, a) && s.actors[a].pc.ReadSteps?
    case DoClaimExecution(a) => AttemptAt(s, a) && s.actors[a].pc.ClaimExecution?
    case DoClaimStep(a) => AttemptAt(s, a) && s.actors[a].pc.Loop? && s.actors[a].pc.i < |c.steps|
    case DoJiraEffect(a) => MayLinger(c, s, a)
    case DoHandlerEnd(a, outcome, lingering) =>
      && AttemptAt(s, a) && s.actors[a].pc.Calling? && s.actors[a].pc.i < |c.steps|
      && CanEnd(c.steps[s.actors[a].pc.i], s.actors[a].pc.applied, outcome)
      && (lingering ==> MayLinger(c, s, a) && !outcome.Success?)
    case DoLateEffect(i) => i in s.ledger.inFlight
    case DoRefuseWrite(a) => AttemptAt(s, a) && s.actors[a].pc.Succeeded?
    case DoWriteStep(a) => AttemptAt(s, a) && Held(s.actors[a]).Some? && !s.actors[a].pc.Calling?
    case DoFinalize(a) =>
      AttemptAt(s, a) &&
      (s.actors[a].pc.FinalizeFailed? || (s.actors[a].pc.Loop? && s.actors[a].pc.i == |c.steps|))
    case DoReread(a) => AttemptAt(s, a) && s.actors[a].pc.Reread?
    case DoAudit(a) => AttemptAt(s, a) && s.actors[a].pc.Audit?
    case DoScan(a) => RecoveryAt(s, a) && s.actors[a].rpc.Scan?
    case DoReadRunning(a) => RecoveryAt(s, a) && s.actors[a].rpc.ReadRunning?
    case DoLookUp(a, _) => RecoveryAt(s, a) && s.actors[a].rpc.LookUp? && s.actors[a].rpc.todo != []
    case DoRecover(a) => RecoveryAt(s, a) && s.actors[a].rpc.LookUp? && s.actors[a].rpc.todo == []
    case DoAuditRecovery(a) => RecoveryAt(s, a) && s.actors[a].rpc.RegisterRecovery?
  }

  function Goto(s: State, a: nat, pc: Pc): State
    requires AttemptAt(s, a)
  {
    s.(actors := s.actors[a := s.actors[a].(pc := pc)])
  }

  function RGoto(s: State, a: nat, rpc: RecoveryPc): State
    requires RecoveryAt(s, a)
  {
    s.(actors := s.actors[a := s.actors[a].(rpc := rpc)])
  }

  // ----- what an attempt itself does next -----

  /** After the claim of the step that the attempt has come to. */
  function AfterClaim(c: Config, p: Actor, claimed: bool): Actor
    requires p.Attempt? && p.pc.Loop? && p.pc.i < |c.steps| && ActorInRange(|c.steps|, p)
  {
    var i := p.pc.i;
    var seen := p.snapshot[i];
    if claimed then
      if ExternalOperationDedupReason(seen.output).Some? then p.(pc := Dedup(i, seen.output.value))
      else p.(pc := Calling(i, false))
    else if seen.status.Completed? then
      var output := if seen.output.Some? then seen.output.value else AlreadyCompleted;
      p.(outputs := p.outputs + [EntryOf(c.steps[i], output)], pc := Loop(i + 1))
    else if seen.status.Failed? then p.(pc := FinalizeFailed(i))
    else p.(pc := Threw(StepUnclaimable))
  }

  function AfterCall(p: Actor, outcome: HandlerOutcome): Actor
    requires p.Attempt? && p.pc.Calling?
  {
    match outcome
    case Success(body) => p.(pc := Succeeded(p.pc.i, body))
    case BusinessError => p.(pc := Rejected(p.pc.i))
    case RetryableError => p.(pc := FailedRetryably(p.pc.i))
  }

  /** The status and output that the next write of an attempt stores. */
  function Writes(c: Config, pc: Pc): (Status, Option<Output>)
    requires Cursor(pc).Some? && !pc.Loop? ==> Cursor(pc).value < |c.steps|
  {
    match pc
    case Dedup(_, output) => (Completed, Some(output))
    case Succeeded(i, body) => (Completed, Some(Enrich(c.steps[i], body)))
    case Rejected(_) => (Failed, None)
    case _ => (Pending, None)
  }

  /** After that write: go on with the next step, finalize, or throw. */
  function AfterWrite(c: Config, p: Actor): Actor
    requires p.Attempt? && Held(p).Some? && Held(p).value < |c.steps|
  {
    match p.pc
    case Dedup(i, output) => p.(outputs := p.outputs + [EntryOf(c.steps[i], output)], pc := Loop(i + 1))
    case Succeeded(i, body) =>
      p.(outputs := p.outputs + [EntryOf(c.steps[i], Enrich(c.steps[i], body))], pc := Loop(i + 1))
    case Rejected(i) => p.(pc := FinalizeFailed(i))
    case _ => p.(pc := Threw(TechnicalFailure))
  }

  // ----- the actions -----

  function ApplyReadExecution(s: State, a: nat): State
    requires AttemptAt(s, a)
  {
    var seen := s.record.exec.status;
    Goto(s, a, if seen.Pending? || seen.Running? then ReadSteps(seen) else Threw(NotProcessable))
  }

  function ApplyReadSteps(s: State, a: nat): State
    requires AttemptAt(s, a) && s.actors[a].pc.ReadSteps?
  {
    var pc := if |s.record.steps| == 0 then Threw(NoSteps)
              else if s.actors[a].pc.seen.Pending? then ClaimExecution
              else Loop(0);
    s.(actors := s.actors[a := s.actors[a].(snapshot := s.record.steps, outputs := [], pc := pc)])
  }

  function ApplyClaimExecution(s: State, a: nat): State
    requires AttemptAt(s, a)
  {
    match ClaimPendingExecution(s.record, s.now)
    case Some(r) => s.(record := r, actors := s.actors[a := s.actors[a].(outputs := [], pc := Loop(0))])
    case None => Goto(s, a, Threw(ExecutionClaimLost))
  }

  function ApplyClaimStep(c: Config, s: State, a: nat): State
    requires InRange(c, s) && Enabled(c, s, DoClaimStep(a))
  {
    var p := s.actors[a];
    var i := p.pc.i;
    match ClaimPendingStep(s.record, i)
    case Some(r) =>
      var p' := AfterClaim(c, p, true);
      var claims := s.ledger.claims[i := s.ledger.claims[i] + 1];
      var calls := if p'.pc.Calling? then s.ledger.calls[i := s.ledger.calls[i] + 1] else s.ledger.calls;
      s.(record := r, actors := s.actors[a := p'], ledger := s.ledger.(claims := claims, calls := calls))
    case None =>
      s.(actors := s.actors[a := AfterClaim(c, p, false)])
  }

  function ApplyJiraEffect(s: State, a: nat): State
    requires AttemptAt(s, a) && s.actors[a].pc.Calling?
  {
    var i := s.actors[a].pc.i;
    Goto(s.(ledger := s.ledger.(effects := s.ledger.effects + [i])), a, Calling(i, true))
  }

  /** The request of a call that is over takes effect after all. */
  function ApplyLateEffect(s: State, i: nat): State
  {
    s.(ledger := s.ledger.(effects := s.ledger.effects + [i], inFlight := s.ledger.inFlight - multiset{i}))
  }

  /** A request of step `i` stays in flight. */
  function Linger(l: Ledger, i: nat, lingering: bool): Ledger {
    if lingering then l.(inFlight := l.inFlight + multiset{i}) else l
  }

  function ApplyCrash(s: State, a: nat, lingering: bool): State
    requires a < |s.actors| && (lingering ==> AttemptAt(s, a) && s.actors[a].pc.Calling?)
  {
    if s.actors[a].Attempt? then
      var l := if lingering then Linger(s.ledger, s.actors[a].pc.i, true) else s.ledger;
      Goto(s.(ledger := l), a, Crashed)
    else
      RGoto(s, a, RecoveryCrashed)
  }

  function ApplyHandlerEnd(c: Config, s: State, a: nat, outcome: HandlerOutcome, lingering: bool): State
    requires InRange(c, s) && Enabled(c, s, DoHandlerEnd(a, outcome, lingering))
  {
    var p := s.actors[a];
    var i := p.pc.i;
    var l := Linger(s.ledger, i, lingering);
    var unsafe := if p.pc.applied || lingering then 1 else 0;
    s.(actors := s.actors[a := AfterCall(p, outcome)],
       ledger := if outcome.RetryableError? then
                   l.(retryFailures := l.retryFailures[i := l.retryFailures[i] + 1],
                      unsafeFailures := l.unsafeFailures[i := l.unsafeFailures[i] + unsafe])
                 else l)
  }

  /** The database refuses the COMPLETED write; the handler's catch takes that for its own error. */
  function ApplyRefuseWrite(s: State, a: nat): State
    requires AttemptAt(s, a) && s.actors[a].pc.Succeeded?
  {
    Goto(s, a, Rejected(s.actors[a].pc.i))
  }

  function ApplyWriteStep(c: Config, s: State, a: nat): State
    requires InRange(c, s) && Enabled(c, s, DoWriteStep(a))
  {
    var p := s.actors[a];
    var i := Held(p).value;
    var (status, output) := Writes(c, p.pc);
    var reverts := if p.pc.FailedRetryably? then s.ledger.reverts[i := s.ledger.reverts[i] + 1] else s.ledger.reverts;
    s.(record := UpdateStatus(s.record, i, status, output),
       actors := s.actors[a := AfterWrite(c, p)],
       ledger := s.ledger.(reverts := reverts))
  }

  /** The status, result and audit event with which an attempt at this point finalizes. */
  function FinalStatus(pc: Pc): Status {
    if pc.FinalizeFailed? then Failed else Completed
  }

  function FinalEvent(pc: Pc): Event {
    if pc.FinalizeFailed? then ProcessFailed else ProcessCompleted
  }

  function FinalResult(c: Config, p: Actor): ExecResult
    requires p.Attempt? && (p.pc.FinalizeFailed? ==> p.pc.i < |c.steps|)
  {
    ProcessResult(p.processedBy, |p.outputs|,
      if p.pc.FinalizeFailed? then Some(RefOf(c.steps[p.pc.i])) else None, p.outputs)
  }

  function ApplyFinalize(c: Config, s: State, a: nat): State
    requires InRange(c, s) && Enabled(c, s, DoFinalize(a))
  {
    var p := s.actors[a];
    match FinalizeRunningExecution(s.record, FinalStatus(p.pc), FinalResult(c, p))
    case Some(r) => Goto(s.(record := r, wins := s.wins + 1), a, Audit(FinalEvent(p.pc), r.exec))
    case None => Goto(s, a, Reread)
  }

  function ApplyAudit(s: State, a: nat): State
    requires AttemptAt(s, a) && s.actors[a].pc.Audit?
  {
    var pc := s.actors[a].pc;
    Goto(s, a, Returned(pc.row)).(events := s.events + [pc.event])
  }

  function ApplyScan(s: State, a: nat): State
    requires RecoveryAt(s, a)
  {
    RGoto(s, a,
      if Stale(s.record.exec, s.now, s.actors[a].timeout) then ReadRunning(s.record.exec) else NothingStale)
  }

  /** The RUNNING comment steps with an issue key, in step order. */
  function LookupTargets(c: Config, rows: seq<StepRow>): (todo: seq<nat>)
    requires |rows| <= |c.steps|
    ensures forall i :: i in todo ==>
      i < |rows| && rows[i].status.Running? && c.steps[i].action.JiraComment? && c.steps[i].issueKey != ""
  {
    if |rows| == 0 then
      []
    else
      var i := |rows| - 1;
      LookupTargets(c, rows[..i]) +
      if rows[i].status.Running? && c.steps[i].action.JiraComment? && c.steps[i].issueKey != "" then [i] else []
  }

  function ApplyReadRunning(c: Config, s: State, a: nat): State
    requires InRange(c, s) && RecoveryAt(s, a) && s.actors[a].rpc.ReadRunning?
  {
    RGoto(s, a, LookUp(s.actors[a].rpc.scan, LookupTargets(c, s.record.steps), map[]))
  }

  function ApplyLookUp(s: State, a: nat, answer: Option<string>): State
    requires RecoveryAt(s, a) && s.actors[a].rpc.LookUp? && s.actors[a].rpc.todo != []
  {
    var LookUp(scan, todo, found) := s.actors[a].rpc;
    RGoto(s, a, LookUp(scan, todo[1..], if answer.Some? then found[todo[0] := answer.value] else found))
  }

  function ApplyRecover(c: Config, s: State, a: nat): State
    requires InRange(c, s) && RecoveryAt(s, a) && s.actors[a].rpc.LookUp?
  {
    var p := s.actors[a];
    match RecoverTransaction(c, s.record, p.rpc.scan, s.now, p.timeout, p.rpc.found)
    case Some(r) => RGoto(s.(record := r, wins := s.wins + 1), a, RegisterRecovery)
    case None => RGoto(s, a, RaceLost)
  }

  function Apply(c: Config, s: State, act: Action): State
    requires InRange(c, s) && Enabled(c, s, act)
  {
    match act
    case Tick(elapsed) => s.(now := s.now + elapsed)
    case StartAttempt(processedBy) => s.(actors := s.actors + [Attempt(processedBy, [], [], ReadExecution)])
    case StartRecovery(timeout) => s.(actors := s.actors + [Recovery(timeout, Scan)])
    case Crash(a, lingering) => ApplyCrash(s, a, lingering)
    case DoReadExecution(a) => ApplyReadExecution(s, a)
    case DoReadSteps(a) => ApplyReadSteps(s, a)
    case DoClaimExecution(a) => ApplyClaimExecution(s, a)
    case DoClaimStep(a) => ApplyClaimStep(c, s, a)
    case DoJiraEffect(a) => ApplyJiraEffect(s, a)
    case DoHandlerEnd(a, outcome, lingering) => ApplyHandlerEnd(c, s, a, outcome, lingering)
    case DoLateEffect(i) => ApplyLateEffect(s, i)
    case DoRefuseWrite(a) => ApplyRefuseWrite(s, a)
    case DoWriteStep(a) => ApplyWriteStep(c, s, a)
    case DoFinalize(a) => ApplyFinalize(c, s, a)
    case DoReread(a) => Goto(s, a, Returned(s.record.exec))
    case DoAudit(a) => ApplyAudit(s, a)
    case DoScan(a) => ApplyScan(s, a)
    case DoReadRunning(a) => ApplyReadRunning(c, s, a)
    case DoLookUp(a, answer) => ApplyLookUp(s, a, answer)
    case DoRecover(a) => ApplyRecover(c, s, a)
    case DoAuditRecovery(a) => RGoto(s, a, Recovered).(events := s.events + [RecoveryFailed])
  }

  /** The actor that an action belongs to. */
  function ActorOf(act: Action): Option<nat> {
    match act
    case Tick(_) => None
    case StartAttempt(_) => None
    case StartRecovery(_) => None
    case Crash(a, _) => Some(a)
    case DoReadExecution(a) => Some(a)
    case DoReadSteps(a) => Some(a)
    case DoClaimExecution(a) => Some(a)
    case DoClaimStep(a) => Some(a)
    case DoJiraEffect(a) => Some(a)
    case DoHandlerEnd(a, _, _) => Some(a)
    case DoLateEffect(_) => None
    case DoRefuseWrite(a) => Some(a)
    case DoWriteStep(a) => Some(a)
    case DoFinalize(a) => Some(a)
    case DoReread(a) => Some(a)
    case DoAudit(a) => Some(a)
    case DoScan(a) => Some(a)
    case DoReadRunning(a) => Some(a)
    case DoLookUp(a, _) => Some(a)
    case DoRecover(a) => Some(a)
    case DoAuditRecovery(a) => Some(a)
  }

  lemma OthersUntouched(c: Config, s: State, act: Action, me: nat)
    requires InRange(c, s) && Enabled(c, s, act) && me < |s.actors| && ActorOf(act) != Some(me)
    ensures me < |Apply(c, s, act).actors| && Apply(c, s, act).actors[me] == s.actors[me]
  {
  }

  /** What is assumed about Jira, beyond that an accepted request has taken effect. */
  datatype Assumptions = Assumptions(
    retryableMeansNoEffect: bool,   // (A) a call that ends retryably had no effect and leaves nothing in flight
    rejectionMeansNoEffect: bool,   // (R) nor has a call that is treated as a business error
    lookupIsSound: bool)            // (B) a comment is found only if the step's request took effect

  const NOTHING := Assumptions(false, false, false)
  const EVERYTHING := Assumptions(true, true, true)

  function Count(log: seq<nat>, i: nat): nat {
    multiset(log)[i]
  }

  predicate Permits(asm: Assumptions, s: State, act: Action) {
    match act
    case DoHandlerEnd(a, outcome, lingering) =>
      AttemptAt(s, a) && s.actors[a].pc.Calling? ==>
        && (asm.retryableMeansNoEffect && outcome.RetryableError? ==> !s.actors[a].pc.applied && !lingering)
        && (asm.rejectionMeansNoEffect && outcome.BusinessError? ==> !s.actors[a].pc.applied && !lingering)
    case DoRefuseWrite(a) =>
      AttemptAt(s, a) && s.actors[a].pc.Succeeded? ==>
        (asm.rejectionMeansNoEffect ==> Count(s.ledger.effects, s.actors[a].pc.i) == 0)
    case DoLookUp(a, answer) =>
      RecoveryAt(s, a) && s.actors[a].rpc.LookUp? && s.actors[a].rpc.todo != [] ==>
        (asm.lookupIsSound && answer.Some? ==> Count(s.ledger.effects, s.actors[a].rpc.todo[0]) > 0)
    case _ => true
  }

  /** `acts` leads from `s` to `t`. */
  ghost predicate Leads(asm: Assumptions, c: Config, s: State, acts: seq<Action>, t: State)
    decreases |acts|
  {
    if |acts| == 0 then
      s == t
    else
      && InRange(c, s)
      && Enabled(c, s, acts[0])
      && Permits(asm, s, acts[0])
      && Leads(asm, c, Apply(c, s, acts[0]), acts[1..], t)
  }

  /** `s` is reached by the run `acts` from a freshly created execution. */
  ghost predicate Reached(asm: Assumptions, c: Config, now: int, acts: seq<Action>, s: State) {
    c.Valid() && Leads(asm, c, Init(c, now), acts, s)
  }

  /** A run can be continued by one more step. */
  lemma {:induction false} LeadsOn(asm: Assumptions, c: Config, s: State, acts: seq<Action>, t: State, act: Action)
    requires Leads(asm, c, s, acts, t)
    requires InRange(c, t) && Enabled(c, t, act) && Permits(asm, t, act)
    ensures Leads(asm, c, s, acts + [act], Apply(c, t, act))
    decreases |acts|
  {
    if acts == [] {
      assert (acts + [act])[1..] == [];
    } else {
      assert (acts + [act])[1..] == acts[1..] + [act];
      LeadsOn(asm, c, Apply(c, s, acts[0]), acts[1..], t, act);
    }
  }

  /** Runs compose. */
  lemma {:induction false} LeadsThrough(asm: Assumptions, c: Config, s: State, acts: seq<Action>, t: State,
                                        more: seq<Action>, u: State)
    requires Leads(asm, c, s, acts, t) && Leads(asm, c, t, more, u)
    ensures Leads(asm, c, s, acts + more, u)
    decreases |acts|
  {
    if acts == [] {
      assert acts + more == more;
    } else {
      assert (acts + more)[1..] == acts[1..] + more;
      LeadsThrough(asm, c, Apply(c, s, acts[0]), acts[1..], t, more, u);
    }
  }
}
