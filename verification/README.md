# GovFlow workflow execution engine: model and proofs

GovFlow drives a workflow execution and its ordered steps through PENDING, RUNNING, COMPLETED and
FAILED. Queue attempts, duplicate workers and stale-running recovery all write the same rows, each
working on what it read earlier, and some steps send requests to Jira that no database transaction
covers. This project models that engine in Dafny and proves what its guarded writes, its retries and
its recovery guarantee together.

`dafny verify dfyconfig.toml` checks everything.

## How the model is built

| Module | What it holds |
|---|---|
| `Text`, `Validation`, `Workflow` | JavaScript string operations; request validators; rows, outputs and results |
| `Statements` | what each SQL statement and the recovery transaction do to the rows of one execution |
| `Protocol` | the state machine: any number of attempts and recovery runs, one atomic action per database statement, transaction or Jira request, crashes anywhere, and requests that arrive after their call is over |
| `Invariant`, `Preservation` | the inductive invariant, with no assumption on Jira |
| `Honesty` | what holds in addition when Jira can be trusted |
| `Progress` | nobody is ever stuck, nobody goes on for ever, and nothing that may go wrong is excluded |
| `Safety` | the theorems over all runs |
| `Aftermath` | exactly when an execution that recovery has failed stays as recovery left it |
| `Counterexamples`, `LateEffects` | concrete runs, and exactly which result needs which assumption |
| `Sequential`, `Retries` | one undisturbed attempt as a function, and retried attempts as one run |
| `JiraErrors`, `StepHandlers` | error classification, readiness, handlers and their requests |
| `Markers`, `CommentLookup` | the marker written into comments, and the paged search for it |
| `Processor`, `Worker` | the processor and the queue callback as methods that run inside the protocol under an arbitrary schedule of interference |
| `Store`, `Recovery`, `Creation` | the database with transactions, the recovery run, and creation |

The processor is not a second model beside the protocol: every call that it awaits is a protocol
action, others may act before it, and the class `World` keeps a ghost run as evidence that its state is
reachable. So every theorem of `Safety` applies to the methods of `Processor` and `Worker`.

## Assumptions on Jira

A request that Jira reports as accepted has taken effect. A request that ends in an error, or whose
sender crashes, may have taken effect, may never do so, or may stay in flight and take effect at any
later time: the client gives up after a timeout, Jira need not. Beyond that, three assumptions are
named and used only where a statement says so:

* (A) `retryableMeansNoEffect`: a handler call that ends in a retryable error had no effect and leaves
  nothing in flight;
* (R) `rejectionMeansNoEffect`: nor has a call that is treated as a business error. The same `catch` also
  takes a refused COMPLETED write after a successful call for the handler's error, so (R) says too that
  no such write is refused after an effect;
* (B) `lookupIsSound`: recovery finds a comment only if the step's own request took effect.

What each of them is needed for, over all runs and in both directions:

| result | holds exactly under |
|---|---|
| accounting, one holder per step, single winner, shape and finality of rows that the processor finalized, statuses and first effects in step order until a recovery, lost races | nothing |
| no step takes effect twice; until a recovery all effects are in step order; the effects of a COMPLETED execution are final | (A) |
| the effects of an execution that the processor failed are final | (A) and (R) |
| a step that reads as COMPLETED has taken effect, also after a recovery; first effects always in step order | (B) |
| effects always in step order, also after a recovery | (A) and (B) |
| statuses always in step order, also after a recovery | (A), (R) and (B) |

(B) is derived from the comment marker and the search in `CommentLookup.LookupsAreSound`. Which handler
calls break (A) and which break (R) is `StepHandlers.EffectBehindError`.

## Where code and documentation differ

* A comment in `src/modules/jira/jira.service.js` (lines 265-268) and `docs/jira-errors.md` say that
  every unmapped 4xx is final. The code tests `error.code` first, so such an error is final exactly when
  it carries no code, and a 422 in the HTTP client's usual shape is retried.
* `docs/jira-errors.md` says that a business failure does not fail the queue job. The worker turns every
  FAILED row that the processor returns into an unrecoverable failure of the job
  (`Worker.ProcessJob`); a single step that is configured to fail is an instance
  (`Worker.FailingStepEndsJob`).
* `docs/architecture.md` says that recovery preserves later PENDING steps. Its transaction does, but a
  live attempt may still claim them afterwards; `Counterexamples.RecoveryDoesNotFreezeSteps` is such a
  run. The rows stay as recovery left them exactly if no attempt is still in a position to write, which
  can be read off the attempts' places and snapshots (`Aftermath.RecoveredIsFinalExactly`).

## Model

| member | source | states |
|---|---|---|
| Safety.ExactAccounting | src/modules/workflow-processing/workflowProcessor.service.js:72-280 | in every reachable state claims of a step equal reverts plus one unless it is PENDING; handler runs are at most one more than its retryable failures; effects, with requests still in flight, are at most one more than its retryable failures that came with an effect or left a request in flight |
| Safety.OneHolderPerStep | src/modules/workflow-execution-steps/workflowExecutionSteps.repository.js:78-145 | although step writes carry no status guard, a step has one holder between claim and write and is then not PENDING |
| Safety.SingleWinner | src/modules/workflow-executions/workflowExecutions.repository.js:177-268 | at most one guarded write ends the execution; its row never changes afterwards, started_at is written once, and at most one closing audit event is registered, the one for COMPLETED, for FAILED or for a recovery |
| Safety.CompletedExecution | src/modules/workflow-processing/workflowProcessor.service.js:354-397 | a COMPLETED execution has one result entry per step in step order, each equal to the persisted output under the step's own key, whoever completed it; all steps are COMPLETED, every Jira step took effect, no row changes any more, and only requests already in flight can still take effect |
| Safety.KeysIdentifySteps | src/modules/workflow-processing/workflowProcessor.service.js:388-397 | two steps of an execution have the same idempotency key if and only if they are the same step |
| Safety.CompletedExactlyOnce | src/modules/workflow-processing/workflowProcessor.service.js:72-371 | under (A) the effects of a COMPLETED execution are exactly those of its Jira steps, each once, in step order, and no request is in flight |
| Safety.FailedByProcessor | src/modules/workflow-processing/workflowProcessor.service.js:117-350 | FAILED by the processor at step k: earlier steps COMPLETED, k FAILED, later ones PENDING, the result lists exactly the first k entries, no row changes any more, and only requests already in flight can still take effect |
| Safety.FailedLeavesNothing | src/modules/workflow-processing/workflowProcessor.service.js:298-350 | under (A) and (R) such an execution has no request in flight and its failed step has had no effect |
| Safety.EffectsFinalExactly | src/modules/jira/jira.client.js:26-37 | the effects of an execution that the processor has finalized are final if and only if no request is in flight |
| Safety.OrderUntilRecovery | src/modules/workflow-processing/workflowProcessor.service.js:72-352 | until a recovery ends the execution, statuses are COMPLETED..., one RUNNING or FAILED, PENDING..., and before any effect of a step every earlier Jira step has had one, with no assumption |
| Safety.EffectsInOrder | src/modules/workflow-processing/workflowProcessor.service.js:72-352 | under (A) effects come in step order, each step once, until a recovery; under (A) and (B) always |
| Safety.EffectAtMostOnce | src/modules/workflow-processing/workflowProcessor.service.js:77-296 | under (A) no step takes effect twice, counting requests in flight, and a PENDING step has neither taken effect nor a request in flight, over any attempts, crashes and recoveries |
| Safety.CompletedTookEffect | src/modules/workflow-processing/workflowExecutionRecovery.service.js:43-94 | under (B) a step that reads as COMPLETED has taken effect, also below an execution that recovery has failed, and first effects come in step order |
| Safety.AlwaysInOrder | src/modules/workflow-execution-steps/workflowExecutionSteps.repository.js:78-176 | under (A), (R), (B) statuses are always in order, also below a recovered execution, so at most one step is RUNNING |
| Safety.CompletedForGood | src/modules/workflow-execution-steps/workflowExecutionSteps.repository.js:107-176 | under the same assumptions a COMPLETED step stays COMPLETED |
| Safety.ReturnsStoredRow | src/modules/workflow-processing/workflowProcessor.service.js:365-448 | an attempt that returns has the stored, terminal execution row |
| Safety.LostRaceMeansFinalized | src/modules/workflow-processing/workflowExecutionRecovery.service.js:198-235 | a scanned execution is skipped as a lost race if and only if somebody has moved it out of RUNNING, and then no row changes |
| Aftermath.RecoveredIsFinalExactly | src/modules/workflow-processing/workflowExecutionRecovery.service.js:134-228 | the rows of a recovered execution can never change again if and only if no attempt is in a position to write: it would meet a PENDING step behind steps that it skips, or it holds a step whose pending call or write changes the row |
| Aftermath.SettledForGood | src/modules/workflow-processing/workflowExecutionRecovery.service.js:134-228 | under any assumptions such a settled execution keeps every row, and only requests in flight can still take effect |
| Aftermath.UnsettledChanges | src/modules/workflow-execution-steps/workflowExecutionSteps.repository.js:78-145 | any one attempt in such a position has a run in which it changes a row |
| Aftermath.NobodyInTheLoop | src/modules/workflow-processing/workflowProcessor.service.js:72-352 | an execution is settled if no attempt is between its read of the steps and its end |
| Counterexamples.AtMostOnceExactly | src/modules/workflow-processing/workflowProcessor.service.js:269-295 | effects are at most once over all runs if and only if (A) |
| Counterexamples.RetryAfterEffectRepeatsIt | src/modules/workflow-processing/workflowProcessor.service.js:269-295 | without (A), a run in which one comment step takes effect twice |
| Counterexamples.OrderExactly | src/modules/workflow-execution-steps/workflowExecutionSteps.repository.js:107-176 | statuses stay in order over all runs if and only if (A), (R) and (B) |
| Counterexamples.OrderNeedsEveryAssumption | src/modules/workflow-execution-steps/workflowExecutionSteps.repository.js:118-130 | whichever of the three is missing, a run that leaves a RUNNING step behind one that is not COMPLETED |
| Counterexamples.RecoveryDoesNotFreezeSteps | src/modules/workflow-processing/workflowExecutionRecovery.service.js:134-228 | even under all assumptions a live attempt can claim the next step of an execution that recovery has failed |
| LateEffects.LateEffectOutOfOrder | src/modules/jira/jira.client.js:26-37 | without (A), a run with no recovery whose effects are steps 0, 1, 0: a timed-out request arrives after its retry and the next step |
| LateEffects.EffectOrderExactly | src/modules/workflow-processing/workflowProcessor.service.js:72-352 | until a recovery, effects are in step order over all runs if and only if (A) |
| LateEffects.EffectOrderAlwaysExactly | src/modules/workflow-processing/workflowExecutionRecovery.service.js:134-228 | effects are in step order in every state if and only if (A) and (B) |
| LateEffects.FirstEffectOrderExactly | src/modules/workflow-processing/workflowExecutionRecovery.service.js:134-228 | first effects are in step order in every state if and only if (B) |
| LateEffects.StepTruthExactly | src/modules/workflow-processing/workflowExecutionRecovery.service.js:43-94 | every step that reads as COMPLETED has taken effect, over all runs, if and only if (B) |
| LateEffects.FinalEffectsExactly | src/modules/workflow-processing/workflowProcessor.service.js:298-371 | the effects of COMPLETED executions are final over all runs if and only if (A), those of executions that the processor failed if and only if (A) and (R) |
| Preservation.StepKeeps | src/modules/workflow-processing/workflowProcessor.service.js:10-448 | every action of every actor keeps the invariant: holders, counters, execution row, snapshots, winner |
| Preservation.ReachedInv | src/modules/workflow-executions/workflowExecutions.service.js:140-176 | so every state reachable from a freshly created execution satisfies it |
| Preservation.ClaimMeansUnfinished | src/modules/workflow-processing/workflowProcessor.service.js:77-203 | an attempt that wins the claim of a step works on a RUNNING execution, and its snapshot never shows an output to reuse, unless recovery ended the execution |
| Preservation.HolderMeansUnfinished | src/modules/workflow-processing/workflowProcessor.service.js:238-305 | an attempt inside a step works on a RUNNING execution and a RUNNING step, unless recovery ended the execution |
| Progress.EverybodyEnds | src/modules/workflow-processing/workflowProcessor.service.js:10-448 | nobody goes on for ever: under any interference an attempt on n steps takes at most 4n + 6 steps of its own in a whole run, a recovery at most n + 4 |
| Progress.NextStep | src/modules/workflow-processing/workflowProcessor.service.js:10-448 | nobody is ever stuck: in every state that satisfies the invariant, an attempt or recovery that is not over has a step of its own that is possible and breaks no assumption |
| Progress.LeftAloneEnds | src/modules/workflow-processing/workflowProcessor.service.js:10-448 | so from there every attempt and every recovery, left alone, comes to its end within its rank |
| Honesty.SafeStep | src/modules/workflow-processing/workflowProcessor.service.js:269-295 | under (A) every action keeps: no retryable failure came with an effect or left a request in flight |
| Honesty.QuietStep | src/modules/workflow-processing/workflowProcessor.service.js:252-305 | under (A) and (R) every action keeps: a step that is being rejected, or was failed by the processor, has had no effect and has no request in flight |
| Honesty.EvidenceStep | src/modules/workflow-processing/workflowExecutionRecovery.service.js:56-177 | under (B) every action keeps: whatever rows, snapshots, loop positions and lookup answers show as done has taken effect |
| Honesty.OrderStep | src/modules/workflow-execution-steps/workflowExecutionSteps.repository.js:78-176 | under (A), (R), (B) every action keeps the order of statuses and what each attempt relies on |
| Retries.RetriesRefineOneRun | src/modules/workflow-processing/workflowProcessor.service.js:70-363 | whatever the handlers answer, attempts run one after another leave the rows and the end of one uninterrupted run that gets the last answers at once |
| Retries.OneRunEnds | src/modules/workflow-processing/workflowProcessor.service.js:70-386 | what a run leaves, by its answers alone: COMPLETED with its own answer up to the first answer that is no success, and that answer decides between FAILED, a retryable stop and COMPLETED |
| Retries.JobEnds | src/modules/workflow-processing/workflowProcessor.service.js:70-386 | the same for a whole job of retried attempts, by the last answers of its handlers; a job that gives up has made one call for each step that succeeded and one for each attempt |
| Retries.HandlerCallsOfJob | src/queues/workflowProcessing.queue.js:14 | A attempts on n steps call handlers at most n + A - 1 times |
| Retries.JobThatGivesUp | src/modules/workflow-processing/workflowProcessor.service.js:270-295 | if every attempt fails, the execution is left RUNNING with only COMPLETED and PENDING steps, and handlers have been called once for each COMPLETED step and once in each attempt |
| Retries.FailedStepEndsAttempt | src/modules/workflow-processing/workflowProcessor.service.js:112-161 | an attempt on a RUNNING execution whose first k steps are COMPLETED and whose step k is FAILED finalizes it as FAILED at step k with k entries, without a handler call and without touching a step row |
| Retries.RunningStepStopsAttempt | src/modules/workflow-processing/workflowProcessor.service.js:163-194 | if step k is RUNNING instead, the attempt throws and changes nothing |
| Retries.NothingLeftCompletes | src/modules/workflow-processing/workflowProcessor.service.js:354-386 | if every step is COMPLETED, the attempt only finalizes, with one entry per stored output |
| Retries.ProvenStepIsNotRepeated | src/modules/workflow-processing/workflowProcessor.service.js:196-236 | a PENDING step whose stored output carries a comment or transition id is COMPLETED with that output and its handler is not called |
| Retries.RefusedAttempts | src/modules/workflow-processing/workflowProcessor.service.js:26-38 | an ended execution and one without steps are refused and left as they are |
| Processor.ProcessWorkflowExecution | src/modules/workflow-processing/workflowProcessor.service.js:10-386 | under any interference it returns or throws what its own attempt does in the protocol, and it returns only with the stored, terminal row; undisturbed it does what `Sequential.RunAttempt` says; it is refused for an invalid id, without a user and for an unknown execution exactly in that order of precedence, and then changes nothing |
| Processor.ProcessAdmitted | src/modules/workflow-processing/workflowProcessor.service.js:18-386 | the same from the read of the execution on, for the attempt that it starts |
| Processor.ProcessSteps | src/modules/workflow-processing/workflowProcessor.service.js:70-386 | the loop over the snapshot and the final write |
| Processor.ProcessStep | src/modules/workflow-processing/workflowProcessor.service.js:72-352 | one turn: claim, then go on with an output or end the attempt |
| Processor.Unclaimed | src/modules/workflow-processing/workflowProcessor.service.js:81-194 | skip a COMPLETED step with its stored output, finalize on a FAILED one, throw on any other |
| Processor.Claimed | src/modules/workflow-processing/workflowProcessor.service.js:196-351 | reuse a proving output, or call the handler and write COMPLETED, PENDING or FAILED; a refused COMPLETED write is treated as a business error |
| Processor.Reject | src/modules/workflow-processing/workflowProcessor.service.js:298-350 | mark the step FAILED and finalize the execution, or return what somebody else stored |
| Processor.FinalizeAndReturn | src/modules/workflow-processing/workflowProcessor.service.js:311-448 | the guarded write, or the row that somebody else stored |
| Processor.World.FindById | src/modules/workflow-executions/workflowExecutions.repository.js:88-116 | reads the execution status after any interference |
| Processor.World.FindByExecutionId | src/modules/workflow-execution-steps/workflowExecutionSteps.repository.js:42-71 | takes the attempt's snapshot of the step rows |
| Processor.World.ClaimPendingExecution | src/modules/workflow-executions/workflowExecutions.repository.js:145-171 | moves only a PENDING execution to RUNNING and keeps an existing started_at |
| Processor.World.ClaimPendingStep | src/modules/workflow-execution-steps/workflowExecutionSteps.repository.js:78-105 | moves only a PENDING step to RUNNING |
| Processor.World.HandleStep | src/modules/workflow-processing/workflowProcessor.service.js:239-242 | one handler call, whose end is decided by the readiness and reaction of Jira: the others act, its request takes effect if it is to be in time, the others act again, and it ends, leaving a late request in flight |
| Processor.World.UpdateStatus | src/modules/workflow-execution-steps/workflowExecutionSteps.repository.js:107-145 | after the turn of the others, the unguarded write of the held step, keeping a stored output when none is given; exactly a COMPLETED write after a success may be refused |
| Processor.World.FinalizeRunningExecution | src/modules/workflow-executions/workflowExecutions.repository.js:177-207 | writes the terminal row only while RUNNING |
| Processor.World.RegisterEnd | src/modules/workflow-processing/workflowProcessor.service.js:373-385 | registers the closing audit event and returns the row |
| Processor.World.FindCurrent | src/modules/workflow-processing/workflowProcessor.service.js:426-448 | re-reads the execution after a lost finalize |
| Worker.ProcessJob | src/workers/workflowProcessing.worker.js:13-59 | the job fails for good exactly if the processor returned a FAILED row, which is then stored, succeeds exactly if it returned another one, which is then a stored, whole COMPLETED execution, and is retryable exactly if the processor threw; jobs without data fail for good |
| Worker.RunJob | src/queues/workflowProcessing.queue.js:11-23 | three attempts on a fresh execution: at most n + 2 handler calls; if the job gives up, exactly three retryable failures beside one call for each step that succeeded, and the execution is RUNNING without a RUNNING step; the rows of one uninterrupted attempt; failure for good if and only if the first last answer that is no success is a business error |
| Worker.FailingStepEndsJob | src/workers/workflowProcessing.worker.js:48-53 | a single step that is configured to fail ends every job for good |
| StepHandlers.HandleWorkflowStepWithContext | src/modules/workflow-processing/workflowStepHandlers.js:14-242 | exactly a Jira step that is neither simulated to fail nor badly configured sends a request, one, while Jira is ready: a transition step its transition to its issue, a comment step to its issue the user's text with the step's and the execution's lines, and a success reports the same issue and transition; whether it takes effect in time, late or never |
| StepHandlers.RequestSays | src/modules/workflow-processing/workflowStepHandlers.js:70-77 | the request of a step, field by field: issue, transition, and the flattened text of the comment |
| StepHandlers.HandlerOutcomes | src/modules/workflow-processing/workflowStepHandlers.js:14-242 | when a handler ends in a business error, when retryably, and what a success reports, by configuration, readiness and answer |
| StepHandlers.CallJira | src/modules/jira/jira.service.js:282-353 | no request when Jira is not ready; otherwise one, whose answer decides the outcome |
| StepHandlers.AssertJiraIntegrationReady | src/modules/jira/jira.service.js:16-30 | ready exactly with a client, the integration enabled and all three settings; a disabled integration is a business error exactly if there is a client, every other gap is retryable |
| StepHandlers.HandlersFitProtocol | src/modules/workflow-processing/workflowStepHandlers.js:14-242 | handlers end only in ways that the protocol allows |
| JiraErrors.UnmappedClientErrorIsFinal | src/modules/jira/jira.service.js:252-275 | an unmapped 4xx is final if and only if the error carries no code |
| JiraErrors.UnprocessableEntityIsRetried | src/modules/jira/jira.service.js:252-263 | a 422 in the HTTP client's shape is retried |
| StepHandlers.EffectBehindError | src/modules/jira/jira.service.js:282-353 | a handler call breaks (A), or the handler's part of (R), exactly when its request takes effect, in time or late, although the client gets an error, and the class of the error decides which of them |
| StepHandlers.DedupRecognisesHandlers | src/modules/workflow-processing/workflowProcessor.service.js:388-420 | a successful call's persisted output proves the operation to the deduplication guard exactly if the step calls Jira and the external id is not empty |
| JiraErrors.FinalErrorsComeFromJira | src/modules/jira/jira.service.js:224-280 | a failed request is final if and only if Jira answered with a 4xx other than 408 and 429 that is one of the four mapped ones or carries no code |
| Markers.FlattenUndoesBuild | src/modules/jira/jira.service.js:75-127 | flattening undoes the wrapping of a comment |
| Markers.FlattenIgnoresNesting | src/modules/jira/jira.service.js:113-127 | the flattened text is the text runs in order, however they are nested |
| Markers.MarkerIdentifiesStep | src/modules/workflow-processing/workflowStepHandlers.js:70-77 | the comment of step a, wrapped and flattened, contains the marker of step b if and only if a is b or the user's own text contains it |
| Validation.UuidShape | src/validators/workflowExecutions.validator.js:154-163 | a string is a valid id if and only if it is the nil id or five groups of 8, 4, 4, 4 and 12 hexadecimal digits with version 1 to 5 and the right variant |
| Validation.UuidsAreFlat | src/validators/workflowExecutions.validator.js:154-163 | valid ids have equal lengths and hold no newline, which is what the marker result asks of them |
| Text.TrimIsExact | src/modules/workflow-processing/workflowStepHandlers.js:70-77 | trimming removes white space only, and all of it at both ends |
| CommentLookup.FindCommentByExecutionStepMarker | src/modules/jira/jira.service.js:144-201 | the whole trace of requests: none unless Jira is ready and both ids are given, the first from the start, each further one from where the page before ended; another one follows exactly after a full page without a match before the announced total, up to three; the last answer decides, by its first match, and a failed request finds nothing |
| CommentLookup.OneAnswer | src/modules/jira/jira.service.js:151-200 | what one answer means to the search: it goes on behind the page, or that answer is the result |
| CommentLookup.FirstMatchIsFirst | src/modules/jira/jira.service.js:166-169 | no comment before the one that is found carries the marker |
| CommentLookup.FindMatch | src/modules/jira/jira.service.js:166-169 | the first comment of a page that carries the marker |
| CommentLookup.PagedSearchIsLinearScan | src/modules/jira/jira.service.js:151-188 | on an unchanging list the search is a linear scan of the newest 150 comments |
| CommentLookup.ArrivalsHideNothing | src/modules/jira/jira.service.js:129-188 | a matching comment whose position plus the later arrivals is below 150 makes the search succeed |
| CommentLookup.ReachOfSearch | src/modules/jira/jira.service.js:129-188 | a sole match is found if and only if at one of the three requests it lies before the end of the page asked for |
| CommentLookup.SearchIsSound | src/modules/jira/jira.service.js:166-176 | whatever Jira answers, a found comment was on a page and carries the marker |
| CommentLookup.FoundMeansPosted | src/modules/jira/jira.service.js:97-176 | with UUIDs as ids, a step's comment is found only if that step posted it |
| CommentLookup.LookupsAreSound | src/modules/workflow-processing/workflowExecutionRecovery.service.js:70-91 | assumption (B) holds for lookups made with this search |
| Recovery.CommittedRecovery | src/modules/workflow-processing/workflowExecutionRecovery.service.js:134-228 | a committed recovery splits exactly the RUNNING steps into COMPLETED with the looked-up output and FAILED, lists each once, and changes no other step |
| Recovery.CommitsExactly | src/modules/workflow-executions/workflowExecutions.repository.js:236-268 | the transaction commits if and only if the execution is still RUNNING and was started at least `timeout` minutes ago |
| Recovery.StaleAnswersAreIgnored | src/modules/workflow-processing/workflowExecutionRecovery.service.js:150-177 | answers about steps that are no longer RUNNING make no difference |
| Recovery.FailAndCorrect | src/modules/workflow-processing/workflowExecutionRecovery.service.js:134-228 | the statements inside the transaction amount to `Statements.RecoverTransaction` |
| Recovery.CorrectFailedSteps | src/modules/workflow-processing/workflowExecutionRecovery.service.js:150-177 | the loop corrects the found steps and fills both lists |
| Recovery.RecoverExecution | src/modules/workflow-processing/workflowExecutionRecovery.service.js:133-235 | all of it, with the reported counts those of the stored lists, or, on a lost race, nothing: the whole database is as before |
| Recovery.FindRemoteRecoveredStepOutputsById | src/modules/workflow-processing/workflowExecutionRecovery.service.js:56-94 | there is an answer for exactly those RUNNING comment steps with an issue, on a ready Jira, for whose marker the search finds a comment, and it is that comment's id |
| Recovery.AnswersAreExact | src/modules/workflow-processing/workflowExecutionRecovery.service.js:56-94 | the same of the map of answers that the recovery theorems use |
| Recovery.OwnCommentIsFound | src/modules/workflow-processing/workflowExecutionRecovery.service.js:70-91 | a step's own posted comment among the newest 150 of an unchanging list is found, on the issue that the step wrote to, and it is the answer if no other comment carries the marker |
| Recovery.OwnCommentCompletes | src/modules/workflow-processing/workflowExecutionRecovery.service.js:56-177 | end to end: a RUNNING comment step whose own posted comment is the only one with its marker among the newest 150 of an unchanging list ends COMPLETED with that comment's id and is listed as recovered |
| Recovery.RecoveredStepRows | src/modules/workflow-processing/workflowExecutionRecovery.service.js:134-177 | what recovery leaves in each row, by what the search of the step's marker finds |
| Recovery.RecoveredStepRefs | src/modules/workflow-processing/workflowExecutionRecovery.service.js:179-196 | each RUNNING step is in one of the two result lists, by what the search of its marker finds |
| Recovery.RecoveredOutputIsTheHandlers | src/modules/workflow-processing/workflowExecutionRecovery.service.js:76-89 | the reconstructed output is the one the handler would have returned for that comment, but for the flag, under the same key, and the deduplication guard accepts it |
| Recovery.ResolveTimeoutMinutes | src/modules/workflow-processing/workflowExecutionRecovery.service.js:23-31 | a positive number is kept; nothing, a malformed or a non-positive argument stands for the configured timeout |
| Recovery.ResolveLimit | src/modules/workflow-processing/workflowExecutionRecovery.service.js:33-41 | always within 1..100: a positive limit up to 100 is kept, an absent, invalid or larger one becomes 100 |
| Recovery.RecoverScanned | src/modules/workflow-processing/workflowExecutionRecovery.service.js:124-235 | a scanned execution that nobody has written since the scan is always recovered: RUNNING comment steps whose comment the search finds end COMPLETED with its id, other RUNNING steps FAILED with their stored output, all others keep their rows, and the report counts the two stored lists |
| Recovery.RecoverEach | src/modules/workflow-processing/workflowExecutionRecovery.service.js:122-284 | the loop recovers exactly the scanned executions, in order, and reports each with its counts |
| Recovery.RecoverStaleRunningExecutions | src/modules/workflow-processing/workflowExecutionRecovery.service.js:96-300 | without another writer, exactly the `limit` oldest stale executions are recovered, oldest first, each reported with its counts, and nothing else changes; exactly a timeout that is no positive integer or a limit outside 1..100 is refused, and then nothing changes |
| Recovery.RunShrinks | src/modules/workflow-executions/workflowExecutions.repository.js:209-268 | such a run leaves `limit` fewer stale executions, or none |
| Recovery.RepeatedRunsDrain | src/modules/workflow-executions/workflowExecutions.repository.js:209-268 | repeated runs leave none exactly when runs times limit reaches the count |
| Store.Database.Begin | src/config/database.js:17-21 | opens a transaction on the rows as they are |
| Store.Database.Commit | src/config/database.js:27-29 | keeps what was written |
| Store.Database.Rollback | src/config/database.js:30-32 | restores every row |
| Store.Database.Create | src/modules/workflow-executions/workflowExecutions.repository.js:118-143 | a new PENDING execution |
| Store.Database.CreateMany | src/modules/workflow-execution-steps/workflowExecutionSteps.repository.js:3-40 | one PENDING row per step, in order |
| Store.Database.UpdateStatus | src/modules/workflow-execution-steps/workflowExecutionSteps.repository.js:107-145 | writes one step and keeps its output when none is given |
| Store.Database.FailRunningByExecutionId | src/modules/workflow-execution-steps/workflowExecutionSteps.repository.js:147-176 | fails exactly the RUNNING steps, keeps their outputs, and returns them in order |
| Store.Database.FailStaleRunning | src/modules/workflow-executions/workflowExecutions.repository.js:236-268 | fails the execution exactly while it is RUNNING and was started at least `timeout` minutes ago, and keeps started_at |
| Store.Database.FindStaleRunning | src/modules/workflow-executions/workflowExecutions.repository.js:209-234 | the `limit` oldest stale executions, oldest first |
| Store.OldestStaleAre | src/modules/workflow-executions/workflowExecutions.repository.js:209-234 | what such a scan finds, by the columns: RUNNING, started at least `timeout` minutes ago, oldest first; one is missing only if `limit` others are at least as old |
| Creation.FindActiveByWorkflowId | src/modules/workflow-steps/workflowSteps.repository.js:51-74 | exactly the active steps, in strictly increasing step order |
| Creation.InsertExecution | src/modules/workflow-executions/workflowExecutions.service.js:140-176 | an execution with all its steps PENDING, or nothing if there is no active step |
| Creation.CreateWorkflowExecution | src/modules/workflow-executions/workflowExecutions.service.js:111-194 | refuses with 400 for an invalid workflow id or input, 401, 404 or 409 exactly when it must and then changes nothing; otherwise stores the initial state of the protocol with at least one step |

## Left out

- Processor.ProcessWorkflowExecution: a database statement that fails ends the attempt like a crash, except the COMPLETED write after a handler's success, whose refusal runs the handler's catch branch.
- Processor.Claimed: only that one write can be refused; a refused PENDING or FAILED write is a crash.
- Processor.World.HandleStep: a call sends one request; the HTTP client's own transport is not modelled.
- Processor.World.RegisterEnd: only the three events that report an execution's end are modelled; the other audit events, their metadata and failing audit writes are not.
- Recovery.ResolveTimeoutMinutes: minutes are whole numbers; a fractional timeout, which only the configuration can give, is not modelled.
- Recovery.RecoverExecution: RETURNING is taken to list rows in step order; the database promises no order, and only the order inside the two result lists depends on it.
- Recovery.RecoverStaleRunningExecutions: interference is the subject of the protocol; this method is the batch without another writer. The per-step audit events are not modelled.
- Creation.CreateWorkflowExecution: generated keys are parameters assumed to be new and distinct, and the input is only told apart as absent, an object or neither.
- Worker.RunJob: backoff delays and the queue's own bookkeeping; under interference attempts are covered by `Worker.ProcessJob` and the protocol.
- Steps are stored in step order under their position; a step's own id is part of its definition and unique in its execution. No code changes the definition of a step that an execution uses.
- started_at is modelled; completed_at, step timestamps, updated_at and error messages are not. They decide nothing.
- The input of an execution, `created` and `self` of a comment in a stored output, and fields of a result that only repeat error texts.
- CANCELED and SKIPPED, which the schema allows and no code writes, and the unsupported action type, which the schema forbids. The placeholder for a COMPLETED step without output is modelled, and no reachable execution uses it.
- A comment or transition id that is missing in Jira's answer reads as the empty string.
- The HTTP client, its timeouts and headers, URL encoding, and other fields of Jira's documents.
- Routes, roles, rate limits, departments, pagination, filters, workflow editing and duplication: none of them takes part in driving an execution.
