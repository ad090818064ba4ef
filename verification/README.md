# Audisor: verified models of its control logic

Dafny models of the parts of Audisor whose correctness spans several functions
or whole runs, with proofs of what they promise. `dafny verify dfyconfig.toml`
verifies everything.

| module | models |
|---|---|
| `OperationStates`, `ControllerProtocol`, `ControllerSafety`, `OperationController` | the persisted protocol of the operation controller: register, start, plan, review, fulfil, execute, suspend, claim, approve, resume, retry, cancel |
| `ControllerPhases` | whom a public call asks and where it leaves the record, and the adapter a suspended operation goes back to |
| `ControllerEvents` | what the events the controller emits tell about its operations |
| `ToolLoop` | the suspendable tool loop with its budget, usage totals and transcript |
| `ApprovedCalls` | what a granted approval does to a suspended tool loop, across controller and loop |
| `ChatOrchestrator` | the chat turn, its table of parked turns and its mutually recursive loop |
| `DependencyChecks`, `EvidenceChecks`, `Readiness`, `SemanticRules`, `PlanAnalysis`, `PlanFacts`, `PlanSamples` | A-Flow plan analysis: cycle search, evidence, reference, coverage, authority and activation checkers, the local semantic rules and substantiation, and the readiness decision |
| `Identifiers`, `FindingIds` | the identifier schema, ids derived from ids, and the ids findings are printed under |
| `Json`, `Hashing` | canonical text, hashing and sealing of artifacts, the plan lock and what it binds |
| `Drift`, `Evaluation`, `Closure` | baseline comparison and drift classification, the evidence trace and final verdict, closure of findings |
| `TreeDiff` | the launcher's tree difference and authority check |
| `FixDispatch` | the single-flight dispatcher of fix operations, as a concurrent state machine and as code |
| `EventStore` | the append-only event log under cut-off writes and restarts, and polling |
| `JsonPointer`, `Splice`, `ManagedBlock` | JSON Pointers, splicing of text corrections, the managed block installer |
| `Ordering`, `Dictionary`, `Text` | sorting, dictionaries keyed by id, splitting and joining, posix paths |

## How to read it

Code that updates state is a class or a method with loops; its contract equates
the result or the new state with a function of the old one, and the theorems
are lemmas about that function. Exceptions are values: a method that may raise
returns `Raised`, `None` or a failure.

What comes from outside is a parameter: adapters and providers answer with
arbitrary scripts or environments, clocks and expiry are flags, the hash is any
injective function on texts, case folding, TOML parsing, integer parsing and
the comparison of numerals are arbitrary functions (parsing constrained, where a
theorem needs it, to ignore final newlines and to read decimal digits). Each public call of the
operation controller is one atomic step; the fix dispatcher is interleaved step
by step.

## Where the code differs from what one would expect

The models follow the code. Where that breaks a promise, lemmas give a concrete
input, the exact condition, or both:

- When an operation is resumed with plain input and the planning adapter then
  delivers its plan, the code reads an unbound name (`controller.py:391`): the
  call raises after the record was saved as REVIEWING.
- A chat operation is refused the transition to SANDBOX_RUNNING and stays
  RECEIVED (`controller.py:814`).
- A fix executes the empty plan after a clean review without an improved plan,
  and fulfilment executes the plan stored before the revision
  (`FixExecutesEmptyPlan`, `FulfilmentExecutesStalePlan`).
- The printed dependency cycle repeats its closing action once more.
- Two unknown dependencies of one action, or two unknown actions of one
  validation, make the analysis raise instead of returning; so does an admitted
  id that is too long for an id derived from it, be it a finding id or the id of
  the neutral review (`PlanAnalysis.RefusedExactly`, `LongActionIdRaises`,
  `LongAnalysisIdRaises`).
- A validation that states no environment passes although its proof requires
  one: the rule fires, but the field it points at is missing, so its finding is
  dropped as unlocated (`EnvironmentReadyExactly`). Without any evidence in the
  request no semantic rule has an effect, because what it cites instead counts
  as absent (`NoEvidenceReadyExactly`, `UnsupportedAssumptionIsReady`).
- A blocking requirement named `relevant-drift`, and ids too long for the ids
  derived from them, make the evaluator reject its own result
  (`SelfCheckExactly`, `LongIdsRaise`).
- A sound plan is refused its lock if its version carries build metadata or its
  id and version are too long together (`LockedExactly`).
- A clean prior decision cannot be closed: the result needs at least one
  finding (`RefusedExactly`, `CleanDecisionRefused`).
- Both pointer decoders drop all leading slashes, so a path that starts with an
  empty key and goes on does not come back (`RoundTripExactly`). The closure
  check also cuts `/plan` off every pointer that starts with it, so the pointer
  of the key `plan_id` fails there (`PlanRoundTripExactly`, `PlanIdGoesAstray`);
  the caller of the other decoder does the same (`LocationResolves`).
- An event that loses only its newline is readable until the next append
  destroys it together with the appended event; after a restart its number is
  given out again (`ReusedNumberIsNeverSeen`).
- A write cut off inside a character makes the event log unreadable for good
  (`UnreadableForGood`).
- An approval sent to an operation that waits for something else is announced
  as resolved, but not recorded (`ApprovalRecordedExactly`); cancelling an
  operation emits no event (`CancelTells`).
- After a granted approval the controller waits for the result of the approved
  call, but whatever is submitted breaks the pairing of the loop's transcript
  (`ApprovedResultBreaksPairing`).
- The chat orchestrator lists unknown tools in the assistant message but never
  answers them (`InlinePairsExactly`); its loop timeout starts anew in every
  recursive call.
- The fix igniter runs again if a dispatch dies between ignition and storing its
  artifact (`IgnitedAtMostOnce` counts these, `IgnitedAnyNumberOfTimes`).

## Model

| member | source | states |
|---|---|---|
| `OperationStates.AdvanceExtendsPath` | openai_project/operation_controller/src/operation_controller/states.py:79-142 | a legal transition extends a history that is a connected path of the transition table from RECEIVED by one step |
| `OperationStates.TerminalMeansNoSuccessor` | openai_project/operation_controller/src/operation_controller/states.py:79-125 | a state has no successor exactly when it is terminal; nothing ever leaves a terminal state |
| `OperationStates.CancelLegal` | openai_project/operation_controller/src/operation_controller/states.py:79-99 | cancelling is a legal transition from every state that is neither terminal nor RECEIVED |
| `OperationStates.EnteredExactly` | openai_project/operation_controller/src/operation_controller/states.py:79-125 | the transition table read backwards: from which states each state before execution is entered |
| `OperationStates.RunningEntered` | openai_project/operation_controller/src/operation_controller/states.py:79-125 | the same for the states of execution and after |
| `OperationStates.SuspendedEntered` | openai_project/operation_controller/src/operation_controller/states.py:79-125 | the same for the suspensions |
| `OperationStates.CompletedWasRunning` | openai_project/operation_controller/src/operation_controller/states.py:79-125 | every legal path to COMPLETED leaves SANDBOX_RUNNING at some step |
| `ControllerSafety.ExecutionOnlyAfterCleanReview` | openai_project/operation_controller/src/operation_controller/controller.py:604-771 | over every sequence of calls from the empty store: each execute and resume_execution call, and each COMPLETED record, comes after a clean-review step in that operation's own history |
| `ControllerSafety.RunGood` | openai_project/operation_controller/src/operation_controller/controller.py:240-421 | over every run from a good store: every history stays a legal path from RECEIVED, every adapter call is safe, and each record not registered anew has only evolved (history extended, terminal states kept, write-once fields kept) |
| `ControllerSafety.ApplyGood` | openai_project/operation_controller/src/operation_controller/controller.py:240-571 | one public call of any kind keeps the store invariant and only lets records evolve |
| `ControllerSafety.ResumeTargetLegal` | openai_project/operation_controller/src/operation_controller/controller.py:1079-1104 | the target a resume computes is a legal successor for every suspended state and every resume phase, and execution only after a clean review; which state it is ResumesExactly says |
| `ControllerSafety.DigestCheckExact` | openai_project/operation_controller/src/operation_controller/controller.py:834-905 | exactly when the digest stored at suspension refuses a decision: never for a call that carries its id; only for a call without one whose digest depends on the id the caller sends |
| `ControllerSafety.ExecuteReceivesReviewedPlan` | openai_project/operation_controller/src/operation_controller/controller.py:604-771 | every call except the start of a fix hands execute exactly the plan of the clean review right before it or that review's improved plan, unless the operation went through fulfilment; what is executed then CleanReviewExecutesExactly says |
| `ControllerSafety.ReviewedPlanRuns` | openai_project/operation_controller/src/operation_controller/controller.py:604-697 | a review that leads to execution does so with the reviewed or the improved plan, through any number of reviews and fulfilments in between |
| `ControllerSafety.CleanReviewExecutesExactly` | openai_project/operation_controller/src/operation_controller/controller.py:604-771 | what a clean review executes in every case: the improved plan, else the stored candidate, else the empty plan; that is the reviewed or improved plan exactly when there is an improved plan or the candidate is the reviewed plan |
| `ControllerSafety.FixExecutesEmptyPlan` | openai_project/operation_controller/src/operation_controller/controller.py:276-328 | concrete exception: a fix does not store its plan, so a clean review without an improved plan executes the empty plan |
| `ControllerSafety.FulfilmentExecutesStalePlan` | openai_project/operation_controller/src/operation_controller/controller.py:773-805 | concrete exception: after fulfilment the revised plan is reviewed but the plan stored before the revision is executed |
| `ControllerSafety.OneClaimant` | openai_project/operation_controller/src/operation_controller/controller.py:457-571 | whatever calls come in between, two claimants that are both told they hold the execution are the same claimant |
| `ControllerSafety.ClaimedMeansClaimant` | openai_project/operation_controller/src/operation_controller/controller.py:457-571 | whoever is told the call is claimed is the claimant on record, asked under the current suspension, and is handed a call pending under that id |
| `ControllerSafety.ClaimedResultsExactly` | openai_project/operation_controller/src/operation_controller/controller.py:997-1053 | under a claim results are accepted for the first time exactly when each carries the claimed call id or none; afterwards nothing changes and only identical results count as a replay |
| `ControllerSafety.OneDecision` | openai_project/operation_controller/src/operation_controller/controller.py:834-995 | a recorded approval decision never flips, whatever calls come in between |
| `ControllerSafety.OneReviewPerRetryKey` | openai_project/operation_controller/src/operation_controller/controller.py:699-752 | a retry key starts at most one review over any run in which the operation is not registered anew |
| `ControllerSafety.CancelGood` | openai_project/operation_controller/src/operation_controller/controller.py:398-421 | cancelling moves a live record along a legal transition and leaves everything else of the record alone |
| `ControllerSafety.AcceptedGood` | openai_project/operation_controller/src/operation_controller/controller.py:997-1077 | accepting tool results resumes along a legal transition, keeps the invariant and, under a claim, records the results with the suspension |
| `ControllerSafety.RetryGood` | openai_project/operation_controller/src/operation_controller/controller.py:699-752 | a retry keeps the record invariant and notes its key once the review it started has returned |
| `ControllerEvents.EventsFollowHistory` | openai_project/operation_controller/src/operation_controller/controller.py:183-205 | over every run in which an operation is not registered anew, each of its events reports a state it was in, with a history that is part of the final one, in order; completion is told exactly if the run brought it about, and once |
| `ControllerEvents.CallTells` | openai_project/operation_controller/src/operation_controller/controller.py:183-205 | the same for one public call of any kind on one record |
| `ControllerEvents.ApprovalRecordedExactly` | openai_project/operation_controller/src/operation_controller/controller.py:911-970 | an approval is announced whenever it is taken up but recorded exactly when the operation is suspended for approval; under any other suspension the record stays as it was |
| `ControllerEvents.CancelTells` | openai_project/operation_controller/src/operation_controller/controller.py:398-421 | cancelling changes the state without telling anything |
| `ControllerPhases.CallConverses` | openai_project/operation_controller/src/operation_controller/controller.py:577-805 | any public call: which adapter is asked after which answer (a plan is reviewed, a clean review executes, a gap is fulfilled, a resolved gap is reviewed again with the revised plan), and in which state, with which reply, the last answer or a raising adapter leaves the record |
| `ControllerPhases.ResumesExactly` | openai_project/operation_controller/src/operation_controller/controller.py:360-396 | plain input resumes each of the seven suspensions with one step to the state named for it (by the remembered phase for the last two) and asks first the planner, the executor or nobody |
| `ControllerPhases.ResultsResumeExactly` | openai_project/operation_controller/src/operation_controller/controller.py:997-1104 | submitted results are replayed, refused, or accepted, each exactly in its case; accepted they resume to the named state, with the adapter of that phase first |
| `ControllerPhases.SuspendedByTheLastAsked` | openai_project/operation_controller/src/operation_controller/controller.py:1106-1259 | a call that leaves an operation waiting for a decision or for results was suspended by the adapter asked last, and the phase of that adapter is on record |
| `ControllerPhases.SuspensionReturnsToItsAdapter` | openai_project/operation_controller/src/operation_controller/controller.py:1079-1104 | over any later calls the next adapter asked about such an operation is the one that suspended it: planning is resumed by the planner, execution by the executor |
| `ControllerPhases.NextHandsBack` | openai_project/operation_controller/src/operation_controller/controller.py:1079-1104 | the same from any store with a waiting operation: decisions, claims, failed and replayed submissions in between do not change whom it goes back to |
| `ControllerPhases.ApprovalRoundTrip` | openai_project/operation_controller/src/operation_controller/controller.py:834-1077 | an approval that is granted, claimed under the new suspension id and answered by the claimant hands the operation back to the adapter that asked for it |
| `ControllerPhases.DecisionsAnswered` | openai_project/operation_controller/src/operation_controller/controller.py:844-889 | a decision is refused for another suspension, replayed or refused when one is on record, and refused for a changed digest, each exactly then, without a change |
| `ControllerPhases.DenialCancels` | openai_project/operation_controller/src/operation_controller/controller.py:890-913 | a denial taken up cancels the operation, records the decision and changes nothing else |
| `ControllerPhases.ApprovalAwaitsResult` | openai_project/operation_controller/src/operation_controller/controller.py:914-995 | an approval taken up makes exactly the call asked about pending under the new suspension id, in the same phase, where one is waited for, and is refused anywhere else |
| `ControllerPhases.ClaimsExactly` | openai_project/operation_controller/src/operation_controller/controller.py:457-571 | a claim is granted exactly while results are awaited, for the current suspension, a pending call, the digest on record if any, and by the claimant on record if any; it is written once |
| `ControllerPhases.ClaimRefusedExactly` | openai_project/operation_controller/src/operation_controller/controller.py:479-545 | which refusal a claim meets |
| `ControllerPhases.RetriesExactly` | openai_project/operation_controller/src/operation_controller/controller.py:699-752 | a retry reviews the stored candidate with the named provider exactly from a provider failure, under a fresh key, at the version the caller saw; its key is noted with the state reached unless it raised |
| `ControllerPhases.TaskStarts` | openai_project/operation_controller/src/operation_controller/controller.py:292-328 | a task goes to planning and asks the planner first |
| `ControllerPhases.PlansStart` | openai_project/operation_controller/src/operation_controller/controller.py:276-328 | a prepared plan and a fix with a plan go to review, and that plan is reviewed first |
| `ControllerPhases.OthersStart` | openai_project/operation_controller/src/operation_controller/controller.py:276-328 | every other start asks nobody: a fix without a plan waits for review, a chat raises, the rest is refused |
| `ControllerPhases.CancelsExactly` | openai_project/operation_controller/src/operation_controller/controller.py:398-421 | cancelling takes the one step with the caller's reason, and is refused exactly for terminal and received operations |
| `ControllerPhases.RegistersExactly` | openai_project/operation_controller/src/operation_controller/controller.py:207-274 | an operation is registered exactly if the adapters its kind will need are configured, as a received record with nothing decided |
| `ControllerPhases.AnswersAnnounced` | openai_project/operation_controller/src/operation_controller/controller.py:1106-1259 | the events of each adapter status, with the ids, digest and calls they carry |
| `ControllerPhases.AnswersKeep` | openai_project/operation_controller/src/operation_controller/controller.py:1106-1259 | a suspension stores the continuation it came with; nothing else of the artifacts changes with an answer |
| `ControllerPhases.DigestOf` | openai_project/operation_controller/src/operation_controller/controller.py:1173-1187 | the digest on record is that of the arguments themselves, given as an object or as text that parses, else of an empty object |
| `ControllerPhases.ReviewsAnnounced` | openai_project/operation_controller/src/operation_controller/controller.py:604-697 | what a review announces first and stores: the review id and improved plan of a clean one, the issue of a failed provider |
| `ControllerPhases.DenialsAnnounced` | openai_project/operation_controller/src/operation_controller/controller.py:890-913 | a denial announces the call it is about |
| `ControllerPhases.ApprovalsAnnounced` | openai_project/operation_controller/src/operation_controller/controller.py:914-995 | an approval announces the call it resolves and, if it is recorded, the execution requested under the new id |
| `ControllerPhases.ClaimsAnnounced` | openai_project/operation_controller/src/operation_controller/controller.py:547-571 | exactly a claim that is written is announced |
| `OperationController.Controller.constructor` | openai_project/operation_controller/src/operation_controller/controller.py:159-181 | a controller over an empty store, with nothing logged, is valid |
| `OperationController.Controller.Register` | openai_project/operation_controller/src/operation_controller/controller.py:240-274 | registers a fresh record under the id, replacing any record that had it, and emits its creation; stays valid |
| `OperationController.Controller.Start` | openai_project/operation_controller/src/operation_controller/controller.py:276-328 | store, adapter calls, emitted events and reply are those of the protocol's start; stays valid |
| `OperationController.Controller.Resume` | openai_project/operation_controller/src/operation_controller/controller.py:330-396 | store, adapter calls, events and reply are those of the protocol's resume, raising where the code reads an unbound name; stays valid |
| `OperationController.Controller.Cancel` | openai_project/operation_controller/src/operation_controller/controller.py:398-421 | store and reply are those of the protocol's cancel, and nothing is emitted; stays valid |
| `OperationController.Controller.ClaimToolExecution` | openai_project/operation_controller/src/operation_controller/controller.py:457-571 | store, emitted claim event and reply are those of the protocol's claim; stays valid |
| `OperationController.Controller.Retry` | openai_project/operation_controller/src/operation_controller/controller.py:699-752 | store, adapter calls, events and reply are those of the protocol's retry; stays valid |
| `OperationController.Controller.Accept` | openai_project/operation_controller/src/operation_controller/controller.py:220-238 | register followed by start, as one call; stays valid |
| `OperationController.Controller.Review` | openai_project/operation_controller/src/operation_controller/controller.py:604-697 | a review with everything it leads to, and the events on the way: suspension, fulfilment, or execution of the candidate |
| `OperationController.Controller.Execute` | openai_project/operation_controller/src/operation_controller/controller.py:754-771 | execution of the stored candidate and the handling of what the adapter returns |
| `OperationController.Controller.Fulfil` | openai_project/operation_controller/src/operation_controller/controller.py:773-805 | fulfilment of findings, the revised plan and the review it goes back to |
| `OperationController.Controller.MakePlan` | openai_project/operation_controller/src/operation_controller/controller.py:577-602 | planning, the stored plan and the review it goes on to |
| `OperationController.Controller.HandleResult` | openai_project/operation_controller/src/operation_controller/controller.py:1106-1160 | the branches over an adapter result with their events: suspensions, completion, failure |
| `OperationController.Controller.HandleApprovalSuspension` | openai_project/operation_controller/src/operation_controller/controller.py:1162-1220 | the record an approval suspension leaves, with the digest of the suspended call, and the request it emits |
| `OperationController.Controller.HandleToolResultSuspension` | openai_project/operation_controller/src/operation_controller/controller.py:1222-1259 | the record a tool-result suspension leaves and the request it emits |
| `OperationController.Controller.HandleApprovalDecision` | openai_project/operation_controller/src/operation_controller/controller.py:834-995 | the decision on a suspended call with its events: digest check, denial, grant, replay |
| `OperationController.Controller.HandleToolResult` | openai_project/operation_controller/src/operation_controller/controller.py:997-1077 | submitted results: replay, claim check, resume into the phase the operation was suspended in |
| `OperationController.Controller.AnswerClaim` | openai_project/operation_controller/src/operation_controller/controller.py:1028-1036 | whether every submitted result carries the claimed call id or none |
| `ToolLoop.BudgetOverResumptions` | openai_project/operation_controller/src/operation_controller/tool_loop.py:292-433 | however often a run is suspended and resumed, the provider is called at most max_iterations times in all, and a continuation carries the sum of all usage reported |
| `ToolLoop.ChainAccounts` | openai_project/operation_controller/src/operation_controller/tool_loop.py:292-433 | the same from any starting state: calls are bounded by what is left of the budget, and iteration count and usage of a later continuation are those of the start plus everything since |
| `ToolLoop.RunAccounts` | openai_project/operation_controller/src/operation_controller/tool_loop.py:352-433 | one run calls the provider once per iteration it starts, never beyond the limit, and hands over exactly the state it stopped in |
| `ToolLoop.RunExecutesPermitted` | openai_project/operation_controller/src/operation_controller/tool_loop.py:435-541 | every backend tool a run executes is allowed, not prohibited, not subject to approval and not a frontend tool |
| `ToolLoop.ChainExecutesPermitted` | openai_project/operation_controller/src/operation_controller/tool_loop.py:435-541 | the same across any chain of suspensions and resumptions |
| `ToolLoop.ApprovalExecutesNothing` | openai_project/operation_controller/src/operation_controller/tool_loop.py:435-534 | the loop suspends for approval exactly when some call is allowed, not prohibited and requires it, for the first such call, and then nothing of that response is executed and the transcript is unchanged |
| `ToolLoop.HandlesExactly` | openai_project/operation_controller/src/operation_controller/tool_loop.py:435-541 | without such a call: the backend calls are executed, in order, the loop suspends exactly when a call is for the client and hands out exactly those, and if all are refused the model is told so |
| `ToolLoop.RunHandsOutPermitted` | openai_project/operation_controller/src/operation_controller/tool_loop.py:435-541 | every call a run hands to the client is allowed, not prohibited, free of approval and, with an executor, a frontend tool; the call put up for approval is allowed, not prohibited and requires it |
| `ToolLoop.ChainHandsOutPermitted` | openai_project/operation_controller/src/operation_controller/tool_loop.py:292-541 | the same across any chain of suspensions and resumptions |
| `ToolLoop.RunEndsExactly` | openai_project/operation_controller/src/operation_controller/tool_loop.py:352-433 | a run ends in the first iteration that is aborted, timed out, fails, calls no tool, or calls one for the client or for approval, or at the limit, with the outcome found there |
| `ToolLoop.ResultsWritten` | openai_project/operation_controller/src/operation_controller/tool_loop.py:543-639 | what is written for each backend call, its output cut to the limit or its error, and what is noted of it |
| `ToolLoop.SubmittedWritten` | openai_project/operation_controller/src/operation_controller/tool_loop.py:311-345 | what is written for each submitted result: its output, else its error, else nothing |
| `ToolLoop.RunKeepsPairing` | openai_project/operation_controller/src/operation_controller/tool_loop.py:435-534 | a run keeps the transcript paired: tool results follow an assistant message that lists exactly their ids in order |
| `ToolLoop.HandleKeepsPairing` | openai_project/operation_controller/src/operation_controller/tool_loop.py:586-639 | handling one response keeps the transcript paired |
| `ToolLoop.PairedAppend` | openai_project/operation_controller/src/operation_controller/tool_loop.py:586-639 | appending to a paired transcript gives a paired one exactly when what was appended is paired |
| `ToolLoop.ResumeKeepsPairingExactly` | openai_project/operation_controller/src/operation_controller/tool_loop.py:320-345 | resuming keeps the transcript paired exactly when the submitted results carry the pending ids in order |
| `ToolLoop.FrontendAnswersPairExactly` | openai_project/operation_controller/src/operation_controller/tool_loop.py:320-345 | answering only the calls handed to the frontend keeps the pairing exactly when every call of the response was handed to it under its own id |
| `ApprovedCalls.GrantedPairsExactly` | openai_project/operation_controller/src/operation_controller/controller.py:925-954 | writing a granted approval into a stored continuation keeps the loop's transcript paired, and resuming from it keeps it so exactly when no results are submitted |
| `ApprovedCalls.ApprovedResultBreaksPairing` | openai_project/operation_controller/src/operation_controller/controller.py:910-995 | a loop that suspended for approval, a grant by the controller, and the results submitted next: the controller waits for the result of exactly that call, and every non-empty submission breaks the pairing of the transcript |
| `ToolLoop.Loop.Start` | openai_project/operation_controller/src/operation_controller/tool_loop.py:266-290 | a fresh run: outcome and number of provider calls are those of the loop's definition |
| `ToolLoop.Loop.Resume` | openai_project/operation_controller/src/operation_controller/tool_loop.py:292-350 | a resumed run: outcome and number of provider calls are those of the loop's definition from the continuation's state |
| `ToolLoop.Loop.RunLoop` | openai_project/operation_controller/src/operation_controller/tool_loop.py:352-433 | the loop refines the recursive definition of a run |
| `ToolLoop.Loop.RouteCalls` | openai_project/operation_controller/src/operation_controller/tool_loop.py:435-480 | each call is sorted into blocked, approval, backend or frontend, in order, by the sets of the policy |
| `ToolLoop.Loop.HandleToolCalls` | openai_project/operation_controller/src/operation_controller/tool_loop.py:435-534 | the outcome and the state after the tool calls of one response |
| `ToolLoop.Loop.ExecuteBatch` | openai_project/operation_controller/src/operation_controller/tool_loop.py:543-584 | a batch before a frontend suspension: every backend call executed once, in order, and noted |
| `ToolLoop.Loop.ExecuteInline` | openai_project/operation_controller/src/operation_controller/tool_loop.py:586-639 | an inline batch: one assistant message listing the ids, then one result per call in order |
| `ToolLoop.Loop.AppendResults` | openai_project/operation_controller/src/operation_controller/tool_loop.py:311-345 | the submitted results are appended to transcript and trace in order |
| `ChatOrchestrator.EveryTurnWithinBudget` | openai_project/assistant_backend/src/audisor_assistant/application/chat_orchestrator.py:246-388 | in every session of new and continued turns with fresh ids, the provider is called at most the maximum number of times per turn and a parked turn has made one call per iteration |
| `ChatOrchestrator.RunAccounts` | openai_project/assistant_backend/src/audisor_assistant/application/chat_orchestrator.py:323-388 | one run of the mutually recursive loop: calls equal iterations started and stay within the limit, usage is everything reported, only registered backend tools that require no approval are run |
| `ChatOrchestrator.ApprovalExecutesNothing` | openai_project/assistant_backend/src/audisor_assistant/application/chat_orchestrator.py:560-585 | a turn is parked for approval exactly when the registry requires one for some call; the first such call is handed out, nothing is run and the transcript is unchanged |
| `ChatOrchestrator.HandlesExactly` | openai_project/assistant_backend/src/audisor_assistant/application/chat_orchestrator.py:583-655 | without such a call the registered backend tools are run, in order; the turn is parked exactly when a frontend tool is requested and hands out exactly those |
| `ChatOrchestrator.RunGates` | openai_project/assistant_backend/src/audisor_assistant/application/chat_orchestrator.py:520-630 | over a whole run: only backend tools without approval are run, only frontend tools without approval are handed out, and a call is put up for approval only if the registry requires it |
| `ChatOrchestrator.EveryAnswerGated` | openai_project/assistant_backend/src/audisor_assistant/application/chat_orchestrator.py:200-388 | over whole sessions: the same for the answer to any request after any others, and for every parked turn |
| `ChatOrchestrator.RunEndsExactly` | openai_project/assistant_backend/src/audisor_assistant/application/chat_orchestrator.py:323-388 | a run ends in the first iteration that is timed out, raises, calls no tool, or calls one for the client or for approval, or at the limit, with the result found there |
| `ChatOrchestrator.ResultsWritten` | openai_project/assistant_backend/src/audisor_assistant/application/chat_orchestrator.py:583-655 | what is written for each backend call, its output or its error marked as one, and what is noted of it |
| `ChatOrchestrator.SubmittedNoted` | openai_project/assistant_backend/src/audisor_assistant/application/chat_orchestrator.py:303-313 | what is noted of each submitted result, by what the registry says of its tool |
| `ChatOrchestrator.InlinePairsExactly` | openai_project/assistant_backend/src/audisor_assistant/application/chat_orchestrator.py:632-655 | the inline assistant message lists every call of the reply but only registered tools are answered: the transcript stays paired exactly when the reply names no unknown tool |
| `ChatOrchestrator.ContinuePairsExactly` | openai_project/assistant_backend/src/audisor_assistant/application/chat_orchestrator.py:272-302 | continuing keeps the transcript paired exactly when stored plus submitted results answer the raw calls in order |
| `ChatOrchestrator.FrontendAnswersPairExactly` | openai_project/assistant_backend/src/audisor_assistant/application/chat_orchestrator.py:605-630 | answering exactly the pending calls keeps the pairing exactly when the reply listed its backend calls before its frontend calls and nothing else |
| `ChatOrchestrator.AnsweredOnce` | openai_project/assistant_backend/src/audisor_assistant/application/chat_orchestrator.py:246-270 | continuing takes the turn out of the table; it is back only if it suspended again; an expired or unknown turn runs nothing; other live turns are untouched |
| `ChatOrchestrator.Orchestrator.ExecuteTurn` | openai_project/assistant_backend/src/audisor_assistant/application/chat_orchestrator.py:200-244 | a new turn: result, table of turns and provider calls are those of the definition |
| `ChatOrchestrator.Orchestrator.ContinueTurn` | openai_project/assistant_backend/src/audisor_assistant/application/chat_orchestrator.py:246-321 | a continued turn: expiry, removal from the table, appended results, then the loop |
| `ChatOrchestrator.Orchestrator.RunLoop` | openai_project/assistant_backend/src/audisor_assistant/application/chat_orchestrator.py:323-388 | the loop refines the definition of a run |
| `ChatOrchestrator.Orchestrator.HandleToolCalls` | openai_project/assistant_backend/src/audisor_assistant/application/chat_orchestrator.py:520-655 | parking for approval or frontend calls, or going on after the inline batch |
| `ChatOrchestrator.Orchestrator.Sort` | openai_project/assistant_backend/src/audisor_assistant/application/chat_orchestrator.py:520-558 | each call sorted into unknown, approval, backend or frontend, in order, by the fields of the registry |
| `ChatOrchestrator.Orchestrator.RunBackend` | openai_project/assistant_backend/src/audisor_assistant/application/chat_orchestrator.py:583-603 | every backend call run once, in order, and noted |
| `ChatOrchestrator.Orchestrator.AppendResults` | openai_project/assistant_backend/src/audisor_assistant/application/chat_orchestrator.py:272-313 | stored and submitted results appended to transcript and trace, and the pending state cleared |
| `DependencyChecks.Check` | openai_project/aflow/src/aflow/analysis/dependency_checks.py:8-49 | missing-dependency findings for exactly the unknown dependencies; a cycle finding exactly when the graph of known edges has a cycle, each naming a real closed walk; unresolved findings for exactly the unresolved rows; no finding twice |
| `DependencyChecks.CycleSearch.Visit` | openai_project/aflow/src/aflow/analysis/dependency_checks.py:25-39 | the depth-first search terminates, restores `visiting`, reports a real closed walk when it meets an action being visited, and keeps `visited` in topological order as long as nothing was reported |
| `DependencyChecks.TopologicalOrderMeansAcyclic` | openai_project/aflow/src/aflow/analysis/dependency_checks.py:22-42 | a topological order of all actions rules out every closed walk |
| `DependencyChecks.CycleVerdict` | openai_project/aflow/src/aflow/analysis/dependency_checks.py:22-42 | after every root was visited something was reported exactly when the graph has a cycle |
| `DependencyChecks.CycleSearch.SuffixIsClosedWalk` | openai_project/aflow/src/aflow/analysis/dependency_checks.py:26-32 | the part of the chain from the revisited action is a closed walk; the printed cycle repeats its closing action |
| `Readiness.ReadyExactly` | openai_project/aflow/src/aflow/analysis/decision_engine.py:56-151 | for whatever the evidence checks, the reviewer and substantiation contribute: execution_ready is returned exactly when admission passed, ids are unique, the plan is sound in coverage, dependencies, authority and activation, no other finding was made, the review is valid and the rejected ids are accepted; blocking, verdict and findings agree with it |
| `Readiness.RaisesExactly` | openai_project/aflow/src/aflow/analysis/decision_engine.py:56-151 | for whatever they contribute: the analysis raises exactly when the review or the decision fails validation: without findings, when the id of the neutral review is too long, a supplied review is invalid, or what substantiation hands on is not accepted; with deterministic findings, when an action has two unknown dependencies, a validation with a known proof names two unknown actions, an id is repeated, or a derived id is no identifier |
| `PlanAnalysis.DeclaredReadyExactly` | openai_project/aflow/src/aflow/analysis/decision_engine.py:56-151 | a plan is declared ready exactly when it passed admission, every check and checker is silent, each local rule that fires is overlooked, no external candidate is substantiated, the review is valid, and no id of the review is repeated or too long |
| `PlanAnalysis.VerdictExactly` | openai_project/aflow/src/aflow/analysis/decision_engine.py:45-151 | every other verdict: contradicted, drift revalidation and missing evidence exactly when, on an otherwise sound plan, a substantiated external finding or an effective rule raises such a gap and no graver one is raised; a material gap in all other cases; blocking exactly unless clean |
| `Readiness.DecisionTypeExactly` | openai_project/aflow/src/aflow/analysis/decision_engine.py:45-53 | the gravest gap among the findings decides |
| `Readiness.GapsExactly` | openai_project/aflow/src/aflow/analysis/coverage_checks.py:8-66 | which findings are of which kind of gap |
| `PlanFacts.FaultlessMeans` | openai_project/aflow/src/aflow/analysis/evidence_checks.py:80-121 | the evidence and reference checks are silent exactly when no evidence id repeats, no hash is broken, everything cited by prerequisites, assumptions and risks is held with its hash, and the plan is bound field by field to the artifacts supplied |
| `PlanFacts.SuccessValidExactly` | openai_project/aflow/src/aflow/domain/models.py:35-52 | a success definition passes its domain check exactly when it repeats no id and its hash is confirmed |
| `PlanFacts.PlanValidExactly` | openai_project/aflow/src/aflow/domain/models.py:53-63 | a plan passes its domain check exactly when it repeats no id of any of its items, the outputs of all actions counting together |
| `PlanFacts.FiresExactly` | openai_project/aflow/src/aflow/analysis/semantic_checks.py:15-58 | each rule fires exactly on the fields it compares with those of the proof the validation names |
| `PlanFacts.ProposalsExactly` | openai_project/aflow/src/aflow/analysis/semantic_checks.py:15-58 | the id, gap, requirements and location of what each rule proposes |
| `PlanFacts.CitesExactly` | openai_project/aflow/src/aflow/analysis/evidence_checks.py:31-41 | the evidence each rule cites |
| `PlanFacts.ReportedAs` | openai_project/aflow/src/aflow/analysis/decision_engine.py:29-42 | the printed id of findings that carry a number or a text |
| `PlanFacts.CoverageReported` | openai_project/aflow/src/aflow/analysis/coverage_checks.py:8-66 | the printed id of findings about a requirement or target |
| `PlanFacts.ReportedByName` | openai_project/aflow/src/aflow/analysis/coverage_checks.py:8-66 | the printed id of findings about a proof or validation |
| `PlanFacts.RisksAndActionsReported` | openai_project/aflow/src/aflow/analysis/activation_checks.py:56-65 | the printed id of findings about a risk or an action that cannot run |
| `PlanFacts.ConflictReported` | openai_project/aflow/src/aflow/analysis/authority_checks.py:19-38 | the printed id of a conflict between a target and an exclusion: both positions, in that order |
| `PlanFacts.ReportedByPosition` | openai_project/aflow/src/aflow/analysis/authority_checks.py:39-69 | the printed id of an action's or an output's target outside the scope: the action's and the path's position |
| `PlanFacts.DependenciesReported` | openai_project/aflow/src/aflow/analysis/dependency_checks.py:8-49 | the printed id of the dependency findings |
| `SemanticRules.Reasons` | openai_project/aflow/src/aflow/analysis/substantiation.py:35-92 | the reasons against a candidate are exactly those that hold; it is substantiated exactly without any |
| `PlanAnalysis.RefusedExactly` | openai_project/aflow/src/aflow/analysis/decision_engine.py:56-151 | the analysis raises exactly when a request that failed admission holds something that cannot be quoted, or, once admission and the domain invariants hold, in one of these cases: an action with two unknown dependencies, a validation with two unknown actions, a name or position too long for the id derived from it, a repeated evidence id too long to be reported; or, without findings, an analysis id too long for the neutral review, an invalid external review, a rule on an id that is too long, or an id the review gives twice |
| `PlanAnalysis.ReviewAcceptedExactly` | openai_project/aflow/src/aflow/analysis/decision_engine.py:113-136 | what a valid review hands on passes validation exactly when no rule fires on an id that is too long and no id is given twice; nothing is accepted exactly when every rule that fires is overlooked and nothing external is substantiated |
| `PlanAnalysis.Review` | openai_project/aflow/src/aflow/analysis/decision_engine.py:115-136 | the review is validated, reserved ids are rejected, the local and the external candidates are substantiated, and the decision is drawn |
| `PlanSamples.LongAnalysisIdRaises` | openai_project/aflow/src/aflow/adapters/semantic_reviewer.py:15-23 | concrete input: a plan sound in every respect under an analysis id of 122 characters makes the neutral reviewer's own review invalid |
| `SemanticRules.RuleAcceptedExactly` | openai_project/aflow/src/aflow/analysis/substantiation.py:35-92 | where the checks find nothing, what a local rule proposes is accepted exactly when its id is not too long, its location exists and there is evidence to cite |
| `SemanticRules.HitsAre` | openai_project/aflow/src/aflow/analysis/semantic_checks.py:8-58 | the rules propose exactly the unsubstantiated assumptions and the validations that differ from their proof in environment, evidence, proof type or executor, each once |
| `SemanticRules.HitIdInjective` | openai_project/aflow/src/aflow/analysis/semantic_checks.py:8-58 | different rule findings never share an id |
| `PlanSamples.EnvironmentReadyExactly` | openai_project/aflow/src/aflow/analysis/substantiation.py:54-57 | concrete input: with production demanded by the proof, the plan is ready exactly when the validation states production or states no environment at all; the rule fires in the second case too |
| `PlanSamples.NoEvidenceReadyExactly` | openai_project/aflow/src/aflow/analysis/evidence_checks.py:31-41 | a sound request without evidence is ready under the neutral reviewer whatever the rules say, exactly unless an id is too long |
| `PlanSamples.UnsupportedAssumptionIsReady` | openai_project/aflow/src/aflow/analysis/semantic_checks.py:15-24 | concrete input: a plan that rests on an assumption it calls unsubstantiated is ready if the request carries no evidence |
| `SemanticRules.Propose` | openai_project/aflow/src/aflow/analysis/semantic_checks.py:8-58 | one candidate per rule that fires, assumptions first, then validation by validation |
| `SemanticRules.Substantiate` | openai_project/aflow/src/aflow/analysis/substantiation.py:35-92 | the candidates that pass every test are accepted in order, the ids of the others rejected in order |
| `EvidenceChecks.EvidenceCheck` | openai_project/aflow/src/aflow/analysis/evidence_checks.py:80-121 | reports exactly the repeated evidence ids, the artifacts and items whose hash does not verify, and the references of the plan to evidence that is absent or has another hash, each once |
| `EvidenceChecks.ReferenceCheck` | openai_project/aflow/src/aflow/analysis/reference_checks.py:10-41 | reports exactly the fields of the success reference that differ and the baseline and authority references that do |
| `EvidenceChecks.StampInjective` | openai_project/aflow/src/aflow/analysis/evidence_checks.py:90-120 | different faults never share a finding id |
| `EvidenceChecks.StampIdentifier` | openai_project/aflow/schemas/v1/common.schema.json:10-15 | the id of a fault is an identifier exactly when the repeated evidence id, or the position, is not too long for it |
| `Readiness.UnprintableExactly` | openai_project/aflow/src/aflow/analysis/decision_engine.py:129-151 | some finding is reported under an id that is no identifier exactly when an action, requirement, validation, proof or dependency to be reported has too long a name, or a position has too many digits |
| `Readiness.RepetitionExactly` | openai_project/aflow/src/aflow/domain/models.py:64-66 | the printed ids repeat exactly when one of the three repetitions occurs |
| `PlanSamples.LongActionIdRaises` | openai_project/aflow/src/aflow/analysis/dependency_checks.py:8-20 | concrete input that passes admission, with one of everything the schemas demand: one action with an id of 120 characters and one unknown dependency repeats no id and makes the analysis raise |
| `FindingIds.PrintInjective` | openai_project/aflow/src/aflow/analysis/decision_engine.py:108-151 | two finding ids made by the checkers are the same text only if they come from the same family with the same name and positions |
| `FindingIds.PrintableExactly` | openai_project/aflow/schemas/v1/common.schema.json:10-15 | a derived finding id is an identifier exactly when what follows its prefix leaves it within 128 characters |
| `Identifiers.DerivedExactly` | openai_project/aflow/schemas/v1/common.schema.json:10-15 | an identifier behind a fixed prefix is an identifier again exactly when both together have at most 128 characters |
| `Readiness.SharedId` | openai_project/aflow/src/aflow/analysis/decision_engine.py:108-151 | two different findings are printed under the same id only in those cases |
| `Readiness.SilentExactly` | openai_project/aflow/src/aflow/analysis/decision_engine.py:108-112 | the checkers find nothing exactly when the evidence checks are silent and the plan is sound in every respect |
| `Readiness.DeterministicVerdict` | openai_project/aflow/src/aflow/analysis/decision_engine.py:45-53 | findings of the structural checkers always lead to the verdict material_gap_found |
| `PlanAnalysis.Analyze` | openai_project/aflow/src/aflow/analysis/decision_engine.py:56-151 | the whole analysis: schema findings, domain findings, all checkers, or the review with the local rules, and the decision drawn from them; it is ready exactly when the request is, raises exactly when the request is refused, and otherwise has the verdict the gaps call for |
| `Readiness.Conclude` | openai_project/aflow/src/aflow/analysis/decision_engine.py:129-151 | the decision is returned unless a printed finding id or rejected id is repeated or is no identifier; its invariant is broken by nothing else |
| `Readiness.AuthorityCheck` | openai_project/aflow/src/aflow/analysis/authority_checks.py:19-69 | reports exactly the targets not allowed, target-exclusion overlaps, action paths and outputs outside the targets or overlapping an exclusion, and unresolved risks, each once |
| `Readiness.AuthorityQuietMeansSound` | openai_project/aflow/src/aflow/analysis/authority_checks.py:38-62 | no finding means: every target allowed, every action and output path inside an allowed target, outputs inside their action, and none prefix-comparable with an exclusion |
| `Readiness.AuthoritySoundMeansQuiet` | openai_project/aflow/src/aflow/analysis/authority_checks.py:38-62 | and conversely |
| `Readiness.NotExcludedIsApart` | openai_project/aflow/src/aflow/analysis/authority_checks.py:9-11 | a path overlaps no exclusion exactly when neither is a component-wise prefix of the other |
| `Readiness.CoverageCheck` | openai_project/aflow/src/aflow/analysis/coverage_checks.py:8-66 | reports exactly the unknown references, uncovered blocking requirements and unproven validations, each once |
| `Readiness.CoverageExactly` | openai_project/aflow/src/aflow/analysis/coverage_checks.py:8-66 | no coverage finding exactly when every reference is known, every blocking requirement has a row, an action and a validation, and every validation has a proof that covers it and known actions |
| `Readiness.CoveredExactly` | openai_project/aflow/src/aflow/analysis/coverage_checks.py:42-55 | the four findings about a blocking requirement are absent exactly when it is covered |
| `Readiness.DependenciesExactly` | openai_project/aflow/src/aflow/analysis/dependency_checks.py:8-49 | no dependency finding exactly when all dependencies are known and resolved and the graph is acyclic |
| `Readiness.ActionProblems` | openai_project/aflow/src/aflow/analysis/activation_checks.py:14-55 | the problems are exactly the twelve conditions that fail, and there is none exactly when capability, owner, phase, prerequisites and activation of the action agree with the authority evidence |
| `Readiness.ActivationCheck` | openai_project/aflow/src/aflow/analysis/activation_checks.py:8-65 | reports exactly the actions that are not runnable, each once |
| `Readiness.ConcludedReady` | openai_project/aflow/src/aflow/analysis/decision_engine.py:129-151 | the conclusion is ready exactly without findings and repeated rejected ids, and its flags, verdict and findings agree |
| `Readiness.CollectRefs` | openai_project/aflow/src/aflow/analysis/coverage_checks.py:22-29 | every requirement reference of the plan, in the order it is collected |
| `Hashing.CanonKeepsMeaning` | openai_project/aflow/src/aflow/storage/hashing.py:12-34 | the canonical copy means the same at every depth |
| `Hashing.CanonUnique` | openai_project/aflow/src/aflow/storage/hashing.py:12-34 | values that mean the same have the same canonical copy, whatever the order of their keys |
| `Json.PrintInjective` | openai_project/aflow/src/aflow/storage/hashing.py:12-34 | the compact printed form determines the value |
| `Hashing.CanonicalTextBinds` | openai_project/aflow/src/aflow/storage/hashing.py:12-34 | two artifacts have the same canonical text exactly when they agree in everything but their own hash fields |
| `Hashing.CanonicalHashBinds` | openai_project/aflow/src/aflow/storage/hashing.py:36-38 | and so for their hashes, for an injective hash |
| `Hashing.SealVerifies` | openai_project/aflow/src/aflow/storage/hashing.py:40-48 | what was sealed verifies, and sealing changes nothing but the hash field |
| `Hashing.VerifiedHashBinds` | openai_project/aflow/src/aflow/storage/hashing.py:46-48 | two verified artifacts with the same stored hash agree in their own content |
| `Hashing.LockBindsArtifacts` | openai_project/aflow/src/aflow/lifecycle/locking.py:11-43 | a lock that evaluation accepts binds the very success definition, plan and baseline that lock_plan saw |
| `Hashing.LockIsSealed` | openai_project/aflow/src/aflow/lifecycle/locking.py:20-42 | a lock that was issued is sealed over its own body and refers to each artifact by id, schema, version and hash |
| `Hashing.LockedExactly` | openai_project/aflow/src/aflow/lifecycle/locking.py:14-42 | a plan that passed every other check is refused a lock exactly when its id and version have more than 122 characters together, the version carries build metadata, or the id ends in a newline |
| `Hashing.LockIssuedExactly` | openai_project/aflow/src/aflow/lifecycle/locking.py:11-43 | a lock is issued exactly for a confirmed success definition and a plan of the right shape, under a clean decision that refers to both field by field, when every artifact has its id and the lock id is an identifier |
| `Hashing.LockSays` | openai_project/aflow/src/aflow/lifecycle/locking.py:20-42 | the whole of an issued lock but its hash: the nine keys and what each holds |
| `Hashing.LockRefers` | openai_project/aflow/src/aflow/lifecycle/locking.py:20-42 | each of its five references holds the id, schema, version and bound hash of its artifact and nothing else |
| `Hashing.IssuedIsAccepted` | openai_project/aflow/src/aflow/evaluation/final_decision.py:34-57 | evaluation accepts an issued lock together with the artifacts it was issued for |
| `Hashing.AcceptsExactly` | openai_project/aflow/src/aflow/evaluation/final_decision.py:34-57 | the bindings evaluation accepts, field by field: each hash its own and no other present, and three references that match the artifacts handed in |
| `Hashing.BoundByExactly` | openai_project/aflow/src/aflow/storage/hashing.py:50-60 | an artifact is bound by its content hash, else its lock hash, else the hash of its content |
| `Hashing.FalsyExactly` | openai_project/aflow/src/aflow/storage/hashing.py:50-60 | which values the choice between them passes over |
| `Hashing.PlanBound` | openai_project/aflow/src/aflow/storage/hashing.py:50-60 | equal references mean equal plans up to hash fields |
| `Hashing.BaselineBound` | openai_project/aflow/src/aflow/storage/hashing.py:50-60 | equal references mean equal baselines up to hash fields |
| `Hashing.SuccessBound` | openai_project/aflow/src/aflow/evaluation/final_decision.py:34-57 | equal references to confirmed success definitions mean equal definitions up to hash fields |
| `TreeDiff.FrameTheorem` | openai_project/runtime/src/audisor/execution_launcher.py:198-246 | if no violation is reported, every path that differs lies in an allowed root, in no prohibited one, and under an action whose mutations name just what happened: created, deleted, modified, renamed, symlink or mode |
| `TreeDiff.ViolatesExactly` | openai_project/runtime/src/audisor/execution_launcher.py:198-246 | a path is a violation exactly when the kind of change its entries show, or a case-only rename, is authorized by no action covering it inside the allowed and outside the prohibited roots |
| `TreeDiff.ChangesListed` | openai_project/runtime/src/audisor/execution_launcher.py:198-228 | the mutations looked up for a path are exactly the one its entries show and, for an end of a case-only rename, a rename |
| `TreeDiff.ChangesExact` | openai_project/runtime/src/audisor/execution_launcher.py:198-228 | every path whose entry differs is covered by exactly one row, unchanged paths by none, every row tells the truth, rows are in listing order |
| `TreeDiff.RenamesMatch` | openai_project/runtime/src/audisor/execution_launcher.py:202-208 | the greedy renames are an injective matching of removed and created files with equal hashes |
| `TreeDiff.NoMissedRename` | openai_project/runtime/src/audisor/execution_launcher.py:202-208 | a removed and a created file both left unmatched have different hashes |
| `TreeDiff.CaseRowsExact` | openai_project/runtime/src/audisor/execution_launcher.py:224-227 | the rows after those are exactly the case-only renames |
| `TreeDiff.ComputeChanges` | openai_project/runtime/src/audisor/execution_launcher.py:198-228 | the rows are those of the definition |
| `TreeDiff.MatchRenames` | openai_project/runtime/src/audisor/execution_launcher.py:204-208 | the matching loop computes the greedy matching |
| `TreeDiff.ListDiffRows` | openai_project/runtime/src/audisor/execution_launcher.py:209-223 | the listing loop computes one row per changed path in order |
| `TreeDiff.PathViolates` | openai_project/runtime/src/audisor/execution_launcher.py:236-245 | a path violates exactly when its root is not allowed, is prohibited, or no matching action permits the mutation |
| `TreeDiff.CheckAuthority` | openai_project/runtime/src/audisor/execution_launcher.py:230-246 | the violations are exactly the paths with a row whose mutation no action permits, sorted, each once; which mutation that is ChangesListed says |
| `TreeDiff.Launch` | openai_project/runtime/src/audisor/execution_launcher.py:310 | the violations are exactly the paths whose change is not authorized, told by the entries before and after and the names of mutations |
| `Text.InsideIsContainment` | openai_project/runtime/src/audisor/execution_launcher.py:55-57 | the path test is component-wise containment |
| `Text.OverlapIsComparability` | openai_project/aflow/src/aflow/analysis/authority_checks.py:9-11 | two paths overlap exactly when one contains the other |
| `Evaluation.ProvenExactly` | openai_project/aflow/src/aflow/evaluation/final_decision.py:75-110 | the verdict is proven exactly when drift does not block, no prohibited outcome is present and every requirement, blocking or not, is proven |
| `Evaluation.VerdictExactly` | openai_project/aflow/src/aflow/evaluation/final_decision.py:75-129 | each of the five verdicts, and blocking, exactly from drift, present outcomes and which requirements are proven, contradicted or unproven |
| `Evaluation.NamedExactly` | openai_project/aflow/src/aflow/evaluation/final_decision.py:82-94 | the failures named are exactly those of the unproven blocking requirements and of blocking drift |
| `Evaluation.EntryStatusExactly` | openai_project/aflow/src/aflow/evaluation/requirement_trace.py:36-99 | the status of a trace entry exactly from its evidence, outputs, validations and dimensions |
| `Evaluation.DimensionStatusExactly` | openai_project/aflow/src/aflow/evaluation/requirement_trace.py:60-71 | the status of a dimension exactly from what trusted evidence claims and what the rest implies |
| `Evaluation.TraceExactly` | openai_project/aflow/src/aflow/evaluation/requirement_trace.py:10-107 | the trace that is returned: entry by entry those statuses, or all invalidated by drift |
| `Evaluation.ProvenEntryExactly` | openai_project/aflow/src/aflow/evaluation/requirement_trace.py:36-99 | a trace entry is proven exactly when the requirement has an output, passing validations, references that all resolve, the required evidence types, no contradiction, and every quality dimension implied or stated and never stated otherwise by trusted evidence |
| `Evaluation.SelfCheckExactly` | openai_project/aflow/src/aflow/evaluation/final_decision.py:110-129 | the evaluator rejects its own result exactly when drift blocks and an unproven blocking requirement is named relevant-drift, or the id of an unproven blocking requirement, of the build or of the current baseline is too long for the id derived from it |
| `Evaluation.RejectedExactly` | openai_project/aflow/src/aflow/evaluation/final_decision.py:23-57 | the inputs are rejected exactly when a list that must hold something is empty, an id of the result is no identifier, an id is given twice, or an output, result or check is about nothing asked for |
| `Evaluation.AbsenceExactly` | openai_project/aflow/src/aflow/evaluation/requirement_trace.py:27-34 | prohibited outcomes count as absent exactly when all of them and no others are checked, with nothing but evidence that counts |
| `Evaluation.PassExactly` | openai_project/aflow/src/aflow/evaluation/requirement_trace.py:40-48 | a requirement's validations pass exactly when there is one and each has a result that passed |
| `Evaluation.LongIdsRaise` | openai_project/aflow/src/aflow/evaluation/final_decision.py:75-129 | concrete inputs with one of everything the schemas demand: with everything proven and nothing drifted a build id of 118 characters, and a blocking requirement with an id of 121 characters that is not proven |
| `Evaluation.LongFailureExactly` | openai_project/aflow/src/aflow/evaluation/final_decision.py:82-94 | a failure has an inadmissible id exactly for an unproven blocking requirement whose id is too long |
| `Evaluation.ProvenIsClean` | openai_project/aflow/src/aflow/domain/models.py:74-87 | a proven evaluation that is returned does not block, has no failure, no prohibited outcome, a summary of passes and a fully proven trace |
| `Evaluation.TraceInvariantHolds` | openai_project/aflow/src/aflow/domain/models.py:114-119 | the trace, invalidated or not, passes its check exactly when the build id leaves room for the prefix of the trace id; it never repeats a requirement or a dimension |
| `Evaluation.Settle` | openai_project/aflow/src/aflow/evaluation/final_decision.py:75-108 | the verdict and the failures of the if-chain; the last-resort failure is never added |
| `Evaluation.EvaluateResult` | openai_project/aflow/src/aflow/evaluation/final_decision.py:23-129 | admission, drift, trace, invalidation in place, verdict and self-check together, including the checks on derived ids |
| `Evaluation.BuildTrace` | openai_project/aflow/src/aflow/evaluation/requirement_trace.py:10-107 | one entry per requirement, in order |
| `Evaluation.DimensionStatus` | openai_project/aflow/src/aflow/evaluation/requirement_trace.py:60-71 | the status of one dimension: the branches over explicit statements, prohibited outcomes and derived defaults |
| `Evaluation.ExplicitQuality` | openai_project/aflow/src/aflow/evaluation/quality.py:14-22 | the worst claim made about a dimension |
| `Evaluation.WorstIsWorst` | openai_project/aflow/src/aflow/evaluation/quality.py:14-22 | that claim was made, none is worse, and there is one exactly when any was made |
| `Evaluation.AggregateQuality` | openai_project/aflow/src/aflow/evaluation/quality.py:33-44 | per dimension the worst applicable status over all entries |
| `Evaluation.WorstOfIsWorst` | openai_project/aflow/src/aflow/evaluation/quality.py:33-44 | that status was recorded and none recorded is worse |
| `Evaluation.FailuresDistinct` | openai_project/aflow/src/aflow/domain/models.py:35-39 | failures of distinct requirements have distinct ids |
| `Drift.NoChangeExactly` | openai_project/aflow/src/aflow/drift/compare.py:28-80 | no change is reported exactly when root, scope, path to (hash, class) and authority to hash agree |
| `Drift.ChangesPatchExactly` | openai_project/aflow/src/aflow/drift/compare.py:46-63 | applying the added, deleted and modified rows to the locked hashes gives the current ones |
| `Drift.PathRowsAre` | openai_project/aflow/src/aflow/drift/compare.py:46-63 | the path rows are exactly the rows of changed paths, one per path |
| `Drift.ChangesExactly` | openai_project/aflow/src/aflow/drift/compare.py:28-80 | a change is reported exactly for a path that is new, gone, of another content or of another class, for an authority that differs, and for another root or scope, with the kind, class and hashes that say so |
| `Drift.VerdictExactly` | openai_project/aflow/src/aflow/drift/classification.py:8-30 | each verdict exactly from the classes and kinds among the changes: the gravest decides |
| `Drift.NonblockingExactly` | openai_project/aflow/src/aflow/drift/classification.py:8-30 | drift does not block exactly when root, scope and authorities agree and every path agrees or changed in content while unrelated on each side where it exists |
| `Drift.ClassifyExactly` | openai_project/aflow/src/aflow/drift/classification.py:8-24 | classification does not block exactly when every row is unrelated and verifiable |
| `Drift.CompareBaselines` | openai_project/aflow/src/aflow/drift/compare.py:28-80 | the rows of the definition, or a refusal if a baseline repeats a path or an authority |
| `Drift.ComparePaths` | openai_project/aflow/src/aflow/drift/compare.py:46-63 | the loop over paths computes the path rows |
| `Drift.CompareAuthorities` | openai_project/aflow/src/aflow/drift/compare.py:64-72 | the loop over authorities computes the authority rows |
| `Closure.AllOrNone` | openai_project/aflow/src/aflow/lifecycle/closure.py:95-141 | a closure result that is returned closes every original finding if the new analysis is clean and none otherwise |
| `Closure.RefusedExactly` | openai_project/aflow/src/aflow/domain/models.py:120-126 | the result is refused exactly when the prior decision had no findings or repeats one, or when the new analysis is clean although some original finding does not pass what its closure code asks |
| `Closure.CleanDecisionRefused` | openai_project/aflow/schemas/v1/closure-result.schema.json:28-30 | a clean prior decision cannot be closed, whatever the revision |
| `Closure.ClosedExactly` | openai_project/aflow/src/aflow/lifecycle/closure.py:96-131 | a finding is closed exactly when the new analysis is clean and it passes what its closure code asks (a replayed review, an exercised environment, a change or added evidence), and open exactly when its gap is left over or it does not pass |
| `Closure.PythonEqualExactly` | openai_project/aflow/src/aflow/lifecycle/closure.py:97-102 | when two values count as unchanged: numbers and booleans by value, dictionaries in any order |
| `Closure.CloseFindings` | openai_project/aflow/src/aflow/lifecycle/closure.py:95-141 | one result per original finding, in order, or a refusal, also for want of any finding |
| `Closure.FindingChanged` | openai_project/aflow/src/aflow/lifecycle/closure.py:97-102 | whether any location of a finding changed or cannot be looked up |
| `JsonPointer.UnescapeEscape` | openai_project/aflow/src/aflow/analysis/substantiation.py:28 | unescaping undoes escaping for every token |
| `JsonPointer.PrinterFaithful` | openai_project/aflow/src/aflow/schemas/validator.py:12-14 | read as section 4 of RFC 6901 prescribes, a printed pointer gives back any path |
| `JsonPointer.RoundTripExactly` | openai_project/aflow/src/aflow/analysis/substantiation.py:22-32 | the resolver gives back a path exactly when it is empty, starts with a non-empty token, or is the single empty token |
| `JsonPointer.PlanRoundTripExactly` | openai_project/aflow/src/aflow/lifecycle/closure.py:12-20 | the closure check gives back a path exactly when the resolver does and its first token does not start with plan |
| `JsonPointer.DecodersAgreeExactly` | openai_project/aflow/src/aflow/lifecycle/closure.py:12-20 | applied to the same pointer, the two decoders succeed on the same documents exactly when the pointer does not start with /plan |
| `JsonPointer.PlanIdGoesAstray` | openai_project/aflow/src/aflow/lifecycle/closure.py:12-20 | concrete input: the pointer printed for plan_id, which every plan has, resolves, but the closure check fails on it |
| `JsonPointer.LocationResolves` | openai_project/aflow/src/aflow/analysis/substantiation.py:54-57 | the caller of the resolver cuts the plan prefix off first, so a candidate's location is accepted exactly when the closure check can look it up |
| `JsonPointer.PrintedPointerResolves` | openai_project/aflow/src/aflow/lifecycle/closure.py:12-20 | for those paths the pointer resolves to the value at the path; for the closure check with the plan prefix in front, and without it unless the path starts with a key that starts with plan |
| `JsonPointer.EmptyFirstKeyGoesAstray` | openai_project/aflow/src/aflow/analysis/substantiation.py:22-32 | concrete inputs outside them: an empty key followed by another resolves to what is under the other key alone |
| `JsonPointer.ResolvePointer` | openai_project/aflow/src/aflow/analysis/substantiation.py:22-32 | succeeds exactly when the walk over the decoded tokens succeeds |
| `JsonPointer.PointerValue` | openai_project/aflow/src/aflow/lifecycle/closure.py:12-20 | yields exactly the value of the walk over the tokens left once the plan prefix is cut off, or fails with it |
| `Splice.ApplyMatches` | openai_project/assistant_backend/src/audisor_assistant/application/fix_engines.py:199-233 | one change per match in (offset, length) order, with the text assembled from the applied ones |
| `Splice.OrderedIsSorted` | openai_project/assistant_backend/src/audisor_assistant/application/fix_engines.py:209 | the ordered matches are the given ones, each as often, in position order |
| `Splice.OrderedStable` | openai_project/assistant_backend/src/audisor_assistant/application/fix_engines.py:209 | matches at the same position keep their order |
| `Splice.GreedyExactly` | openai_project/assistant_backend/src/audisor_assistant/application/fix_engines.py:213-221 | a match is applied exactly when it has a replacement and starts at or after the end of every match applied before it |
| `Splice.CorrectedIsSplice` | openai_project/assistant_backend/src/audisor_assistant/application/fix_engines.py:211-233 | for matches within the text the corrected text is the splice of the applied ones, which are in order and disjoint |
| `Splice.SpliceLength` | openai_project/assistant_backend/src/audisor_assistant/application/fix_engines.py:211-233 | the result is as long as the text plus the sum of replacement minus span lengths |
| `Splice.KeptOutside` | openai_project/assistant_backend/src/audisor_assistant/application/fix_engines.py:217-232 | every character outside the edited spans is kept, moved by what the edits before it add |
| `Splice.UndoRestores` | openai_project/assistant_backend/src/audisor_assistant/application/fix_engines.py:211-233 | undoing the edits in the result restores the text |
| `Splice.UndoPosition` | openai_project/assistant_backend/src/audisor_assistant/application/fix_engines.py:211-233 | the undoing edit of each change sits where the change was, moved by what earlier ones add |
| `Splice.CorrectionUndone` | openai_project/assistant_backend/src/audisor_assistant/application/fix_engines.py:199-233 | the three together for any matches within the text |
| `EventStore.AlwaysAscending` | openai_project/operation_controller/src/operation_controller/event_store.py:58-149 | after any mix of appends, cut-off writes and restarts, as long as the file can be read, the readable sequence numbers are strictly increasing in file order and the next number is beyond them |
| `EventStore.ExactlyOnce` | openai_project/assistant_backend/src/audisor_assistant/api/operations_routes.py:172-195 | at every point of a session the file can be read and the polling client has received exactly the readable events up to its cursor, once each and in order, if and only if no write is cut off inside a character or destroys an event that lost only its newline after it was received |
| `EventStore.UnreadableForGood` | openai_project/operation_controller/src/operation_controller/event_store.py:58-149 | after a write cut off inside a character the client receives nothing more, whatever happens, and after a restart nothing more is written |
| `EventStore.AppendGrowsExactly` | openai_project/operation_controller/src/operation_controller/event_store.py:73-100 | an append keeps every readable event readable exactly when it is not cut off inside a character and does not write behind an event that lost its newline |
| `EventStore.ReadsExactly` | openai_project/operation_controller/src/operation_controller/event_store.py:73-149 | after any steps reading yields exactly the events appended completely, in one line, at the start of a line, and at the end one that only lacks its newline; it raises exactly after a cut inside a character |
| `EventStore.NumbersConsecutive` | openai_project/operation_controller/src/operation_controller/event_store.py:58-71 | the numbers of one lifetime of the writer are consecutive whatever becomes of the events; after a restart they follow the last readable event |
| `EventStore.PollAdvances` | openai_project/assistant_backend/src/audisor_assistant/api/operations_routes.py:184-185 | a poll hands over the next events, as many as the limit allows, none twice |
| `EventStore.PollingDrains` | openai_project/assistant_backend/src/audisor_assistant/api/operations_routes.py:184-185 | with any positive limit polling reaches the end |
| `EventStore.ReusedNumberIsNeverSeen` | openai_project/operation_controller/src/operation_controller/event_store.py:58-71 | concrete run without the condition: a number is given out twice and the second event is never seen |
| `EventStore.Store.constructor` | openai_project/operation_controller/src/operation_controller/event_store.py:40-47 | an empty log with no counter |
| `EventStore.Store.NextSequence` | openai_project/operation_controller/src/operation_controller/event_store.py:58-71 | the next number continues the counter, or follows the last readable event on first use; it raises where that reading does |
| `EventStore.Store.Append` | openai_project/operation_controller/src/operation_controller/event_store.py:73-100 | the new log for every way the write may be cut off, inside a character too, and none where no number can be determined |
| `EventStore.Store.ReadAll` | openai_project/operation_controller/src/operation_controller/event_store.py:129-149 | all readable events in file order, or failure on a file that cannot be decoded |
| `EventStore.Store.ReadAfter` | openai_project/operation_controller/src/operation_controller/event_store.py:102-116 | the first events beyond the cursor, up to the limit, or that failure |
| `EventStore.Store.Poll` | openai_project/assistant_backend/src/audisor_assistant/api/operations_routes.py:184-185 | those events, and the cursor to poll with next |
| `ManagedBlock.RemoveUndoesInsert` | openai_project/runtime/src/audisor/integrate.py:322-347 | for a text as reading yields it, without markers, remove after apply leaves the text with exactly one final newline |
| `ManagedBlock.SecondApplyChangesNothing` | openai_project/runtime/src/audisor/integrate.py:204-260 | for such a text a second apply after an insertion reports no change |
| `ManagedBlock.ApplyAfterRepair` | openai_project/runtime/src/audisor/integrate.py:204-260 | a second apply after a repair reports no change |
| `ManagedBlock.InsertedInPlace` | openai_project/runtime/src/audisor/integrate.py:79-95 | the block found after an insertion is exactly the inserted span, at the end |
| `ManagedBlock.RepairKeepsTheRest` | openai_project/runtime/src/audisor/integrate.py:236-252 | repairing a drifted block replaces exactly its lines and leaves every other line as it was |
| `ManagedBlock.FoundExactly` | openai_project/runtime/src/audisor/integrate.py:79-95 | a block is found exactly when each marker is on one line only, in order; none exactly when no line is a marker |
| `ManagedBlock.InstalledSiteProper` | openai_project/runtime/src/audisor/integrate.py:125-147 | the generated block, for paths that are single lines, is one the finder recognizes and nothing else |
| `ManagedBlock.LinesAppend` | openai_project/runtime/src/audisor/integrate.py:84 | splitting into lines distributes over texts that end a line |
| `ManagedBlock.LinesConcat` | openai_project/runtime/src/audisor/integrate.py:84 | joining the lines of a text gives the text |
| `ManagedBlock.FindManagedBlock` | openai_project/runtime/src/audisor/integrate.py:79-95 | the search loop and its error cases |
| `ManagedBlock.LeftAlone` | openai_project/runtime/src/audisor/integrate.py:204-347 | a missing or unreadable file, and markers that are neither absent nor one block, fail both operations without a change |
| `ManagedBlock.ApplyToBare` | openai_project/runtime/src/audisor/integrate.py:204-260 | applying to a text without markers, outcome by outcome |
| `ManagedBlock.ApplyToBlock` | openai_project/runtime/src/audisor/integrate.py:204-260 | applying to a text with one block, outcome by outcome |
| `ManagedBlock.RemovesExactly` | openai_project/runtime/src/audisor/integrate.py:322-352 | removing, outcome by outcome |
| `ManagedBlock.InvalidExactly` | openai_project/runtime/src/audisor/integrate.py:79-95 | which markers are invalid, and why |
| `ManagedBlock.TableReadsBack` | openai_project/runtime/src/audisor/integrate.py:125-147 | the generated lines, read as TOML strings, give back the arguments, the working directory and the state root, for paths without a quote |
| `ManagedBlock.Installer.Apply` | openai_project/runtime/src/audisor/integrate.py:204-260 | the outcome and the file are those of the definition, and the file changes only if the outcome is applied |
| `ManagedBlock.Installer.Remove` | openai_project/runtime/src/audisor/integrate.py:322-352 | the outcome and the file are those of the definition, and the file changes only if the outcome is removed |
| `ManagedBlock.Installer.CheckUnmanaged` | openai_project/runtime/src/audisor/integrate.py:98-117 | the failure of the check for a server defined outside the block |
| `ManagedBlock.Installer.Write` | openai_project/runtime/src/audisor/integrate.py:234-252 | the new text is parsed before it is written; if it does not parse the snapshot stays and the outcome says so |
| `FixDispatch.IgnitedAtMostOnce` | audisor_backend/controllers/fix_host.py:82-92 | under any interleaving of dispatches, uncaught exceptions included, the ignitions of an operation are at most one that is in hand or stored, plus one for every dispatch cut short between its ignition and its stored artifact |
| `FixDispatch.IgnitedAnyNumberOfTimes` | audisor_backend/controllers/fix_host.py:464-515 | the exception is real: for every number there is a run in which dispatches that die after ignition make the igniter run that often |
| `FixDispatch.CallbacksAfterStore` | audisor_backend/controllers/fix_host.py:299-515 | every callback or routing result follows the storing of its artifact, is about that artifact and is the only one of its operation; the implementation is continued exactly if manifest and plan are valid and the policy is disabled, or packaging and authority are in order and the ignition is complete and eligible; otherwise it is finalized, or in routing mode handed the route its case calls for |
| `FixDispatch.StoredIsDeserved` | audisor_backend/controllers/fix_host.py:329-515 | what is stored for an operation under any interleaving is the status its author's world calls for: accepted exactly when everything passed and the ignition is complete and eligible |
| `FixDispatch.DispatchSettles` | audisor_backend/controllers/fix_host.py:329-515 | an uninterrupted dispatch: status, ignition, callback and route for every condition, or the stored artifact and no change |
| `FixDispatch.DeservesOne` | audisor_backend/controllers/fix_host.py:329-515 | the conditions of the eight statuses are exhaustive and exclude each other |
| `FixDispatch.StoredForever` | audisor_backend/controllers/fix_host.py:102-115 | a stored artifact is never replaced |
| `FixDispatch.FinishedReturnsStored` | audisor_backend/controllers/fix_host.py:329-332 | every dispatch that finishes returns the stored artifact of its operation |
| `FixDispatch.MutualExclusion` | audisor_backend/controllers/fix_host.py:82-92 | no two threads are in the critical section of one operation |
| `FixDispatch.ActKeeps` | audisor_backend/controllers/fix_host.py:322-515 | every step of every thread, and every uncaught exception, keeps the invariant of locks, store, callbacks and ignitions |
| `FixDispatch.StepsDispatch` | audisor_backend/controllers/fix_host.py:329-515 | a thread that holds the lock and is not cut short does step by step exactly what the dispatch code does |
| `FixDispatch.Dispatcher.DispatchUnlocked` | audisor_backend/controllers/fix_host.py:329-515 | one dispatch stores, ignites and calls back exactly as its conditions call for, or returns what is stored |
| `FixDispatch.Dispatcher.PersistAndCall` | audisor_backend/controllers/fix_host.py:345-346 | the artifact is stored before the callback is made |
| `FixDispatch.Dispatcher.Ignite` | audisor_backend/controllers/fix_host.py:464-515 | what an ignition that raises, is incomplete, ineligible or accepted leads to |

## Left out

- IgnitedAtMostOnce: counts the ignitions lost to uncaught exceptions instead of excluding them, because the code lets a later dispatch ignite again.
- ExecuteReceivesReviewedPlan: leaves out the start of a fix and operations that went through fulfilment, where the code executes another plan; CleanReviewExecutesExactly says which.
- EveryTurnWithinBudget: assumes that generated turn ids are fresh.
- SecondApplyChangesNothing: assumes that parsing ignores newlines at the end of a text without carriage returns, as does RemoveUndoesInsert.
- PrintedPointerResolves: assumes an integer parser that reads back decimal digits; other spellings Python accepts are the parser's business.
- Routes, servers, subprocesses, git, the file system, HTTP, prompts and all user interfaces: not modelled; files are texts or maps, adapters are arbitrary answers.
- JSON Schema validation of inputs: a given number of schema errors and whether the refused artifacts can be quoted; later stages see typed values that passed it. What is validated again on the way out is modelled where ids are derived.
- Timestamps, durations, uuids and free-text reasons: dropped; ids generated at random are parameters assumed fresh where a theorem says so.
- UTF-8: texts are character sequences, all of them encodable; a write cut off inside a character is one of the outcomes of an append.
- Floats: a JSON number is its printed token; comparing plan values goes by an arbitrary choice of representatives, so that NaN equals itself there.
- SHA-256: any injective function on texts.
- Controller events: they carry the operation's state and history and the ids, calls and decisions in hand; the rest of their payloads is dropped, and appending them never fails. The event log is modelled on its own.
- Adapters: they do not change the record they are given; an adapter that raises is an exhausted script.
- Controller concurrency: claims are atomic only if public calls are serialised, which is assumed.
- Re-registering an operation id replaces its record; theorems over runs exclude that id or say so.
- Tool definitions and argument schemas of the loops: a call is its id, name and argument text; the per-tool output limit of the tool loop is modelled, the truncation of trace previews and the chat orchestrator's truncation of outputs and errors are not.
- The aggregate output budget of the tool loop: the code never enforces it.
- A backend tool of the tool loop that raises: an executor always returns a result or an error.
- The provider message conversion of the chat orchestrator: providers see the transcript.
- Parked chat turns are stored as values: after a turn is taken out of the table no other reference to it is used, so sharing is not modelled.
- External candidates: which of the textual tests of substantiation they pass (claim, locations, support) is given with them; the local rules are modelled in full.
- Hash verification of the artifacts supplied for analysis: a given outcome there; `Hashing` models it.
- The bindings evaluation checks before anything else are proved in `Hashing`; `Evaluation` starts from inputs that passed them.
- The regular expression for quality claims: each evidence item comes with the claims its text makes.
- The bindings a closure request is checked for: `Closure` starts from a request that passed them.
- Dependency resolution before a fix dispatch and the contents of stored artifacts and handoffs: a dispatch sees only whether each stage passes.
- Failing writes of the configuration file and translation of line ends on reading it: a text is what reading yields, so it holds no carriage return.
- Several processes appending to one event log: excluded by the store's own documentation.
- `dry_run` and `status` of the installer, `list_suspended` and `status` of the controller: they only report.
- The recursion limit of Python: the cycle search and the chat loop recurse as deep as they need.
