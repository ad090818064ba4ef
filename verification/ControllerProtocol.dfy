/**
  What one public call of the operation controller does to the persisted
  records, as functions of the stored record, the caller's input and the
  answers its adapters give.

  Adapters are arbitrary: the answers of one call are a finite script, read
  from the front, and an exhausted script is an adapter that raised.
*/
module ControllerProtocol {
  import opened OperationStates
  import opened Json
  import opened Text

  // ----- Adapters -----

  datatype Decision = NoMaterialGap | MaterialGapFound | ProviderError | OtherDecision(text: string)

  datatype ReviewAnswer = ReviewAnswer(decision: Decision, improvedPlan: Option<Plan>,
                                       reviewId: Option<string>, issueId: Option<string>)

  datatype FulfilAnswer = FulfilAnswer(allResolved: bool, revisedPlan: Option<Plan>, needsDecision: seq<bool>)

  datatype Suspension = ForApproval | ForToolResult | OtherSuspension

  datatype Status = DoneStatus | FailedStatus | SuspendedStatus(suspension: Suspension) | UnknownStatus

  datatype AdapterResult = AdapterResult(
    status: Status,
    plan: Plan,
    suspensionId: Option<string>,
    toolCall: ToolCall,
    pendingCalls: Option<seq<ToolCall>>,
    continuation: Option<Continuation>,
    reason: Option<string>)

  // One answer serves whichever adapter is asked next.
  datatype Answer = Answer(adapter: AdapterResult, review: ReviewAnswer, fulfil: FulfilAnswer)

  type Script = seq<Answer>

  // Which adapters are configured, and the foreign functions the controller
  // relies on: JSON parsing and the argument digest.
  datatype Config = Config(
    planning: bool, review: bool, fulfilment: bool, execution: bool, chat: bool,
    parse: string -> Option<Json>,
    digest: (string, string, Json) -> string)

  // Every adapter call made, with the record's history at that moment.
  datatype AdapterCall =
    | CreatePlanCall(id: string, history: seq<Step>)
    | ResumePlanCall(id: string, history: seq<Step>)
    | ReviewCall(id: string, history: seq<Step>, plan: Plan, provider: Option<string>, answer: Option<ReviewAnswer>)
    | FulfilCall(id: string, history: seq<Step>)
    | ExecuteCall(id: string, history: seq<Step>, plan: Plan)
    | ResumeExecutionCall(id: string, history: seq<Step>)

  // ----- Events -----

  datatype Announcement =
    | OperationCreated
    | StateTransition
    | ReviewCompleted(runId: Option<string>)
    | IssueCreated(issueId: Option<string>)
    | ApprovalRequested(suspensionId: string, digest: string)
    | ApprovalDenied(callId: string)
    | ApprovalResolved(callId: string)
    | ExecutionRequested(suspensionId: string, pending: seq<ToolCall>)
    | ExecutionClaimed(claim: Claim)
    | OperationCompleted
    | OperationFailed

  // An event handed to the event store: the state it reports, with the
  // record's history at that moment.
  datatype Event = Event(id: string, state: State, about: Announcement, history: seq<Step>)

  // Every event but a plain report of the state is followed by one.
  function Emit(r: OperationRecord, about: Announcement): seq<Event> {
    var event := Event(r.operationId, r.state, about, r.history);
    if about.StateTransition? then [event] else [event, event.(about := StateTransition)]
  }

  // ----- Replies -----

  datatype Detail =
    | Error(code: string)
    | Claimed(claimantId: string, callId: string, idempotent: bool, toolCall: ToolCall, argumentDigest: string)
    | Decided(approved: bool, idempotent: bool)
    | ResultsAccepted(idempotent: bool)
    | Replayed(note: RetryNote)
    | Other

  datatype Reply = Reply(state: State, detail: Detail) | Raised

  // The outcome of a phase handler: the record as last saved, the adapter
  // calls made, the reply, and the events emitted.
  datatype Outcome = Outcome(record: OperationRecord, calls: seq<AdapterCall>, reply: Reply, events: seq<Event>)
  {
    function Telling(earlier: seq<Event>): Outcome {
      this.(events := earlier + events)
    }

    function After(call: AdapterCall): Outcome {
      this.(calls := [call] + calls)
    }
  }

  function Ok(record: OperationRecord, calls: seq<AdapterCall>): Outcome {
    Outcome(record, calls, Reply(record.state, Other), [])
  }

  function Refuse(record: OperationRecord, code: string): Outcome {
    Outcome(record, [], Reply(record.state, Error(code)), [])
  }

  function GetOr<T>(o: Option<T>, d: T): T {
    if o.Some? then o.value else d
  }

  // ----- Adapter results -----

  function ArgumentValue(cfg: Config, arguments: Option<Arguments>): Json {
    match arguments
    case None => Obj(NoField)
    case Some(Parsed(v)) => v
    case Some(Raw(text)) => GetOr(cfg.parse(text), Obj(NoField))
  }

  function CallDigest(cfg: Config, call: ToolCall, defaultId: string): string {
    cfg.digest(GetOr(call.callId, defaultId), GetOr(call.toolName, ""), ArgumentValue(cfg, call.arguments))
  }

  function KeepContinuation(artifacts: Artifacts, result: AdapterResult): Artifacts {
    if result.continuation.Some? then artifacts.(continuation := result.continuation) else artifacts
  }

  function SuspendForApproval(cfg: Config, r: OperationRecord, result: AdapterResult, phase: Phase): OperationRecord
    requires r.state == Planning || r.state == SandboxRunning
  {
    var stored := r.(
      slices := r.slices.(suspensionId := Some(GetOr(result.suspensionId, "")),
                          argumentDigest := Some(CallDigest(cfg, result.toolCall, "")),
                          approvalToolCall := Some(result.toolCall),
                          resumePhase := Some(phase)),
      artifacts := KeepContinuation(r.artifacts, result));
    stored.Advance(SuspendedForApproval, "approval_required")
      .(suspendReason := Some(GetOr(result.reason, "approval_required")))
  }

  function SuspendForToolResult(r: OperationRecord, result: AdapterResult, phase: Phase): OperationRecord
    requires r.state == Planning || r.state == SandboxRunning
  {
    var stored := r.(
      slices := r.slices.(suspensionId := Some(GetOr(result.suspensionId, "")),
                          pendingCalls := GetOr(result.pendingCalls, []),
                          resumePhase := Some(phase)),
      artifacts := KeepContinuation(r.artifacts, result));
    stored.Advance(SuspendedForToolResult, "frontend_tool_execution")
      .(suspendReason := Some("frontend_tool_execution"))
  }

  function NoteSuspension(r: OperationRecord, result: AdapterResult, phase: Phase): OperationRecord {
    r.(suspendReason := Some(GetOr(result.reason, if phase == PlanningPhase then "planning" else "execution")),
       artifacts := KeepContinuation(r.artifacts, result),
       slices := r.slices.(
         suspensionId := if result.suspensionId.Some? then result.suspensionId else r.slices.suspensionId,
         pendingCalls := GetOr(result.pendingCalls, r.slices.pendingCalls),
         resumePhase := Some(phase)))
  }

  // The handler is reached from execution with any status, and from planning
  // only with a suspension.
  predicate Handles(r: OperationRecord, result: AdapterResult, phase: Phase) {
    (phase == ExecutionPhase && r.state == SandboxRunning)
    || (phase == PlanningPhase && r.state == Planning && result.status.SuspendedStatus?)
  }

  // What a record suspended for approval, or for tool results, asks for.
  function Requested(r: OperationRecord): Announcement {
    ApprovalRequested(GetOr(r.slices.suspensionId, ""), GetOr(r.slices.argumentDigest, ""))
  }

  function Demanded(r: OperationRecord): Announcement {
    ExecutionRequested(GetOr(r.slices.suspensionId, ""), r.slices.pendingCalls)
  }

  function HandleAdapterResult(cfg: Config, r: OperationRecord, result: AdapterResult, phase: Phase): (out: Outcome)
    requires Handles(r, result, phase)
    ensures out.record.operationId == r.operationId
  {
    match result.status
    case DoneStatus =>
      var done := r.Advance(Completed, "adapter_completed");
      Outcome(done, [], Reply(Completed, Other), Emit(done, OperationCompleted))
    case FailedStatus =>
      var failed := r.Advance(CancelledByUser, "adapter_failed");
      Outcome(failed, [], Reply(CancelledByUser, Error("adapter_failed")), Emit(failed, OperationFailed))
    case SuspendedStatus(ForApproval) =>
      var waiting := SuspendForApproval(cfg, r, result, phase);
      Outcome(waiting, [], Reply(SuspendedForApproval, Other), Emit(waiting, Requested(waiting)))
    case SuspendedStatus(ForToolResult) =>
      var waiting := SuspendForToolResult(r, result, phase);
      Outcome(waiting, [], Reply(SuspendedForToolResult, Other), Emit(waiting, Demanded(waiting)))
    case SuspendedStatus(OtherSuspension) => Ok(NoteSuspension(r, result, phase), [])
    case UnknownStatus => Refuse(r, "unknown adapter status")
  }

  // ----- Review, execution, fulfilment -----

  function StoreImprovedPlan(r: OperationRecord, answer: ReviewAnswer): OperationRecord {
    if answer.improvedPlan.None? then r
    else r.(artifacts := r.artifacts.(candidatePlan := answer.improvedPlan,
                                      lifecycleRunId := Some(GetOr(answer.reviewId, ""))))
  }

  function DoExecution(cfg: Config, r: OperationRecord, script: Script): (out: Outcome)
    requires r.state == SandboxReady
    ensures out.record.operationId == r.operationId
  {
    if !cfg.execution then Ok(r, [])
    else
      var plan := GetOr(r.artifacts.candidatePlan, NoField);
      var running := r.Advance(SandboxRunning, "execution_started");
      var call := ExecuteCall(r.operationId, running.history, plan);
      if script == [] then Outcome(running, [call], Raised, [])
      else HandleAdapterResult(cfg, running, script[0].adapter, ExecutionPhase).After(call)
  }

  function DoReview(cfg: Config, r: OperationRecord, plan: Plan, provider: Option<string>, script: Script): (out: Outcome)
    requires r.state == Reviewing
    ensures out.record.operationId == r.operationId
    decreases |script|, 1
  {
    if !cfg.review then Ok(r, [])
    else if script == [] then
      Outcome(r, [ReviewCall(r.operationId, r.history, plan, provider, None)], Raised, [])
    else
      var answer := script[0].review;
      var call := ReviewCall(r.operationId, r.history, plan, provider, Some(answer));
      match answer.decision
      case NoMaterialGap =>
        var ready := StoreImprovedPlan(r, answer).Advance(SandboxReady, "review_clean");
        DoExecution(cfg, ready, script[1..]).Telling(Emit(ready, ReviewCompleted(answer.reviewId))).After(call)
      case MaterialGapFound =>
        DoFulfilment(cfg, r.Advance(Fulfilling, "material_gap_found"), plan, script[1..]).After(call)
      case ProviderError =>
        var waiting := r.Advance(SuspendedProviderRecovery, "aflow_provider_error");
        Outcome(waiting.(suspendReason := Some("aflow_provider_error"),
                         artifacts := if answer.issueId.Some? && answer.issueId.value != ""
                                      then r.artifacts.(issueId := answer.issueId) else r.artifacts),
                [call], Reply(SuspendedProviderRecovery, Other), Emit(waiting, IssueCreated(answer.issueId)))
      case OtherDecision(text) =>
        Ok(r.Advance(SuspendedEvidence, "review_decision=" + text).(suspendReason := Some(text)), [call])
  }

  function DoFulfilment(cfg: Config, r: OperationRecord, plan: Plan, script: Script): (out: Outcome)
    requires r.state == Fulfilling
    ensures out.record.operationId == r.operationId
    decreases |script|, 2
  {
    if !cfg.fulfilment then Ok(r, [])
    else
      var call := FulfilCall(r.operationId, r.history);
      if script == [] then Outcome(r, [call], Raised, [])
      else
        var answer := script[0].fulfil;
        if answer.allResolved then
          var revised := GetOr(answer.revisedPlan, plan);
          DoReview(cfg, r.Advance(Reviewing, "fulfilment_complete"), revised, None, script[1..]).After(call)
        else if true in answer.needsDecision then
          Ok(r.Advance(AwaitingDecision, "decision_required"), [call])
        else
          Ok(r.Advance(CollectingEvidence, "evidence_required"), [call])
  }

  // ----- Planning -----

  // A finished plan: store it and pass it on to review.
  function PlanToReview(r: OperationRecord, plan: Plan, reason: string): OperationRecord
    requires r.state == Planning
  {
    var ready := r.Advance(PlanReady, reason);
    ready.(artifacts := ready.artifacts.(candidatePlan := Some(plan))).Advance(Reviewing, "auto_review")
  }

  function DoPlanning(cfg: Config, r: OperationRecord, script: Script): (out: Outcome)
    requires r.state == Planning
    ensures out.record.operationId == r.operationId
  {
    if !cfg.planning then Ok(r, [])
    else
      var call := CreatePlanCall(r.operationId, r.history);
      if script == [] then Outcome(r, [call], Raised, [])
      else
        var result := script[0].adapter;
        if result.status.SuspendedStatus? then
          HandleAdapterResult(cfg, r, result, PlanningPhase).After(call)
        else
          DoReview(cfg, PlanToReview(r, result.plan, "plan_created"), result.plan, None, script[1..]).After(call)
  }

  // Hands the record back to the adapter of the phase it resumes in. After a
  // resume without tool results a finished plan is saved for review, but the
  // review itself is never reached: the call raises on an undefined name.
  function Continue(cfg: Config, r: OperationRecord, withResults: bool, script: Script): (out: Outcome)
    ensures out.record.operationId == r.operationId
  {
    if r.state == Planning && cfg.planning then
      var call := ResumePlanCall(r.operationId, r.history);
      if script == [] then Outcome(r, [call], Raised, [])
      else
        var result := script[0].adapter;
        if result.status.SuspendedStatus? then
          HandleAdapterResult(cfg, r, result, PlanningPhase).After(call)
        else
          var reviewing := PlanToReview(r, result.plan, "plan_resumed");
          if withResults then DoReview(cfg, reviewing, result.plan, None, script[1..]).After(call)
          else Outcome(reviewing, [call], Raised, [])
    else if r.state == SandboxRunning && cfg.execution then
      var call := ResumeExecutionCall(r.operationId, r.history);
      if script == [] then Outcome(r, [call], Raised, [])
      else HandleAdapterResult(cfg, r, script[0].adapter, ExecutionPhase).After(call)
    else Ok(r, [])
  }

  // ----- Public calls -----

  datatype ResumeInput =
    | ApprovalDecision(approved: bool, suspensionId: string, callId: string)
    | ToolResults(results: seq<ToolResult>)
    | OtherResume

  function Start(cfg: Config, r: OperationRecord, plan: Option<Plan>, script: Script): (out: Outcome)
    ensures out.record.operationId == r.operationId
  {
    if r.state != Received then Refuse(r, "operation already started")
    else if r.sourceKind == PreparedPlan && plan.Some? then
      var moved := r.Advance(Reviewing, "prepared_plan_submitted");
      DoReview(cfg, moved.(artifacts := moved.artifacts.(candidatePlan := plan)), plan.value, None, script)
    else if r.sourceKind == Task then
      var moved := r.Advance(Planning, "task_accepted");
      DoPlanning(cfg, moved, script).Telling(Emit(moved, StateTransition))
    else if r.sourceKind == Fix then
      var moved := r.Advance(Reviewing, "fix_accepted");
      if plan.Some? && plan.value.Field? then DoReview(cfg, moved, plan.value, None, script) else Ok(moved, [])
    else if r.sourceKind == Chat then
      // the chat turn starts with a transition the table does not allow
      if !cfg.chat then Ok(r, [])
      else if r.Transition(SandboxRunning, "chat_turn_started").None? then Outcome(r, [], Raised, [])
      else Ok(r, [])
    else Refuse(r, "unknown source_kind")
  }

  function ResumeTarget(r: OperationRecord): State {
    match r.state
    case SuspendedForToolResult =>
      (match r.slices.resumePhase
       case Some(ExecutionPhase) => SandboxRunning
       case _ => Planning)
    case SuspendedForApproval =>
      (match r.slices.resumePhase
       case Some(PlanningPhase) => Planning
       case _ => SandboxRunning)
    case SuspendedPlanRevision => Reviewing
    case SuspendedProviderRecovery => SandboxReady
    case SuspendedEvidence => Reviewing
    case SuspendedPackageRepair => SandboxReady
    case SuspendedDecision => Reviewing
    case _ => Received
  }

  function Resume(cfg: Config, r: OperationRecord, input: ResumeInput, token: string, script: Script): (out: Outcome)
    ensures out.record.operationId == r.operationId
  {
    if !Suspended(r.state) then Refuse(r, "operation is not suspended")
    else
      match input
      case ApprovalDecision(_, _, _) => DecideApproval(cfg, r, input, token)
      case ToolResults(results) => AcceptResults(cfg, r, results, script)
      case OtherResume =>
        var moved := r.Transition(ResumeTarget(r), "resumed with input");
        if moved.None? then Refuse(r, "invalid transition")
        else Continue(cfg, moved.value, false, script)
  }

  predicate DigestRejects(cfg: Config, r: OperationRecord, callId: string) {
    && r.slices.argumentDigest.Some? && r.slices.argumentDigest.value != ""
    && r.slices.approvalToolCall.Some? && r.slices.approvalToolCall.value != ToolCall(None, None, None)
    && CallDigest(cfg, r.slices.approvalToolCall.value, callId) != r.slices.argumentDigest.value
  }

  predicate WrongSuspension(r: OperationRecord, suspensionId: string) {
    var persisted, approval := GetOr(r.slices.suspensionId, ""), GetOr(r.slices.approvalSuspensionId, "");
    suspensionId != "" && (persisted != "" || approval != "") && suspensionId != persisted && suspensionId != approval
  }

  // The approved call joins the continuation: the assistant's call, a tool
  // message granting it, and no raw calls left pending.
  function IntegrateApproval(continuation: Option<Continuation>, call: ToolCall, callId: string): Option<Continuation> {
    match continuation
    case None => None
    case Some(c) =>
      Some(Continuation(c.messages + [
        AssistantCall(callId, GetOr(call.toolName, ""), GetOr(call.arguments, Parsed(Obj(NoField)))),
        ToolMessage(callId, "approved")], []))
  }

  // The record with an approval written into it, before it moves on.
  function Granted(r: OperationRecord, inputCallId: string, token: string): OperationRecord {
    var call := GetOr(r.slices.approvalToolCall, ToolCall(None, None, None));
    var callId := GetOr(call.callId, inputCallId);
    var pending := ToolCall(Some(callId), Some(GetOr(call.toolName, "")),
                            Some(GetOr(call.arguments, Parsed(Obj(NoField)))));
    r.(slices := r.slices.(approvalDecision := Some(true),
                           approvalSuspensionId := Some(GetOr(r.slices.suspensionId, "")),
                           suspensionId := Some(token),
                           pendingCalls := [pending]),
       artifacts := r.artifacts.(continuation := IntegrateApproval(r.artifacts.continuation, call, callId)))
  }

  function DecideApproval(cfg: Config, r: OperationRecord, input: ResumeInput, token: string): (out: Outcome)
    requires input.ApprovalDecision?
    ensures out.record.operationId == r.operationId
  {
    if WrongSuspension(r, input.suspensionId) then Refuse(r, "suspension_id_mismatch")
    else if r.slices.approvalDecision.Some? then
      if r.slices.approvalDecision.value == input.approved then
        Outcome(r, [], Reply(r.state, Decided(input.approved, true)), [])
      else Refuse(r, "conflicting_approval_decision")
    else if DigestRejects(cfg, r, input.callId) then Refuse(r, "argument_digest_mismatch")
    else if !input.approved then
      var denied := r.Transition(CancelledByUser, "approval_denied");
      if denied.None? then Refuse(r, "invalid transition")
      else
        var saved := denied.value.(slices := r.slices.(approvalDecision := Some(false)));
        Outcome(saved, [], Reply(saved.state, Decided(false, false)), Emit(saved, ApprovalDenied(DecidedId(r, input.callId))))
    else
      Approve(r, input.callId, token)
  }

  // The id of the call a decision is about.
  function DecidedId(r: OperationRecord, inputCallId: string): string {
    GetOr(GetOr(r.slices.approvalToolCall, ToolCall(None, None, None)).callId, inputCallId)
  }

  // An illegal transition leaves the stored record as it was; the approval has
  // been announced by then.
  function Approve(r: OperationRecord, callId: string, token: string): Outcome {
    var moved := Granted(r, callId, token).Transition(SuspendedForToolResult, "approval_granted");
    var resolved := Emit(r, ApprovalResolved(DecidedId(r, callId)));
    if moved.None? then Refuse(r, "invalid transition").Telling(resolved)
    else
      Outcome(moved.value, [], Reply(moved.value.state, Decided(true, false)),
              resolved + Emit(moved.value, Demanded(moved.value)))
  }

  predicate MatchesClaim(claim: Claim, results: seq<ToolResult>) {
    forall i :: 0 <= i < |results| ==> GetOr(results[i].callId, "") == "" || results[i].callId.value == claim.callId
  }

  // Under a claim, the accepted results are recorded with the suspension.
  function Consume(r: OperationRecord, results: seq<ToolResult>): OperationRecord {
    if r.slices.executionClaim.Some? then r.(slices := r.slices.(consumedResults := Some(results))) else r
  }

  function AcceptResults(cfg: Config, r: OperationRecord, results: seq<ToolResult>, script: Script): (out: Outcome)
    ensures out.record.operationId == r.operationId
  {
    if r.slices.executionClaim.Some? && r.slices.consumedResults.Some? then
      if r.slices.consumedResults.value == results then
        Outcome(r, [], Reply(r.state, ResultsAccepted(true)), [])
      else Refuse(r, "conflicting_result_replay")
    else if r.slices.executionClaim.Some? && !MatchesClaim(r.slices.executionClaim.value, results) then
      Refuse(r, "result_call_id_mismatch")
    else
      var moved := r.Transition(ResumeTarget(r), "tool_result_submitted");
      if moved.None? then Refuse(r, "invalid transition")
      else
        Continue(cfg, Consume(moved.value, results), true, script)
  }

  function Cancel(r: OperationRecord, reason: string): (out: Outcome)
    ensures out.record.operationId == r.operationId
  {
    if Terminal(r.state) then Refuse(r, "operation already terminal")
    else
      var moved := r.Transition(CancelledByUser, reason);
      if moved.None? then Refuse(r, "invalid transition") else Ok(moved.value, [])
  }

  function FindCall(calls: seq<ToolCall>, callId: string): (found: Option<ToolCall>)
    ensures found.Some? ==> found.value in calls && found.value.callId == Some(callId)
    ensures found.None? ==> forall c :: c in calls ==> c.callId != Some(callId)
  {
    if calls == [] then None
    else if calls[0].callId == Some(callId) then Some(calls[0])
    else
      assert calls == [calls[0]] + calls[1..];
      FindCall(calls[1..], callId)
  }

  function ClaimExecution(r: OperationRecord, claim: Claim): (out: Outcome)
    ensures out.record.operationId == r.operationId
  {
    var digest := GetOr(r.slices.argumentDigest, "");
    var pending := FindCall(r.slices.pendingCalls, claim.callId);
    if r.state != SuspendedForToolResult then Refuse(r, "operation_not_suspended_for_tool_result")
    else if claim.suspensionId != GetOr(r.slices.suspensionId, "") then Refuse(r, "suspension_id_mismatch")
    else if pending.None? then Refuse(r, "tool_call_not_found")
    else if digest != "" && claim.argumentDigest != digest then Refuse(r, "argument_digest_mismatch")
    else if r.slices.executionClaim.Some? then
      if r.slices.executionClaim.value.claimantId == claim.claimantId then
        Outcome(r, [], Reply(r.state, Claimed(claim.claimantId, claim.callId, true, pending.value, digest)), [])
      else Refuse(r, "competing_claim")
    else
      Outcome(r.(slices := r.slices.(executionClaim := Some(claim))), [],
              Reply(r.state, Claimed(claim.claimantId, claim.callId, false, pending.value, digest)),
              Emit(r, ExecutionClaimed(claim)))
  }

  function RetryAflow(cfg: Config, r: OperationRecord, version: int, key: string, provider: string, script: Script): (out: Outcome)
    ensures out.record.operationId == r.operationId
  {
    if key in r.artifacts.retries then
      Outcome(r, [], Reply(r.state, Replayed(r.artifacts.retries[key])), [])
    else if r.state != SuspendedProviderRecovery then Refuse(r, "operation_not_in_provider_recovery")
    else if version != |r.history| then Refuse(r, "stale_operation_version")
    else if r.artifacts.candidatePlan.None? then Refuse(r, "candidate_plan_missing")
    else
      var out := DoReview(cfg, r.Advance(Reviewing, "aflow_retry:" + provider),
                          r.artifacts.candidatePlan.value, Some(provider), script);
      // a retry that raised leaves no note
      if out.reply.Raised? then out
      else out.(record := NoteRetry(out.record, key, RetryNote(provider, out.reply.state)))
  }

  function NoteRetry(r: OperationRecord, key: string, note: RetryNote): OperationRecord {
    r.(artifacts := r.artifacts.(retries := r.artifacts.retries[key := note]))
  }

  // ----- The store -----

  type Store = map<string, OperationRecord>

  datatype Call =
    | RegisterCall(id: string, kind: SourceKind, prompt: string)
    | StartCall(id: string, plan: Option<Plan>)
    | ResumeCall(id: string, input: ResumeInput, token: string)
    | CancelCall(id: string, reason: string)
    | ClaimCall(id: string, claim: Claim)
    | RetryCall(id: string, version: int, key: string, provider: string)

  datatype Effect = Effect(store: Store, calls: seq<AdapterCall>, reply: Reply, events: seq<Event>)

  predicate MissingAdapters(cfg: Config, kind: SourceKind) {
    || (kind == Task && !cfg.planning)
    || ((kind == Task || kind == PreparedPlan || kind == Fix) && !cfg.review)
    || ((kind == Task || kind == PreparedPlan) && !cfg.execution)
    || (kind == Chat && !cfg.chat)
  }

  // What a call other than registration does to the record it addresses.
  function OnRecord(cfg: Config, r: OperationRecord, call: Call, script: Script): Outcome
    requires !call.RegisterCall?
  {
    match call
    case StartCall(_, plan) => Start(cfg, r, plan, script)
    case ResumeCall(_, input, token) => Resume(cfg, r, input, token, script)
    case CancelCall(_, reason) => Cancel(r, reason)
    case ClaimCall(_, claim) => ClaimExecution(r, claim)
    case RetryCall(_, version, key, provider) => RetryAflow(cfg, r, version, key, provider, script)
  }

  function Apply(cfg: Config, store: Store, call: Call, script: Script): Effect {
    if call.RegisterCall? then
      if MissingAdapters(cfg, call.kind) then
        Effect(store, [], Reply(Received, Error("required_adapters_unavailable")), [])
      else
        var record := NewRecord(call.id, call.kind, call.prompt);
        Effect(store[call.id := record], [], Reply(Received, Other), Emit(record, OperationCreated))
    else if call.id !in store then Effect(store, [], Reply(Received, Error("operation_not_found")), [])
    else
      var out := OnRecord(cfg, store[call.id], call, script);
      Effect(store[call.id := out.record], out.calls, out.reply, out.events)
  }
}
