/**
  What every call keeps and what therefore holds over every run of calls:
  execution only after a clean review, histories that are legal paths and only
  grow, frozen terminal records, and write-once claims, decisions and retries.
*/
module ControllerSafety {
  import opened OperationStates
  import opened ControllerProtocol
  import opened Json
  import opened Text

  // ----- The record invariant -----

  // Execution states, and any suspension that would resume into execution,
  // are only reached through a clean review.
  ghost predicate SafePhase(r: OperationRecord) {
    && (r.state == SandboxRunning || r.state == Completed ==> ReviewedClean(r.history))
    && (r.slices.resumePhase == Some(ExecutionPhase) ==> ReviewedClean(r.history))
    && (r.state == SuspendedForApproval ==> r.slices.resumePhase.Some?)
    && r.state != Verifying && r.state != ReadyToApply
  }

  // The digest stored with an approval request is the digest of the call
  // stored with it.
  ghost predicate DigestBound(cfg: Config, r: OperationRecord) {
    match r.slices.approvalToolCall
    case None => r.slices.argumentDigest.None?
    case Some(call) => r.slices.argumentDigest == Some(CallDigest(cfg, call, ""))
  }

  ghost predicate RecordOk(cfg: Config, r: OperationRecord) {
    IsPath(r.history, r.state) && SafePhase(r) && DigestBound(cfg, r)
  }

  ghost predicate CallSafe(call: AdapterCall) {
    call.ExecuteCall? || call.ResumeExecutionCall? ==> ReviewedClean(call.history)
  }

  ghost predicate CallsSafe(calls: seq<AdapterCall>) {
    forall i :: 0 <= i < |calls| ==> CallSafe(calls[i])
  }

  // A record that no later call but a cancellation can move.
  predicate Stuck(r: OperationRecord) {
    r.state != Received && !Suspended(r.state)
  }

  // A retry key that can never start another review.
  predicate Spent(r: OperationRecord, key: string) {
    key in r.artifacts.retries || Stuck(r)
  }

  // What never changes or only grows: the identity, the history, and the
  // write-once claim, decision, accepted results and retry notes.
  ghost predicate Keeps(r: OperationRecord, s: OperationRecord) {
    && s.operationId == r.operationId && s.sourceKind == r.sourceKind && s.prompt == r.prompt
    && r.history <= s.history
    && (r.slices.executionClaim.Some? ==> s.slices.executionClaim == r.slices.executionClaim)
    && (r.slices.approvalDecision.Some? ==> s.slices.approvalDecision == r.slices.approvalDecision)
    && (r.slices.consumedResults.Some? ==> s.slices.consumedResults == r.slices.consumedResults)
    && (forall key :: key in r.artifacts.retries ==>
          key in s.artifacts.retries && s.artifacts.retries[key] == r.artifacts.retries[key])
  }

  // How a stored record may change from one moment to a later one.
  ghost predicate Evolves(r: OperationRecord, s: OperationRecord) {
    Keeps(r, s) && (Terminal(r.state) ==> s == r) && (Stuck(r) ==> Stuck(s))
  }

  lemma EvolvesTransitive(r: OperationRecord, s: OperationRecord, t: OperationRecord)
    requires Evolves(r, s) && Evolves(s, t)
    ensures Evolves(r, t)
  {
  }

  // Progress inside one call: the identity, the history and every write-once
  // slice; retries untouched.
  ghost predicate Extends(r: OperationRecord, s: OperationRecord) {
    && s.operationId == r.operationId && s.sourceKind == r.sourceKind && s.prompt == r.prompt
    && r.history <= s.history
    && s.slices.executionClaim == r.slices.executionClaim
    && s.slices.approvalDecision == r.slices.approvalDecision
    && s.slices.consumedResults == r.slices.consumedResults
    && s.artifacts.retries == r.artifacts.retries
  }

  ghost predicate Good(cfg: Config, r: OperationRecord, out: Outcome) {
    && RecordOk(cfg, out.record) && Extends(r, out.record) && CallsSafe(out.calls)
    && (out.reply.Reply? ==> out.reply.state == out.record.state)
    // a handler that raised leaves the record where no call can move it on
    && (out.reply.Raised? ==> Stuck(out.record))
  }

  // ----- Handlers -----

  lemma AdvanceOk(cfg: Config, r: OperationRecord, to: State, reason: string)
    requires RecordOk(cfg, r) && to in Successors(r.state)
    requires to == SandboxRunning ==> ReviewedClean(r.history)
    requires to != Completed && to != SuspendedForApproval && to != Verifying && to != ReadyToApply
    ensures RecordOk(cfg, r.Advance(to, reason)) && Extends(r, r.Advance(to, reason))
  {
    AdvanceExtendsPath(r, to, reason);
  }

  lemma AfterGood(cfg: Config, r: OperationRecord, m: OperationRecord, out: Outcome, call: AdapterCall)
    requires Good(cfg, m, out) && Extends(r, m) && CallSafe(call)
    ensures Good(cfg, r, out.After(call))
  {
    var calls := [call] + out.calls;
    assert forall i :: 0 < i < |calls| ==> calls[i] == out.calls[i - 1];
  }

  lemma SuspendForApprovalGood(cfg: Config, r: OperationRecord, result: AdapterResult, phase: Phase)
    requires RecordOk(cfg, r) && Handles(r, result, phase)
    ensures RecordOk(cfg, SuspendForApproval(cfg, r, result, phase))
    ensures Extends(r, SuspendForApproval(cfg, r, result, phase))
  {
    AdvanceExtendsPath(r, SuspendedForApproval, "approval_required");
  }

  lemma SuspendForToolResultGood(cfg: Config, r: OperationRecord, result: AdapterResult, phase: Phase)
    requires RecordOk(cfg, r) && Handles(r, result, phase)
    ensures RecordOk(cfg, SuspendForToolResult(r, result, phase))
    ensures Extends(r, SuspendForToolResult(r, result, phase))
  {
    AdvanceExtendsPath(r, SuspendedForToolResult, "frontend_tool_execution");
  }

  lemma HandleAdapterResultGood(cfg: Config, r: OperationRecord, result: AdapterResult, phase: Phase)
    requires RecordOk(cfg, r) && Handles(r, result, phase)
    ensures Good(cfg, r, HandleAdapterResult(cfg, r, result, phase))
    ensures HandleAdapterResult(cfg, r, result, phase).reply.Reply?
  {
    match result.status
    case DoneStatus => AdvanceExtendsPath(r, Completed, "adapter_completed");
    case FailedStatus => AdvanceExtendsPath(r, CancelledByUser, "adapter_failed");
    case SuspendedStatus(ForApproval) => SuspendForApprovalGood(cfg, r, result, phase);
    case SuspendedStatus(ForToolResult) => SuspendForToolResultGood(cfg, r, result, phase);
    case SuspendedStatus(OtherSuspension) =>
    case UnknownStatus =>
  }

  lemma DoExecutionGood(cfg: Config, r: OperationRecord, script: Script)
    requires r.state == SandboxReady && RecordOk(cfg, r) && ReviewedClean(r.history)
    ensures Good(cfg, r, DoExecution(cfg, r, script))
  {
    if cfg.execution {
      AdvanceExtendsPath(r, SandboxRunning, "execution_started");
      var running := r.Advance(SandboxRunning, "execution_started");
      if script != [] {
        HandleAdapterResultGood(cfg, running, script[0].adapter, ExecutionPhase);
        AfterGood(cfg, r, running, HandleAdapterResult(cfg, running, script[0].adapter, ExecutionPhase),
                  ExecuteCall(r.operationId, running.history, GetOr(r.artifacts.candidatePlan, NoField)));
      }
    }
  }

  lemma ReadyOk(cfg: Config, r: OperationRecord, answer: ReviewAnswer)
    requires r.state == Reviewing && RecordOk(cfg, r)
    ensures var ready := StoreImprovedPlan(r, answer).Advance(SandboxReady, "review_clean");
      RecordOk(cfg, ready) && Extends(r, ready) && ReviewedClean(ready.history)
  {
    var improved := StoreImprovedPlan(r, answer);
    AdvanceOk(cfg, improved, SandboxReady, "review_clean");
    assert improved.Advance(SandboxReady, "review_clean").history[|r.history|] == Step(Reviewing, SandboxReady, "review_clean");
  }

  lemma SuspendReviewGood(cfg: Config, r: OperationRecord, to: State, why: string, reason: Option<string>,
                          artifacts: Artifacts, call: AdapterCall, rest: Script)
    requires r.state == Reviewing && RecordOk(cfg, r) && call.ReviewCall?
    requires to == SuspendedProviderRecovery || to == SuspendedEvidence
    requires artifacts.retries == r.artifacts.retries
    ensures Good(cfg, r, Ok(r.Advance(to, why).(suspendReason := reason, artifacts := artifacts), [call]))
  {
    AdvanceOk(cfg, r, to, why);
  }

  lemma CleanReviewGood(cfg: Config, r: OperationRecord, plan: Plan, provider: Option<string>, script: Script)
    requires r.state == Reviewing && RecordOk(cfg, r)
    requires cfg.review && script != [] && script[0].review.decision == NoMaterialGap
    ensures Good(cfg, r, DoReview(cfg, r, plan, provider, script))
  {
    var answer := script[0].review;
    var ready := StoreImprovedPlan(r, answer).Advance(SandboxReady, "review_clean");
    ReadyOk(cfg, r, answer);
    DoExecutionGood(cfg, ready, script[1..]);
    AfterGood(cfg, r, ready, DoExecution(cfg, ready, script[1..]), ReviewCall(r.operationId, r.history, plan, provider, Some(answer)));
  }

  lemma HaltedReviewGood(cfg: Config, r: OperationRecord, plan: Plan, provider: Option<string>, script: Script)
    requires r.state == Reviewing && RecordOk(cfg, r) && cfg.review && script != []
    requires script[0].review.decision.ProviderError? || script[0].review.decision.OtherDecision?
    ensures Good(cfg, r, DoReview(cfg, r, plan, provider, script))
  {
    var answer := script[0].review;
    var call := ReviewCall(r.operationId, r.history, plan, provider, Some(answer));
    if answer.decision.ProviderError? {
      SuspendReviewGood(cfg, r, SuspendedProviderRecovery, "aflow_provider_error", Some("aflow_provider_error"),
                        if answer.issueId.Some? && answer.issueId.value != ""
                        then r.artifacts.(issueId := answer.issueId) else r.artifacts, call, script[1..]);
    } else {
      var text := answer.decision.text;
      SuspendReviewGood(cfg, r, SuspendedEvidence, "review_decision=" + text, Some(text), r.artifacts, call, script[1..]);
    }
  }

  lemma {:induction false} DoReviewGood(cfg: Config, r: OperationRecord, plan: Plan, provider: Option<string>, script: Script)
    requires r.state == Reviewing && RecordOk(cfg, r)
    ensures Good(cfg, r, DoReview(cfg, r, plan, provider, script))
    decreases |script|, 1
  {
    if cfg.review && script != [] {
      var answer := script[0].review;
      var call := ReviewCall(r.operationId, r.history, plan, provider, Some(answer));
      match answer.decision {
        case NoMaterialGap => CleanReviewGood(cfg, r, plan, provider, script);
        case MaterialGapFound =>
          var moved := r.Advance(Fulfilling, "material_gap_found");
          AdvanceOk(cfg, r, Fulfilling, "material_gap_found");
          DoFulfilmentGood(cfg, moved, plan, script[1..]);
          AfterGood(cfg, r, moved, DoFulfilment(cfg, moved, plan, script[1..]), call);
        case _ => HaltedReviewGood(cfg, r, plan, provider, script);
      }
    }
  }

  lemma {:induction false} DoFulfilmentGood(cfg: Config, r: OperationRecord, plan: Plan, script: Script)
    requires r.state == Fulfilling && RecordOk(cfg, r)
    ensures Good(cfg, r, DoFulfilment(cfg, r, plan, script))
    decreases |script|, 2
  {
    if cfg.fulfilment && script != [] {
      var answer := script[0].fulfil;
      if answer.allResolved {
        AdvanceExtendsPath(r, Reviewing, "fulfilment_complete");
        var moved := r.Advance(Reviewing, "fulfilment_complete");
        var revised := GetOr(answer.revisedPlan, plan);
        DoReviewGood(cfg, moved, revised, None, script[1..]);
        AfterGood(cfg, r, moved, DoReview(cfg, moved, revised, None, script[1..]), FulfilCall(r.operationId, r.history));
      } else {
        AdvanceExtendsPath(r, AwaitingDecision, "decision_required");
        AdvanceExtendsPath(r, CollectingEvidence, "evidence_required");
      }
    }
  }

  lemma PlanToReviewGood(cfg: Config, r: OperationRecord, plan: Plan, reason: string)
    requires r.state == Planning && RecordOk(cfg, r)
    ensures RecordOk(cfg, PlanToReview(r, plan, reason)) && Extends(r, PlanToReview(r, plan, reason))
  {
    AdvanceExtendsPath(r, PlanReady, reason);
    AdvanceExtendsPath(r.Advance(PlanReady, reason), Reviewing, "auto_review");
  }

  lemma DoPlanningGood(cfg: Config, r: OperationRecord, script: Script)
    requires r.state == Planning && RecordOk(cfg, r)
    ensures Good(cfg, r, DoPlanning(cfg, r, script))
  {
    if cfg.planning && script != [] {
      var result := script[0].adapter;
      var call := CreatePlanCall(r.operationId, r.history);
      if result.status.SuspendedStatus? {
        HandleAdapterResultGood(cfg, r, result, PlanningPhase);
        AfterGood(cfg, r, r, HandleAdapterResult(cfg, r, result, PlanningPhase), call);
      } else {
        var reviewing := PlanToReview(r, result.plan, "plan_created");
        PlanToReviewGood(cfg, r, result.plan, "plan_created");
        DoReviewGood(cfg, reviewing, result.plan, None, script[1..]);
        AfterGood(cfg, r, reviewing, DoReview(cfg, reviewing, result.plan, None, script[1..]), call);
      }
    }
  }

  lemma ContinueGood(cfg: Config, r: OperationRecord, withResults: bool, script: Script)
    requires RecordOk(cfg, r)
    ensures Good(cfg, r, Continue(cfg, r, withResults, script))
  {
    if r.state == Planning && cfg.planning && script != [] {
      var result := script[0].adapter;
      var call := ResumePlanCall(r.operationId, r.history);
      if result.status.SuspendedStatus? {
        HandleAdapterResultGood(cfg, r, result, PlanningPhase);
        AfterGood(cfg, r, r, HandleAdapterResult(cfg, r, result, PlanningPhase), call);
      } else {
        var reviewing := PlanToReview(r, result.plan, "plan_resumed");
        PlanToReviewGood(cfg, r, result.plan, "plan_resumed");
        if withResults {
          DoReviewGood(cfg, reviewing, result.plan, None, script[1..]);
          AfterGood(cfg, r, reviewing, DoReview(cfg, reviewing, result.plan, None, script[1..]), call);
        }
      }
    } else if r.state == SandboxRunning && cfg.execution && script != [] {
      HandleAdapterResultGood(cfg, r, script[0].adapter, ExecutionPhase);
      AfterGood(cfg, r, r, HandleAdapterResult(cfg, r, script[0].adapter, ExecutionPhase),
                ResumeExecutionCall(r.operationId, r.history));
    }
  }

  // ----- Public calls -----

  // The state a suspended record resumes to is always a legal successor,
  // whatever phase it remembers.
  lemma ResumeTargetLegal(r: OperationRecord)
    requires Suspended(r.state)
    ensures ResumeTarget(r) in Successors(r.state)
    ensures r.Transition(ResumeTarget(r), "").Some?
    ensures SafePhase(r) && ResumeTarget(r) == SandboxRunning ==> ReviewedClean(r.history)
    ensures ResumeTarget(r) in {Planning, Reviewing, SandboxReady, SandboxRunning}
  {
  }

  lemma ResumeMoveOk(cfg: Config, r: OperationRecord, reason: string)
    requires RecordOk(cfg, r) && Suspended(r.state)
    ensures ResumeTarget(r) in Successors(r.state)
    ensures RecordOk(cfg, r.Advance(ResumeTarget(r), reason)) && Extends(r, r.Advance(ResumeTarget(r), reason))
  {
    ResumeTargetLegal(r);
    AdvanceOk(cfg, r, ResumeTarget(r), reason);
  }

  // The digest check at the decision: it never refuses a call that carries
  // its id, and refuses one without an id exactly when the id the caller sends
  // changes the digest.
  lemma DigestCheckExact(cfg: Config, r: OperationRecord, callId: string)
    requires DigestBound(cfg, r)
    ensures r.slices.approvalToolCall.Some? && r.slices.approvalToolCall.value.callId.Some? ==> !DigestRejects(cfg, r, callId)
    ensures DigestRejects(cfg, r, callId) <==>
      && r.slices.approvalToolCall.Some?
      && r.slices.approvalToolCall.value != ToolCall(None, None, None)
      && r.slices.approvalToolCall.value.callId.None?
      && CallDigest(cfg, r.slices.approvalToolCall.value, "") != ""
      && CallDigest(cfg, r.slices.approvalToolCall.value, callId) != CallDigest(cfg, r.slices.approvalToolCall.value, "")
  {
  }

  ghost predicate GoodCall(cfg: Config, r: OperationRecord, out: Outcome) {
    && RecordOk(cfg, out.record) && Evolves(r, out.record) && CallsSafe(out.calls)
    && (out.reply.Reply? ==> out.reply.state == out.record.state)
  }

  // A handler that continues from a record the call has moved on to.
  lemma Conclude(cfg: Config, r: OperationRecord, m: OperationRecord, out: Outcome)
    requires Good(cfg, m, out) && Keeps(r, m) && !Stuck(r)
    ensures GoodCall(cfg, r, out)
  {
  }

  // Starting a review of a plan that may first be stored as the candidate.
  lemma StartReviewGood(cfg: Config, r: OperationRecord, candidate: Option<Plan>, reason: string, plan: Plan, script: Script)
    requires RecordOk(cfg, r) && r.state == Received
    ensures var moved := r.Advance(Reviewing, reason);
      GoodCall(cfg, r, DoReview(cfg, moved.(artifacts := moved.artifacts.(candidatePlan := candidate)), plan, None, script))
  {
    var moved := r.Advance(Reviewing, reason);
    var stored := moved.(artifacts := moved.artifacts.(candidatePlan := candidate));
    AdvanceOk(cfg, r, Reviewing, reason);
    DoReviewGood(cfg, stored, plan, None, script);
    Conclude(cfg, r, stored, DoReview(cfg, stored, plan, None, script));
  }

  lemma StartPlanningGood(cfg: Config, r: OperationRecord, script: Script)
    requires RecordOk(cfg, r) && r.state == Received
    ensures GoodCall(cfg, r, DoPlanning(cfg, r.Advance(Planning, "task_accepted"), script))
  {
    var moved := r.Advance(Planning, "task_accepted");
    AdvanceOk(cfg, r, Planning, "task_accepted");
    DoPlanningGood(cfg, moved, script);
    Conclude(cfg, r, moved, DoPlanning(cfg, moved, script));
  }

  lemma StartGood(cfg: Config, r: OperationRecord, plan: Option<Plan>, script: Script)
    requires RecordOk(cfg, r)
    ensures GoodCall(cfg, r, Start(cfg, r, plan, script))
  {
    if r.state == Received {
      if r.sourceKind == PreparedPlan && plan.Some? {
        StartReviewGood(cfg, r, plan, "prepared_plan_submitted", plan.value, script);
      } else if r.sourceKind == Task {
        StartPlanningGood(cfg, r, script);
      } else if r.sourceKind == Fix {
        var moved := r.Advance(Reviewing, "fix_accepted");
        AdvanceOk(cfg, r, Reviewing, "fix_accepted");
        if plan.Some? && plan.value.Field? {
          StartReviewGood(cfg, r, r.artifacts.candidatePlan, "fix_accepted", plan.value, script);
          assert moved.(artifacts := moved.artifacts.(candidatePlan := r.artifacts.candidatePlan)) == moved;
        }
      } else {
        Unmoved(cfg, r, Start(cfg, r, plan, script));
      }
    } else {
      Unmoved(cfg, r, Start(cfg, r, plan, script));
    }
  }

  // A decision that is taken up: it is for this suspension, the first, and
  // about the arguments that were asked about.
  predicate TakenUp(cfg: Config, r: OperationRecord, input: ResumeInput)
    requires input.ApprovalDecision?
  {
    !WrongSuspension(r, input.suspensionId) && r.slices.approvalDecision.None? && !DigestRejects(cfg, r, input.callId)
  }

  lemma NotTakenUp(cfg: Config, r: OperationRecord, input: ResumeInput, token: string)
    requires input.ApprovalDecision? && !TakenUp(cfg, r, input)
    ensures var out := DecideApproval(cfg, r, input, token);
      out.record == r && out.calls == [] && out.events == [] && out.reply.Reply? && out.reply.state == r.state
  {
  }

  lemma DecideApprovalGood(cfg: Config, r: OperationRecord, input: ResumeInput, token: string)
    requires RecordOk(cfg, r) && Suspended(r.state) && input.ApprovalDecision?
    ensures GoodCall(cfg, r, DecideApproval(cfg, r, input, token))
  {
    if !TakenUp(cfg, r, input) {
      NotTakenUp(cfg, r, input, token);
      Unmoved(cfg, r, DecideApproval(cfg, r, input, token));
    } else if input.approved {
      ApproveGood(cfg, r, input.callId, token);
    } else {
      DeniedShape(cfg, r, input, token);
      DenyGood(cfg, r, DecideApproval(cfg, r, input, token).events);
    }
  }

  lemma DeniedShape(cfg: Config, r: OperationRecord, input: ResumeInput, token: string)
    requires Suspended(r.state) && input.ApprovalDecision? && TakenUp(cfg, r, input) && !input.approved
    ensures CancelledByUser in Successors(r.state)
    ensures DecideApproval(cfg, r, input, token) == Outcome(Denied(r), [], Reply(CancelledByUser, Decided(false, false)),
                                                           DecideApproval(cfg, r, input, token).events)
  {
    CancelLegal(r.state);
  }

  function Denied(r: OperationRecord): OperationRecord
    requires CancelledByUser in Successors(r.state)
  {
    r.Advance(CancelledByUser, "approval_denied").(slices := r.slices.(approvalDecision := Some(false)))
  }

  lemma DeniedOk(cfg: Config, r: OperationRecord)
    requires RecordOk(cfg, r) && Suspended(r.state) && CancelledByUser in Successors(r.state)
    ensures RecordOk(cfg, Denied(r))
  {
    AdvanceOk(cfg, r, CancelledByUser, "approval_denied");
    assert Denied(r).slices.resumePhase == r.slices.resumePhase;
  }

  lemma DenyGood(cfg: Config, r: OperationRecord, events: seq<Event>)
    requires RecordOk(cfg, r) && Suspended(r.state) && r.slices.approvalDecision.None?
    requires CancelledByUser in Successors(r.state)
    ensures GoodCall(cfg, r, Outcome(Denied(r), [], Reply(CancelledByUser, Decided(false, false)), events))
  {
    DeniedOk(cfg, r);
    AdvanceOk(cfg, r, CancelledByUser, "approval_denied");
  }

  lemma GrantedOk(cfg: Config, r: OperationRecord, callId: string, token: string)
    requires RecordOk(cfg, r) && r.slices.approvalDecision.None?
    ensures RecordOk(cfg, Granted(r, callId, token)) && Keeps(r, Granted(r, callId, token))
    ensures Granted(r, callId, token).state == r.state
  {
  }

  // An approval that is recorded moves exactly from the approval suspension
  // to the tool-result suspension.
  lemma OnlyApprovalsAwaitTools(s: State)
    requires Suspended(s)
    ensures SuspendedForToolResult in Successors(s) <==> s == SuspendedForApproval
  {
  }

  lemma ApproveMoves(r: OperationRecord, callId: string, token: string)
    requires Suspended(r.state)
    ensures r.state != SuspendedForApproval ==> Approve(r, callId, token).record == r
    ensures r.state == SuspendedForApproval ==>
      Approve(r, callId, token)
      == Outcome(Granted(r, callId, token).Advance(SuspendedForToolResult, "approval_granted"), [],
                 Reply(SuspendedForToolResult, Decided(true, false)), Approve(r, callId, token).events)
  {
    var g := Granted(r, callId, token);
    assert g.state == r.state;
    OnlyApprovalsAwaitTools(g.state);
    assert g.Transition(SuspendedForToolResult, "approval_granted").Some? <==> r.state == SuspendedForApproval;
  }

  lemma ApproveGood(cfg: Config, r: OperationRecord, callId: string, token: string)
    requires RecordOk(cfg, r) && Suspended(r.state) && r.slices.approvalDecision.None?
    ensures GoodCall(cfg, r, Approve(r, callId, token))
  {
    ApproveMoves(r, callId, token);
    if r.state == SuspendedForApproval {
      var granted := Granted(r, callId, token);
      var s := granted.Advance(SuspendedForToolResult, "approval_granted");
      GrantedOk(cfg, r, callId, token);
      AdvanceOk(cfg, granted, SuspendedForToolResult, "approval_granted");
      GrantConcludes(cfg, r, granted, s, Approve(r, callId, token).events);
    } else {
      assert Approve(r, callId, token).reply == Refuse(r, "invalid transition").reply;
      Unmoved(cfg, r, Approve(r, callId, token));
    }
  }

  lemma GrantConcludes(cfg: Config, r: OperationRecord, granted: OperationRecord, s: OperationRecord, events: seq<Event>)
    requires r.state == SuspendedForApproval && RecordOk(cfg, s) && s.state == SuspendedForToolResult
    requires Keeps(r, granted) && Extends(granted, s)
    ensures GoodCall(cfg, r, Outcome(s, [], Reply(SuspendedForToolResult, Decided(true, false)), events))
  {
    KeepsExtends(r, granted, s);
  }

  lemma KeepsExtends(r: OperationRecord, m: OperationRecord, s: OperationRecord)
    requires Keeps(r, m) && Extends(m, s)
    ensures Keeps(r, s)
  {
  }

  lemma ConsumeOk(cfg: Config, r: OperationRecord, results: seq<ToolResult>)
    requires RecordOk(cfg, r)
    requires r.slices.executionClaim.Some? ==> r.slices.consumedResults.None?
    ensures RecordOk(cfg, Consume(r, results)) && Keeps(r, Consume(r, results))
  {
  }

  lemma Unmoved(cfg: Config, r: OperationRecord, out: Outcome)
    requires RecordOk(cfg, r) && out.record == r && out.calls == []
    requires out.reply.Reply? ==> out.reply.state == r.state
    ensures GoodCall(cfg, r, out)
  {
  }

  lemma AcceptResultsGood(cfg: Config, r: OperationRecord, results: seq<ToolResult>, script: Script)
    requires RecordOk(cfg, r) && Suspended(r.state)
    ensures GoodCall(cfg, r, AcceptResults(cfg, r, results, script))
  {
    if (r.slices.executionClaim.Some? && r.slices.consumedResults.Some?)
       || (r.slices.executionClaim.Some? && !MatchesClaim(r.slices.executionClaim.value, results)) {
      Unmoved(cfg, r, AcceptResults(cfg, r, results, script));
    } else {
      AcceptedGood(cfg, r, results, script);
    }
  }

  // Results that are accepted under a claim carry the claimed call id or none,
  // and are the first to be accepted.
  lemma AcceptedGood(cfg: Config, r: OperationRecord, results: seq<ToolResult>, script: Script)
    requires RecordOk(cfg, r) && Suspended(r.state)
    requires r.slices.executionClaim.Some? ==>
      r.slices.consumedResults.None? && MatchesClaim(r.slices.executionClaim.value, results)
    ensures GoodCall(cfg, r, AcceptResults(cfg, r, results, script))
    ensures r.slices.executionClaim.Some? ==>
      AcceptResults(cfg, r, results, script).record.slices.consumedResults == Some(results)
  {
    ResumeMoveOk(cfg, r, "tool_result_submitted");
    var moved := r.Advance(ResumeTarget(r), "tool_result_submitted");
    var saved := Consume(moved, results);
    ConsumeOk(cfg, moved, results);
    ContinueGood(cfg, saved, true, script);
    AcceptedShape(cfg, r, results, script);
    var out := Continue(cfg, saved, true, script);
    assert AcceptResults(cfg, r, results, script) == out;
    AcceptedConcludes(cfg, r, moved, saved, out);
  }

  // Under a claim, results are accepted for the first time only if each carries
  // the claimed call id or none; once accepted nothing changes any more, and
  // only the very same results are answered as a replay.
  lemma ClaimedResultsExactly(cfg: Config, r: OperationRecord, results: seq<ToolResult>, script: Script)
    requires RecordOk(cfg, r) && Suspended(r.state) && r.slices.executionClaim.Some?
    ensures r.slices.consumedResults.None? ==>
      var accepted := AcceptResults(cfg, r, results, script).record.slices.consumedResults;
      && (accepted.Some? <==> MatchesClaim(r.slices.executionClaim.value, results))
      && (accepted.Some? ==> accepted.value == results)
    ensures r.slices.consumedResults.Some? ==>
      var out := AcceptResults(cfg, r, results, script);
      && out.record == r && out.calls == []
      && (out.reply == Reply(r.state, ResultsAccepted(true)) <==> r.slices.consumedResults.value == results)
  {
    if r.slices.consumedResults.None? && MatchesClaim(r.slices.executionClaim.value, results) {
      AcceptedGood(cfg, r, results, script);
    }
  }

  lemma AcceptedShape(cfg: Config, r: OperationRecord, results: seq<ToolResult>, script: Script)
    requires Suspended(r.state)
    requires r.slices.executionClaim.Some? ==>
      r.slices.consumedResults.None? && MatchesClaim(r.slices.executionClaim.value, results)
    ensures ResumeTarget(r) in Successors(r.state)
    ensures AcceptResults(cfg, r, results, script)
      == Continue(cfg, Consume(r.Advance(ResumeTarget(r), "tool_result_submitted"), results), true, script)
  {
    ResumeTargetLegal(r);
  }

  lemma AcceptedConcludes(cfg: Config, r: OperationRecord, moved: OperationRecord, saved: OperationRecord, out: Outcome)
    requires Suspended(r.state) && Extends(r, moved) && Keeps(moved, saved) && Good(cfg, saved, out)
    ensures GoodCall(cfg, r, out)
    ensures out.record.slices.consumedResults == saved.slices.consumedResults
  {
    assert Keeps(r, saved);
    Conclude(cfg, r, saved, out);
  }

  lemma ResumeGood(cfg: Config, r: OperationRecord, input: ResumeInput, token: string, script: Script)
    requires RecordOk(cfg, r)
    ensures GoodCall(cfg, r, Resume(cfg, r, input, token, script))
  {
    if Suspended(r.state) {
      match input
      case ApprovalDecision(_, _, _) => DecideApprovalGood(cfg, r, input, token);
      case ToolResults(results) => AcceptResultsGood(cfg, r, results, script);
      case OtherResume =>
        ResumeMoveOk(cfg, r, "resumed with input");
        var moved := r.Advance(ResumeTarget(r), "resumed with input");
        ContinueGood(cfg, moved, false, script);
        Conclude(cfg, r, moved, Continue(cfg, moved, false, script));
    }
  }

  lemma RetryGood(cfg: Config, r: OperationRecord, version: int, key: string, provider: string, script: Script)
    requires RecordOk(cfg, r)
    ensures GoodCall(cfg, r, RetryAflow(cfg, r, version, key, provider, script))
    // a key that is spent starts nothing; a retry that did start spends its key
    ensures Spent(r, key) ==> RetryAflow(cfg, r, version, key, provider, script).calls == []
    ensures RetryAflow(cfg, r, version, key, provider, script).calls != [] ==>
      Spent(RetryAflow(cfg, r, version, key, provider, script).record, key)
  {
    if key !in r.artifacts.retries && r.state == SuspendedProviderRecovery && version == |r.history|
       && r.artifacts.candidatePlan.Some? {
      var moved := r.Advance(Reviewing, "aflow_retry:" + provider);
      var plan := r.artifacts.candidatePlan.value;
      AdvanceOk(cfg, r, Reviewing, "aflow_retry:" + provider);
      DoReviewGood(cfg, moved, plan, Some(provider), script);
      var out := DoReview(cfg, moved, plan, Some(provider), script);
      Conclude(cfg, r, moved, out);
      if out.reply.Reply? {
        NoteGood(cfg, r, out, key, RetryNote(provider, out.reply.state));
      }
    }
  }

  lemma NoteGood(cfg: Config, r: OperationRecord, out: Outcome, key: string, note: RetryNote)
    requires GoodCall(cfg, r, out) && out.reply.Reply? && key !in r.artifacts.retries && !Stuck(r)
    ensures GoodCall(cfg, r, out.(record := NoteRetry(out.record, key, note)))
    ensures Spent(NoteRetry(out.record, key, note), key)
  {
  }

  lemma CancelGood(cfg: Config, r: OperationRecord, reason: string)
    requires RecordOk(cfg, r)
    ensures GoodCall(cfg, r, Cancel(r, reason))
    // cancellation is refused exactly for terminal and unstarted operations
    ensures Cancel(r, reason).reply.detail.Error? <==> Terminal(r.state) || r.state == Received
  {
    CancelLegal(r.state);
    if !Terminal(r.state) && r.state != Received {
      AdvanceOk(cfg, r, CancelledByUser, reason);
    }
  }

  // A claim changes nothing, or is written.
  lemma ClaimShape(r: OperationRecord, claim: Claim)
    ensures var out := ClaimExecution(r, claim);
      && out.calls == [] && out.reply.Reply? && out.reply.state == r.state
      && (out.record == r
          || (r.slices.executionClaim.None? && r.state == SuspendedForToolResult
              && out.record == r.(slices := r.slices.(executionClaim := Some(claim)))))
  {
  }

  lemma ClaimGood(cfg: Config, r: OperationRecord, claim: Claim)
    requires RecordOk(cfg, r)
    ensures GoodCall(cfg, r, ClaimExecution(r, claim))
  {
    ClaimShape(r, claim);
    if ClaimExecution(r, claim).record == r {
      Unmoved(cfg, r, ClaimExecution(r, claim));
    } else {
      WriteClaimOk(cfg, r, claim);
    }
  }

  lemma WriteClaimOk(cfg: Config, r: OperationRecord, claim: Claim)
    requires RecordOk(cfg, r) && r.slices.executionClaim.None? && r.state == SuspendedForToolResult
    ensures var s := r.(slices := r.slices.(executionClaim := Some(claim))); RecordOk(cfg, s) && Evolves(r, s)
  {
  }

  // Whoever is told the call is claimed is the claimant on record, asked under
  // the current suspension, and is handed a call that is pending under the id.
  lemma ClaimedMeansClaimant(r: OperationRecord, claim: Claim)
    requires ClaimExecution(r, claim).reply.detail.Claimed?
    ensures var s := ClaimExecution(r, claim).record.slices;
      && s.executionClaim.Some? && s.executionClaim.value.claimantId == claim.claimantId
      && claim.suspensionId == GetOr(s.suspensionId, "")
      && (GetOr(s.argumentDigest, "") != "" ==> claim.argumentDigest == s.argumentDigest.value)
    ensures ClaimExecution(r, claim).reply.detail.toolCall in r.slices.pendingCalls
    ensures ClaimExecution(r, claim).reply.detail.toolCall.callId == Some(claim.callId)
  {
  }

  // ----- The store -----

  ghost predicate StoreOk(cfg: Config, store: Store) {
    forall id :: id in store ==> RecordOk(cfg, store[id])
  }

  // Records are stored under their own id.
  ghost predicate Keyed(store: Store) {
    forall id :: id in store ==> store[id].operationId == id
  }

  ghost predicate StoreEvolves(store: Store, later: Store, except: set<string>) {
    forall id :: id in store && id !in except ==> id in later && Evolves(store[id], later[id])
  }

  lemma OnRecordGood(cfg: Config, r: OperationRecord, call: Call, script: Script)
    requires RecordOk(cfg, r) && !call.RegisterCall?
    ensures GoodCall(cfg, r, OnRecord(cfg, r, call, script))
  {
    match call
    case StartCall(_, plan) => StartGood(cfg, r, plan, script);
    case ResumeCall(_, input, token) => ResumeGood(cfg, r, input, token, script);
    case CancelCall(_, reason) => CancelGood(cfg, r, reason);
    case ClaimCall(_, claim) => ClaimGood(cfg, r, claim);
    case RetryCall(_, version, key, provider) => RetryGood(cfg, r, version, key, provider, script);
  }

  // What a call other than a registration leaves in the store.
  lemma AppliedTo(cfg: Config, store: Store, call: Call, script: Script)
    requires !call.RegisterCall? && call.id in store
    ensures var (e, out) := (Apply(cfg, store, call, script), OnRecord(cfg, store[call.id], call, script));
      e.store == store[call.id := out.record] && e.calls == out.calls && e.reply == out.reply && e.events == out.events
  {
  }

  lemma ApplyGood(cfg: Config, store: Store, call: Call, script: Script)
    requires StoreOk(cfg, store)
    ensures StoreOk(cfg, Apply(cfg, store, call, script).store)
    ensures CallsSafe(Apply(cfg, store, call, script).calls)
    ensures StoreEvolves(store, Apply(cfg, store, call, script).store, Targets(call))
  {
    if call.RegisterCall? {
      RegisterGood(cfg, store, call);
    } else if call.id in store {
      AppliedTo(cfg, store, call, script);
      OnRecordGood(cfg, store[call.id], call, script);
      UpdateGood(cfg, store, call.id, OnRecord(cfg, store[call.id], call, script));
    }
  }

  // The records a call may replace outright: those it registers.
  function Targets(call: Call): set<string> {
    if call.RegisterCall? then {call.id} else {}
  }

  lemma NewRecordOk(cfg: Config, id: string, kind: SourceKind, prompt: string)
    ensures RecordOk(cfg, NewRecord(id, kind, prompt))
  {
  }

  lemma RegisterGood(cfg: Config, store: Store, call: Call)
    requires StoreOk(cfg, store) && call.RegisterCall?
    ensures StoreOk(cfg, Apply(cfg, store, call, []).store)
    ensures Apply(cfg, store, call, []).calls == []
    ensures StoreEvolves(store, Apply(cfg, store, call, []).store, {call.id})
  {
    NewRecordOk(cfg, call.id, call.kind, call.prompt);
  }

  lemma UpdateGood(cfg: Config, store: Store, id: string, out: Outcome)
    requires StoreOk(cfg, store) && id in store && GoodCall(cfg, store[id], out)
    ensures StoreOk(cfg, store[id := out.record]) && StoreEvolves(store, store[id := out.record], {})
  {
  }

  // ----- Runs -----

  datatype Turn = Turn(call: Call, script: Script)

  function RunCalls(cfg: Config, store: Store, turns: seq<Turn>): (Store, seq<AdapterCall>, seq<Reply>)
    decreases |turns|
  {
    if turns == [] then (store, [], [])
    else
      var e := Apply(cfg, store, turns[0].call, turns[0].script);
      var (later, calls, replies) := RunCalls(cfg, e.store, turns[1..]);
      (later, e.calls + calls, [e.reply] + replies)
  }

  function Registered(turns: seq<Turn>): (ids: set<string>)
    ensures forall id :: id in ids <==> exists i :: 0 <= i < |turns| && turns[i].call.RegisterCall? && turns[i].call.id == id
  {
    if turns == [] then {}
    else
      assert turns == [turns[0]] + turns[1..];
      (if turns[0].call.RegisterCall? then {turns[0].call.id} else {}) + Registered(turns[1..])
  }

  // Over every run from a store that satisfies the invariant: the invariant
  // still holds, every execution was preceded by a clean review, and every
  // record not registered anew has only evolved.
  lemma {:induction false} RunGood(cfg: Config, store: Store, turns: seq<Turn>)
    requires StoreOk(cfg, store)
    ensures StoreOk(cfg, RunCalls(cfg, store, turns).0)
    ensures CallsSafe(RunCalls(cfg, store, turns).1)
    ensures StoreEvolves(store, RunCalls(cfg, store, turns).0, Registered(turns))
    decreases |turns|
  {
    if turns == [] {
      assert StoreEvolves(store, store, {});
    } else {
      var e := Apply(cfg, store, turns[0].call, turns[0].script);
      ApplyGood(cfg, store, turns[0].call, turns[0].script);
      RunGood(cfg, e.store, turns[1..]);
      var later := RunCalls(cfg, e.store, turns[1..]).0;
      forall id | id in store && id !in Registered(turns) ensures id in later && Evolves(store[id], later[id]) {
        EvolvesTransitive(store[id], e.store[id], later[id]);
      }
    }
  }

  // Safety of execution, from the empty store: no plan is ever executed,
  // no execution resumed and no operation completed without a clean review in
  // the operation's own history, which is a legal path from Received.
  lemma ExecutionOnlyAfterCleanReview(cfg: Config, turns: seq<Turn>)
    ensures var (store, calls, _) := RunCalls(cfg, map[], turns);
      && (forall i :: 0 <= i < |calls| && (calls[i].ExecuteCall? || calls[i].ResumeExecutionCall?)
            ==> ReviewedClean(calls[i].history))
      && (forall id :: id in store ==> IsPath(store[id].history, store[id].state))
      && (forall id :: id in store && store[id].state == Completed ==> ReviewedClean(store[id].history))
  {
    RunGood(cfg, map[], turns);
    var (store, calls, _) := RunCalls(cfg, map[], turns);
    forall i | 0 <= i < |calls| && (calls[i].ExecuteCall? || calls[i].ResumeExecutionCall?)
      ensures ReviewedClean(calls[i].history)
    {
      assert CallSafe(calls[i]);
    }
  }

  // ----- What a clean review lets through -----

  // Every execution directly follows the clean review that permits it, and
  // runs that review's improved plan, or else the stored candidate.
  ghost predicate ExecutesReviewed(calls: seq<AdapterCall>, candidate: Plan) {
    forall i :: 0 <= i < |calls| && calls[i].ExecuteCall? ==>
      && i > 0 && calls[i - 1].ReviewCall? && calls[i - 1].answer.Some?
      && calls[i - 1].answer.value.decision == NoMaterialGap
      && calls[i].plan == GetOr(calls[i - 1].answer.value.improvedPlan, candidate)
      && (Fulfilled(calls[i].history) || calls[i].plan == GetOr(calls[i - 1].answer.value.improvedPlan, calls[i - 1].plan))
  }

  // The execution a clean review leads to is the last call but the review.
  lemma CleanReviewRuns(cfg: Config, r: OperationRecord, plan: Plan, provider: Option<string>, answer: ReviewAnswer, rest: Script)
    requires r.state == Reviewing && answer.decision == NoMaterialGap
    requires Fulfilled(r.history) || r.artifacts.candidatePlan == Some(plan)
    ensures var ready := StoreImprovedPlan(r, answer).Advance(SandboxReady, "review_clean");
      var call := ReviewCall(r.operationId, r.history, plan, provider, Some(answer));
      ExecutesReviewed([call] + DoExecution(cfg, ready, rest).calls, GetOr(r.artifacts.candidatePlan, NoField))
  {
    var ready := StoreImprovedPlan(r, answer).Advance(SandboxReady, "review_clean");
    var running := ready.Advance(SandboxRunning, "execution_started");
    HistoryKeepsFulfilment(r.history, running.history);
    ExecutionCallsAre(cfg, ready, rest);
    ReviewThenExecute(ReviewCall(r.operationId, r.history, plan, provider, Some(answer)), DoExecution(cfg, ready, rest).calls,
                      GetOr(r.artifacts.candidatePlan, NoField));
  }

  lemma ExecutionCallsAre(cfg: Config, r: OperationRecord, script: Script)
    requires r.state == SandboxReady
    ensures var running := r.Advance(SandboxRunning, "execution_started");
      DoExecution(cfg, r, script).calls == if !cfg.execution then []
        else [ExecuteCall(r.operationId, running.history, GetOr(r.artifacts.candidatePlan, NoField))]
  {
  }

  lemma ReviewThenExecute(call: AdapterCall, calls: seq<AdapterCall>, candidate: Plan)
    requires call.ReviewCall? && call.answer.Some? && call.answer.value.decision == NoMaterialGap && |calls| <= 1
    requires calls != [] ==>
      && calls[0].ExecuteCall? && calls[0].plan == GetOr(call.answer.value.improvedPlan, candidate)
      && (Fulfilled(calls[0].history) || calls[0].plan == GetOr(call.answer.value.improvedPlan, call.plan))
    ensures ExecutesReviewed([call] + calls, candidate)
  {
  }

  lemma {:induction false} ReviewedPlanRuns(cfg: Config, r: OperationRecord, plan: Plan, provider: Option<string>, script: Script)
    requires r.state == Reviewing
    requires Fulfilled(r.history) || r.artifacts.candidatePlan == Some(plan)
    ensures ExecutesReviewed(DoReview(cfg, r, plan, provider, script).calls, GetOr(r.artifacts.candidatePlan, NoField))
    decreases |script|, 1
  {
    if cfg.review && script != [] {
      var answer := script[0].review;
      if answer.decision == NoMaterialGap {
        CleanReviewRuns(cfg, r, plan, provider, answer, script[1..]);
      } else if answer.decision == MaterialGapFound {
        var moved := r.Advance(Fulfilling, "material_gap_found");
        assert moved.history[|r.history|].to == Fulfilling;
        FulfilledPlanRuns(cfg, moved, plan, script[1..]);
        var inner := DoFulfilment(cfg, moved, plan, script[1..]).calls;
        PrependReview(inner, ReviewCall(r.operationId, r.history, plan, provider, Some(answer)), GetOr(r.artifacts.candidatePlan, NoField));
      }
    }
  }

  lemma {:induction false} FulfilledPlanRuns(cfg: Config, r: OperationRecord, plan: Plan, script: Script)
    requires r.state == Fulfilling && Fulfilled(r.history)
    ensures ExecutesReviewed(DoFulfilment(cfg, r, plan, script).calls, GetOr(r.artifacts.candidatePlan, NoField))
    decreases |script|, 2
  {
    if cfg.fulfilment && script != [] && script[0].fulfil.allResolved {
      var moved := r.Advance(Reviewing, "fulfilment_complete");
      HistoryKeepsFulfilment(r.history, moved.history);
      var revised := GetOr(script[0].fulfil.revisedPlan, plan);
      ReviewedPlanRuns(cfg, moved, revised, None, script[1..]);
      PrependReview(DoReview(cfg, moved, revised, None, script[1..]).calls, FulfilCall(r.operationId, r.history),
                    GetOr(r.artifacts.candidatePlan, NoField));
    }
  }

  lemma HistoryKeepsFulfilment(h: seq<Step>, longer: seq<Step>)
    requires h <= longer
    ensures Fulfilled(h) ==> Fulfilled(longer)
  {
    assert forall i :: 0 <= i < |h| ==> longer[i] == h[i];
  }

  lemma PrependReview(calls: seq<AdapterCall>, call: AdapterCall, candidate: Plan)
    requires ExecutesReviewed(calls, candidate) && !call.ExecuteCall?
    ensures ExecutesReviewed([call] + calls, candidate)
  {
    var longer := [call] + calls;
    forall i | 0 <= i < |longer| && longer[i].ExecuteCall?
      ensures
        && i > 0 && longer[i - 1].ReviewCall? && longer[i - 1].answer.Some?
        && longer[i - 1].answer.value.decision == NoMaterialGap
        && longer[i].plan == GetOr(longer[i - 1].answer.value.improvedPlan, candidate)
        && (Fulfilled(longer[i].history) || longer[i].plan == GetOr(longer[i - 1].answer.value.improvedPlan, longer[i - 1].plan))
    {
      assert longer[i] == calls[i - 1];
      assert longer[i - 1] == calls[i - 2];
    }
  }

  // The same without reference to the stored candidate.
  ghost predicate RunsReviewedPlan(calls: seq<AdapterCall>) {
    forall i :: 0 <= i < |calls| && calls[i].ExecuteCall? ==>
      && i > 0 && calls[i - 1].ReviewCall? && calls[i - 1].answer.Some?
      && calls[i - 1].answer.value.decision == NoMaterialGap
      && (Fulfilled(calls[i].history) || calls[i].plan == GetOr(calls[i - 1].answer.value.improvedPlan, calls[i - 1].plan))
  }

  lemma PrependOther(calls: seq<AdapterCall>, call: AdapterCall)
    requires RunsReviewedPlan(calls) && !call.ExecuteCall?
    ensures RunsReviewedPlan([call] + calls)
  {
    var longer := [call] + calls;
    assert forall i :: 0 < i < |longer| ==> longer[i] == calls[i - 1];
  }

  lemma PlanningRunsReviewed(cfg: Config, r: OperationRecord, plan: Plan, reason: string, script: Script, call: AdapterCall)
    requires r.state == Planning && !call.ExecuteCall?
    ensures RunsReviewedPlan(DoReview(cfg, PlanToReview(r, plan, reason), plan, None, script).After(call).calls)
  {
    var reviewing := PlanToReview(r, plan, reason);
    ReviewedPlanRuns(cfg, reviewing, plan, None, script);
    PrependOther(DoReview(cfg, reviewing, plan, None, script).calls, call);
  }

  lemma HandlerCallsNobody(cfg: Config, r: OperationRecord, result: AdapterResult, phase: Phase)
    requires Handles(r, result, phase)
    ensures HandleAdapterResult(cfg, r, result, phase).calls == []
  {
  }

  lemma ContinueRunsReviewed(cfg: Config, r: OperationRecord, withResults: bool, script: Script)
    ensures RunsReviewedPlan(Continue(cfg, r, withResults, script).calls)
  {
    if r.state == Planning && cfg.planning && script != [] {
      if script[0].adapter.status.SuspendedStatus? {
        HandlerCallsNobody(cfg, r, script[0].adapter, PlanningPhase);
      } else {
        PlanningRunsReviewed(cfg, r, script[0].adapter.plan, "plan_resumed", script[1..], ResumePlanCall(r.operationId, r.history));
      }
    } else if r.state == SandboxRunning && cfg.execution && script != [] {
      HandlerCallsNobody(cfg, r, script[0].adapter, ExecutionPhase);
    }
  }

  lemma StartedPlanRuns(cfg: Config, r: OperationRecord, plan: Plan, script: Script)
    requires r.state == Received
    ensures var moved := r.Advance(Reviewing, "prepared_plan_submitted");
      RunsReviewedPlan(DoReview(cfg, moved.(artifacts := moved.artifacts.(candidatePlan := Some(plan))), plan, None, script).calls)
  {
    var moved := r.Advance(Reviewing, "prepared_plan_submitted");
    ReviewedPlanRuns(cfg, moved.(artifacts := moved.artifacts.(candidatePlan := Some(plan))), plan, None, script);
  }

  lemma StartedTaskRuns(cfg: Config, r: OperationRecord, script: Script)
    requires r.state == Planning
    ensures RunsReviewedPlan(DoPlanning(cfg, r, script).calls)
  {
    if cfg.planning && script != [] {
      if script[0].adapter.status.SuspendedStatus? {
        HandlerCallsNobody(cfg, r, script[0].adapter, PlanningPhase);
      } else {
        PlanningRunsReviewed(cfg, r, script[0].adapter.plan, "plan_created", script[1..], CreatePlanCall(r.operationId, r.history));
      }
    }
  }

  lemma StartRunsReviewed(cfg: Config, r: OperationRecord, plan: Option<Plan>, script: Script)
    requires r.sourceKind != Fix
    ensures RunsReviewedPlan(Start(cfg, r, plan, script).calls)
  {
    if r.state == Received {
      if r.sourceKind == PreparedPlan && plan.Some? {
        StartedPlanRuns(cfg, r, plan.value, script);
      } else if r.sourceKind == Task {
        StartedTaskRuns(cfg, r.Advance(Planning, "task_accepted"), script);
      }
    }
  }

  // Every call except the start of a fix executes only the plan of the clean
  // review right before it, or that review's improved plan, unless the
  // operation has been through fulfilment.
  lemma ExecuteReceivesReviewedPlan(cfg: Config, r: OperationRecord, call: Call, script: Script)
    requires !call.RegisterCall? && (call.StartCall? ==> r.sourceKind != Fix)
    ensures RunsReviewedPlan(OnRecord(cfg, r, call, script).calls)
  {
    match call
    case StartCall(_, plan) => StartRunsReviewed(cfg, r, plan, script);
    case ResumeCall(_, input, token) => ResumeRunsReviewed(cfg, r, input, token, script);
    case CancelCall(_, reason) => CancelCallsNobody(r, reason);
    case ClaimCall(_, claim) => ClaimShape(r, claim);
    case RetryCall(_, version, key, provider) => RetryRunsReviewed(cfg, r, version, key, provider, script);
  }

  lemma CancelCallsNobody(r: OperationRecord, reason: string)
    ensures Cancel(r, reason).calls == []
  {
  }

  lemma RetryRunsReviewed(cfg: Config, r: OperationRecord, version: int, key: string, provider: string, script: Script)
    ensures RunsReviewedPlan(RetryAflow(cfg, r, version, key, provider, script).calls)
  {
    if r.state == SuspendedProviderRecovery && r.artifacts.candidatePlan.Some? {
      ReviewedPlanRuns(cfg, r.Advance(Reviewing, "aflow_retry:" + provider),
                       r.artifacts.candidatePlan.value, Some(provider), script);
    }
  }

  lemma DecisionCallsNobody(cfg: Config, r: OperationRecord, input: ResumeInput, token: string)
    requires Suspended(r.state) && input.ApprovalDecision?
    ensures DecideApproval(cfg, r, input, token).calls == []
  {
    if !TakenUp(cfg, r, input) {
      NotTakenUp(cfg, r, input, token);
    } else if input.approved {
      ApproveMoves(r, input.callId, token);
    } else {
      DeniedShape(cfg, r, input, token);
    }
  }

  lemma AcceptRunsReviewed(cfg: Config, r: OperationRecord, results: seq<ToolResult>, script: Script)
    requires Suspended(r.state)
    ensures RunsReviewedPlan(AcceptResults(cfg, r, results, script).calls)
  {
    var claim := r.slices.executionClaim;
    if claim.None? || (r.slices.consumedResults.None? && MatchesClaim(claim.value, results)) {
      AcceptedShape(cfg, r, results, script);
      ContinueRunsReviewed(cfg, Consume(r.Advance(ResumeTarget(r), "tool_result_submitted"), results), true, script);
    }
  }

  lemma ResumeRunsReviewed(cfg: Config, r: OperationRecord, input: ResumeInput, token: string, script: Script)
    ensures RunsReviewedPlan(Resume(cfg, r, input, token, script).calls)
  {
    if Suspended(r.state) {
      match input
      case ApprovalDecision(_, _, _) => DecisionCallsNobody(cfg, r, input, token);
      case ToolResults(results) => AcceptRunsReviewed(cfg, r, results, script);
      case OtherResume =>
        ResumeTargetLegal(r);
        ContinueRunsReviewed(cfg, r.Advance(ResumeTarget(r), "resumed with input"), false, script);
    }
  }

  // What a clean review executes, in every case: the improved plan, or else the
  // stored candidate, or else the empty plan. That is the reviewed or improved
  // plan exactly when there is an improved plan or the candidate is the plan
  // that was reviewed.
  lemma CleanReviewExecutesExactly(cfg: Config, r: OperationRecord, plan: Plan, provider: Option<string>, script: Script)
    requires cfg.review && cfg.execution && r.state == Reviewing
    requires script != [] && script[0].review.decision == NoMaterialGap
    ensures var calls, improved := DoReview(cfg, r, plan, provider, script).calls, script[0].review.improvedPlan;
      var candidate := GetOr(r.artifacts.candidatePlan, NoField);
      && |calls| == 2 && calls[0].ReviewCall? && calls[0].plan == plan
      && calls[1].ExecuteCall? && calls[1].plan == GetOr(improved, candidate)
      && (calls[1].plan == GetOr(improved, plan) <==> improved.Some? || candidate == plan)
  {
    var ready := StoreImprovedPlan(r, script[0].review).Advance(SandboxReady, "review_clean");
    ExecutionCallsAre(cfg, ready, script[1..]);
    CleanReviewCalls(cfg, r, plan, provider, script);
  }

  // The adapter calls of a clean review: the review, then those of execution.
  lemma CleanReviewCalls(cfg: Config, r: OperationRecord, plan: Plan, provider: Option<string>, script: Script)
    requires cfg.review && r.state == Reviewing
    requires script != [] && script[0].review.decision == NoMaterialGap
    ensures var ready := StoreImprovedPlan(r, script[0].review).Advance(SandboxReady, "review_clean");
      DoReview(cfg, r, plan, provider, script).calls
      == [ReviewCall(r.operationId, r.history, plan, provider, Some(script[0].review))] + DoExecution(cfg, ready, script[1..]).calls
  {
  }

  // The two exceptions are real. A fix starts its review without storing the
  // plan, so a clean review without an improved plan executes the empty plan.
  lemma FixExecutesEmptyPlan(cfg: Config, plan: Plan, answer: Answer)
    requires cfg.review && cfg.execution && plan.Field?
    requires answer.review.decision == NoMaterialGap && answer.review.improvedPlan.None?
    ensures var calls := Start(cfg, NewRecord("op", Fix, ""), Some(plan), [answer]).calls;
      |calls| == 2 && calls[0].ReviewCall? && calls[0].plan == plan
      && calls[1].ExecuteCall? && calls[1].plan == NoField
  {
    FixStarts(cfg, plan, [answer]);
    CleanReviewExecutesExactly(cfg, NewRecord("op", Fix, "").Advance(Reviewing, "fix_accepted"), plan, None, [answer]);
  }

  lemma FixStarts(cfg: Config, plan: Plan, script: Script)
    requires plan.Field?
    ensures Start(cfg, NewRecord("op", Fix, ""), Some(plan), script)
         == DoReview(cfg, NewRecord("op", Fix, "").Advance(Reviewing, "fix_accepted"), plan, None, script)
  {
  }

  // After fulfilment the revised plan is reviewed, but the candidate stored
  // before the revision is executed.
  lemma FulfilmentExecutesStalePlan(cfg: Config, r: OperationRecord, revised: Plan, fulfil: Answer, clean: Answer)
    requires cfg.review && cfg.execution && cfg.fulfilment && r.state == Fulfilling
    requires fulfil.fulfil.allResolved && fulfil.fulfil.revisedPlan == Some(revised)
    requires clean.review.decision == NoMaterialGap && clean.review.improvedPlan.None?
    ensures var calls := DoFulfilment(cfg, r, NoField, [fulfil, clean]).calls;
      |calls| == 3 && calls[1].ReviewCall? && calls[1].plan == revised
      && calls[2].ExecuteCall? && calls[2].plan == GetOr(r.artifacts.candidatePlan, NoField)
  {
    assert [fulfil, clean][1..] == [clean];
    FulfilmentCalls(cfg, r, [fulfil, clean]);
    CleanReviewExecutesExactly(cfg, r.Advance(Reviewing, "fulfilment_complete"), revised, None, [clean]);
  }

  lemma FulfilmentCalls(cfg: Config, r: OperationRecord, script: Script)
    requires cfg.fulfilment && r.state == Fulfilling && script != [] && script[0].fulfil.allResolved
    ensures var revised := GetOr(script[0].fulfil.revisedPlan, NoField);
      DoFulfilment(cfg, r, NoField, script).calls
      == [FulfilCall(r.operationId, r.history)]
         + DoReview(cfg, r.Advance(Reviewing, "fulfilment_complete"), revised, None, script[1..]).calls
  {
  }

  // ----- Write-once facts over runs -----

  // Between two moments of a run in which the operation is not registered
  // anew, its record has only evolved.
  lemma MiddleEvolves(cfg: Config, store: Store, turns: seq<Turn>, id: string)
    requires StoreOk(cfg, store) && id in store && id !in Registered(turns)
    ensures StoreOk(cfg, RunCalls(cfg, store, turns).0)
    ensures id in RunCalls(cfg, store, turns).0 && Evolves(store[id], RunCalls(cfg, store, turns).0[id])
  {
    RunGood(cfg, store, turns);
  }

  // At most one claimant is ever told that it holds the execution.
  lemma OneClaimant(cfg: Config, store: Store, id: string, first: Claim, between: seq<Turn>, second: Claim)
    requires StoreOk(cfg, store) && id !in Registered(between)
    requires Apply(cfg, store, ClaimCall(id, first), []).reply.Reply?
    requires Apply(cfg, store, ClaimCall(id, first), []).reply.detail.Claimed?
    requires var later := RunCalls(cfg, Apply(cfg, store, ClaimCall(id, first), []).store, between).0;
      var reply := Apply(cfg, later, ClaimCall(id, second), []).reply;
      reply.Reply? && reply.detail.Claimed?
    ensures first.claimantId == second.claimantId
  {
    var s1 := Apply(cfg, store, ClaimCall(id, first), []).store;
    ApplyGood(cfg, store, ClaimCall(id, first), []);
    ClaimedMeansClaimant(store[id], first);
    MiddleEvolves(cfg, s1, between, id);
    var s2 := RunCalls(cfg, s1, between).0;
    ClaimedMeansClaimant(s2[id], second);
    ClaimGood(cfg, s2[id], second);
  }

  lemma DecidedMeansRecorded(cfg: Config, r: OperationRecord, input: ResumeInput, token: string)
    requires RecordOk(cfg, r) && input.ApprovalDecision?
    requires Resume(cfg, r, input, token, []).reply.Reply? && Resume(cfg, r, input, token, []).reply.detail.Decided?
    ensures Resume(cfg, r, input, token, []).reply.detail.approved == input.approved
    ensures Resume(cfg, r, input, token, []).record.slices.approvalDecision == Some(input.approved)
  {
  }

  // A recorded approval decision never flips.
  lemma OneDecision(cfg: Config, store: Store, id: string, first: ResumeInput, t1: string, between: seq<Turn>,
                    second: ResumeInput, t2: string)
    requires StoreOk(cfg, store) && id in store && id !in Registered(between)
    requires first.ApprovalDecision? && second.ApprovalDecision?
    requires Apply(cfg, store, ResumeCall(id, first, t1), []).reply.Reply?
    requires Apply(cfg, store, ResumeCall(id, first, t1), []).reply.detail.Decided?
    requires var later := RunCalls(cfg, Apply(cfg, store, ResumeCall(id, first, t1), []).store, between).0;
      var reply := Apply(cfg, later, ResumeCall(id, second, t2), []).reply;
      reply.Reply? && reply.detail.Decided?
    ensures first.approved == second.approved
  {
    var s1 := Apply(cfg, store, ResumeCall(id, first, t1), []).store;
    ApplyGood(cfg, store, ResumeCall(id, first, t1), []);
    DecidedMeansRecorded(cfg, store[id], first, t1);
    MiddleEvolves(cfg, s1, between, id);
    var s2 := RunCalls(cfg, s1, between).0;
    DecidedMeansRecorded(cfg, s2[id], second, t2);
    ResumeGood(cfg, s2[id], second, t2, []);
  }

  // A retry key starts at most one review.
  lemma OneReviewPerRetryKey(cfg: Config, store: Store, id: string, key: string,
                             v1: int, p1: string, script1: Script, between: seq<Turn>,
                             v2: int, p2: string, script2: Script)
    requires StoreOk(cfg, store) && id in store && id !in Registered(between)
    requires Apply(cfg, store, RetryCall(id, v1, key, p1), script1).calls != []
    ensures var later := RunCalls(cfg, Apply(cfg, store, RetryCall(id, v1, key, p1), script1).store, between).0;
      Apply(cfg, later, RetryCall(id, v2, key, p2), script2).calls == []
  {
    var s1 := Apply(cfg, store, RetryCall(id, v1, key, p1), script1).store;
    RetrySpends(cfg, store, id, v1, key, p1, script1);
    MiddleEvolves(cfg, s1, between, id);
    var s2 := RunCalls(cfg, s1, between).0;
    SpentStays(s1[id], s2[id], key);
    SpentBlocks(cfg, s2, id, v2, key, p2, script2);
  }

  lemma RetrySpends(cfg: Config, store: Store, id: string, version: int, key: string, provider: string, script: Script)
    requires StoreOk(cfg, store) && id in store
    requires Apply(cfg, store, RetryCall(id, version, key, provider), script).calls != []
    ensures StoreOk(cfg, Apply(cfg, store, RetryCall(id, version, key, provider), script).store)
    ensures id in Apply(cfg, store, RetryCall(id, version, key, provider), script).store
    ensures Spent(Apply(cfg, store, RetryCall(id, version, key, provider), script).store[id], key)
  {
    var r := store[id];
    AppliedTo(cfg, store, RetryCall(id, version, key, provider), script);
    RetryGood(cfg, r, version, key, provider, script);
    UpdateGood(cfg, store, id, RetryAflow(cfg, r, version, key, provider, script));
  }

  lemma SpentBlocks(cfg: Config, store: Store, id: string, version: int, key: string, provider: string, script: Script)
    requires StoreOk(cfg, store) && id in store && Spent(store[id], key)
    ensures Apply(cfg, store, RetryCall(id, version, key, provider), script).calls == []
  {
    RetryGood(cfg, store[id], version, key, provider, script);
  }

  lemma SpentStays(r: OperationRecord, s: OperationRecord, key: string)
    requires Evolves(r, s) && Spent(r, key)
    ensures Spent(s, key)
  {
  }
}
