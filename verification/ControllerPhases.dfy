/**
  Who is asked next, and where the record ends: the conversation one public
  call holds with the adapters, read off the calls and the answers alone, and
  the phase a suspended operation is handed back to, over whole runs.
*/
module ControllerPhases {
  import opened OperationStates
  import opened ControllerProtocol
  import opened ControllerSafety
  import opened ControllerEvents
  import opened Json
  import opened Text

  // ----- The conversation of one call -----

  predicate AsksPlanner(call: AdapterCall) {
    call.CreatePlanCall? || call.ResumePlanCall?
  }

  predicate AsksExecutor(call: AdapterCall) {
    call.ExecuteCall? || call.ResumeExecutionCall?
  }

  // `next` is the call that follows when `call` is answered with `a`.
  ghost predicate Follows(cfg: Config, call: AdapterCall, a: Answer, next: AdapterCall) {
    next.id == call.id && Next(cfg, call, a, next)
  }

  ghost predicate Next(cfg: Config, call: AdapterCall, a: Answer, next: AdapterCall) {
    || (AsksPlanner(call) && !a.adapter.status.SuspendedStatus?
        && cfg.review && next.ReviewCall? && next.plan == a.adapter.plan && next.provider == None)
    || (call.ReviewCall? && a.review.decision == NoMaterialGap
        && cfg.execution && next.ExecuteCall?
        && (a.review.improvedPlan.Some? ==> next.plan == a.review.improvedPlan.value))
    || (call.ReviewCall? && a.review.decision == MaterialGapFound && cfg.fulfilment && next.FulfilCall?)
    || (call.FulfilCall? && a.fulfil.allResolved
        && cfg.review && next.ReviewCall? && next.provider == None
        && (a.fulfil.revisedPlan.Some? ==> next.plan == a.fulfil.revisedPlan.value))
  }

  // Nobody is asked after the planner or the executor of `phase` answered so.
  ghost predicate Answered(result: AdapterResult, phase: Phase, out: Outcome) {
    var s := out.record;
    match result.status
    case DoneStatus =>
      phase == ExecutionPhase && s.state == Completed && out.reply == Reply(Completed, Other)
    case FailedStatus =>
      phase == ExecutionPhase && s.state == CancelledByUser && out.reply == Reply(CancelledByUser, Error("adapter_failed"))
    case UnknownStatus =>
      phase == ExecutionPhase && s.state == SandboxRunning && out.reply == Reply(SandboxRunning, Error("unknown adapter status"))
    case SuspendedStatus(ForApproval) =>
      && s.state == SuspendedForApproval && s.slices.resumePhase == Some(phase)
      && s.slices.suspensionId == Some(GetOr(result.suspensionId, ""))
      && s.slices.approvalToolCall == Some(result.toolCall)
      && s.suspendReason == Some(GetOr(result.reason, "approval_required"))
      && out.reply == Reply(SuspendedForApproval, Other)
    case SuspendedStatus(ForToolResult) =>
      && s.state == SuspendedForToolResult && s.slices.resumePhase == Some(phase)
      && s.slices.suspensionId == Some(GetOr(result.suspensionId, ""))
      && s.slices.pendingCalls == GetOr(result.pendingCalls, [])
      && s.suspendReason == Some("frontend_tool_execution")
      && out.reply == Reply(SuspendedForToolResult, Other)
    case SuspendedStatus(OtherSuspension) =>
      && s.state == (if phase == PlanningPhase then Planning else SandboxRunning)
      && s.slices.resumePhase == Some(phase)
      && (result.suspensionId.Some? ==> s.slices.suspensionId == result.suspensionId)
      && (result.pendingCalls.Some? ==> s.slices.pendingCalls == result.pendingCalls.value)
      && s.suspendReason == Some(GetOr(result.reason, if phase == PlanningPhase then "planning" else "execution"))
      && out.reply == Reply(s.state, Other)
  }

  // `call`, answered with `a`, is the last of the conversation.
  ghost predicate Ends(cfg: Config, call: AdapterCall, a: Answer, out: Outcome) {
    var s := out.record;
    if AsksExecutor(call) then Answered(a.adapter, ExecutionPhase, out)
    else if AsksPlanner(call) && a.adapter.status.SuspendedStatus? then Answered(a.adapter, PlanningPhase, out)
    else if AsksPlanner(call) then
      // a finished plan waits for a review adapter, or a review that raises
      && s.state == Reviewing && s.artifacts.candidatePlan == Some(a.adapter.plan)
      && ((!cfg.review && out.reply == Reply(Reviewing, Other)) || (call.ResumePlanCall? && out.reply == Raised))
    else if call.ReviewCall? then
      match a.review.decision
      case NoMaterialGap => s.state == SandboxReady && !cfg.execution && out.reply == Reply(SandboxReady, Other)
      case MaterialGapFound => s.state == Fulfilling && !cfg.fulfilment && out.reply == Reply(Fulfilling, Other)
      case ProviderError =>
        && s.state == SuspendedProviderRecovery && s.suspendReason == Some("aflow_provider_error")
        && (a.review.issueId.Some? && a.review.issueId.value != "" ==> s.artifacts.issueId == a.review.issueId)
        && out.reply == Reply(SuspendedProviderRecovery, Other)
      case OtherDecision(text) =>
        s.state == SuspendedEvidence && s.suspendReason == Some(text) && out.reply == Reply(SuspendedEvidence, Other)
    else if a.fulfil.allResolved then s.state == Reviewing && !cfg.review && out.reply == Reply(Reviewing, Other)
    else if exists d :: d in a.fulfil.needsDecision && d then
      s.state == AwaitingDecision && out.reply == Reply(AwaitingDecision, Other)
    else s.state == CollectingEvidence && out.reply == Reply(CollectingEvidence, Other)
  }

  // `call` raised: the record stays where it was when the adapter was asked.
  ghost predicate Breaks(call: AdapterCall, out: Outcome) {
    && out.reply == Raised
    && out.record.state == (if AsksPlanner(call) then Planning else if AsksExecutor(call) then SandboxRunning
                            else if call.ReviewCall? then Reviewing else Fulfilling)
  }

  // Each answer but the last leads to the next call, and the last one settles
  // the record and the reply. The script is what the adapters answer, in order.
  ghost predicate Conversation(cfg: Config, script: Script, out: Outcome) {
    var n := |out.calls|;
    && n <= |script| + 1
    && (forall i :: 0 <= i < n - 1 ==> Follows(cfg, out.calls[i], script[i], out.calls[i + 1]))
    && (0 < n <= |script| ==> Ends(cfg, out.calls[n - 1], script[n - 1], out))
    && (n == |script| + 1 ==> Breaks(out.calls[n - 1], out))
  }

  lemma EndsAlike(cfg: Config, call: AdapterCall, a: Answer, out: Outcome, other: Outcome)
    requires Ends(cfg, call, a, out) && other.record == out.record && other.reply == out.reply
    ensures Ends(cfg, call, a, other)
  {
  }

  lemma TellingConverses(cfg: Config, script: Script, out: Outcome, earlier: seq<Event>)
    requires Conversation(cfg, script, out)
    ensures Conversation(cfg, script, out.Telling(earlier))
  {
    var n := |out.calls|;
    if 0 < n <= |script| {
      EndsAlike(cfg, out.calls[n - 1], script[n - 1], out, out.Telling(earlier));
    }
  }

  lemma Prepend(cfg: Config, script: Script, call: AdapterCall, inner: Outcome)
    requires script != [] && Conversation(cfg, script[1..], inner)
    requires inner.calls != [] ==> Follows(cfg, call, script[0], inner.calls[0])
    requires inner.calls == [] ==> Ends(cfg, call, script[0], inner)
    ensures Conversation(cfg, script, inner.After(call))
  {
    var out := inner.After(call);
    forall i | 0 <= i < |out.calls| - 1 ensures Follows(cfg, out.calls[i], script[i], out.calls[i + 1]) {
      if i > 0 {
        assert Follows(cfg, inner.calls[i - 1], script[1..][i - 1], inner.calls[i]);
      }
    }
    var n := |inner.calls|;
    if 0 < n <= |script| - 1 {
      EndsAlike(cfg, inner.calls[n - 1], script[1..][n - 1], inner, out);
    } else if n == 0 {
      EndsAlike(cfg, call, script[0], inner, out);
    }
  }

  lemma HandlerAnswers(cfg: Config, r: OperationRecord, result: AdapterResult, phase: Phase)
    requires Handles(r, result, phase)
    ensures HandleAdapterResult(cfg, r, result, phase).calls == []
    ensures Answered(result, phase, HandleAdapterResult(cfg, r, result, phase))
  {
  }

  lemma ExecutionConverses(cfg: Config, r: OperationRecord, script: Script)
    requires r.state == SandboxReady
    ensures Conversation(cfg, script, DoExecution(cfg, r, script))
  {
    if cfg.execution && script != [] {
      HandlerAnswers(cfg, r.Advance(SandboxRunning, "execution_started"), script[0].adapter, ExecutionPhase);
    }
  }

  lemma CleanReviewConverses(cfg: Config, r: OperationRecord, plan: Plan, provider: Option<string>, script: Script)
    requires r.state == Reviewing && cfg.review && script != [] && script[0].review.decision == NoMaterialGap
    ensures Conversation(cfg, script, DoReview(cfg, r, plan, provider, script))
  {
    var answer := script[0].review;
    var ready := StoreImprovedPlan(r, answer).Advance(SandboxReady, "review_clean");
    var told := Emit(ready, ReviewCompleted(answer.reviewId));
    var call := ReviewCall(r.operationId, r.history, plan, provider, Some(answer));
    ExecutionConverses(cfg, ready, script[1..]);
    TellingConverses(cfg, script[1..], DoExecution(cfg, ready, script[1..]), told);
    CleanReviewShape(cfg, r, plan, provider, script);
    CleanReviewFollows(cfg, r, call, script[0], script[1..]);
    Prepend(cfg, script, call, DoExecution(cfg, ready, script[1..]).Telling(told));
  }

  lemma CleanReviewShape(cfg: Config, r: OperationRecord, plan: Plan, provider: Option<string>, script: Script)
    requires r.state == Reviewing && cfg.review && script != [] && script[0].review.decision == NoMaterialGap
    ensures var answer := script[0].review;
      var ready := StoreImprovedPlan(r, answer).Advance(SandboxReady, "review_clean");
      DoReview(cfg, r, plan, provider, script)
      == DoExecution(cfg, ready, script[1..]).Telling(Emit(ready, ReviewCompleted(answer.reviewId)))
         .After(ReviewCall(r.operationId, r.history, plan, provider, Some(answer)))
  {
  }

  lemma CleanReviewFollows(cfg: Config, r: OperationRecord, call: AdapterCall, a: Answer, rest: Script)
    requires r.state == Reviewing && call.ReviewCall? && call.id == r.operationId && a.review.decision == NoMaterialGap
    ensures var ready := StoreImprovedPlan(r, a.review).Advance(SandboxReady, "review_clean");
      var inner := DoExecution(cfg, ready, rest).Telling(Emit(ready, ReviewCompleted(a.review.reviewId)));
      if inner.calls == [] then Ends(cfg, call, a, inner) else Follows(cfg, call, a, inner.calls[0])
  {
    ExecutionCallsAre(cfg, StoreImprovedPlan(r, a.review).Advance(SandboxReady, "review_clean"), rest);
  }

  // Whom a review asks first.
  lemma ReviewOpens(cfg: Config, r: OperationRecord, plan: Plan, provider: Option<string>, script: Script)
    requires r.state == Reviewing
    ensures var out := DoReview(cfg, r, plan, provider, script);
      if cfg.review then
        out.calls != [] && out.calls[0]
          == ReviewCall(r.operationId, r.history, plan, provider, if script == [] then None else Some(script[0].review))
      else out == Outcome(r, [], Reply(Reviewing, Other), [])
  {
  }

  lemma FulfilmentOpens(cfg: Config, r: OperationRecord, plan: Plan, script: Script)
    requires r.state == Fulfilling
    ensures var out := DoFulfilment(cfg, r, plan, script);
      if cfg.fulfilment then out.calls != [] && out.calls[0] == FulfilCall(r.operationId, r.history)
      else out == Outcome(r, [], Reply(Fulfilling, Other), [])
  {
  }

  lemma HaltedReviewConverses(cfg: Config, r: OperationRecord, plan: Plan, provider: Option<string>, script: Script)
    requires r.state == Reviewing
    requires !cfg.review || script == [] || script[0].review.decision.ProviderError? || script[0].review.decision.OtherDecision?
    ensures Conversation(cfg, script, DoReview(cfg, r, plan, provider, script))
  {
  }

  lemma GapFollows(cfg: Config, r: OperationRecord, plan: Plan, provider: Option<string>, script: Script)
    requires r.state == Reviewing && cfg.review && script != [] && script[0].review.decision == MaterialGapFound
    ensures var call := ReviewCall(r.operationId, r.history, plan, provider, Some(script[0].review));
      var inner := DoFulfilment(cfg, r.Advance(Fulfilling, "material_gap_found"), plan, script[1..]);
      && DoReview(cfg, r, plan, provider, script) == inner.After(call)
      && (if inner.calls == [] then Ends(cfg, call, script[0], inner) else Follows(cfg, call, script[0], inner.calls[0]))
  {
    FulfilmentOpens(cfg, r.Advance(Fulfilling, "material_gap_found"), plan, script[1..]);
  }

  lemma ResolvedFollows(cfg: Config, r: OperationRecord, plan: Plan, script: Script)
    requires r.state == Fulfilling && cfg.fulfilment && script != [] && script[0].fulfil.allResolved
    ensures var (call, revised) := (FulfilCall(r.operationId, r.history), GetOr(script[0].fulfil.revisedPlan, plan));
      var inner := DoReview(cfg, r.Advance(Reviewing, "fulfilment_complete"), revised, None, script[1..]);
      && DoFulfilment(cfg, r, plan, script) == inner.After(call)
      && (if inner.calls == [] then Ends(cfg, call, script[0], inner) else Follows(cfg, call, script[0], inner.calls[0]))
  {
    ReviewOpens(cfg, r.Advance(Reviewing, "fulfilment_complete"), GetOr(script[0].fulfil.revisedPlan, plan), None, script[1..]);
  }

  lemma HaltedFulfilmentConverses(cfg: Config, r: OperationRecord, plan: Plan, script: Script)
    requires r.state == Fulfilling && (!cfg.fulfilment || script == [] || !script[0].fulfil.allResolved)
    ensures Conversation(cfg, script, DoFulfilment(cfg, r, plan, script))
  {
  }

  lemma {:induction false} ReviewConverses(cfg: Config, r: OperationRecord, plan: Plan, provider: Option<string>, script: Script)
    requires r.state == Reviewing
    ensures Conversation(cfg, script, DoReview(cfg, r, plan, provider, script))
    decreases |script|, 1
  {
    if cfg.review && script != [] && script[0].review.decision == NoMaterialGap {
      CleanReviewConverses(cfg, r, plan, provider, script);
    } else if cfg.review && script != [] && script[0].review.decision == MaterialGapFound {
      var moved := r.Advance(Fulfilling, "material_gap_found");
      GapFollows(cfg, r, plan, provider, script);
      FulfilmentConverses(cfg, moved, plan, script[1..]);
      Prepend(cfg, script, ReviewCall(r.operationId, r.history, plan, provider, Some(script[0].review)),
              DoFulfilment(cfg, moved, plan, script[1..]));
    } else {
      HaltedReviewConverses(cfg, r, plan, provider, script);
    }
  }

  lemma {:induction false} FulfilmentConverses(cfg: Config, r: OperationRecord, plan: Plan, script: Script)
    requires r.state == Fulfilling
    ensures Conversation(cfg, script, DoFulfilment(cfg, r, plan, script))
    decreases |script|, 2
  {
    if cfg.fulfilment && script != [] && script[0].fulfil.allResolved {
      var moved, revised := r.Advance(Reviewing, "fulfilment_complete"), GetOr(script[0].fulfil.revisedPlan, plan);
      ResolvedFollows(cfg, r, plan, script);
      ReviewConverses(cfg, moved, revised, None, script[1..]);
      Prepend(cfg, script, FulfilCall(r.operationId, r.history), DoReview(cfg, moved, revised, None, script[1..]));
    } else {
      HaltedFulfilmentConverses(cfg, r, plan, script);
    }
  }

  lemma PlannedFollows(cfg: Config, r: OperationRecord, reason: string, call: AdapterCall, a: Answer, rest: Script)
    requires r.state == Planning && call.id == r.operationId && AsksPlanner(call) && !a.adapter.status.SuspendedStatus?
    ensures var inner := DoReview(cfg, PlanToReview(r, a.adapter.plan, reason), a.adapter.plan, None, rest);
      if inner.calls == [] then Ends(cfg, call, a, inner) else Follows(cfg, call, a, inner.calls[0])
  {
    ReviewOpens(cfg, PlanToReview(r, a.adapter.plan, reason), a.adapter.plan, None, rest);
  }

  lemma PlannedConverses(cfg: Config, r: OperationRecord, reason: string, call: AdapterCall, script: Script)
    requires r.state == Planning && call.id == r.operationId && script != [] && AsksPlanner(call)
    requires !script[0].adapter.status.SuspendedStatus?
    ensures var plan := script[0].adapter.plan;
      Conversation(cfg, script, DoReview(cfg, PlanToReview(r, plan, reason), plan, None, script[1..]).After(call))
  {
    var plan := script[0].adapter.plan;
    var reviewing := PlanToReview(r, plan, reason);
    PlannedFollows(cfg, r, reason, call, script[0], script[1..]);
    ReviewConverses(cfg, reviewing, plan, None, script[1..]);
    Prepend(cfg, script, call, DoReview(cfg, reviewing, plan, None, script[1..]));
  }

  // What planning asks, and how it converses.
  lemma PlanningConverses(cfg: Config, r: OperationRecord, script: Script)
    requires r.state == Planning
    ensures var out := DoPlanning(cfg, r, script);
      && Conversation(cfg, script, out)
      && (cfg.planning ==> out.calls != [] && out.calls[0] == CreatePlanCall(r.operationId, r.history))
      && (!cfg.planning ==> out == Outcome(r, [], Reply(Planning, Other), []))
  {
    if cfg.planning && script != [] {
      if script[0].adapter.status.SuspendedStatus? {
        HandlerAnswers(cfg, r, script[0].adapter, PlanningPhase);
      } else {
        PlannedConverses(cfg, r, "plan_created", CreatePlanCall(r.operationId, r.history), script);
      }
    }
  }

  lemma ContinueConverses(cfg: Config, r: OperationRecord, withResults: bool, script: Script)
    ensures Conversation(cfg, script, Continue(cfg, r, withResults, script))
  {
    if r.state == Planning && cfg.planning && script != [] {
      if script[0].adapter.status.SuspendedStatus? {
        HandlerAnswers(cfg, r, script[0].adapter, PlanningPhase);
      } else if withResults {
        PlannedConverses(cfg, r, "plan_resumed", ResumePlanCall(r.operationId, r.history), script);
      }
    } else if r.state == SandboxRunning && cfg.execution && script != [] {
      HandlerAnswers(cfg, r, script[0].adapter, ExecutionPhase);
    }
  }

  // ----- Where each public call goes -----

  // The step a call takes from where the record stood.
  ghost predicate Taken(r: OperationRecord, to: State, reason: string, s: OperationRecord) {
    |r.history| < |s.history| && s.history[..|r.history|] == r.history && s.history[|r.history|] == Step(r.state, to, reason)
  }

  // Nobody was asked, or `call` came first.
  ghost predicate AsksFirst(call: AdapterCall, configured: bool, calls: seq<AdapterCall>) {
    if configured then calls != [] && calls[0] == call else calls == []
  }

  lemma TakenKept(r: OperationRecord, to: State, reason: string, m: OperationRecord, s: OperationRecord)
    requires m.history == r.history + [Step(r.state, to, reason)] && m.history <= s.history
    ensures Taken(r, to, reason, s)
  {
    assert s.history[..|r.history|] == m.history[..|r.history|];
  }

  // The state a resume leads to, by the suspension and the phase it remembers.
  ghost predicate ResumesTo(r: OperationRecord, to: State) {
    && (r.state == SuspendedForToolResult ==>
          to == if r.slices.resumePhase == Some(ExecutionPhase) then SandboxRunning else Planning)
    && (r.state == SuspendedForApproval ==>
          to == if r.slices.resumePhase == Some(PlanningPhase) then Planning else SandboxRunning)
    && (r.state == SuspendedPlanRevision ==> to == Reviewing)
    && (r.state == SuspendedProviderRecovery ==> to == SandboxReady)
    && (r.state == SuspendedEvidence ==> to == Reviewing)
    && (r.state == SuspendedPackageRepair ==> to == SandboxReady)
    && (r.state == SuspendedDecision ==> to == Reviewing)
  }

  // A resume takes one step, to the state named above, and asks first whoever
  // works there: the planner, the executor, or nobody.
  ghost predicate ResumedAt(cfg: Config, r: OperationRecord, to: State, reason: string, out: Outcome) {
    && Taken(r, to, reason, out.record)
    && (to == Planning ==>
          AsksFirst(ResumePlanCall(r.operationId, r.history + [Step(r.state, to, reason)]), cfg.planning, out.calls))
    && (to == SandboxRunning ==>
          AsksFirst(ResumeExecutionCall(r.operationId, r.history + [Step(r.state, to, reason)]), cfg.execution, out.calls))
    && (to != Planning && to != SandboxRunning ==> out.calls == [])
    && (out.calls == [] ==> out.reply == Reply(to, Other) && out.record.state == to)
  }

  ghost predicate Resumed(cfg: Config, r: OperationRecord, reason: string, out: Outcome) {
    exists to :: ResumesTo(r, to) && ResumedAt(cfg, r, to, reason, out)
  }

  lemma ContinueAt(cfg: Config, r: OperationRecord, m: OperationRecord, to: State, reason: string, withResults: bool, script: Script)
    requires RecordOk(cfg, m) && m.operationId == r.operationId && m.state == to
    requires m.history == r.history + [Step(r.state, to, reason)]
    ensures ResumedAt(cfg, r, to, reason, Continue(cfg, m, withResults, script))
  {
    ContinueGood(cfg, m, withResults, script);
    TakenKept(r, to, reason, m, Continue(cfg, m, withResults, script).record);
  }

  lemma TargetNamed(r: OperationRecord)
    requires Suspended(r.state)
    ensures ResumesTo(r, ResumeTarget(r))
  {
  }

  lemma ContinueResumes(cfg: Config, r: OperationRecord, m: OperationRecord, reason: string, withResults: bool, script: Script)
    requires Suspended(r.state) && RecordOk(cfg, m) && m.operationId == r.operationId && m.state == ResumeTarget(r)
    requires m.history == r.history + [Step(r.state, m.state, reason)]
    ensures Resumed(cfg, r, reason, Continue(cfg, m, withResults, script))
  {
    ContinueAt(cfg, r, m, m.state, reason, withResults, script);
    TargetNamed(r);
  }

  lemma OtherShape(cfg: Config, r: OperationRecord, token: string, script: Script)
    requires Suspended(r.state)
    ensures ResumeTarget(r) in Successors(r.state)
    ensures Resume(cfg, r, OtherResume, token, script)
      == Continue(cfg, r.Advance(ResumeTarget(r), "resumed with input"), false, script)
  {
    ResumeTargetLegal(r);
  }

  // Every suspended operation resumed with other input goes on from the state
  // that is named for its suspension.
  lemma ResumesExactly(cfg: Config, r: OperationRecord, token: string, script: Script)
    requires RecordOk(cfg, r) && Suspended(r.state)
    ensures Resumed(cfg, r, "resumed with input", Resume(cfg, r, OtherResume, token, script))
  {
    OtherShape(cfg, r, token, script);
    ResumeMoveOk(cfg, r, "resumed with input");
    ContinueResumes(cfg, r, r.Advance(ResumeTarget(r), "resumed with input"), "resumed with input", false, script);
  }

  // Tool results are accepted exactly when no claim is on record, or they are
  // the first under it and carry its call id or none; accepted, they resume the
  // operation like any other input.
  lemma ResultsResumeExactly(cfg: Config, r: OperationRecord, results: seq<ToolResult>, token: string, script: Script)
    requires RecordOk(cfg, r) && Suspended(r.state)
    ensures var (out, claim) := (Resume(cfg, r, ToolResults(results), token, script), r.slices.executionClaim);
      if claim.Some? && r.slices.consumedResults.Some? then
        out == Outcome(r, [], Reply(r.state, if r.slices.consumedResults.value == results then ResultsAccepted(true)
                                             else Error("conflicting_result_replay")), [])
      else if claim.Some? && (exists x :: x in results && x.callId.Some? && x.callId.value !in {"", claim.value.callId}) then
        out == Outcome(r, [], Reply(r.state, Error("result_call_id_mismatch")), [])
      else Resumed(cfg, r, "tool_result_submitted", out)
  {
    var claim := r.slices.executionClaim;
    if claim.Some? {
      StrayExactly(claim.value, results);
    }
    if claim.None? || (r.slices.consumedResults.None? && MatchesClaim(claim.value, results)) {
      AcceptedResumes(cfg, r, results, script);
    }
  }

  lemma AcceptedResumes(cfg: Config, r: OperationRecord, results: seq<ToolResult>, script: Script)
    requires RecordOk(cfg, r) && Suspended(r.state)
    requires r.slices.executionClaim.Some? ==>
      r.slices.consumedResults.None? && MatchesClaim(r.slices.executionClaim.value, results)
    ensures Resumed(cfg, r, "tool_result_submitted", AcceptResults(cfg, r, results, script))
  {
    AcceptedShape(cfg, r, results, script);
    ResumeMoveOk(cfg, r, "tool_result_submitted");
    var moved := r.Advance(ResumeTarget(r), "tool_result_submitted");
    ConsumeOk(cfg, moved, results);
    ContinueResumes(cfg, r, Consume(moved, results), "tool_result_submitted", true, script);
  }

  lemma StrayExactly(claim: Claim, results: seq<ToolResult>)
    ensures MatchesClaim(claim, results)
       <==> !(exists x :: x in results && x.callId.Some? && x.callId.value !in {"", claim.callId})
  {
    if MatchesClaim(claim, results) {
      forall x | x in results ensures x.callId.None? || x.callId.value in {"", claim.callId} {
        var i :| 0 <= i < |results| && results[i] == x;
      }
    } else {
      var i :| 0 <= i < |results| && GetOr(results[i].callId, "") != "" && results[i].callId.value != claim.callId;
      assert results[i] in results;
    }
  }

  lemma TaskShape(cfg: Config, r: OperationRecord, plan: Option<Plan>, script: Script)
    requires r.state == Received && r.sourceKind == Task
    ensures var moved := r.Advance(Planning, "task_accepted");
      Start(cfg, r, plan, script) == DoPlanning(cfg, moved, script).Telling(Emit(moved, StateTransition))
  {
  }

  // How each kind of operation starts: a task by planning,
  lemma TaskStarts(cfg: Config, r: OperationRecord, plan: Option<Plan>, script: Script)
    requires RecordOk(cfg, r) && r.state == Received && r.sourceKind == Task
    ensures var out := Start(cfg, r, plan, script);
      && Taken(r, Planning, "task_accepted", out.record) && Conversation(cfg, script, out)
      && AsksFirst(CreatePlanCall(r.operationId, r.history + [Step(Received, Planning, "task_accepted")]), cfg.planning, out.calls)
  {
    var moved := r.Advance(Planning, "task_accepted");
    AdvanceOk(cfg, r, Planning, "task_accepted");
    PlanningConverses(cfg, moved, script);
    DoPlanningGood(cfg, moved, script);
    TakenKept(r, Planning, "task_accepted", moved, DoPlanning(cfg, moved, script).record);
    TaskShape(cfg, r, plan, script);
    TellingConverses(cfg, script, DoPlanning(cfg, moved, script), Emit(moved, StateTransition));
  }

  // a prepared plan and a fix by the review of the plan given with them,
  lemma PlansStart(cfg: Config, r: OperationRecord, plan: Plan, script: Script)
    requires RecordOk(cfg, r) && r.state == Received
    ensures r.sourceKind == PreparedPlan ==>
      StartsReview(cfg, r, plan, "prepared_plan_submitted", script, Start(cfg, r, Some(plan), script))
    ensures r.sourceKind == Fix && plan != NoField ==>
      StartsReview(cfg, r, plan, "fix_accepted", script, Start(cfg, r, Some(plan), script))
  {
    if r.sourceKind == PreparedPlan {
      StartedReview(cfg, r, Some(plan), plan, "prepared_plan_submitted", script);
    } else if r.sourceKind == Fix && plan != NoField {
      StartedReview(cfg, r, r.artifacts.candidatePlan, plan, "fix_accepted", script);
      var moved := r.Advance(Reviewing, "fix_accepted");
      assert moved.(artifacts := moved.artifacts.(candidatePlan := r.artifacts.candidatePlan)) == moved;
    }
  }

  // and everything else asks nobody: a fix without a plan waits for review, a
  // chat raises, and the rest is refused.
  lemma OthersStart(cfg: Config, r: OperationRecord, plan: Option<Plan>, script: Script)
    ensures var out := Start(cfg, r, plan, script);
      && (r.state != Received ==> out == Outcome(r, [], Reply(r.state, Error("operation already started")), []))
      && (r.state == Received && r.sourceKind == Fix && plan in {None, Some(NoField)} ==>
            && out.record.state == Reviewing && out.record.history == r.history + [Step(Received, Reviewing, "fix_accepted")]
            && out.calls == [] && out.reply == Reply(Reviewing, Other))
      && (r.state == Received && r.sourceKind == Chat ==>
            out == Outcome(r, [], if cfg.chat then Raised else Reply(Received, Other), []))
      && (r.state == Received && (r.sourceKind == OtherSource || (r.sourceKind == PreparedPlan && plan.None?)) ==>
            out == Outcome(r, [], Reply(Received, Error("unknown source_kind")), []))
  {
  }

  // The given plan is reviewed first, without naming a provider.
  ghost predicate StartsReview(cfg: Config, r: OperationRecord, plan: Plan, reason: string, script: Script, out: Outcome) {
    && Taken(r, Reviewing, reason, out.record) && Conversation(cfg, script, out)
    && AsksFirst(ReviewCall(r.operationId, r.history + [Step(r.state, Reviewing, reason)], plan, None,
                            if script == [] then None else Some(script[0].review)), cfg.review, out.calls)
  }

  lemma StartedReview(cfg: Config, r: OperationRecord, candidate: Option<Plan>, plan: Plan, reason: string, script: Script)
    requires RecordOk(cfg, r) && r.state == Received
    ensures var moved := r.Advance(Reviewing, reason);
      StartsReview(cfg, r, plan, reason, script,
                   DoReview(cfg, moved.(artifacts := moved.artifacts.(candidatePlan := candidate)), plan, None, script))
  {
    var moved := r.Advance(Reviewing, reason);
    var stored := moved.(artifacts := moved.artifacts.(candidatePlan := candidate));
    AdvanceOk(cfg, r, Reviewing, reason);
    ReviewOpens(cfg, stored, plan, None, script);
    ReviewConverses(cfg, stored, plan, None, script);
    DoReviewGood(cfg, stored, plan, None, script);
    TakenKept(r, Reviewing, reason, stored, DoReview(cfg, stored, plan, None, script).record);
  }

  // A retry starts over exactly from a provider failure, under a fresh key, at
  // the version the caller saw; it reviews the stored candidate with the
  // provider named, and is noted under its key unless it raised.
  lemma RetriesExactly(cfg: Config, r: OperationRecord, version: int, key: string, provider: string, script: Script)
    requires RecordOk(cfg, r)
    ensures var out := RetryAflow(cfg, r, version, key, provider, script);
      if key in r.artifacts.retries then
        out == Outcome(r, [], Reply(r.state, Replayed(r.artifacts.retries[key])), [])
      else if r.state != SuspendedProviderRecovery then
        out == Outcome(r, [], Reply(r.state, Error("operation_not_in_provider_recovery")), [])
      else if version != |r.history| then
        out == Outcome(r, [], Reply(r.state, Error("stale_operation_version")), [])
      else if r.artifacts.candidatePlan.None? then
        out == Outcome(r, [], Reply(r.state, Error("candidate_plan_missing")), [])
      else
        && Taken(r, Reviewing, "aflow_retry:" + provider, out.record) && Conversation(cfg, script, out)
        && AsksFirst(ReviewCall(r.operationId, r.history + [Step(r.state, Reviewing, "aflow_retry:" + provider)],
                                r.artifacts.candidatePlan.value, Some(provider),
                                if script == [] then None else Some(script[0].review)), cfg.review, out.calls)
        && out.record.artifacts.retries
           == if out.reply.Raised? then r.artifacts.retries
              else r.artifacts.retries[key := RetryNote(provider, out.record.state)]
  {
    if key !in r.artifacts.retries && r.state == SuspendedProviderRecovery && version == |r.history|
       && r.artifacts.candidatePlan.Some? {
      var moved, plan := r.Advance(Reviewing, "aflow_retry:" + provider), r.artifacts.candidatePlan.value;
      AdvanceOk(cfg, r, Reviewing, "aflow_retry:" + provider);
      ReviewOpens(cfg, moved, plan, Some(provider), script);
      ReviewConverses(cfg, moved, plan, Some(provider), script);
      DoReviewGood(cfg, moved, plan, Some(provider), script);
      var out := DoReview(cfg, moved, plan, Some(provider), script);
      TakenKept(r, Reviewing, "aflow_retry:" + provider, moved, out.record);
      if out.reply.Reply? {
        NotedConverses(cfg, script, out, key, RetryNote(provider, out.reply.state));
      }
    }
  }

  lemma NotedConverses(cfg: Config, script: Script, out: Outcome, key: string, note: RetryNote)
    requires Conversation(cfg, script, out) && out.reply.Reply?
    ensures Conversation(cfg, script, out.(record := NoteRetry(out.record, key, note)))
  {
    var noted := out.(record := NoteRetry(out.record, key, note));
    var n := |out.calls|;
    if 0 < n <= |script| {
      assert Ends(cfg, out.calls[n - 1], script[n - 1], noted);
    }
  }

  // A claim is granted exactly while tool results are awaited, for the current
  // suspension, a pending call and the digest on record if there is one; the
  // first claimant holds it, and may ask again.
  lemma ClaimsExactly(r: OperationRecord, claim: Claim)
    ensures var (out, digest) := (ClaimExecution(r, claim), GetOr(r.slices.argumentDigest, ""));
      && out.calls == [] && out.reply.Reply? && out.reply.state == r.state
      && (out.reply.detail.Claimed? <==>
            && r.state == SuspendedForToolResult
            && (r.slices.suspensionId == Some(claim.suspensionId) || (r.slices.suspensionId.None? && claim.suspensionId == ""))
            && (exists c :: c in r.slices.pendingCalls && c.callId == Some(claim.callId))
            && (digest == "" || claim.argumentDigest == digest)
            && (r.slices.executionClaim.Some? ==> r.slices.executionClaim.value.claimantId == claim.claimantId))
      && (out.reply.detail.Claimed? ==>
            && out.reply.detail.claimantId == claim.claimantId && out.reply.detail.callId == claim.callId
            && out.reply.detail.argumentDigest == digest
            && (out.reply.detail.idempotent <==> r.slices.executionClaim.Some?))
      && out.record == (if out.reply.detail.Claimed? && r.slices.executionClaim.None?
                        then r.(slices := r.slices.(executionClaim := Some(claim))) else r)
  {
  }

  // Which of the refusals a claim meets.
  lemma ClaimRefusedExactly(r: OperationRecord, claim: Claim)
    ensures var detail := ClaimExecution(r, claim).reply.detail;
      && (detail == Error("operation_not_suspended_for_tool_result") <==> r.state != SuspendedForToolResult)
      && (r.state == SuspendedForToolResult ==>
            && (detail == Error("suspension_id_mismatch") <==> claim.suspensionId != GetOr(r.slices.suspensionId, ""))
            && (detail == Error("competing_claim") ==>
                  r.slices.executionClaim.Some? && r.slices.executionClaim.value.claimantId != claim.claimantId)
            && (detail == Error("tool_call_not_found") ==> !exists c :: c in r.slices.pendingCalls && c.callId == Some(claim.callId))
            && (detail == Error("argument_digest_mismatch") ==>
                  r.slices.argumentDigest.Some? && r.slices.argumentDigest.value !in {"", claim.argumentDigest}))
  {
  }

  // A cancellation takes the one step, with the caller's reason.
  lemma CancelsExactly(r: OperationRecord, reason: string)
    ensures var out := Cancel(r, reason);
      if Terminal(r.state) then out == Outcome(r, [], Reply(r.state, Error("operation already terminal")), [])
      else if r.state == Received then out == Outcome(r, [], Reply(Received, Error("invalid transition")), [])
      else
        && out.record.state == CancelledByUser && out.record.history == r.history + [Step(r.state, CancelledByUser, reason)]
        && out.record.slices == r.slices && out.record.artifacts == r.artifacts
        && out.calls == [] && out.reply == Reply(CancelledByUser, Other)
  {
    CancelLegal(r.state);
  }

  // An operation is registered exactly if the adapters its kind will need are
  // configured: received, with an empty history and nothing decided.
  lemma RegistersExactly(cfg: Config, store: Store, id: string, kind: SourceKind, prompt: string, script: Script)
    ensures var e := Apply(cfg, store, RegisterCall(id, kind, prompt), script);
      && e.calls == []
      && (e.reply == Reply(Received, Other) <==>
            match kind
            case Task => cfg.planning && cfg.review && cfg.execution
            case PreparedPlan => cfg.review && cfg.execution
            case Fix => cfg.review
            case Chat => cfg.chat
            case OtherSource => true)
      && (e.reply != Reply(Received, Other) ==>
            e.reply == Reply(Received, Error("required_adapters_unavailable")) && e.store == store && e.events == [])
      && (e.reply == Reply(Received, Other) ==>
            && e.store == store[id := e.store[id]]
            && e.store[id].operationId == id && e.store[id].sourceKind == kind && e.store[id].prompt == prompt
            && e.store[id].state == Received && e.store[id].history == []
            && e.store[id].slices == Slices(None, None, None, None, [], None, None, None, None)
            && e.store[id].artifacts == Artifacts(None, None, None, None, map[]))
  {
  }

  // The caller names this suspension: by the id it waits under, by the id it
  // was approved under, or by none.
  predicate Addressed(r: OperationRecord, suspensionId: string) {
    || suspensionId == ""
    || r.slices.suspensionId == Some(suspensionId) || r.slices.approvalSuspensionId == Some(suspensionId)
    || (r.slices.suspensionId in {None, Some("")} && r.slices.approvalSuspensionId in {None, Some("")})
  }

  // A decision is refused for another suspension, replayed or refused when one
  // is on record, and refused when the digest of the call differs; no decision
  // asks an adapter.
  lemma DecisionsAnswered(cfg: Config, r: OperationRecord, input: ResumeInput, token: string, script: Script)
    requires Suspended(r.state) && input.ApprovalDecision?
    ensures var (out, decided) := (Resume(cfg, r, input, token, script), r.slices.approvalDecision);
      && out.calls == []
      && (!Addressed(r, input.suspensionId) ==> out == Outcome(r, [], Reply(r.state, Error("suspension_id_mismatch")), []))
      && (Addressed(r, input.suspensionId) && decided.Some? ==>
            out == Outcome(r, [], Reply(r.state, if decided.value == input.approved then Decided(input.approved, true)
                                                 else Error("conflicting_approval_decision")), []))
      && (Addressed(r, input.suspensionId) && decided.None? && DigestRejects(cfg, r, input.callId) ==>
            out == Outcome(r, [], Reply(r.state, Error("argument_digest_mismatch")), []))
  {
    DecisionCallsNobody(cfg, r, input, token);
  }

  // A decision taken up: a denial cancels the operation;
  lemma DenialCancels(cfg: Config, r: OperationRecord, input: ResumeInput, token: string, script: Script)
    requires Suspended(r.state) && input.ApprovalDecision? && !input.approved
    requires Addressed(r, input.suspensionId) && r.slices.approvalDecision.None? && !DigestRejects(cfg, r, input.callId)
    ensures var (out, s) := (Resume(cfg, r, input, token, script), Resume(cfg, r, input, token, script).record);
      && s.state == CancelledByUser && s.history == r.history + [Step(r.state, CancelledByUser, "approval_denied")]
      && s.slices == r.slices.(approvalDecision := Some(false)) && s.artifacts == r.artifacts
      && out.reply == Reply(CancelledByUser, Decided(false, false))
  {
    DeniedShape(cfg, r, input, token);
  }

  lemma ApproveShape(cfg: Config, r: OperationRecord, input: ResumeInput, token: string, script: Script)
    requires Suspended(r.state) && input.ApprovalDecision? && input.approved
    requires Addressed(r, input.suspensionId) && r.slices.approvalDecision.None? && !DigestRejects(cfg, r, input.callId)
    ensures Resume(cfg, r, input, token, script) == Approve(r, input.callId, token)
  {
  }

  // an approval, where one is waited for, makes the call pending under a new id
  // and awaits its result, in the same phase; anywhere else it is refused.
  lemma ApprovalAwaitsResult(cfg: Config, r: OperationRecord, input: ResumeInput, token: string, script: Script)
    requires Suspended(r.state) && input.ApprovalDecision? && input.approved
    requires Addressed(r, input.suspensionId) && r.slices.approvalDecision.None? && !DigestRejects(cfg, r, input.callId)
    ensures var (out, s) := (Resume(cfg, r, input, token, script), Resume(cfg, r, input, token, script).record);
      if r.state == SuspendedForApproval then
        && s.state == SuspendedForToolResult
        && s.history == r.history + [Step(SuspendedForApproval, SuspendedForToolResult, "approval_granted")]
        && s.slices.approvalDecision == Some(true) && s.slices.suspensionId == Some(token)
        && s.slices.approvalSuspensionId == Some(GetOr(r.slices.suspensionId, ""))
        && s.slices.resumePhase == r.slices.resumePhase && s.slices.argumentDigest == r.slices.argumentDigest
        && s.slices.executionClaim == r.slices.executionClaim && s.slices.consumedResults == r.slices.consumedResults
        && |s.slices.pendingCalls| == 1 && IsApproved(r, input.callId, s.slices.pendingCalls[0])
        && out.calls == [] && out.reply == Reply(SuspendedForToolResult, Decided(true, false))
      else s == r && out.calls == [] && out.reply == Reply(r.state, Error("invalid transition"))
  {
    ApproveShape(cfg, r, input, token, script);
    ApproveMoves(r, input.callId, token);
  }

  // The call made pending: the one asked about, under its own id, or else the
  // id the caller sent.
  ghost predicate IsApproved(r: OperationRecord, inputCallId: string, pending: ToolCall) {
    match r.slices.approvalToolCall
    case None => pending == ToolCall(Some(inputCallId), Some(""), Some(Parsed(Obj(NoField))))
    case Some(call) =>
      && (call.callId.Some? ==> pending.callId == call.callId) && (call.callId.None? ==> pending.callId == Some(inputCallId))
      && (call.toolName.Some? ==> pending.toolName == call.toolName) && (call.toolName.None? ==> pending.toolName == Some(""))
      && (call.arguments.Some? ==> pending.arguments == call.arguments)
      && (call.arguments.None? ==> pending.arguments == Some(Parsed(Obj(NoField))))
  }

  // ----- Every call converses -----

  lemma NobodyConverses(cfg: Config, script: Script, out: Outcome)
    requires out.calls == []
    ensures Conversation(cfg, script, out)
  {
  }

  lemma StartConverses(cfg: Config, r: OperationRecord, plan: Option<Plan>, script: Script)
    requires RecordOk(cfg, r)
    ensures Conversation(cfg, script, Start(cfg, r, plan, script))
  {
    if r.state == Received && r.sourceKind == Task {
      TaskStarts(cfg, r, plan, script);
    } else if r.state == Received && plan.Some? && (r.sourceKind == PreparedPlan || (r.sourceKind == Fix && plan.value != NoField)) {
      PlansStart(cfg, r, plan.value, script);
    } else {
      OthersStart(cfg, r, plan, script);
      NobodyConverses(cfg, script, Start(cfg, r, plan, script));
    }
  }

  lemma ResumeConverses(cfg: Config, r: OperationRecord, input: ResumeInput, token: string, script: Script)
    ensures Conversation(cfg, script, Resume(cfg, r, input, token, script))
  {
    if Suspended(r.state) {
      match input
      case ApprovalDecision(_, _, _) => DecisionCallsNobody(cfg, r, input, token);
      case ToolResults(results) =>
        var claim := r.slices.executionClaim;
        if claim.None? || (r.slices.consumedResults.None? && MatchesClaim(claim.value, results)) {
          AcceptedShape(cfg, r, results, script);
          ContinueConverses(cfg, Consume(r.Advance(ResumeTarget(r), "tool_result_submitted"), results), true, script);
        }
      case OtherResume =>
        OtherShape(cfg, r, token, script);
        ContinueConverses(cfg, r.Advance(ResumeTarget(r), "resumed with input"), false, script);
    }
  }

  // What any public call asks of the adapters, and where it leaves the record,
  // follows from their answers as told above.
  lemma CallConverses(cfg: Config, r: OperationRecord, call: Call, script: Script)
    requires RecordOk(cfg, r) && !call.RegisterCall?
    ensures Conversation(cfg, script, OnRecord(cfg, r, call, script))
  {
    match call
    case StartCall(_, plan) => StartConverses(cfg, r, plan, script);
    case ResumeCall(_, input, token) => ResumeConverses(cfg, r, input, token, script);
    case CancelCall(_, reason) => CancelCallsNobody(r, reason);
    case ClaimCall(_, claim) => ClaimShape(r, claim);
    case RetryCall(_, version, key, provider) => RetriesExactly(cfg, r, version, key, provider, script);
  }

  // ----- A suspension is handed back to the adapter that made it -----

  // Waiting for a decision or for tool results, to go on in `phase`.
  predicate Awaiting(r: OperationRecord, phase: Phase) {
    (r.state == SuspendedForApproval || r.state == SuspendedForToolResult) && r.slices.resumePhase == Some(phase)
  }

  predicate HandsBack(call: AdapterCall, phase: Phase) {
    if phase == PlanningPhase then call.ResumePlanCall? else call.ResumeExecutionCall?
  }

  lemma EndsWaiting(cfg: Config, last: AdapterCall, a: Answer, out: Outcome)
    requires Ends(cfg, last, a, out)
    requires out.record.state == SuspendedForApproval || out.record.state == SuspendedForToolResult
    ensures || (AsksPlanner(last) && Awaiting(out.record, PlanningPhase))
            || (AsksExecutor(last) && Awaiting(out.record, ExecutionPhase))
  {
  }

  // Whoever was asked last made the suspension, and its phase is on record.
  lemma SuspendedByTheLastAsked(cfg: Config, r: OperationRecord, call: Call, script: Script)
    requires RecordOk(cfg, r) && !call.RegisterCall?
    requires var out := OnRecord(cfg, r, call, script);
      out.calls != [] && (out.record.state == SuspendedForApproval || out.record.state == SuspendedForToolResult)
    ensures var out := OnRecord(cfg, r, call, script);
      var last := out.calls[|out.calls| - 1];
      || (AsksPlanner(last) && Awaiting(out.record, PlanningPhase))
      || (AsksExecutor(last) && Awaiting(out.record, ExecutionPhase))
  {
    CallConverses(cfg, r, call, script);
    LastEndsWaiting(cfg, script, OnRecord(cfg, r, call, script));
  }

  lemma LastEndsWaiting(cfg: Config, script: Script, out: Outcome)
    requires Conversation(cfg, script, out) && out.calls != []
    requires out.record.state == SuspendedForApproval || out.record.state == SuspendedForToolResult
    ensures var last := out.calls[|out.calls| - 1];
      || (AsksPlanner(last) && Awaiting(out.record, PlanningPhase))
      || (AsksExecutor(last) && Awaiting(out.record, ExecutionPhase))
  {
    var n := |out.calls|;
    if n <= |script| {
      EndsWaiting(cfg, out.calls[n - 1], script[n - 1], out);
    }
  }

  // What any call makes of an operation that waits: it still waits, or nothing
  // moves it any more, or it was handed back to the adapter of its phase.
  ghost predicate WaitsOrHandsBack(phase: Phase, out: Outcome) {
    if out.calls == [] then Awaiting(out.record, phase) || Stuck(out.record) else HandsBack(out.calls[0], phase)
  }

  lemma ResumedHandsBack(cfg: Config, r: OperationRecord, phase: Phase, reason: string, out: Outcome)
    requires Awaiting(r, phase) && Resumed(cfg, r, reason, out)
    ensures WaitsOrHandsBack(phase, out)
  {
  }

  lemma DecisionWaits(cfg: Config, r: OperationRecord, phase: Phase, input: ResumeInput, token: string)
    requires Awaiting(r, phase) && input.ApprovalDecision?
    ensures WaitsOrHandsBack(phase, DecideApproval(cfg, r, input, token))
  {
    DecisionCallsNobody(cfg, r, input, token);
    if !TakenUp(cfg, r, input) {
      NotTakenUp(cfg, r, input, token);
    } else if input.approved {
      ApproveMoves(r, input.callId, token);
    } else {
      DeniedShape(cfg, r, input, token);
    }
  }

  lemma ResumeWaits(cfg: Config, r: OperationRecord, phase: Phase, input: ResumeInput, token: string, script: Script)
    requires RecordOk(cfg, r) && Awaiting(r, phase)
    ensures WaitsOrHandsBack(phase, Resume(cfg, r, input, token, script))
  {
    match input
    case ApprovalDecision(_, _, _) => DecisionWaits(cfg, r, phase, input, token);
    case ToolResults(results) =>
      var claim := r.slices.executionClaim;
      if claim.None? || (r.slices.consumedResults.None? && MatchesClaim(claim.value, results)) {
        AcceptedResumes(cfg, r, results, script);
        ResumedHandsBack(cfg, r, phase, "tool_result_submitted", AcceptResults(cfg, r, results, script));
      }
    case OtherResume =>
      ResumesExactly(cfg, r, token, script);
      ResumedHandsBack(cfg, r, phase, "resumed with input", Resume(cfg, r, input, token, script));
  }

  lemma NotForWaiting(cfg: Config, r: OperationRecord, phase: Phase, plan: Option<Plan>,
                      version: int, key: string, provider: string, script: Script)
    requires Awaiting(r, phase)
    ensures Start(cfg, r, plan, script).record == r && Start(cfg, r, plan, script).calls == []
    ensures var out := RetryAflow(cfg, r, version, key, provider, script); out.record == r && out.calls == []
  {
  }

  lemma CallWaits(cfg: Config, r: OperationRecord, phase: Phase, call: Call, script: Script)
    requires RecordOk(cfg, r) && Awaiting(r, phase) && !call.RegisterCall?
    ensures WaitsOrHandsBack(phase, OnRecord(cfg, r, call, script))
  {
    match call
    case StartCall(_, plan) => NotForWaiting(cfg, r, phase, plan, 0, "", "", script);
    case ResumeCall(_, input, token) => ResumeWaits(cfg, r, phase, input, token, script);
    case CancelCall(_, reason) => CancelsExactly(r, reason);
    case ClaimCall(_, claim) => ClaimShape(r, claim);
    case RetryCall(_, version, key, provider) => NotForWaiting(cfg, r, phase, None, version, key, provider, script);
  }

  // ----- The calls of one operation over a run -----

  function CallsOf(id: string, calls: seq<AdapterCall>): (own: seq<AdapterCall>)
    ensures forall call :: call in own ==> call in calls && call.id == id
  {
    if calls == [] then []
    else
      var rest := CallsOf(id, calls[1..]);
      if calls[0].id == id then [calls[0]] + rest else rest
  }

  lemma {:induction false} CallsOfAppend(id: string, a: seq<AdapterCall>, b: seq<AdapterCall>)
    ensures CallsOf(id, a + b) == CallsOf(id, a) + CallsOf(id, b)
  {
    if a == [] {
      assert a + b == b;
    } else {
      assert (a + b)[0] == a[0] && (a + b)[1..] == a[1..] + b;
      CallsOfAppend(id, a[1..], b);
    }
  }

  lemma {:induction false} CallsOfOwn(id: string, calls: seq<AdapterCall>)
    ensures (forall i :: 0 <= i < |calls| ==> calls[i].id == id) ==> CallsOf(id, calls) == calls
    ensures (forall i :: 0 <= i < |calls| ==> calls[i].id != id) ==> CallsOf(id, calls) == []
  {
    if calls != [] {
      CallsOfOwn(id, calls[1..]);
    }
  }

  lemma FirstIsOwn(cfg: Config, r: OperationRecord, call: Call, script: Script)
    requires RecordOk(cfg, r) && !call.RegisterCall? && OnRecord(cfg, r, call, script).calls != []
    ensures OnRecord(cfg, r, call, script).calls[0].id == r.operationId
  {
    match call
    case StartCall(_, plan) => StartAsksOwn(cfg, r, plan, script);
    case ResumeCall(_, input, token) => ResumeAsksOwn(cfg, r, input, token, script);
    case CancelCall(_, reason) => CancelCallsNobody(r, reason);
    case ClaimCall(_, claim) => ClaimShape(r, claim);
    case RetryCall(_, version, key, provider) => RetriesExactly(cfg, r, version, key, provider, script);
  }

  lemma StartAsksOwn(cfg: Config, r: OperationRecord, plan: Option<Plan>, script: Script)
    requires RecordOk(cfg, r) && Start(cfg, r, plan, script).calls != []
    ensures Start(cfg, r, plan, script).calls[0].id == r.operationId
  {
    if r.sourceKind == Task && r.state == Received {
      TaskStarts(cfg, r, plan, script);
    } else if plan.Some? && r.state == Received {
      PlansStart(cfg, r, plan.value, script);
    }
    OthersStart(cfg, r, plan, script);
  }

  lemma ResumeAsksOwn(cfg: Config, r: OperationRecord, input: ResumeInput, token: string, script: Script)
    requires RecordOk(cfg, r) && Resume(cfg, r, input, token, script).calls != []
    ensures Resume(cfg, r, input, token, script).calls[0].id == r.operationId
  {
    match input
    case ApprovalDecision(_, _, _) => DecisionCallsNobody(cfg, r, input, token);
    case ToolResults(results) =>
      ResultsResumeExactly(cfg, r, results, token, script);
      ResumedAsksOwn(cfg, r, "tool_result_submitted", Resume(cfg, r, input, token, script));
    case OtherResume =>
      ResumesExactly(cfg, r, token, script);
      ResumedAsksOwn(cfg, r, "resumed with input", Resume(cfg, r, input, token, script));
  }

  lemma ResumedAsksOwn(cfg: Config, r: OperationRecord, reason: string, out: Outcome)
    requires Resumed(cfg, r, reason, out) && out.calls != []
    ensures out.calls[0].id == r.operationId
  {
  }

  lemma {:induction false} AllOwn(cfg: Config, script: Script, out: Outcome, i: nat)
    requires Conversation(cfg, script, out) && i < |out.calls|
    ensures out.calls[i].id == out.calls[0].id
  {
    if i > 0 {
      AllOwn(cfg, script, out, i - 1);
      assert Follows(cfg, out.calls[i - 1], script[i - 1], out.calls[i]);
    }
  }

  // A call asks about the operation it addresses, and no other.
  lemma AsksAbout(cfg: Config, store: Store, call: Call, script: Script, id: string)
    requires StoreOk(cfg, store) && Keyed(store)
    ensures var e := Apply(cfg, store, call, script);
      CallsOf(id, e.calls) == if call.id == id then e.calls else []
  {
    var calls := Apply(cfg, store, call, script).calls;
    if calls != [] {
      var r := store[call.id];
      assert RecordOk(cfg, r);
      CallConverses(cfg, r, call, script);
      FirstIsOwn(cfg, r, call, script);
      forall i | 0 <= i < |calls| ensures calls[i].id == call.id {
        AllOwn(cfg, script, OnRecord(cfg, r, call, script), i);
      }
    }
    CallsOfOwn(id, calls);
  }

  lemma StuckAsksNobody(cfg: Config, r: OperationRecord, call: Call, script: Script)
    requires Stuck(r) && !call.RegisterCall?
    ensures OnRecord(cfg, r, call, script).calls == []
  {
  }

  lemma FirstTurnFirst(cfg: Config, store: Store, turns: seq<Turn>, id: string)
    requires turns != [] && id !in Registered(turns)
    ensures id !in Registered(turns[1..]) && (turns[0].call.id == id ==> !turns[0].call.RegisterCall?)
    ensures var e := Apply(cfg, store, turns[0].call, turns[0].script);
      CallsOf(id, RunCalls(cfg, store, turns).1) == CallsOf(id, e.calls) + CallsOf(id, RunCalls(cfg, e.store, turns[1..]).1)
  {
    var e := Apply(cfg, store, turns[0].call, turns[0].script);
    CallsOfAppend(id, e.calls, RunCalls(cfg, e.store, turns[1..]).1);
  }

  // Over every run in which an operation that waits is not registered anew, it
  // is next handed back to the adapter of its phase, if it is handed to any.
  lemma {:induction false} NextHandsBack(cfg: Config, store: Store, turns: seq<Turn>, id: string, phase: Phase)
    requires StoreOk(cfg, store) && Keyed(store) && id in store && id !in Registered(turns)
    requires Awaiting(store[id], phase) || Stuck(store[id])
    ensures var own := CallsOf(id, RunCalls(cfg, store, turns).1);
      own != [] ==> Awaiting(store[id], phase) && HandsBack(own[0], phase)
    decreases |turns|
  {
    if turns != [] {
      var (call, script) := (turns[0].call, turns[0].script);
      FirstTurnFirst(cfg, store, turns, id);
      TurnHandsBack(cfg, store, call, script, id, phase);
      if CallsOf(id, Apply(cfg, store, call, script).calls) == [] {
        NextHandsBack(cfg, Apply(cfg, store, call, script).store, turns[1..], id, phase);
      }
    }
  }

  // One call of such a run.
  lemma TurnHandsBack(cfg: Config, store: Store, call: Call, script: Script, id: string, phase: Phase)
    requires StoreOk(cfg, store) && Keyed(store) && id in store && (call.id == id ==> !call.RegisterCall?)
    requires Awaiting(store[id], phase) || Stuck(store[id])
    ensures var e := Apply(cfg, store, call, script);
      && StoreOk(cfg, e.store) && Keyed(e.store) && id in e.store
      && (if CallsOf(id, e.calls) == []
          then Stuck(e.store[id]) || (Awaiting(store[id], phase) && Awaiting(e.store[id], phase))
          else Awaiting(store[id], phase) && HandsBack(CallsOf(id, e.calls)[0], phase))
  {
    KeyedStays(cfg, store, call, script);
    AsksAbout(cfg, store, call, script, id);
    if call.id == id {
      NextOwn(cfg, store, call, script, phase);
    } else {
      OthersStay(cfg, store, call, script, id);
    }
  }

  lemma NextOwn(cfg: Config, store: Store, call: Call, script: Script, phase: Phase)
    requires StoreOk(cfg, store) && call.id in store && !call.RegisterCall?
    requires Awaiting(store[call.id], phase) || Stuck(store[call.id])
    ensures call.id in Apply(cfg, store, call, script).store
    ensures HandsOn(store[call.id], phase, Apply(cfg, store, call, script).calls, Apply(cfg, store, call, script).store[call.id])
  {
    var r := store[call.id];
    assert RecordOk(cfg, r);
    AppliedTo(cfg, store, call, script);
    if Stuck(r) {
      StuckAsksNobody(cfg, r, call, script);
      OnRecordGood(cfg, r, call, script);
    } else {
      CallWaits(cfg, r, phase, call, script);
    }
  }

  ghost predicate HandsOn(r: OperationRecord, phase: Phase, calls: seq<AdapterCall>, s: OperationRecord) {
    if calls == [] then Stuck(s) || (Awaiting(r, phase) && Awaiting(s, phase))
    else Awaiting(r, phase) && HandsBack(calls[0], phase)
  }

  predicate Waits(r: OperationRecord) {
    r.state == SuspendedForApproval || r.state == SuspendedForToolResult
  }

  // A suspension goes back to the adapter that made it: when a call leaves an
  // operation waiting for a decision or for tool results, the next adapter
  // asked about it, in any later call of the run, is the one asked last.
  lemma SuspensionReturnsToItsAdapter(cfg: Config, store: Store, call: Call, script: Script, turns: seq<Turn>, e: Effect)
    requires StoreOk(cfg, store) && Keyed(store) && call.id in store && !call.RegisterCall? && call.id !in Registered(turns)
    requires e == Apply(cfg, store, call, script) && e.calls != [] && call.id in e.store && Waits(e.store[call.id])
    ensures var (last, own) := (e.calls[|e.calls| - 1], CallsOf(call.id, RunCalls(cfg, e.store, turns).1));
      && (AsksPlanner(last) || AsksExecutor(last))
      && (own != [] && AsksPlanner(last) ==> own[0].ResumePlanCall?)
      && (own != [] && AsksExecutor(last) ==> own[0].ResumeExecutionCall?)
  {
    var out := ApplyConverses(cfg, store, call, script, e);
    ConversationReturns(cfg, e.store, call.id, script, out, turns);
  }

  lemma ApplyConverses(cfg: Config, store: Store, call: Call, script: Script, e: Effect) returns (out: Outcome)
    requires StoreOk(cfg, store) && Keyed(store) && call.id in store && !call.RegisterCall?
    requires e == Apply(cfg, store, call, script)
    ensures StoreOk(cfg, e.store) && Keyed(e.store) && call.id in e.store
    ensures Conversation(cfg, script, out) && out.calls == e.calls && out.record == e.store[call.id]
  {
    AppliedTo(cfg, store, call, script);
    KeyedStays(cfg, store, call, script);
    out := OnRecord(cfg, store[call.id], call, script);
    assert RecordOk(cfg, store[call.id]);
    CallConverses(cfg, store[call.id], call, script);
  }

  lemma ConversationReturns(cfg: Config, after: Store, id: string, script: Script, out: Outcome, turns: seq<Turn>)
    requires StoreOk(cfg, after) && Keyed(after) && id in after && after[id] == out.record && id !in Registered(turns)
    requires Conversation(cfg, script, out) && out.calls != [] && Waits(out.record)
    ensures var (last, own) := (out.calls[|out.calls| - 1], CallsOf(id, RunCalls(cfg, after, turns).1));
      && (AsksPlanner(last) || AsksExecutor(last))
      && (own != [] && AsksPlanner(last) ==> own[0].ResumePlanCall?)
      && (own != [] && AsksExecutor(last) ==> own[0].ResumeExecutionCall?)
  {
    LastEndsWaiting(cfg, script, out);
    NextHandsBack(cfg, after, turns, id, if AsksPlanner(out.calls[|out.calls| - 1]) then PlanningPhase else ExecutionPhase);
  }

  // ----- From request to result -----

  // An approval granted to an operation that waits for one can be claimed under
  // the new suspension id.
  lemma GrantedIsClaimed(cfg: Config, r: OperationRecord, suspensionId: string, token: string, claimant: string, callId: string)
    requires RecordOk(cfg, r) && r.state == SuspendedForApproval
    requires r.slices.approvalDecision.None? && r.slices.executionClaim.None? && r.slices.consumedResults.None?
    requires r.slices.suspensionId == Some(suspensionId)
    requires r.slices.approvalToolCall.Some? && r.slices.approvalToolCall.value.callId == Some(callId)
    ensures
      var granted := Resume(cfg, r, ApprovalDecision(true, suspensionId, callId), token, []).record;
      var claim := Claim(claimant, callId, token, GetOr(r.slices.argumentDigest, ""));
      var (claimed, s) := (ClaimExecution(granted, claim), ClaimExecution(granted, claim).record);
      && claimed.reply.Reply? && claimed.reply.detail.Claimed? && claimed.reply.detail.toolCall.callId == Some(callId)
      && RecordOk(cfg, s) && s.state == SuspendedForToolResult && s.slices.resumePhase == r.slices.resumePhase
      && s.slices.executionClaim == Some(claim) && s.slices.consumedResults.None?
  {
    var input := ApprovalDecision(true, suspensionId, callId);
    var granted := Resume(cfg, r, input, token, []).record;
    var claim := Claim(claimant, callId, token, GetOr(r.slices.argumentDigest, ""));
    DigestCheckExact(cfg, r, callId);
    ApprovalAwaitsResult(cfg, r, input, token, []);
    ResumeGood(cfg, r, input, token, []);
    assert granted.slices.pendingCalls[0] in granted.slices.pendingCalls;
    ClaimsExactly(granted, claim);
    ClaimedMeansClaimant(granted, claim);
    ClaimGood(cfg, granted, claim);
  }

  lemma ClaimantResumes(cfg: Config, r: OperationRecord, phase: Phase, claim: Claim, output: string, script: Script)
    requires RecordOk(cfg, r) && r.state == SuspendedForToolResult && r.slices.resumePhase == Some(phase)
    requires r.slices.executionClaim == Some(claim) && r.slices.consumedResults.None?
    ensures var (out, to) := (Resume(cfg, r, ToolResults([ToolResult(Some(claim.callId), output)]), "", script),
                              if phase == PlanningPhase then Planning else SandboxRunning);
      ResumedAt(cfg, r, to, "tool_result_submitted", out)
  {
    MatchingResumes(cfg, r, phase, claim, [ToolResult(Some(claim.callId), output)], script);
  }

  lemma MatchingResumes(cfg: Config, r: OperationRecord, phase: Phase, claim: Claim, results: seq<ToolResult>, script: Script)
    requires RecordOk(cfg, r) && r.state == SuspendedForToolResult && r.slices.resumePhase == Some(phase)
    requires r.slices.executionClaim == Some(claim) && r.slices.consumedResults.None? && MatchesClaim(claim, results)
    ensures ResumedAt(cfg, r, if phase == PlanningPhase then Planning else SandboxRunning, "tool_result_submitted",
                      Resume(cfg, r, ToolResults(results), "", script))
  {
    AcceptedResumes(cfg, r, results, script);
    ResumedInPhase(cfg, r, phase, "tool_result_submitted", Resume(cfg, r, ToolResults(results), "", script));
  }

  lemma ResumedInPhase(cfg: Config, r: OperationRecord, phase: Phase, reason: string, out: Outcome)
    requires r.state == SuspendedForToolResult && r.slices.resumePhase == Some(phase) && Resumed(cfg, r, reason, out)
    ensures ResumedAt(cfg, r, if phase == PlanningPhase then Planning else SandboxRunning, reason, out)
  {
  }

  // An approval that is granted, claimed under the new suspension id, and
  // answered by the claimant hands the operation back to the adapter that asked
  // for the approval.
  lemma ApprovalRoundTrip(cfg: Config, r: OperationRecord, phase: Phase, suspensionId: string, token: string,
                          claimant: string, callId: string, output: string, script: Script)
    requires RecordOk(cfg, r) && r.state == SuspendedForApproval && r.slices.resumePhase == Some(phase)
    requires r.slices.approvalDecision.None? && r.slices.executionClaim.None? && r.slices.consumedResults.None?
    requires r.slices.suspensionId == Some(suspensionId)
    requires r.slices.approvalToolCall.Some? && r.slices.approvalToolCall.value.callId == Some(callId)
    ensures
      var granted := Resume(cfg, r, ApprovalDecision(true, suspensionId, callId), token, []).record;
      var s := ClaimExecution(granted, Claim(claimant, callId, token, GetOr(r.slices.argumentDigest, ""))).record;
      var calls := Resume(cfg, s, ToolResults([ToolResult(Some(callId), output)]), "", script).calls;
      && (phase == PlanningPhase ==> (calls != [] <==> cfg.planning) && (calls != [] ==> calls[0].ResumePlanCall?))
      && (phase == ExecutionPhase ==> (calls != [] <==> cfg.execution) && (calls != [] ==> calls[0].ResumeExecutionCall?))
  {
    var granted := Resume(cfg, r, ApprovalDecision(true, suspensionId, callId), token, []).record;
    var claim := Claim(claimant, callId, token, GetOr(r.slices.argumentDigest, ""));
    GrantedIsClaimed(cfg, r, suspensionId, token, claimant, callId);
    ClaimantResumes(cfg, ClaimExecution(granted, claim).record, phase, claim, output, script);
  }

  // ----- What is announced, and what is kept -----

  // `about` is told of the record, and then the state it stands in.
  function Announcing(about: Announcement, s: OperationRecord): seq<Event> {
    [Event(s.operationId, s.state, about, s.history), Event(s.operationId, s.state, StateTransition, s.history)]
  }

  ghost predicate Announces(events: seq<Event>, about: Announcement, s: OperationRecord) {
    events == Announcing(about, s)
  }

  // What is told of an adapter's answer; another suspension, like an unknown
  // status, is told nobody.
  lemma AnswersAnnounced(cfg: Config, r: OperationRecord, result: AdapterResult, phase: Phase)
    requires Handles(r, result, phase)
    ensures var (events, s) := (HandleAdapterResult(cfg, r, result, phase).events, HandleAdapterResult(cfg, r, result, phase).record);
      match result.status
      case DoneStatus => Announces(events, OperationCompleted, s)
      case FailedStatus => Announces(events, OperationFailed, s)
      case SuspendedStatus(ForApproval) =>
        Announces(events, ApprovalRequested(GetOr(result.suspensionId, ""), CallDigest(cfg, result.toolCall, "")), s)
      case SuspendedStatus(ForToolResult) =>
        Announces(events, ExecutionRequested(GetOr(result.suspensionId, ""), GetOr(result.pendingCalls, [])), s)
      case _ => events == []
  {
  }

  // A suspension stores the continuation it came with, and nothing else of the
  // artifacts changes with any answer.
  lemma AnswersKeep(cfg: Config, r: OperationRecord, result: AdapterResult, phase: Phase)
    requires Handles(r, result, phase)
    ensures var (s, suspended) := (HandleAdapterResult(cfg, r, result, phase).record, result.status.SuspendedStatus?);
      && (suspended && result.continuation.Some? ==> s.artifacts == r.artifacts.(continuation := result.continuation))
      && (!suspended || result.continuation.None? ==> s.artifacts == r.artifacts)
      && (!suspended ==> s.slices == r.slices)
      && (result.suspensionId.None? && result.status == SuspendedStatus(OtherSuspension) ==>
            s.slices.suspensionId == r.slices.suspensionId)
      && (result.pendingCalls.None? && result.status == SuspendedStatus(OtherSuspension) ==>
            s.slices.pendingCalls == r.slices.pendingCalls)
  {
  }

  // The digest on record is that of the arguments themselves, given as an
  // object or as text that parses; of anything else it is that of an empty
  // object.
  lemma DigestOf(cfg: Config, call: ToolCall, defaultId: string)
    ensures var id := if call.callId.Some? then call.callId.value else defaultId;
      var name := if call.toolName.Some? then call.toolName.value else "";
      CallDigest(cfg, call, defaultId) == cfg.digest(id, name,
        if call.arguments.Some? && call.arguments.value.Parsed? then call.arguments.value.value
        else if call.arguments.Some? && cfg.parse(call.arguments.value.text).Some?
             then cfg.parse(call.arguments.value.text).value
        else Obj(NoField))
  {
  }

  // What a review announces first, and stores: a clean one its id, and the
  // improved plan if it brings one; a provider failure the issue it opened.
  lemma ReviewsAnnounced(cfg: Config, r: OperationRecord, plan: Plan, provider: Option<string>, script: Script)
    requires r.state == Reviewing && cfg.review && script != []
    ensures var (answer, out) := (script[0].review, DoReview(cfg, r, plan, provider, script));
      && (answer.decision == NoMaterialGap ==>
            && |out.events| >= 2
            && out.events[0].about == ReviewCompleted(answer.reviewId) && out.events[0].state == SandboxReady
            && out.events[0].history == r.history + [Step(Reviewing, SandboxReady, "review_clean")]
            && out.events[1] == out.events[0].(about := StateTransition)
            && (!cfg.execution ==>
                  && |out.events| == 2
                  && (answer.improvedPlan.Some? ==>
                        && out.record.artifacts.candidatePlan == answer.improvedPlan
                        && out.record.artifacts.lifecycleRunId == Some(GetOr(answer.reviewId, "")))
                  && (answer.improvedPlan.None? ==> out.record.artifacts == r.artifacts)))
      && (answer.decision == ProviderError ==>
            && |out.events| == 2 && out.events[0].about == IssueCreated(answer.issueId)
            && out.events[1].about == StateTransition && out.events[0].state == SuspendedProviderRecovery)
      && (answer.decision.OtherDecision? ==> out.events == [])
  {
  }

  // The id of the call that was asked about, or else the one the caller sends.
  function AskedAbout(r: OperationRecord, inputCallId: string): string {
    if r.slices.approvalToolCall.Some? && r.slices.approvalToolCall.value.callId.Some?
    then r.slices.approvalToolCall.value.callId.value
    else inputCallId
  }

  // What a decision, a claim and a registration announce.
  lemma DenialsAnnounced(cfg: Config, r: OperationRecord, input: ResumeInput, token: string)
    requires Suspended(r.state) && input.ApprovalDecision? && TakenUp(cfg, r, input) && !input.approved
    ensures var out := DecideApproval(cfg, r, input, token);
      Announces(out.events, ApprovalDenied(AskedAbout(r, input.callId)), out.record)
  {
    DeniedShape(cfg, r, input, token);
  }

  lemma ApprovalsAnnounced(r: OperationRecord, callId: string, token: string)
    requires Suspended(r.state)
    ensures var out := Approve(r, callId, token);
      out.events == Announcing(ApprovalResolved(AskedAbout(r, callId)), r)
        + (if r.state == SuspendedForApproval then Announcing(ExecutionRequested(token, out.record.slices.pendingCalls), out.record)
           else [])
  {
    ApproveMoves(r, callId, token);
    if r.state == SuspendedForApproval {
      GrantAnnounced(r, callId, token);
    } else {
      NotGranted(r, callId, token);
    }
  }

  lemma GrantAnnounced(r: OperationRecord, callId: string, token: string)
    requires r.state == SuspendedForApproval
    ensures var out := Approve(r, callId, token);
      out.events == Announcing(ApprovalResolved(AskedAbout(r, callId)), r)
                    + Announcing(ExecutionRequested(token, out.record.slices.pendingCalls), out.record)
  {
  }

  lemma NotGranted(r: OperationRecord, callId: string, token: string)
    requires Suspended(r.state) && r.state != SuspendedForApproval
    ensures Approve(r, callId, token).events == Announcing(ApprovalResolved(AskedAbout(r, callId)), r) + []
  {
    OnlyApprovalsAwaitTools(Granted(r, callId, token).state);
  }

  lemma ClaimsAnnounced(r: OperationRecord, claim: Claim)
    ensures var out := ClaimExecution(r, claim);
      if out.reply.detail.Claimed? && !out.reply.detail.idempotent then Announces(out.events, ExecutionClaimed(claim), r)
      else out.events == []
  {
  }

  lemma StartsAnnounced(cfg: Config, store: Store, id: string, kind: SourceKind, prompt: string, r: OperationRecord,
                        plan: Option<Plan>, script: Script)
    ensures var e := Apply(cfg, store, RegisterCall(id, kind, prompt), script);
      e.reply == Reply(Received, Other) ==> Announces(e.events, OperationCreated, e.store[id])
    ensures r.state == Received && r.sourceKind == Task ==>
      var events := Start(cfg, r, plan, script).events;
      events != [] && events[0] == Event(r.operationId, Planning, StateTransition, r.history + [Step(Received, Planning, "task_accepted")])
  {
    if r.state == Received && r.sourceKind == Task {
      TaskShape(cfg, r, plan, script);
    }
  }
}
