/**
  What the events of the operation controller tell: for every operation they
  report states it was really in, in the order it went through them, and its
  completion once and only if it completed.
*/
module ControllerEvents {
  import opened OperationStates
  import opened ControllerProtocol
  import opened ControllerSafety
  import opened Json
  import opened Text

  function StateAfter(history: seq<Step>): State {
    if history == [] then Received else history[|history| - 1].to
  }

  // The event reports where the record was at some point between r and s.
  ghost predicate Reports(r: OperationRecord, e: Event, s: OperationRecord) {
    e.id == r.operationId && r.history <= e.history <= s.history && e.state == StateAfter(e.history)
  }

  ghost predicate InOrder(events: seq<Event>) {
    forall i, j :: 0 <= i < j < |events| ==> events[i].history <= events[j].history
  }

  ghost predicate TellsCompletion(events: seq<Event>) {
    exists i :: 0 <= i < |events| && events[i].about == OperationCompleted
  }

  ghost predicate TellsItOnce(events: seq<Event>) {
    forall i, j :: 0 <= i < j < |events| ==> events[i].about != OperationCompleted || events[j].about != OperationCompleted
  }

  // Between r and s exactly these events were emitted for the operation.
  ghost predicate Told(r: OperationRecord, events: seq<Event>, s: OperationRecord) {
    && r.history <= s.history && s.operationId == r.operationId
    && (forall i :: 0 <= i < |events| ==> Reports(r, events[i], s))
    && InOrder(events) && TellsItOnce(events)
    && (TellsCompletion(events) <==> r.state != Completed && s.state == Completed)
  }

  ghost predicate Placed(r: OperationRecord) {
    r.state == StateAfter(r.history)
  }

  // What a handler does, told from the record it starts with.
  ghost predicate TellsAll(r: OperationRecord, out: Outcome) {
    Told(r, out.events, out.record) && Placed(out.record)
  }

  lemma AdvancePlaced(r: OperationRecord, to: State, reason: string)
    requires to in Successors(r.state)
    ensures Placed(r.Advance(to, reason)) && r.history <= r.Advance(to, reason).history
  {
  }

  // ----- Putting stretches together -----

  lemma NothingTold(r: OperationRecord, s: OperationRecord)
    requires r.history <= s.history && s.operationId == r.operationId
    requires s.state == Completed ==> r.state == Completed
    ensures Told(r, [], s)
  {
  }

  // The events of one announcement about a record that has moved on from r.
  lemma EmitTold(r: OperationRecord, m: OperationRecord, about: Announcement)
    requires r.history <= m.history && m.operationId == r.operationId && Placed(m)
    requires about == OperationCompleted <==> r.state != Completed && m.state == Completed
    ensures Told(r, Emit(m, about), m)
  {
    if about == OperationCompleted {
      assert Emit(m, about)[0].about == OperationCompleted;
    }
  }

  lemma JoinReports(r: OperationRecord, a: seq<Event>, m: OperationRecord, b: seq<Event>, s: OperationRecord)
    requires Told(r, a, m) && Told(m, b, s)
    ensures forall i :: 0 <= i < |a + b| ==> Reports(r, (a + b)[i], s)
    ensures InOrder(a + b)
  {
    forall i | 0 <= i < |a + b| ensures Reports(r, (a + b)[i], s) {
      if i < |a| {
        assert Reports(r, a[i], m);
      } else {
        assert Reports(m, b[i - |a|], s);
      }
    }
    forall i, j | 0 <= i < j < |a + b| ensures (a + b)[i].history <= (a + b)[j].history {
      if i < |a| <= j {
        assert Reports(r, a[i], m) && Reports(m, b[j - |a|], s);
      }
    }
  }

  lemma JoinOnce(a: seq<Event>, b: seq<Event>)
    requires TellsItOnce(a) && TellsItOnce(b) && !(TellsCompletion(a) && TellsCompletion(b))
    ensures TellsItOnce(a + b)
    ensures TellsCompletion(a + b) <==> TellsCompletion(a) || TellsCompletion(b)
  {
    var c := a + b;
    forall i | 0 <= i < |c| ensures c[i] == if i < |a| then a[i] else b[i - |a|] {
    }
    if i :| 0 <= i < |a| && a[i].about == OperationCompleted {
      assert c[i].about == OperationCompleted;
    }
    if i :| 0 <= i < |b| && b[i].about == OperationCompleted {
      assert c[|a| + i].about == OperationCompleted;
    }
  }

  // Completed is final: nothing leads out of it.
  lemma JoinCompletion(r: OperationRecord, a: seq<Event>, m: OperationRecord, b: seq<Event>, s: OperationRecord)
    requires Told(r, a, m) && Told(m, b, s)
    requires r.state == Completed ==> m.state == Completed
    requires m.state == Completed ==> s.state == Completed
    ensures TellsCompletion(a + b) <==> r.state != Completed && s.state == Completed
    ensures TellsItOnce(a + b)
  {
    JoinOnce(a, b);
  }

  lemma Join(r: OperationRecord, a: seq<Event>, m: OperationRecord, b: seq<Event>, s: OperationRecord)
    requires Told(r, a, m) && Told(m, b, s)
    requires r.state == Completed ==> m.state == Completed
    requires m.state == Completed ==> s.state == Completed
    ensures Told(r, a + b, s)
  {
    JoinReports(r, a, m, b, s);
    JoinCompletion(r, a, m, b, s);
  }

  // A handler that continues from a record the call moved on to.
  lemma MovedOn(r: OperationRecord, m: OperationRecord, out: Outcome)
    requires TellsAll(m, out) && r.history <= m.history && m.operationId == r.operationId
    requires r.state != Completed && m.state != Completed
    ensures TellsAll(r, out)
  {
    NothingTold(r, m);
    Join(r, [], m, out.events, out.record);
    assert [] + out.events == out.events;
  }

  // ... and has announced itself.
  lemma MovedOnTelling(r: OperationRecord, m: OperationRecord, about: Announcement, out: Outcome)
    requires TellsAll(m, out) && r.history <= m.history && m.operationId == r.operationId && Placed(m)
    requires r.state != Completed && m.state != Completed && about != OperationCompleted
    ensures TellsAll(r, out.Telling(Emit(m, about)))
  {
    EmitTold(r, m, about);
    Join(r, Emit(m, about), m, out.events, out.record);
  }

  lemma StayedPut(r: OperationRecord, out: Outcome)
    requires Placed(r) && out.record == r && out.events == []
    ensures TellsAll(r, out)
  {
    NothingTold(r, r);
  }

  // ----- Handlers -----

  lemma HandleAdapterResultTells(cfg: Config, r: OperationRecord, result: AdapterResult, phase: Phase)
    requires Placed(r) && Handles(r, result, phase)
    ensures TellsAll(r, HandleAdapterResult(cfg, r, result, phase))
  {
    match result.status
    case DoneStatus =>
      AdvancePlaced(r, Completed, "adapter_completed");
      EmitTold(r, r.Advance(Completed, "adapter_completed"), OperationCompleted);
    case FailedStatus =>
      AdvancePlaced(r, CancelledByUser, "adapter_failed");
      EmitTold(r, r.Advance(CancelledByUser, "adapter_failed"), OperationFailed);
    case SuspendedStatus(ForApproval) =>
      var waiting := SuspendForApproval(cfg, r, result, phase);
      EmitTold(r, waiting, Requested(waiting));
    case SuspendedStatus(ForToolResult) =>
      var waiting := SuspendForToolResult(r, result, phase);
      EmitTold(r, waiting, Demanded(waiting));
    case SuspendedStatus(OtherSuspension) => NothingTold(r, NoteSuspension(r, result, phase));
    case UnknownStatus => StayedPut(r, HandleAdapterResult(cfg, r, result, phase));
  }

  lemma DoExecutionTells(cfg: Config, r: OperationRecord, script: Script)
    requires Placed(r) && r.state == SandboxReady
    ensures TellsAll(r, DoExecution(cfg, r, script))
  {
    var running := r.Advance(SandboxRunning, "execution_started");
    AdvancePlaced(r, SandboxRunning, "execution_started");
    if cfg.execution && script != [] {
      HandleAdapterResultTells(cfg, running, script[0].adapter, ExecutionPhase);
      MovedOn(r, running, HandleAdapterResult(cfg, running, script[0].adapter, ExecutionPhase));
    } else {
      NothingTold(r, if cfg.execution then running else r);
    }
  }

  lemma CleanReviewTells(cfg: Config, r: OperationRecord, answer: ReviewAnswer, script: Script)
    requires Placed(r) && r.state == Reviewing
    ensures var ready := StoreImprovedPlan(r, answer).Advance(SandboxReady, "review_clean");
      TellsAll(r, DoExecution(cfg, ready, script).Telling(Emit(ready, ReviewCompleted(answer.reviewId))))
  {
    var ready := StoreImprovedPlan(r, answer).Advance(SandboxReady, "review_clean");
    AdvancePlaced(StoreImprovedPlan(r, answer), SandboxReady, "review_clean");
    DoExecutionTells(cfg, ready, script);
    MovedOnTelling(r, ready, ReviewCompleted(answer.reviewId), DoExecution(cfg, ready, script));
  }

  lemma WaitingTells(r: OperationRecord, to: State, reason: string, s: OperationRecord, events: seq<Event>)
    requires Placed(r) && r.state != Completed && to in Successors(r.state) && to != Completed
    requires s.history == r.Advance(to, reason).history && s.state == to && s.operationId == r.operationId
    requires events == [] || exists about :: about != OperationCompleted && events == Emit(r.Advance(to, reason), about)
    ensures Told(r, events, s) && Placed(s)
  {
    AdvancePlaced(r, to, reason);
    if events == [] {
      NothingTold(r, s);
    } else {
      var about :| about != OperationCompleted && events == Emit(r.Advance(to, reason), about);
      assert events == Emit(s, about);
      EmitTold(r, s, about);
    }
  }

  lemma {:induction false} DoReviewTells(cfg: Config, r: OperationRecord, plan: Plan, provider: Option<string>, script: Script)
    requires Placed(r) && r.state == Reviewing
    ensures TellsAll(r, DoReview(cfg, r, plan, provider, script))
    decreases |script|, 1
  {
    var out := DoReview(cfg, r, plan, provider, script);
    if !cfg.review || script == [] {
      StayedPut(r, out);
    } else {
      match script[0].review.decision {
        case NoMaterialGap => CleanReviewTells(cfg, r, script[0].review, script[1..]);
        case MaterialGapFound =>
          var moved := r.Advance(Fulfilling, "material_gap_found");
          DoFulfilmentTells(cfg, moved, plan, script[1..]);
          MovedOn(r, moved, DoFulfilment(cfg, moved, plan, script[1..]));
        case ProviderError =>
          WaitingTells(r, SuspendedProviderRecovery, "aflow_provider_error", out.record, out.events);
        case OtherDecision(text) =>
          WaitingTells(r, SuspendedEvidence, "review_decision=" + text, out.record, out.events);
      }
    }
  }

  lemma {:induction false} DoFulfilmentTells(cfg: Config, r: OperationRecord, plan: Plan, script: Script)
    requires Placed(r) && r.state == Fulfilling
    ensures TellsAll(r, DoFulfilment(cfg, r, plan, script))
    decreases |script|, 2
  {
    var out := DoFulfilment(cfg, r, plan, script);
    if !cfg.fulfilment || script == [] {
      StayedPut(r, out);
    } else if script[0].fulfil.allResolved {
      var moved := r.Advance(Reviewing, "fulfilment_complete");
      var revised := GetOr(script[0].fulfil.revisedPlan, plan);
      DoReviewTells(cfg, moved, revised, None, script[1..]);
      MovedOn(r, moved, DoReview(cfg, moved, revised, None, script[1..]));
    } else if true in script[0].fulfil.needsDecision {
      WaitingTells(r, AwaitingDecision, "decision_required", out.record, out.events);
    } else {
      WaitingTells(r, CollectingEvidence, "evidence_required", out.record, out.events);
    }
  }

  lemma PlannedTells(cfg: Config, r: OperationRecord, plan: Plan, reason: string, script: Script)
    requires Placed(r) && r.state == Planning
    ensures var reviewing := PlanToReview(r, plan, reason);
      && r.history <= reviewing.history && Placed(reviewing)
      && TellsAll(r, DoReview(cfg, reviewing, plan, None, script))
  {
    var reviewing := PlanToReview(r, plan, reason);
    AdvancePlaced(r, PlanReady, reason);
    DoReviewTells(cfg, reviewing, plan, None, script);
    MovedOn(r, reviewing, DoReview(cfg, reviewing, plan, None, script));
  }

  lemma DoPlanningTells(cfg: Config, r: OperationRecord, script: Script)
    requires Placed(r) && r.state == Planning
    ensures TellsAll(r, DoPlanning(cfg, r, script))
  {
    if !cfg.planning || script == [] {
      StayedPut(r, DoPlanning(cfg, r, script));
    } else if script[0].adapter.status.SuspendedStatus? {
      HandleAdapterResultTells(cfg, r, script[0].adapter, PlanningPhase);
    } else {
      PlannedTells(cfg, r, script[0].adapter.plan, "plan_created", script[1..]);
    }
  }

  lemma ContinueTells(cfg: Config, r: OperationRecord, withResults: bool, script: Script)
    requires Placed(r) && r.state != Completed
    ensures TellsAll(r, Continue(cfg, r, withResults, script))
  {
    var out := Continue(cfg, r, withResults, script);
    if r.state == Planning && cfg.planning && script != [] {
      if script[0].adapter.status.SuspendedStatus? {
        HandleAdapterResultTells(cfg, r, script[0].adapter, PlanningPhase);
      } else {
        PlannedTells(cfg, r, script[0].adapter.plan, "plan_resumed", script[1..]);
        if !withResults {
          NothingTold(r, out.record);
        }
      }
    } else if r.state == SandboxRunning && cfg.execution && script != [] {
      HandleAdapterResultTells(cfg, r, script[0].adapter, ExecutionPhase);
    } else {
      StayedPut(r, out);
    }
  }

  // ----- Public calls -----

  lemma StartTells(cfg: Config, r: OperationRecord, plan: Option<Plan>, script: Script)
    requires Placed(r)
    ensures TellsAll(r, Start(cfg, r, plan, script))
  {
    var out := Start(cfg, r, plan, script);
    if r.state == Received && r.sourceKind == PreparedPlan && plan.Some? {
      StartedReviewTells(cfg, r, "prepared_plan_submitted", plan, plan.value, script);
    } else if r.state == Received && r.sourceKind == Task {
      var moved := r.Advance(Planning, "task_accepted");
      DoPlanningTells(cfg, moved, script);
      MovedOnTelling(r, moved, StateTransition, DoPlanning(cfg, moved, script));
    } else if r.state == Received && r.sourceKind == Fix {
      var moved := r.Advance(Reviewing, "fix_accepted");
      if plan.Some? && plan.value.Field? {
        StartedReviewTells(cfg, r, "fix_accepted", r.artifacts.candidatePlan, plan.value, script);
        assert moved.(artifacts := moved.artifacts.(candidatePlan := r.artifacts.candidatePlan)) == moved;
      } else {
        NothingTold(r, moved);
      }
    } else {
      StayedPut(r, out);
    }
  }

  lemma StartedReviewTells(cfg: Config, r: OperationRecord, reason: string, candidate: Option<Plan>, plan: Plan, script: Script)
    requires Placed(r) && r.state == Received
    ensures var moved := r.Advance(Reviewing, reason);
      TellsAll(r, DoReview(cfg, moved.(artifacts := moved.artifacts.(candidatePlan := candidate)), plan, None, script))
  {
    var moved := r.Advance(Reviewing, reason);
    var stored := moved.(artifacts := moved.artifacts.(candidatePlan := candidate));
    DoReviewTells(cfg, stored, plan, None, script);
    MovedOn(r, stored, DoReview(cfg, stored, plan, None, script));
  }

  lemma ApproveTells(r: OperationRecord, callId: string, token: string)
    requires Placed(r) && Suspended(r.state)
    ensures TellsAll(r, Approve(r, callId, token))
  {
    var resolved := ApprovalResolved(DecidedId(r, callId));
    EmitTold(r, r, resolved);
    ApproveMoves(r, callId, token);
    if r.state == SuspendedForApproval {
      var s := Approve(r, callId, token).record;
      EmitTold(r, s, Demanded(s));
      Join(r, Emit(r, resolved), r, Emit(s, Demanded(s)), s);
    } else {
      assert Emit(r, resolved) + [] == Emit(r, resolved);
    }
  }

  lemma DeniedTells(cfg: Config, r: OperationRecord, input: ResumeInput, token: string)
    requires input.ApprovalDecision? && TakenUp(cfg, r, input) && !input.approved
    requires Placed(r) && Suspended(r.state)
    ensures TellsAll(r, DecideApproval(cfg, r, input, token))
  {
    DeniedShape(cfg, r, input, token);
    var out := DecideApproval(cfg, r, input, token);
    var about := ApprovalDenied(DecidedId(r, input.callId));
    assert out.events == Emit(r.Advance(CancelledByUser, "approval_denied"), about);
    WaitingTells(r, CancelledByUser, "approval_denied", out.record, out.events);
  }

  lemma DecideApprovalTells(cfg: Config, r: OperationRecord, input: ResumeInput, token: string)
    requires Placed(r) && Suspended(r.state) && input.ApprovalDecision?
    ensures TellsAll(r, DecideApproval(cfg, r, input, token))
  {
    if !TakenUp(cfg, r, input) {
      NotTakenUp(cfg, r, input, token);
      StayedPut(r, DecideApproval(cfg, r, input, token));
    } else if input.approved {
      ApproveTells(r, input.callId, token);
    } else {
      DeniedTells(cfg, r, input, token);
    }
  }

  lemma ResumeTells(cfg: Config, r: OperationRecord, input: ResumeInput, token: string, script: Script)
    requires Placed(r)
    ensures TellsAll(r, Resume(cfg, r, input, token, script))
  {
    if !Suspended(r.state) {
      StayedPut(r, Resume(cfg, r, input, token, script));
    } else {
      ResumeTargetLegal(r);
      match input
      case ApprovalDecision(_, _, _) => DecideApprovalTells(cfg, r, input, token);
      case ToolResults(results) => AcceptResultsTells(cfg, r, results, script);
      case OtherResume =>
        var moved := r.Advance(ResumeTarget(r), "resumed with input");
        ContinueTells(cfg, moved, false, script);
        MovedOn(r, moved, Continue(cfg, moved, false, script));
    }
  }

  lemma AcceptResultsTells(cfg: Config, r: OperationRecord, results: seq<ToolResult>, script: Script)
    requires Placed(r) && Suspended(r.state)
    ensures TellsAll(r, AcceptResults(cfg, r, results, script))
  {
    ResumeTargetLegal(r);
    var claim := r.slices.executionClaim;
    if claim.Some? && (r.slices.consumedResults.Some? || !MatchesClaim(claim.value, results)) {
      StayedPut(r, AcceptResults(cfg, r, results, script));
    } else {
      AcceptedShape(cfg, r, results, script);
      var saved := Consume(r.Advance(ResumeTarget(r), "tool_result_submitted"), results);
      ContinueTells(cfg, saved, true, script);
      MovedOn(r, saved, Continue(cfg, saved, true, script));
    }
  }

  lemma RetryTells(cfg: Config, r: OperationRecord, version: int, key: string, provider: string, script: Script)
    requires Placed(r)
    ensures TellsAll(r, RetryAflow(cfg, r, version, key, provider, script))
  {
    if key !in r.artifacts.retries && r.state == SuspendedProviderRecovery && version == |r.history|
       && r.artifacts.candidatePlan.Some? {
      var moved := r.Advance(Reviewing, "aflow_retry:" + provider);
      DoReviewTells(cfg, moved, r.artifacts.candidatePlan.value, Some(provider), script);
      MovedOn(r, moved, DoReview(cfg, moved, r.artifacts.candidatePlan.value, Some(provider), script));
    } else {
      StayedPut(r, RetryAflow(cfg, r, version, key, provider, script));
    }
  }

  lemma CancelTells(r: OperationRecord, reason: string)
    requires Placed(r)
    ensures TellsAll(r, Cancel(r, reason)) && Cancel(r, reason).events == []
  {
    if Cancel(r, reason).record == r {
      StayedPut(r, Cancel(r, reason));
    } else {
      NothingTold(r, Cancel(r, reason).record);
    }
  }

  lemma ClaimTells(r: OperationRecord, claim: Claim)
    requires Placed(r)
    ensures TellsAll(r, ClaimExecution(r, claim))
  {
    var out := ClaimExecution(r, claim);
    if out.events == [] {
      assert out.record == r;
      StayedPut(r, out);
    } else {
      EmitTold(r, out.record, ExecutionClaimed(claim));
    }
  }

  // One public call tells exactly what it did to the record.
  lemma CallTells(cfg: Config, r: OperationRecord, call: Call, script: Script)
    requires Placed(r) && !call.RegisterCall?
    ensures TellsAll(r, OnRecord(cfg, r, call, script))
  {
    match call
    case StartCall(_, plan) => StartTells(cfg, r, plan, script);
    case ResumeCall(_, input, token) => ResumeTells(cfg, r, input, token, script);
    case CancelCall(_, reason) => CancelTells(r, reason);
    case ClaimCall(_, claim) => ClaimTells(r, claim);
    case RetryCall(_, version, key, provider) => RetryTells(cfg, r, version, key, provider, script);
  }

  // ----- Runs -----

  function RunEvents(cfg: Config, store: Store, turns: seq<Turn>): seq<Event>
    decreases |turns|
  {
    if turns == [] then []
    else
      var e := Apply(cfg, store, turns[0].call, turns[0].script);
      e.events + RunEvents(cfg, e.store, turns[1..])
  }

  // The events of one operation, in order.
  function Of(id: string, events: seq<Event>): seq<Event> {
    if events == [] then []
    else (if events[0].id == id then [events[0]] else []) + Of(id, events[1..])
  }

  lemma {:induction false} OfAppend(id: string, a: seq<Event>, b: seq<Event>)
    ensures Of(id, a + b) == Of(id, a) + Of(id, b)
  {
    if a == [] {
      assert a + b == b && Of(id, a) + Of(id, b) == Of(id, b);
    } else {
      var head := if a[0].id == id then [a[0]] else [];
      assert (a + b)[0] == a[0] && (a + b)[1..] == a[1..] + b;
      OfAppend(id, a[1..], b);
      assert head + (Of(id, a[1..]) + Of(id, b)) == (head + Of(id, a[1..])) + Of(id, b);
    }
  }

  lemma {:induction false} OfOwn(id: string, events: seq<Event>)
    ensures (forall i :: 0 <= i < |events| ==> events[i].id == id) ==> Of(id, events) == events
    ensures (forall i :: 0 <= i < |events| ==> events[i].id != id) ==> Of(id, events) == []
  {
    if events != [] {
      OfOwn(id, events[1..]);
    }
  }

  lemma KeyedStays(cfg: Config, store: Store, call: Call, script: Script)
    requires StoreOk(cfg, store) && Keyed(store)
    ensures StoreOk(cfg, Apply(cfg, store, call, script).store) && Keyed(Apply(cfg, store, call, script).store)
  {
    var e := Apply(cfg, store, call, script);
    ApplyGood(cfg, store, call, script);
    forall k | k in e.store ensures e.store[k].operationId == k {
      if k in store && k !in Targets(call) {
        assert Evolves(store[k], e.store[k]);
      }
    }
  }

  // Every event of a call is about the operation it addresses.
  lemma EventsAbout(cfg: Config, store: Store, call: Call, script: Script)
    requires StoreOk(cfg, store) && Keyed(store)
    ensures var events := Apply(cfg, store, call, script).events;
      forall i :: 0 <= i < |events| ==> events[i].id == call.id
  {
    if !call.RegisterCall? && call.id in store {
      assert RecordOk(cfg, store[call.id]);
      CallTells(cfg, store[call.id], call, script);
      CalledTells(store[call.id], OnRecord(cfg, store[call.id], call, script));
    }
  }

  // A call about another operation tells nothing of this one.
  lemma OthersTell(cfg: Config, store: Store, call: Call, script: Script, id: string)
    requires StoreOk(cfg, store) && Keyed(store) && id in store && id != call.id
    ensures Of(id, Apply(cfg, store, call, script).events) == []
  {
    EventsAbout(cfg, store, call, script);
    OfOwn(id, Apply(cfg, store, call, script).events);
  }

  lemma OthersStay(cfg: Config, store: Store, call: Call, script: Script, id: string)
    requires id in store && id != call.id
    ensures id in Apply(cfg, store, call, script).store && Apply(cfg, store, call, script).store[id] == store[id]
  {
  }

  lemma OwnTells(cfg: Config, store: Store, call: Call, script: Script)
    requires StoreOk(cfg, store) && Keyed(store) && call.id in store && !call.RegisterCall?
    ensures var e := Apply(cfg, store, call, script);
      call.id in e.store && Told(store[call.id], Of(call.id, e.events), e.store[call.id])
  {
    var r := store[call.id];
    assert RecordOk(cfg, r);
    CallTells(cfg, r, call, script);
    CalledTells(r, OnRecord(cfg, r, call, script));
    OfOwn(call.id, OnRecord(cfg, r, call, script).events);
  }

  // What one call tells about an operation it does not register anew.
  lemma ApplyTells(cfg: Config, store: Store, call: Call, script: Script, id: string)
    requires StoreOk(cfg, store) && Keyed(store) && id in store && id !in Targets(call)
    ensures var e := Apply(cfg, store, call, script);
      && StoreOk(cfg, e.store) && Keyed(e.store) && id in e.store && Evolves(store[id], e.store[id])
      && Told(store[id], Of(id, e.events), e.store[id])
  {
    ApplyGood(cfg, store, call, script);
    KeyedStays(cfg, store, call, script);
    if call.id == id {
      OwnTells(cfg, store, call, script);
    } else {
      OthersTell(cfg, store, call, script, id);
      OthersStay(cfg, store, call, script, id);
      NothingTold(store[id], store[id]);
    }
  }

  lemma CalledTells(r: OperationRecord, out: Outcome)
    requires TellsAll(r, out)
    ensures forall i :: 0 <= i < |out.events| ==> out.events[i].id == r.operationId
  {
    forall i | 0 <= i < |out.events| ensures out.events[i].id == r.operationId {
      assert Reports(r, out.events[i], out.record);
    }
  }

  // Over every run in which an operation is not registered anew, its events
  // report states it was in, each with a history that is part of the final
  // one, in order; completion is told exactly if the run brought it about, and
  // once.
  lemma {:induction false} EventsFollowHistory(cfg: Config, store: Store, turns: seq<Turn>, id: string)
    requires StoreOk(cfg, store) && Keyed(store) && id in store && id !in Registered(turns)
    ensures var later := RunCalls(cfg, store, turns).0;
      && id in later && Evolves(store[id], later[id])
      && Told(store[id], Of(id, RunEvents(cfg, store, turns)), later[id])
    decreases |turns|
  {
    if turns == [] {
      NothingTold(store[id], store[id]);
    } else {
      var e := Apply(cfg, store, turns[0].call, turns[0].script);
      ApplyTells(cfg, store, turns[0].call, turns[0].script, id);
      EventsFollowHistory(cfg, e.store, turns[1..], id);
      var later := RunCalls(cfg, e.store, turns[1..]).0;
      OfAppend(id, e.events, RunEvents(cfg, e.store, turns[1..]));
      EvolvesTransitive(store[id], e.store[id], later[id]);
      Join(store[id], Of(id, e.events), e.store[id], Of(id, RunEvents(cfg, e.store, turns[1..])), later[id]);
    }
  }

  // ----- Approvals -----

  // An approval is announced whenever it is taken up, but recorded only if the
  // operation is suspended for approval: under any other suspension the log
  // says it was resolved while the record, and with it every later decision,
  // is as before.
  lemma ApprovalRecordedExactly(cfg: Config, r: OperationRecord, input: ResumeInput, token: string)
    requires Suspended(r.state) && input.ApprovalDecision? && input.approved
    ensures var out := DecideApproval(cfg, r, input, token);
      && ((exists e :: e in out.events && e.about.ApprovalResolved?) <==> TakenUp(cfg, r, input))
      && (TakenUp(cfg, r, input) ==>
            (out.record.slices.approvalDecision == Some(true) <==> r.state == SuspendedForApproval)
            && (r.state != SuspendedForApproval ==> out.record == r))
  {
    var out := DecideApproval(cfg, r, input, token);
    ApproveMoves(r, input.callId, token);
    if !TakenUp(cfg, r, input) {
      NotTakenUp(cfg, r, input, token);
    } else {
      assert out.events[0].about == ApprovalResolved(DecidedId(r, input.callId)) && out.events[0] in out.events;
    }
  }
}
