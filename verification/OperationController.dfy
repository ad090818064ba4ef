/**
  The operation controller itself: each public call loads a record, moves it,
  saves it after every step, asks adapters, emits events, and replies. Every
  method is proved to do to the store, to the log of adapter calls and events
  and to its reply exactly what the protocol functions say, so the safety
  theorems hold of every sequence of calls on the object.
*/
module OperationController {
  import opened OperationStates
  import opened ControllerProtocol
  import opened ControllerSafety
  import opened Json
  import opened Text

  // The adapter calls made and the events emitted so far.
  datatype Log = Log(calls: seq<AdapterCall>, events: seq<Event>)
  {
    function Plus(out: Outcome): Log {
      Log(calls + out.calls, events + out.events)
    }
  }

  // A step that saved a record, made an adapter call and emitted events, then
  // a handler.
  lemma Chain(before: Store, between: Store, after: Store, logBefore: Log, logBetween: Log, logAfter: Log,
              record: OperationRecord, call: AdapterCall, events: seq<Event>, inner: Outcome)
    requires between == before[record.operationId := record]
    requires logBetween == Log(logBefore.calls + [call], logBefore.events + events)
    requires inner.record.operationId == record.operationId
    requires after == between[record.operationId := inner.record] && logAfter == logBetween.Plus(inner)
    ensures after == before[record.operationId := inner.record]
    ensures logAfter == logBefore.Plus(inner.Telling(events).After(call))
  {
    assert logBefore.calls + [call] + inner.calls == logBefore.calls + ([call] + inner.calls);
    assert logBefore.events + events + inner.events == logBefore.events + (events + inner.events);
  }

  // The store, the log and the reply are those of a handler's outcome.
  ghost predicate Did(out: Outcome, before: Store, logBefore: Log,
                      after: Store, logAfter: Log, reply: Reply)
  {
    && after == before[out.record.operationId := out.record]
    && logAfter == logBefore.Plus(out)
    && reply == out.reply
  }

  // Noting an adapter call before a handler.
  lemma NotedThen(before: Store, logBefore: Log, after: Store, logAfter: Log, reply: Reply, call: AdapterCall, inner: Outcome)
    requires Did(inner, before, Log(logBefore.calls + [call], logBefore.events), after, logAfter, reply)
    ensures Did(inner.After(call), before, logBefore, after, logAfter, reply)
  {
    assert logBefore.calls + [call] + inner.calls == logBefore.calls + ([call] + inner.calls);
  }

  // Saving a record and emitting events before a handler.
  lemma SavedThen(before: Store, logBefore: Log, after: Store, logAfter: Log, reply: Reply, record: OperationRecord,
                  events: seq<Event>, inner: Outcome)
    requires inner.record.operationId == record.operationId
    requires Did(inner, before[record.operationId := record], Log(logBefore.calls, logBefore.events + events), after, logAfter, reply)
    ensures Did(inner.Telling(events), before, logBefore, after, logAfter, reply)
  {
    assert logBefore.events + events + inner.events == logBefore.events + (events + inner.events);
  }

  // Without events, telling them changes nothing.
  lemma TellingNothing(out: Outcome)
    ensures out.Telling([]) == out
  {
  }

  // The store, the log and the reply are those the protocol gives a call.
  ghost predicate Applied(cfg: Config, call: Call, script: Script, before: Store, logBefore: Log,
                          after: Store, logAfter: Log, reply: Reply)
  {
    && after == Apply(cfg, before, call, script).store
    && logAfter == Log(logBefore.calls + Apply(cfg, before, call, script).calls, logBefore.events + Apply(cfg, before, call, script).events)
    && reply == Apply(cfg, before, call, script).reply
  }

  lemma AppliedStaysValid(cfg: Config, call: Call, script: Script, before: Store, logBefore: Log,
                          after: Store, logAfter: Log, reply: Reply)
    requires StoreOk(cfg, before) && Keyed(before) && CallsSafe(logBefore.calls)
    requires Applied(cfg, call, script, before, logBefore, after, logAfter, reply)
    ensures StoreOk(cfg, after) && Keyed(after) && CallsSafe(logAfter.calls)
  {
    ApplyGood(cfg, before, call, script);
    LogStaysSafe(logBefore.calls, Apply(cfg, before, call, script).calls);
    forall id | id in after ensures after[id].operationId == id {
      if id in before && id !in Targets(call) {
        assert Evolves(before[id], after[id]);
      }
    }
  }

  // What a registration leaves.
  lemma RegistrationMeans(cfg: Config, id: string, kind: SourceKind, prompt: string, before: Store, logBefore: Log,
                          after: Store, logAfter: Log, reply: Reply)
    requires Applied(cfg, RegisterCall(id, kind, prompt), [], before, logBefore, after, logAfter, reply)
    ensures MissingAdapters(cfg, kind) ==>
      after == before && logAfter == logBefore && reply == Reply(Received, Error("required_adapters_unavailable"))
    ensures !MissingAdapters(cfg, kind) ==>
      && after == before[id := NewRecord(id, kind, prompt)]
      && logAfter == Log(logBefore.calls, logBefore.events + Emit(NewRecord(id, kind, prompt), OperationCreated))
  {
    assert logBefore.calls + [] == logBefore.calls && logBefore.events + [] == logBefore.events;
  }

  lemma LogStaysSafe(before: seq<AdapterCall>, calls: seq<AdapterCall>)
    requires CallsSafe(before) && CallsSafe(calls)
    ensures CallsSafe(before + calls)
  {
  }

  class Controller {
    const cfg: Config
    var store: Store
    var log: Log

    constructor (cfg: Config)
      ensures this.cfg == cfg && store == map[] && log == Log([], []) && Valid()
    {
      this.cfg := cfg;
      store, log := map[], Log([], []);
    }

    // Records are stored under their own id, satisfy the record invariant, and
    // nothing was ever executed without a clean review.
    ghost predicate Valid()
      reads this
    {
      StoreOk(cfg, store) && Keyed(store) && CallsSafe(log.calls)
    }

    ghost predicate Saved(record: OperationRecord)
      reads this
    {
      record.operationId in store && store[record.operationId] == record
    }

    method Save(record: OperationRecord)
      modifies this`store
      ensures store == old(store)[record.operationId := record]
    {
      store := store[record.operationId := record];
    }

    method Note(call: AdapterCall)
      modifies this`log
      ensures log == Log(old(log).calls + [call], old(log).events)
    {
      log := log.(calls := log.calls + [call]);
    }

    method EmitEvent(record: OperationRecord, about: Announcement)
      modifies this`log
      ensures log == Log(old(log).calls, old(log).events + Emit(record, about))
    {
      var event := Event(record.operationId, record.state, about, record.history);
      log := log.(events := log.events + [event]);
      if !about.StateTransition? {
        log := log.(events := log.events + [event.(about := StateTransition)]);
      }
    }

    // ----- Phase handlers -----

    method HandleResult(r: OperationRecord, result: AdapterResult, phase: Phase) returns (reply: Reply)
      requires Handles(r, result, phase) && Saved(r)
      modifies this`store, this`log
      ensures Did(HandleAdapterResult(cfg, r, result, phase), old(store), old(log), store, log, reply)
    {
      match result.status {
        case DoneStatus =>
          reply := Finish(r, Completed, "adapter_completed", OperationCompleted, Other);
        case FailedStatus =>
          reply := Finish(r, CancelledByUser, "adapter_failed", OperationFailed, Error("adapter_failed"));
        case SuspendedStatus(ForApproval) =>
          reply := HandleApprovalSuspension(r, result, phase);
        case SuspendedStatus(ForToolResult) =>
          reply := HandleToolResultSuspension(r, result, phase);
        case SuspendedStatus(OtherSuspension) =>
          reply := HandleOtherSuspension(r, result, phase);
        case UnknownStatus =>
          reply := Reply(r.state, Error("unknown adapter status"));
      }
    }

    method Finish(r: OperationRecord, to: State, reason: string, about: Announcement, detail: Detail) returns (reply: Reply)
      requires to in Successors(r.state)
      modifies this`store, this`log
      ensures var done := r.Advance(to, reason);
        Did(Outcome(done, [], Reply(to, detail), Emit(done, about)), old(store), old(log), store, log, reply)
    {
      var record := r.Advance(to, reason);
      Save(record);
      EmitEvent(record, about);
      reply := Reply(record.state, detail);
    }

    method HandleOtherSuspension(r: OperationRecord, result: AdapterResult, phase: Phase) returns (reply: Reply)
      modifies this`store
      ensures store == old(store)[r.operationId := NoteSuspension(r, result, phase)] && reply == Reply(r.state, Other)
    {
      var record := r;
      record := record.(suspendReason := Some(GetOr(result.reason, if phase == PlanningPhase then "planning" else "execution")));
      if result.continuation.Some? {
        record := record.(artifacts := record.artifacts.(continuation := result.continuation));
      }
      if result.suspensionId.Some? {
        record := record.(slices := record.slices.(suspensionId := result.suspensionId));
      }
      if result.pendingCalls.Some? {
        record := record.(slices := record.slices.(pendingCalls := result.pendingCalls.value));
      }
      record := record.(slices := record.slices.(resumePhase := Some(phase)));
      Save(record);
      reply := Reply(record.state, Other);
    }

    method HandleApprovalSuspension(r: OperationRecord, result: AdapterResult, phase: Phase) returns (reply: Reply)
      requires r.state == Planning || r.state == SandboxRunning
      modifies this`store, this`log
      ensures var waiting := SuspendForApproval(cfg, r, result, phase);
        && store == old(store)[r.operationId := waiting]
        && log == Log(old(log).calls, old(log).events + Emit(waiting, Requested(waiting)))
      ensures reply == Reply(SuspendedForApproval, Other)
    {
      var record := r;
      var digest := CallDigest(cfg, result.toolCall, "");
      record := record.(slices := record.slices.(
        suspensionId := Some(GetOr(result.suspensionId, "")), argumentDigest := Some(digest),
        approvalToolCall := Some(result.toolCall), resumePhase := Some(phase)));
      if result.continuation.Some? {
        record := record.(artifacts := record.artifacts.(continuation := result.continuation));
      }
      record := record.Advance(SuspendedForApproval, "approval_required");
      record := record.(suspendReason := Some(GetOr(result.reason, "approval_required")));
      Save(record);
      EmitEvent(record, ApprovalRequested(GetOr(result.suspensionId, ""), digest));
      reply := Reply(record.state, Other);
    }

    method HandleToolResultSuspension(r: OperationRecord, result: AdapterResult, phase: Phase) returns (reply: Reply)
      requires r.state == Planning || r.state == SandboxRunning
      modifies this`store, this`log
      ensures var waiting := SuspendForToolResult(r, result, phase);
        && store == old(store)[r.operationId := waiting]
        && log == Log(old(log).calls, old(log).events + Emit(waiting, Demanded(waiting)))
      ensures reply == Reply(SuspendedForToolResult, Other)
    {
      var record := r;
      record := record.(slices := record.slices.(
        suspensionId := Some(GetOr(result.suspensionId, "")),
        pendingCalls := GetOr(result.pendingCalls, []), resumePhase := Some(phase)));
      if result.continuation.Some? {
        record := record.(artifacts := record.artifacts.(continuation := result.continuation));
      }
      record := record.Advance(SuspendedForToolResult, "frontend_tool_execution");
      record := record.(suspendReason := Some("frontend_tool_execution"));
      Save(record);
      EmitEvent(record, ExecutionRequested(GetOr(result.suspensionId, ""), GetOr(result.pendingCalls, [])));
      reply := Reply(record.state, Other);
    }

    method Execute(r: OperationRecord, script: Script) returns (reply: Reply)
      requires r.state == SandboxReady && Saved(r)
      modifies this`store, this`log
      ensures Did(DoExecution(cfg, r, script), old(store), old(log), store, log, reply)
    {
      if !cfg.execution {
        return Reply(r.state, Other);
      }
      var plan := GetOr(r.artifacts.candidatePlan, NoField);
      var record := r.Advance(SandboxRunning, "execution_started");
      Save(record);
      Note(ExecuteCall(record.operationId, record.history, plan));
      if script == [] {
        return Raised;
      }
      ghost var between, logBetween := store, log;
      reply := HandleResult(record, script[0].adapter, ExecutionPhase);
      Chain(old(store), between, store, old(log), logBetween, log, record,
            ExecuteCall(record.operationId, record.history, plan), [],
            HandleAdapterResult(cfg, record, script[0].adapter, ExecutionPhase));
    }

    method Review(r: OperationRecord, plan: Plan, provider: Option<string>, script: Script) returns (reply: Reply)
      requires r.state == Reviewing && Saved(r)
      modifies this`store, this`log
      ensures Did(DoReview(cfg, r, plan, provider, script), old(store), old(log), store, log, reply)
      decreases |script|, 1
    {
      if !cfg.review {
        return Reply(r.state, Other);
      }
      if script == [] {
        Note(ReviewCall(r.operationId, r.history, plan, provider, None));
        return Raised;
      }
      var answer := script[0].review;
      Note(ReviewCall(r.operationId, r.history, plan, provider, Some(answer)));
      ghost var call, logged := ReviewCall(r.operationId, r.history, plan, provider, Some(answer)), log;
      match answer.decision {
        case NoMaterialGap =>
          reply := PassReview(r, answer, script[1..]);
          ghost var ready := StoreImprovedPlan(r, answer).Advance(SandboxReady, "review_clean");
          NotedThen(old(store), old(log), store, log, reply, call,
                    DoExecution(cfg, ready, script[1..]).Telling(Emit(ready, ReviewCompleted(answer.reviewId))));
        case MaterialGapFound =>
          var record := r.Advance(Fulfilling, "material_gap_found");
          Save(record);
          reply := Fulfil(record, plan, script[1..]);
          ghost var inner := DoFulfilment(cfg, record, plan, script[1..]);
          TellingNothing(inner);
          assert logged.events + [] == logged.events;
          SavedThen(old(store), logged, store, log, reply, record, [], inner);
          NotedThen(old(store), old(log), store, log, reply, call, inner);
        case ProviderError =>
          reply := AwaitProvider(r, answer);
        case OtherDecision(text) =>
          reply := AwaitEvidence(r, text);
      }
    }

    // A clean review: keeps the improved plan and goes on to execution.
    method PassReview(r: OperationRecord, answer: ReviewAnswer, script: Script) returns (reply: Reply)
      requires r.state == Reviewing && Saved(r)
      modifies this`store, this`log
      ensures var ready := StoreImprovedPlan(r, answer).Advance(SandboxReady, "review_clean");
        Did(DoExecution(cfg, ready, script).Telling(Emit(ready, ReviewCompleted(answer.reviewId))),
            old(store), old(log), store, log, reply)
    {
      var record := r;
      if answer.improvedPlan.Some? {
        record := record.(artifacts := record.artifacts.(candidatePlan := answer.improvedPlan,
                                                         lifecycleRunId := Some(GetOr(answer.reviewId, ""))));
      }
      record := record.Advance(SandboxReady, "review_clean");
      Save(record);
      EmitEvent(record, ReviewCompleted(answer.reviewId));
      reply := Execute(record, script);
      SavedThen(old(store), old(log), store, log, reply, record, Emit(record, ReviewCompleted(answer.reviewId)),
                DoExecution(cfg, record, script));
    }

    method AwaitProvider(r: OperationRecord, answer: ReviewAnswer) returns (reply: Reply)
      requires r.state == Reviewing
      modifies this`store, this`log
      ensures var waiting := r.Advance(SuspendedProviderRecovery, "aflow_provider_error");
        && store == old(store)[r.operationId := waiting.(
             suspendReason := Some("aflow_provider_error"),
             artifacts := if answer.issueId.Some? && answer.issueId.value != ""
                          then r.artifacts.(issueId := answer.issueId) else r.artifacts)]
        && log == Log(old(log).calls, old(log).events + Emit(waiting, IssueCreated(answer.issueId)))
      ensures reply == Reply(SuspendedProviderRecovery, Other)
    {
      var record := r.Advance(SuspendedProviderRecovery, "aflow_provider_error");
      record := record.(suspendReason := Some("aflow_provider_error"));
      if answer.issueId.Some? && answer.issueId.value != "" {
        record := record.(artifacts := record.artifacts.(issueId := answer.issueId));
      }
      Save(record);
      EmitEvent(record, IssueCreated(answer.issueId));
      reply := Reply(record.state, Other);
    }

    method AwaitEvidence(r: OperationRecord, text: string) returns (reply: Reply)
      requires r.state == Reviewing
      modifies this`store
      ensures store == old(store)[r.operationId :=
        r.Advance(SuspendedEvidence, "review_decision=" + text).(suspendReason := Some(text))]
      ensures reply == Reply(SuspendedEvidence, Other)
    {
      var record := r.Advance(SuspendedEvidence, "review_decision=" + text);
      record := record.(suspendReason := Some(text));
      Save(record);
      reply := Reply(record.state, Other);
    }

    method Fulfil(r: OperationRecord, plan: Plan, script: Script) returns (reply: Reply)
      requires r.state == Fulfilling && Saved(r)
      modifies this`store, this`log
      ensures Did(DoFulfilment(cfg, r, plan, script), old(store), old(log), store, log, reply)
      decreases |script|, 2
    {
      if !cfg.fulfilment {
        return Reply(r.state, Other);
      }
      Note(FulfilCall(r.operationId, r.history));
      if script == [] {
        return Raised;
      }
      var answer := script[0].fulfil;
      var record := r;
      if answer.allResolved {
        record := record.Advance(Reviewing, "fulfilment_complete");
        Save(record);
        ghost var between, logBetween := store, log;
        reply := Review(record, GetOr(answer.revisedPlan, plan), None, script[1..]);
        Chain(old(store), between, store, old(log), logBetween, log, record, FulfilCall(r.operationId, r.history), [],
              DoReview(cfg, record, GetOr(answer.revisedPlan, plan), None, script[1..]));
      } else {
        if true in answer.needsDecision {
          record := record.Advance(AwaitingDecision, "decision_required");
        } else {
          record := record.Advance(CollectingEvidence, "evidence_required");
        }
        Save(record);
        reply := Reply(record.state, Other);
      }
    }

    method StorePlanAndReview(r: OperationRecord, plan: Plan, reason: string) returns (record: OperationRecord)
      requires r.state == Planning
      modifies this`store
      ensures record == PlanToReview(r, plan, reason)
      ensures store == old(store)[r.operationId := record]
    {
      record := r.Advance(PlanReady, reason);
      record := record.(artifacts := record.artifacts.(candidatePlan := Some(plan)));
      Save(record);
      record := record.Advance(Reviewing, "auto_review");
      Save(record);
    }

    method MakePlan(r: OperationRecord, script: Script) returns (reply: Reply)
      requires r.state == Planning && Saved(r)
      modifies this`store, this`log
      ensures Did(DoPlanning(cfg, r, script), old(store), old(log), store, log, reply)
    {
      if !cfg.planning {
        return Reply(r.state, Other);
      }
      Note(CreatePlanCall(r.operationId, r.history));
      if script == [] {
        return Raised;
      }
      var result := script[0].adapter;
      ghost var call := CreatePlanCall(r.operationId, r.history);
      if result.status.SuspendedStatus? {
        ghost var logBetween := log;
        reply := HandleResult(r, result, PlanningPhase);
        Chain(old(store), old(store), store, old(log), logBetween, log, r, call, [],
              HandleAdapterResult(cfg, r, result, PlanningPhase));
      } else {
        var record := StorePlanAndReview(r, result.plan, "plan_created");
        ghost var between, logBetween := store, log;
        reply := Review(record, result.plan, None, script[1..]);
        Chain(old(store), between, store, old(log), logBetween, log, record, call, [],
              DoReview(cfg, record, result.plan, None, script[1..]));
      }
    }

    method HandBack(r: OperationRecord, withResults: bool, script: Script) returns (reply: Reply)
      requires Saved(r)
      modifies this`store, this`log
      ensures Did(Continue(cfg, r, withResults, script), old(store), old(log), store, log, reply)
    {
      if r.state == Planning && cfg.planning {
        Note(ResumePlanCall(r.operationId, r.history));
        if script == [] {
          return Raised;
        }
        var result := script[0].adapter;
        ghost var call := ResumePlanCall(r.operationId, r.history);
        if result.status.SuspendedStatus? {
          ghost var logBetween := log;
          reply := HandleResult(r, result, PlanningPhase);
          Chain(old(store), old(store), store, old(log), logBetween, log, r, call, [],
                HandleAdapterResult(cfg, r, result, PlanningPhase));
        } else {
          var record := StorePlanAndReview(r, result.plan, "plan_resumed");
          if withResults {
            ghost var between, logBetween := store, log;
            reply := Review(record, result.plan, None, script[1..]);
            Chain(old(store), between, store, old(log), logBetween, log, record, call, [],
                  DoReview(cfg, record, result.plan, None, script[1..]));
          } else {
            reply := Raised;
          }
        }
      } else if r.state == SandboxRunning && cfg.execution {
        Note(ResumeExecutionCall(r.operationId, r.history));
        if script == [] {
          return Raised;
        }
        ghost var logBetween := log;
        reply := HandleResult(r, script[0].adapter, ExecutionPhase);
        Chain(old(store), old(store), store, old(log), logBetween, log, r,
              ResumeExecutionCall(r.operationId, r.history), [],
              HandleAdapterResult(cfg, r, script[0].adapter, ExecutionPhase));
      } else {
        reply := Reply(r.state, Other);
      }
    }

    // ----- Public calls -----

    // Each public call does what the protocol says and keeps the invariant.

    method Register(id: string, kind: SourceKind, prompt: string) returns (reply: Reply)
      requires Valid()
      modifies this`store, this`log
      ensures Applied(cfg, RegisterCall(id, kind, prompt), [], old(store), old(log), store, log, reply)
      ensures Valid()
    {
      if MissingAdapters(cfg, kind) {
        reply := Reply(Received, Error("required_adapters_unavailable"));
        return;
      }
      NewRecordOk(cfg, id, kind, prompt);
      Save(NewRecord(id, kind, prompt));
      EmitEvent(NewRecord(id, kind, prompt), OperationCreated);
      reply := Reply(Received, Other);
    }

    method Start(id: string, plan: Option<Plan>, script: Script) returns (reply: Reply)
      requires Valid()
      modifies this`store, this`log
      ensures Applied(cfg, StartCall(id, plan), script, old(store), old(log), store, log, reply)
      ensures Valid()
    {
      if id !in store {
        reply := Reply(Received, Error("operation_not_found"));
      } else {
        reply := StartRecord(store[id], plan, script);
      }
      AppliedStaysValid(cfg, StartCall(id, plan), script, old(store), old(log), store, log, reply);
    }

    method StartRecord(r: OperationRecord, plan: Option<Plan>, script: Script) returns (reply: Reply)
      requires Saved(r)
      modifies this`store, this`log
      ensures Did(ControllerProtocol.Start(cfg, r, plan, script), old(store), old(log), store, log, reply)
    {
      if r.state != Received {
        reply := Reply(r.state, Error("operation already started"));
      } else if r.sourceKind == PreparedPlan && plan.Some? {
        var record := r.Advance(Reviewing, "prepared_plan_submitted");
        record := record.(artifacts := record.artifacts.(candidatePlan := plan));
        reply := SaveAndReview(record, plan.value, script);
      } else if r.sourceKind == Task {
        reply := StartTask(r, script);
      } else if r.sourceKind == Fix {
        var record := r.Advance(Reviewing, "fix_accepted");
        if plan.Some? && plan.value.Field? {
          reply := SaveAndReview(record, plan.value, script);
        } else {
          Save(record);
          reply := Reply(record.state, Other);
        }
      } else if r.sourceKind == Chat {
        reply := if !cfg.chat then Reply(r.state, Other)
                 else if r.Transition(SandboxRunning, "chat_turn_started").None? then Raised
                 else Reply(r.state, Other);
      } else {
        reply := Reply(r.state, Error("unknown source_kind"));
      }
    }

    method SaveAndReview(record: OperationRecord, plan: Plan, script: Script) returns (reply: Reply)
      requires record.state == Reviewing
      modifies this`store, this`log
      ensures Did(DoReview(cfg, record, plan, None, script), old(store), old(log), store, log, reply)
    {
      Save(record);
      reply := Review(record, plan, None, script);
      assert old(log).events + [] == old(log).events;
      TellingNothing(DoReview(cfg, record, plan, None, script));
      SavedThen(old(store), old(log), store, log, reply, record, [], DoReview(cfg, record, plan, None, script));
    }

    method StartTask(r: OperationRecord, script: Script) returns (reply: Reply)
      requires r.state == Received
      modifies this`store, this`log
      ensures var moved := r.Advance(Planning, "task_accepted");
        Did(DoPlanning(cfg, moved, script).Telling(Emit(moved, StateTransition)), old(store), old(log), store, log, reply)
    {
      var record := r.Advance(Planning, "task_accepted");
      Save(record);
      EmitEvent(record, StateTransition);
      reply := MakePlan(record, script);
      SavedThen(old(store), old(log), store, log, reply, record, Emit(record, StateTransition), DoPlanning(cfg, record, script));
    }

    method Resume(id: string, input: ResumeInput, token: string, script: Script) returns (reply: Reply)
      requires Valid()
      modifies this`store, this`log
      ensures Applied(cfg, ResumeCall(id, input, token), script, old(store), old(log), store, log, reply)
      ensures Valid()
    {
      if id !in store {
        reply := Reply(Received, Error("operation_not_found"));
      } else {
        reply := ResumeRecord(store[id], input, token, script);
      }
      AppliedStaysValid(cfg, ResumeCall(id, input, token), script, old(store), old(log), store, log, reply);
    }

    method ResumeRecord(record: OperationRecord, input: ResumeInput, token: string, script: Script) returns (reply: Reply)
      requires Saved(record)
      modifies this`store, this`log
      ensures Did(ControllerProtocol.Resume(cfg, record, input, token, script), old(store), old(log), store, log, reply)
    {
      if !Suspended(record.state) {
        return Reply(record.state, Error("operation is not suspended"));
      }
      match input {
        case ApprovalDecision(_, _, _) =>
          reply := HandleApprovalDecision(record, input, token);
        case ToolResults(results) =>
          reply := HandleToolResult(record, results, script);
        case OtherResume =>
          var moved := record.Transition(ResumeTarget(record), "resumed with input");
          if moved.None? {
            return Reply(record.state, Error("invalid transition"));
          }
          Save(moved.value);
          reply := HandBack(moved.value, false, script);
      }
    }

    method HandleApprovalDecision(r: OperationRecord, input: ResumeInput, token: string) returns (reply: Reply)
      requires input.ApprovalDecision? && Saved(r)
      modifies this`store, this`log
      ensures Did(DecideApproval(cfg, r, input, token), old(store), old(log), store, log, reply)
    {
      var record := r;
      if WrongSuspension(record, input.suspensionId) {
        return Reply(record.state, Error("suspension_id_mismatch"));
      }
      if record.slices.approvalDecision.Some? {
        if record.slices.approvalDecision.value == input.approved {
          return Reply(record.state, Decided(input.approved, true));
        }
        return Reply(record.state, Error("conflicting_approval_decision"));
      }
      if DigestRejects(cfg, record, input.callId) {
        return Reply(record.state, Error("argument_digest_mismatch"));
      }
      if !input.approved {
        var denied := record.Transition(CancelledByUser, "approval_denied");
        if denied.None? {
          return Reply(record.state, Error("invalid transition"));
        }
        record := denied.value.(slices := denied.value.slices.(approvalDecision := Some(false)));
        Save(record);
        EmitEvent(record, ApprovalDenied(DecidedId(r, input.callId)));
        return Reply(record.state, Decided(false, false));
      }
      // the record in hand is changed first and only saved once it has moved
      record := record.(slices := record.slices.(
        approvalDecision := Some(true), approvalSuspensionId := Some(GetOr(record.slices.suspensionId, ""))));
      var call := GetOr(record.slices.approvalToolCall, ToolCall(None, None, None));
      var callId := GetOr(call.callId, input.callId);
      EmitEvent(record, ApprovalResolved(callId));
      record := record.(artifacts := record.artifacts.(
        continuation := IntegrateApproval(record.artifacts.continuation, call, callId)));
      record := record.(slices := record.slices.(
        suspensionId := Some(token),
        pendingCalls := [ToolCall(Some(callId), Some(GetOr(call.toolName, "")),
                                  Some(GetOr(call.arguments, Parsed(Obj(NoField)))))]));
      assert record == Granted(r, input.callId, token);
      var moved := record.Transition(SuspendedForToolResult, "approval_granted");
      if moved.None? {
        return Reply(record.state, Error("invalid transition"));
      }
      Save(moved.value);
      EmitEvent(moved.value, Demanded(moved.value));
      reply := Reply(moved.value.state, Decided(true, false));
    }

    // Whether every result that names a call names the claimed one.
    method AnswerClaim(claim: Claim, results: seq<ToolResult>) returns (matches: bool)
      ensures matches <==> MatchesClaim(claim, results)
    {
      for i := 0 to |results|
        invariant MatchesClaim(claim, results[..i])
      {
        var resultId := GetOr(results[i].callId, "");
        if resultId != "" && resultId != claim.callId {
          assert !MatchesClaim(claim, results);
          return false;
        }
      }
      assert results[..|results|] == results;
      return true;
    }

    method HandleToolResult(r: OperationRecord, results: seq<ToolResult>, script: Script) returns (reply: Reply)
      requires Saved(r)
      modifies this`store, this`log
      ensures Did(AcceptResults(cfg, r, results, script), old(store), old(log), store, log, reply)
    {
      var claim := r.slices.executionClaim;
      if claim.Some? {
        if r.slices.consumedResults.Some? {
          if r.slices.consumedResults.value == results {
            return Reply(r.state, ResultsAccepted(true));
          }
          return Reply(r.state, Error("conflicting_result_replay"));
        }
        var matches := AnswerClaim(claim.value, results);
        if !matches {
          return Reply(r.state, Error("result_call_id_mismatch"));
        }
      }
      var moved := r.Transition(ResumeTarget(r), "tool_result_submitted");
      if moved.None? {
        return Reply(r.state, Error("invalid transition"));
      }
      var record := moved.value;
      if claim.Some? {
        record := record.(slices := record.slices.(consumedResults := Some(results)));
      }
      Save(record);
      reply := HandBack(record, true, script);
    }

    method Cancel(id: string, reason: string) returns (reply: Reply)
      requires Valid()
      modifies this`store, this`log
      ensures Applied(cfg, CancelCall(id, reason), [], old(store), old(log), store, log, reply)
      ensures Valid()
    {
      if id !in store {
        reply := Reply(Received, Error("operation_not_found"));
      } else {
        reply := CancelRecord(store[id], reason);
      }
      AppliedStaysValid(cfg, CancelCall(id, reason), [], old(store), old(log), store, log, reply);
    }

    method CancelRecord(r: OperationRecord, reason: string) returns (reply: Reply)
      requires Saved(r)
      modifies this`store
      ensures Did(ControllerProtocol.Cancel(r, reason), old(store), log, store, log, reply)
    {
      if Terminal(r.state) {
        return Reply(r.state, Error("operation already terminal"));
      }
      var moved := r.Transition(CancelledByUser, reason);
      if moved.None? {
        return Reply(r.state, Error("invalid transition"));
      }
      Save(moved.value);
      reply := Reply(moved.value.state, Other);
    }

    method ClaimToolExecution(id: string, claim: Claim) returns (reply: Reply)
      requires Valid()
      modifies this`store, this`log
      ensures Applied(cfg, ClaimCall(id, claim), [], old(store), old(log), store, log, reply)
      ensures Valid()
    {
      if id !in store {
        reply := Reply(Received, Error("operation_not_found"));
      } else {
        reply := ClaimRecord(store[id], claim);
      }
      AppliedStaysValid(cfg, ClaimCall(id, claim), [], old(store), old(log), store, log, reply);
    }

    method ClaimRecord(r: OperationRecord, claim: Claim) returns (reply: Reply)
      requires Saved(r)
      modifies this`store, this`log
      ensures Did(ClaimExecution(r, claim), old(store), old(log), store, log, reply)
    {
      var digest := GetOr(r.slices.argumentDigest, "");
      var pending := FindCall(r.slices.pendingCalls, claim.callId);
      if r.state != SuspendedForToolResult {
        return Reply(r.state, Error("operation_not_suspended_for_tool_result"));
      }
      if claim.suspensionId != GetOr(r.slices.suspensionId, "") {
        return Reply(r.state, Error("suspension_id_mismatch"));
      }
      if pending.None? {
        return Reply(r.state, Error("tool_call_not_found"));
      }
      if digest != "" && claim.argumentDigest != digest {
        return Reply(r.state, Error("argument_digest_mismatch"));
      }
      if r.slices.executionClaim.Some? {
        if r.slices.executionClaim.value.claimantId == claim.claimantId {
          return Reply(r.state, Claimed(claim.claimantId, claim.callId, true, pending.value, digest));
        }
        return Reply(r.state, Error("competing_claim"));
      }
      var record := r.(slices := r.slices.(executionClaim := Some(claim)));
      Save(record);
      EmitEvent(record, ExecutionClaimed(claim));
      reply := Reply(r.state, Claimed(claim.claimantId, claim.callId, false, pending.value, digest));
    }

    method Retry(id: string, version: int, key: string, provider: string, script: Script) returns (reply: Reply)
      requires Valid()
      modifies this`store, this`log
      ensures Applied(cfg, RetryCall(id, version, key, provider), script, old(store), old(log), store, log, reply)
      ensures Valid()
    {
      if id !in store {
        reply := Reply(Received, Error("operation_not_found"));
      } else {
        reply := RetryRecord(store[id], version, key, provider, script);
      }
      AppliedStaysValid(cfg, RetryCall(id, version, key, provider), script, old(store), old(log), store, log, reply);
    }

    method RetryRecord(r: OperationRecord, version: int, key: string, provider: string, script: Script) returns (reply: Reply)
      requires Saved(r)
      modifies this`store, this`log
      ensures Did(RetryAflow(cfg, r, version, key, provider, script), old(store), old(log), store, log, reply)
    {
      if key in r.artifacts.retries {
        return Reply(r.state, Replayed(r.artifacts.retries[key]));
      }
      if r.state != SuspendedProviderRecovery {
        return Reply(r.state, Error("operation_not_in_provider_recovery"));
      }
      if version != |r.history| {
        return Reply(r.state, Error("stale_operation_version"));
      }
      if r.artifacts.candidatePlan.None? {
        return Reply(r.state, Error("candidate_plan_missing"));
      }
      var record := r.Advance(Reviewing, "aflow_retry:" + provider);
      Save(record);
      reply := Review(record, r.artifacts.candidatePlan.value, Some(provider), script);
      if reply.Raised? {
        return;
      }
      var latest := store[r.operationId];
      latest := latest.(artifacts := latest.artifacts.(retries := latest.artifacts.retries[key := RetryNote(provider, reply.state)]));
      Save(latest);
    }

    // Registration and start in one call.
    method Accept(id: string, kind: SourceKind, prompt: string, plan: Option<Plan>, script: Script) returns (reply: Reply)
      requires Valid()
      modifies this`store, this`log
      ensures Valid()
      ensures MissingAdapters(cfg, kind) ==>
        store == old(store) && log == old(log) && reply == Reply(Received, Error("required_adapters_unavailable"))
      ensures !MissingAdapters(cfg, kind) ==>
        Applied(cfg, StartCall(id, plan), script, old(store)[id := NewRecord(id, kind, prompt)],
                Log(old(log).calls, old(log).events + Emit(NewRecord(id, kind, prompt), OperationCreated)), store, log, reply)
    {
      reply := Register(id, kind, prompt);
      RegistrationMeans(cfg, id, kind, prompt, old(store), old(log), store, log, reply);
      if MissingAdapters(cfg, kind) {
        return;
      }
      reply := Start(id, plan, script);
    }
  }
}
