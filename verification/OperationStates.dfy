/**
  The lifecycle states of an operation, the table of legal transitions, and
  the persistent record that moves through it.
*/
module OperationStates {
  import opened Json
  import opened Text

  datatype State =
    | Received
    | Planning | PlanReady
    | Reviewing | Fulfilling | CollectingEvidence | AwaitingDecision
    | SandboxReady | SandboxRunning | Verifying | ReadyToApply
    | Completed | CancelledByUser | Superseded
    | SuspendedPlanRevision | SuspendedProviderRecovery | SuspendedEvidence | SuspendedPackageRepair
    | SuspendedDecision | SuspendedForApproval | SuspendedForToolResult

  predicate Terminal(s: State) {
    s == Completed || s == CancelledByUser || s == Superseded
  }

  predicate Suspended(s: State) {
    s == SuspendedPlanRevision || s == SuspendedProviderRecovery || s == SuspendedEvidence
    || s == SuspendedPackageRepair || s == SuspendedDecision || s == SuspendedForApproval
    || s == SuspendedForToolResult
  }

  function Successors(s: State): set<State> {
    match s
    case Received => {Planning, Reviewing}
    case Planning => {PlanReady, SuspendedPlanRevision, SuspendedForToolResult, SuspendedForApproval, CancelledByUser}
    case PlanReady => {Reviewing, CancelledByUser}
    case Reviewing => {Fulfilling, SandboxReady, SuspendedEvidence, SuspendedPlanRevision, SuspendedProviderRecovery, CancelledByUser}
    case Fulfilling => {CollectingEvidence, AwaitingDecision, Reviewing, CancelledByUser}
    case CollectingEvidence => {Reviewing, SuspendedEvidence, CancelledByUser}
    case AwaitingDecision => {Reviewing, SuspendedDecision, CancelledByUser}
    case SandboxReady => {SandboxRunning, SuspendedProviderRecovery, CancelledByUser}
    case SandboxRunning => {Verifying, Completed, SuspendedProviderRecovery, SuspendedPackageRepair,
                            SuspendedForApproval, SuspendedForToolResult, CancelledByUser}
    case Verifying => {ReadyToApply, SandboxReady, CancelledByUser}
    case ReadyToApply => {Completed, CancelledByUser}
    case SuspendedPlanRevision => {Planning, Reviewing, CancelledByUser, Superseded}
    case SuspendedProviderRecovery => {Reviewing, SandboxReady, SandboxRunning, CancelledByUser, Superseded}
    case SuspendedEvidence => {CollectingEvidence, Reviewing, CancelledByUser, Superseded}
    case SuspendedPackageRepair => {SandboxReady, CancelledByUser, Superseded}
    case SuspendedDecision => {AwaitingDecision, Reviewing, CancelledByUser, Superseded}
    case SuspendedForApproval => {SandboxRunning, Planning, SuspendedForToolResult, CancelledByUser, Superseded}
    case SuspendedForToolResult => {SandboxRunning, Planning, CancelledByUser, Superseded}
    case _ => {}
  }

  // ----- Records -----

  type Plan = Fields

  datatype Phase = PlanningPhase | ExecutionPhase

  datatype SourceKind = Task | PreparedPlan | Fix | Chat | OtherSource

  datatype Step = Step(from: State, to: State, reason: string)

  // Tool arguments arrive as an object or as text still to be parsed.
  datatype Arguments = Parsed(value: Json) | Raw(text: string)

  datatype ToolCall = ToolCall(callId: Option<string>, toolName: Option<string>, arguments: Option<Arguments>)

  datatype ToolResult = ToolResult(callId: Option<string>, output: string)

  datatype Claim = Claim(claimantId: string, callId: string, suspensionId: string, argumentDigest: string)

  datatype Message =
    | AssistantCall(callId: string, toolName: string, arguments: Arguments)
    | ToolMessage(callId: string, content: string)
    | OtherMessage(text: string)

  datatype Continuation = Continuation(messages: seq<Message>, pendingRawCalls: seq<ToolCall>)

  datatype RetryNote = RetryNote(provider: string, state: State)

  datatype Artifacts = Artifacts(
    candidatePlan: Option<Plan>,
    lifecycleRunId: Option<string>,
    issueId: Option<string>,
    continuation: Option<Continuation>,
    retries: map<string, RetryNote>)

  datatype Slices = Slices(
    suspensionId: Option<string>,
    argumentDigest: Option<string>,
    approvalToolCall: Option<ToolCall>,
    resumePhase: Option<Phase>,
    pendingCalls: seq<ToolCall>,
    executionClaim: Option<Claim>,
    approvalDecision: Option<bool>,
    approvalSuspensionId: Option<string>,
    consumedResults: Option<seq<ToolResult>>)

  datatype OperationRecord = OperationRecord(
    operationId: string,
    state: State,
    sourceKind: SourceKind,
    prompt: string,
    history: seq<Step>,
    suspendReason: Option<string>,
    artifacts: Artifacts,
    slices: Slices)
  {
    // `transition` on a legal successor: extends the history, moves the state,
    // and clears the suspension reason unless the new state is a suspension.
    function Advance(to: State, reason: string): (r: OperationRecord)
      requires to in Successors(state)
      ensures r.operationId == operationId && r.artifacts == artifacts && r.slices == slices
    {
      this.(history := history + [Step(state, to, reason)],
            state := to,
            suspendReason := if Suspended(to) then suspendReason else None)
    }

    // `transition` with its validation; None is InvalidTransition.
    function Transition(to: State, reason: string): Option<OperationRecord> {
      if Terminal(state) || to !in Successors(state) then None else Some(Advance(to, reason))
    }
  }

  function NewRecord(id: string, kind: SourceKind, prompt: string): OperationRecord {
    OperationRecord(id, Received, kind, prompt, [], None,
                    Artifacts(None, None, None, None, map[]),
                    Slices(None, None, None, None, [], None, None, None, None))
  }

  // ----- Histories -----

  // A connected path through the transition table from Received to `end`.
  ghost predicate IsPath(history: seq<Step>, end: State) {
    && (history == [] ==> end == Received)
    && (history != [] ==> history[0].from == Received && history[|history| - 1].to == end)
    && (forall i :: 0 <= i < |history| ==> history[i].to in Successors(history[i].from))
    && (forall i :: 0 < i < |history| ==> history[i].from == history[i - 1].to)
  }

  // The history contains a clean review.
  ghost predicate ReviewedClean(history: seq<Step>) {
    Step(Reviewing, SandboxReady, "review_clean") in history
  }

  ghost predicate Fulfilled(history: seq<Step>) {
    exists i :: 0 <= i < |history| && history[i].to == Fulfilling
  }

  lemma AdvanceExtendsPath(r: OperationRecord, to: State, reason: string)
    requires IsPath(r.history, r.state) && to in Successors(r.state)
    ensures IsPath(r.Advance(to, reason).history, to)
    ensures r.history <= r.Advance(to, reason).history
    ensures ReviewedClean(r.history) ==> ReviewedClean(r.Advance(to, reason).history)
  {
    var h := r.Advance(to, reason).history;
    assert h[..|r.history|] == r.history;
    forall i | 0 < i < |h| ensures h[i].from == h[i - 1].to {
      if i < |r.history| {
        assert h[i] == r.history[i] && h[i - 1] == r.history[i - 1];
      }
    }
  }

  // Terminal states are dead ends, and no other state is.
  lemma TerminalMeansNoSuccessor(s: State)
    ensures Terminal(s) <==> Successors(s) == {}
  {
    if !Terminal(s) {
      assert Reviewing in Successors(s) || CancelledByUser in Successors(s);
    }
  }

  // Cancellation is possible from every state that is neither terminal nor
  // freshly received.
  lemma CancelLegal(s: State)
    ensures CancelledByUser in Successors(s) <==> !Terminal(s) && s != Received
  {
  }

  // The table read backwards, from where each state is entered: the states
  // before execution, those of execution and after, and the suspensions.
  lemma EnteredExactly(s: State)
    ensures Planning in Successors(s) <==> s in {Received, SuspendedPlanRevision, SuspendedForApproval, SuspendedForToolResult}
    ensures PlanReady in Successors(s) <==> s == Planning
    ensures Reviewing in Successors(s) <==>
      s in {Received, PlanReady, Fulfilling, CollectingEvidence, AwaitingDecision, SuspendedPlanRevision,
            SuspendedProviderRecovery, SuspendedEvidence, SuspendedDecision}
    ensures Fulfilling in Successors(s) <==> s == Reviewing
    ensures CollectingEvidence in Successors(s) <==> s in {Fulfilling, SuspendedEvidence}
    ensures AwaitingDecision in Successors(s) <==> s in {Fulfilling, SuspendedDecision}
  {
  }

  lemma RunningEntered(s: State)
    ensures SandboxReady in Successors(s) <==> s in {Reviewing, Verifying, SuspendedProviderRecovery, SuspendedPackageRepair}
    ensures SandboxRunning in Successors(s) <==> s in {SandboxReady, SuspendedProviderRecovery, SuspendedForApproval, SuspendedForToolResult}
    ensures Verifying in Successors(s) <==> s == SandboxRunning
    ensures ReadyToApply in Successors(s) <==> s == Verifying
    ensures Completed in Successors(s) <==> s in {SandboxRunning, ReadyToApply}
    ensures Superseded in Successors(s) <==> Suspended(s)
    ensures Received !in Successors(s)
  {
  }

  lemma SuspendedEntered(s: State)
    ensures SuspendedPlanRevision in Successors(s) <==> s in {Planning, Reviewing}
    ensures SuspendedProviderRecovery in Successors(s) <==> s in {Reviewing, SandboxReady, SandboxRunning}
    ensures SuspendedEvidence in Successors(s) <==> s in {Reviewing, CollectingEvidence}
    ensures SuspendedPackageRepair in Successors(s) <==> s == SandboxRunning
    ensures SuspendedDecision in Successors(s) <==> s == AwaitingDecision
    ensures SuspendedForApproval in Successors(s) <==> s in {Planning, SandboxRunning}
    ensures SuspendedForToolResult in Successors(s) <==> s in {Planning, SandboxRunning, SuspendedForApproval}
  {
  }

  // Nothing is completed that was not running: every legal path to COMPLETED
  // leaves SANDBOX_RUNNING at some step.
  lemma CompletedWasRunning(history: seq<Step>)
    requires IsPath(history, Completed)
    ensures exists i :: 0 <= i < |history| && history[i].from == SandboxRunning
  {
    var n := |history| - 1;
    RunningEntered(history[n].from);
    if history[n].from == ReadyToApply {
      assert n > 0 && history[n - 1].to == ReadyToApply;
      RunningEntered(history[n - 1].from);
      assert n > 1 && history[n - 2].to == Verifying;
      RunningEntered(history[n - 2].from);
      assert history[n - 2].from == SandboxRunning;
    } else {
      assert history[n].from == SandboxRunning;
    }
  }
}
