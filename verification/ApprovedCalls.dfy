/**
  What an approval does to a suspended tool loop: the controller writes the
  approved call into the stored continuation, and the loop resumes from it.
*/
module ApprovedCalls {
  import opened Text
  import C = ControllerProtocol
  import L = ToolLoop
  import S = OperationStates

  // How the loop reads a stored message. What it wrote itself is text to the
  // controller, read back by `read`.
  type Reader = string -> L.Message

  function LoadMessage(read: Reader, m: S.Message): L.Message {
    match m
    case AssistantCall(callId, _, _) => L.AssistantCalls([callId])
    case ToolMessage(callId, content) => L.ToolResult(callId, content)
    case OtherMessage(text) => read(text)
  }

  function LoadMessages(read: Reader, messages: seq<S.Message>): seq<L.Message> {
    seq(|messages|, i requires 0 <= i < |messages| => LoadMessage(read, messages[i]))
  }

  function RawIds(calls: seq<S.ToolCall>): seq<string> {
    seq(|calls|, i requires 0 <= i < |calls| => C.GetOr(calls[i].callId, ""))
  }

  // The continuation the loop resumes from. The controller does not touch its
  // counters and its trace.
  function Load(read: Reader, stored: S.Continuation, counters: L.Continuation): L.Continuation {
    counters.(messages := LoadMessages(read, stored.messages), pendingRaw := RawIds(stored.pendingRawCalls))
  }

  // The stored form of a continuation.
  ghost predicate Stores(read: Reader, stored: S.Continuation, c: L.Continuation) {
    Load(read, stored, c) == c
  }

  lemma LoadAppend(read: Reader, a: seq<S.Message>, b: seq<S.Message>)
    ensures LoadMessages(read, a + b) == LoadMessages(read, a) + LoadMessages(read, b)
  {
  }

  lemma GrantedBlock(callId: string)
    ensures L.Paired([L.AssistantCalls([callId]), L.ToolResult(callId, "approved")])
  {
    var results := [L.ToolResult(callId, "approved")];
    L.BlockPaired([callId], results);
    assert [L.AssistantCalls([callId])] + results == [L.AssistantCalls([callId]), L.ToolResult(callId, "approved")];
  }

  // Writing the approval in keeps the transcript paired and leaves no raw call
  // pending, so that every submitted result breaks the pairing.
  lemma GrantedPairsExactly(read: Reader, stored: S.Continuation, c: L.Continuation, call: S.ToolCall, callId: string,
                            results: seq<L.SubmittedResult>)
    requires Stores(read, stored, c) && L.Paired(c.messages)
    ensures var granted := Load(read, C.IntegrateApproval(Some(stored), call, callId).value, c);
      && L.Paired(granted.messages) && granted.pendingRaw == []
      && (L.Paired(L.Resumed(granted, results).messages) <==> results == [])
  {
    var granted := Load(read, C.IntegrateApproval(Some(stored), call, callId).value, c);
    var block := [L.AssistantCalls([callId]), L.ToolResult(callId, "approved")];
    var written := C.IntegrateApproval(Some(stored), call, callId).value.messages[|stored.messages|..];
    LoadAppend(read, stored.messages, written);
    assert LoadMessages(read, written) == block;
    assert granted.messages == c.messages + block;
    GrantedBlock(callId);
    L.PairedAppend(c.messages, block);
    L.ResumeKeepsPairingExactly(granted, results);
    assert L.SubmittedIds(results) == [] <==> results == [];
  }

  // What a granted approval leaves in the record.
  lemma GrantedRecord(ctl: C.Config, r: S.OperationRecord, callId: string, suspensionId: string, token: string)
    requires r.artifacts.continuation.Some? && r.slices.approvalToolCall.Some?
    requires C.DecideApproval(ctl, r, C.ApprovalDecision(true, suspensionId, callId), token).reply
      == C.Reply(S.SuspendedForToolResult, C.Decided(true, false))
    ensures var after := C.DecideApproval(ctl, r, C.ApprovalDecision(true, suspensionId, callId), token).record;
      var (call, id) := (r.slices.approvalToolCall.value, C.GetOr(r.slices.approvalToolCall.value.callId, callId));
      && after.state == S.SuspendedForToolResult
      && |after.slices.pendingCalls| == 1 && after.slices.pendingCalls[0].callId == Some(id)
      && after.artifacts.continuation == C.IntegrateApproval(r.artifacts.continuation, call, id)
  {
  }

  // A loop that ran on a paired transcript and asked for approval: once the
  // operator grants it, the controller waits for the result of exactly that
  // call, and any result handed to the loop then breaks the pairing, because
  // the call was answered with "approved" already.
  lemma ApprovedResultBreaksPairing(
      cfg: L.Config, st: L.State, env: L.Environment, read: Reader, ctl: C.Config, r: S.OperationRecord,
      callId: string, suspensionId: string, token: string, results: seq<L.SubmittedResult>)
    requires L.Paired(st.messages) && L.Execute(cfg, st, env).outcome.SuspendedForApproval?
    requires r.state == S.SuspendedForApproval && r.artifacts.continuation.Some? && r.slices.approvalToolCall.Some?
    requires Stores(read, r.artifacts.continuation.value, L.Execute(cfg, st, env).outcome.continuation)
    requires C.DecideApproval(ctl, r, C.ApprovalDecision(true, suspensionId, callId), token).reply
      == C.Reply(S.SuspendedForToolResult, C.Decided(true, false))
    ensures var after := C.DecideApproval(ctl, r, C.ApprovalDecision(true, suspensionId, callId), token).record;
      && after.state == S.SuspendedForToolResult && |after.slices.pendingCalls| == 1
      && after.slices.pendingCalls[0].callId == Some(C.GetOr(r.slices.approvalToolCall.value.callId, callId))
      && after.artifacts.continuation.Some?
      && var resumed := L.Resumed(Load(read, after.artifacts.continuation.value, L.Execute(cfg, st, env).outcome.continuation), results);
         L.Paired(resumed.messages) <==> results == []
  {
    var c := L.Execute(cfg, st, env).outcome.continuation;
    L.RunKeepsPairing(cfg, st, env);
    L.RunAccounts(cfg, st, env);
    assert L.Paired(c.messages);
    var call := r.slices.approvalToolCall.value;
    GrantedRecord(ctl, r, callId, suspensionId, token);
    GrantedPairsExactly(read, r.artifacts.continuation.value, c, call, C.GetOr(call.callId, callId), results);
  }
}
