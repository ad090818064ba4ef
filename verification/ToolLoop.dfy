/**
  The suspendable tool loop: a provider is called at most `maxIterations` times
  across a run and all its resumptions; backend tools are executed in the loop,
  frontend tools and approvals suspend it into a continuation.

  The surroundings of iteration k (abort flag, clock, provider answer, results
  of backend tools) are the k-th element of an arbitrary environment.
*/
module ToolLoop {
  import opened Text

  datatype Config = Config(allowed: set<string>, prohibited: set<string>, approvalRequired: set<string>,
                           mutationAllowed: bool, maxIterations: int, maxOutputBytes: nat, hasExecutor: bool)

  const FRONTEND_TOOLS := {"file_read", "file_write", "list_directory", "shell_exec"}

  // A tool call as the model sent it. A missing id is replaced by a generated
  // one while the call is handled.
  datatype RawCall = RawCall(id: Option<string>, generated: string, name: string, arguments: string)
  {
    function CallId(): string { if id.Some? then id.value else generated }
    function RawId(): string { if id.Some? then id.value else "" }
  }

  datatype Usage = Usage(prompt: int, completion: int, total: int)
  {
    function Plus(u: Usage): Usage { Usage(prompt + u.prompt, completion + u.completion, total + u.total) }
  }

  const NO_USAGE := Usage(0, 0, 0)

  datatype Response = Response(text: string, calls: seq<RawCall>, usage: Option<Usage>, finishReason: string)

  datatype ExecResult = ExecResult(output: string, error: Option<string>)

  datatype Surroundings = Surroundings(aborted: bool, timedOut: bool, response: Option<Response>,
                                       execute: seq<ExecResult>)

  // The result of the i-th executed call; one the executor did not give is an error.
  function ResultAt(results: seq<ExecResult>, i: nat): ExecResult {
    if i < |results| then results[i] else ExecResult("", Some(""))
  }

  // A run is aborted where its environment says nothing.
  type Environment = map<int, Surroundings>

  datatype Message =
    | Plain(role: string, content: string)
    | AssistantCalls(ids: seq<string>)
    | ToolResult(callId: string, content: string)

  datatype Executor = Backend | Frontend | Blocked

  datatype TraceEntry = TraceEntry(callId: string, toolName: string, executor: Executor, succeeded: bool)

  datatype Continuation = Continuation(messages: seq<Message>, pendingRaw: seq<string>, iteration: int,
                                       usage: Usage, trace: seq<TraceEntry>)

  datatype Outcome =
    | Completed(reply: string, finishReason: string)
    | Failed(error: string)
    | SuspendedForTool(pending: seq<RawCall>, backendResults: seq<string>, continuation: Continuation)
    | SuspendedForApproval(call: RawCall, continuation: Continuation)

  datatype SubmittedResult = SubmittedResult(callId: string, toolName: string, output: Option<string>,
                                             error: Option<string>, success: bool)

  // ----- Policy -----

  datatype Route = ToBlocked | ToApproval | ToBackend | ToFrontend

  function RouteOf(cfg: Config, name: string): Route {
    if name in cfg.prohibited || name !in cfg.allowed then ToBlocked
    else if name in cfg.approvalRequired then ToApproval
    else if cfg.hasExecutor && name !in FRONTEND_TOOLS then ToBackend
    else ToFrontend
  }

  // What the policy says of a tool: refused, waiting for an approval, run here,
  // or run by the client. A tool is exactly one of these.
  predicate Refused(cfg: Config, name: string) {
    name in cfg.prohibited || name !in cfg.allowed
  }

  predicate Gated(cfg: Config, name: string) {
    !Refused(cfg, name) && name in cfg.approvalRequired
  }

  predicate RunHere(cfg: Config, name: string) {
    !Refused(cfg, name) && name !in cfg.approvalRequired && cfg.hasExecutor && name !in FRONTEND_TOOLS
  }

  predicate RunThere(cfg: Config, name: string) {
    !Refused(cfg, name) && name !in cfg.approvalRequired && (!cfg.hasExecutor || name in FRONTEND_TOOLS)
  }

  // The tools the loop itself may execute.
  ghost predicate MayExecute(cfg: Config, name: string) {
    name in cfg.allowed && name !in cfg.prohibited && name !in cfg.approvalRequired && name !in FRONTEND_TOOLS
  }

  // Those of the items that `p` holds of, in their order.
  function Those<T>(items: seq<T>, p: T -> bool): seq<T> {
    if |items| == 0 then []
    else
      var n := |items| - 1;
      Those(items[..n], p) + (if p(items[n]) then [items[n]] else [])
  }

  lemma {:induction false} ThoseMembers<T>(items: seq<T>, p: T -> bool)
    ensures forall x :: x in Those(items, p) <==> x in items && p(x)
  {
    if items != [] {
      var n := |items| - 1;
      assert items == items[..n] + [items[n]];
      ThoseMembers(items[..n], p);
    }
  }

  lemma NoneOfThose<T>(items: seq<T>, p: T -> bool)
    ensures Those(items, p) == [] <==> forall x :: x in items ==> !p(x)
  {
    ThoseMembers(items, p);
    if Those(items, p) != [] {
      assert Those(items, p)[0] in Those(items, p);
    }
  }

  lemma {:induction false} FirstOfThose<T>(items: seq<T>, p: T -> bool, i: nat)
    requires i < |items| && p(items[i]) && forall j :: 0 <= j < i ==> !p(items[j])
    ensures Those(items, p) != [] && Those(items, p)[0] == items[i]
  {
    var n := |items| - 1;
    if i < n {
      FirstOfThose(items[..n], p, i);
    } else {
      NoneOfThose(items[..n], p);
    }
  }

  function Select(cfg: Config, calls: seq<RawCall>, route: Route): seq<RawCall> {
    if calls == [] then []
    else
      var n := |calls| - 1;
      Select(cfg, calls[..n], route) + (if RouteOf(cfg, calls[n].name) == route then [calls[n]] else [])
  }

  lemma {:induction false} SelectMembers(cfg: Config, calls: seq<RawCall>, route: Route)
    ensures forall c :: c in Select(cfg, calls, route) <==> c in calls && RouteOf(cfg, c.name) == route
  {
    if calls != [] {
      var n := |calls| - 1;
      assert calls == calls[..n] + [calls[n]];
      SelectMembers(cfg, calls[..n], route);
    }
  }

  // The four selections by what the policy says.
  lemma {:induction false} SelectsThose(cfg: Config, calls: seq<RawCall>)
    ensures Select(cfg, calls, ToBlocked) == Those(calls, (c: RawCall) => Refused(cfg, c.name))
    ensures Select(cfg, calls, ToApproval) == Those(calls, (c: RawCall) => Gated(cfg, c.name))
    ensures Select(cfg, calls, ToBackend) == Those(calls, (c: RawCall) => RunHere(cfg, c.name))
    ensures Select(cfg, calls, ToFrontend) == Those(calls, (c: RawCall) => RunThere(cfg, c.name))
  {
    if calls != [] {
      SelectsThose(cfg, calls[..|calls| - 1]);
    }
  }

  // ----- The state of a run -----

  datatype State = State(messages: seq<Message>, iteration: int, usage: Usage, trace: seq<TraceEntry>)

  function Ids(calls: seq<RawCall>): seq<string> {
    seq(|calls|, i requires 0 <= i < |calls| => calls[i].CallId())
  }

  function RawIds(calls: seq<RawCall>): seq<string> {
    seq(|calls|, i requires 0 <= i < |calls| => calls[i].RawId())
  }

  function Truncate(s: string, n: nat): string {
    if |s| <= n then s else s[..n]
  }

  function ResultContent(cfg: Config, r: ExecResult): string {
    match r.error
    case None => Truncate(r.output, cfg.maxOutputBytes)
    case Some(e) => if e == "" then "execution failed" else e
  }

  function BlockedTrace(calls: seq<RawCall>): seq<TraceEntry> {
    seq(|calls|, i requires 0 <= i < |calls| => TraceEntry(calls[i].CallId(), calls[i].name, Blocked, false))
  }

  function BackendTrace(calls: seq<RawCall>, execute: seq<ExecResult>): seq<TraceEntry> {
    seq(|calls|, i requires 0 <= i < |calls| =>
      TraceEntry(calls[i].CallId(), calls[i].name, Backend, ResultAt(execute, i).error.None?))
  }

  function ResultMessages(cfg: Config, calls: seq<RawCall>, execute: seq<ExecResult>): seq<Message> {
    seq(|calls|, i requires 0 <= i < |calls| => ToolResult(calls[i].CallId(), ResultContent(cfg, ResultAt(execute, i))))
  }

  function Suspend(st: State, calls: seq<RawCall>): Continuation {
    Continuation(st.messages, RawIds(calls), st.iteration, st.usage, st.trace)
  }

  const BLOCKED_NOTICE := Plain("assistant", "All requested tools were blocked by policy.")

  // Handles the tool calls of one response: the outcome if the loop must
  // suspend, and the state it continues or suspends with.
  function Handle(cfg: Config, st: State, calls: seq<RawCall>, execute: seq<ExecResult>): (Option<Outcome>, State) {
    var approval, frontend := Select(cfg, calls, ToApproval), Select(cfg, calls, ToFrontend);
    var backend := Select(cfg, calls, ToBackend);
    var noted := st.(trace := st.trace + BlockedTrace(Select(cfg, calls, ToBlocked)));
    var ran := noted.(trace := noted.trace + BackendTrace(backend, execute));
    if approval != [] then (Some(SuspendedForApproval(approval[0], Suspend(noted, calls))), noted)
    else if frontend != [] then (Some(SuspendedForTool(frontend, Ids(backend), Suspend(ran, calls))), ran)
    else if backend != [] then
      (None, ran.(messages := st.messages + [AssistantCalls(Ids(backend))] + ResultMessages(cfg, backend, execute)))
    else (None, noted.(messages := st.messages + [BLOCKED_NOTICE]))
  }

  function Count(st: State, usage: Option<Usage>): State {
    if usage.Some? then st.(usage := st.usage.Plus(usage.value)) else st
  }

  // One iteration past the abort and timeout checks: the outcome if the loop
  // ends or suspends here, and the state it leaves.
  function Iterate(cfg: Config, st: State, around: Surroundings): (Option<Outcome>, State) {
    var called := st.(iteration := st.iteration + 1);
    match around.response
    case None => (Some(Failed("provider_error")), called)
    case Some(response) =>
      var counted := Count(called, response.usage);
      if response.calls == [] then (Some(Completed(response.text, response.finishReason)), counted)
      else Handle(cfg, counted, response.calls, around.execute)
  }

  // A run of the loop from a state: its outcome, its final state, and the
  // number of times the provider was called.
  datatype Run = Run(outcome: Outcome, state: State, providerCalls: nat)

  type Stepper = (State, Surroundings) -> (Option<Outcome>, State)

  function Apply(step: Stepper, st: State, around: Surroundings): (Option<Outcome>, State) {
    step(st, around)
  }

  ghost predicate Advances(step: Stepper) {
    forall st, around :: Apply(step, st, around).1.iteration == st.iteration + 1
  }

  datatype Turn = Stop(outcome: Outcome, state: State, providerCalls: nat) | Again(next: State)

  function TurnIn(step: Stepper, limit: int, st: State, around: Surroundings): (turn: Turn)
    requires Advances(step)
    ensures turn.Again? ==> st.iteration < limit && turn.next.iteration == st.iteration + 1
  {
    if st.iteration >= limit then Stop(Failed("loop_limit_exceeded"), st, 0)
    else if around.aborted then Stop(Failed("cancelled"), st, 0)
    else if around.timedOut then Stop(Failed("timeout"), st, 0)
    else
      var (outcome, next) := Apply(step, st, around);
      if outcome.Some? then Stop(outcome.value, next, 1) else Again(next)
  }

  function At(env: Environment, k: int): Surroundings {
    if k in env then env[k] else Surroundings(true, false, None, [])
  }

  // The loop over an arbitrary iteration step.
  function RunWith(step: Stepper, limit: int, st: State, env: Environment): Run
    requires Advances(step)
    decreases limit - st.iteration
  {
    match TurnIn(step, limit, st, At(env, st.iteration + 1))
    case Stop(outcome, state, calls) => Run(outcome, state, calls)
    case Again(next) => CallBefore(RunWith(step, limit, next, env))
  }

  function CallBefore(run: Run): Run {
    Run(run.outcome, run.state, run.providerCalls + 1)
  }

  function StepOf(cfg: Config): Stepper {
    (st, around) => Iterate(cfg, st, around)
  }

  lemma StepAdvances(cfg: Config)
    ensures Advances(StepOf(cfg))
  {
    forall st, around ensures Apply(StepOf(cfg), st, around).1.iteration == st.iteration + 1 {
      IterateKeepsCounters(cfg, st, around);
    }
  }

  function Execute(cfg: Config, st: State, env: Environment): Run {
    StepAdvances(cfg);
    RunWith(StepOf(cfg), cfg.maxIterations, st, env)
  }

  function Fresh(messages: seq<Message>): State {
    State(messages, 0, NO_USAGE, [])
  }

  function SubmittedContent(r: SubmittedResult): string {
    if r.output.Some? && r.output.value != "" then r.output.value
    else if r.error.Some? && r.error.value != "" then r.error.value
    else ""
  }

  function SubmittedMessages(results: seq<SubmittedResult>): seq<Message> {
    seq(|results|, i requires 0 <= i < |results| => ToolResult(results[i].callId, SubmittedContent(results[i])))
  }

  function SubmittedTrace(results: seq<SubmittedResult>): seq<TraceEntry> {
    seq(|results|, i requires 0 <= i < |results| =>
      TraceEntry(results[i].callId, results[i].toolName, Frontend, results[i].success))
  }

  function SubmittedIds(results: seq<SubmittedResult>): seq<string> {
    seq(|results|, i requires 0 <= i < |results| => results[i].callId)
  }

  // The state a continuation resumes in once tool results are submitted.
  function Resumed(c: Continuation, results: seq<SubmittedResult>): State {
    State(c.messages + (if c.pendingRaw != [] then [AssistantCalls(c.pendingRaw)] else []) + SubmittedMessages(results),
          c.iteration, c.usage, c.trace + SubmittedTrace(results))
  }

  // `rest` is what remains of the run `whole` after `done` provider calls.
  ghost predicate Remains(whole: Run, rest: Run, done: int) {
    whole.outcome == rest.outcome && whole.state == rest.state && whole.providerCalls == rest.providerCalls + done
  }

  lemma SelectNext(cfg: Config, calls: seq<RawCall>, i: nat, route: Route)
    requires i < |calls|
    ensures Select(cfg, calls[..i + 1], route)
      == Select(cfg, calls[..i], route) + (if RouteOf(cfg, calls[i].name) == route then [calls[i]] else [])
  {
    assert calls[..i + 1][..i] == calls[..i];
  }

  lemma BlockedTraceNext(blocked: seq<RawCall>, call: RawCall)
    ensures BlockedTrace(blocked + [call]) == BlockedTrace(blocked) + [TraceEntry(call.CallId(), call.name, Blocked, false)]
  {
  }

  // ----- The loop as an object -----

  class LoopState {
    var messages: seq<Message>
    var iteration: int
    var usage: Usage
    var trace: seq<TraceEntry>

    constructor (st: State)
      ensures View() == st
    {
      messages, iteration, usage, trace := st.messages, st.iteration, st.usage, st.trace;
    }

    function View(): State
      reads this
    {
      State(messages, iteration, usage, trace)
    }
  }

  class Loop {
    const cfg: Config
    var providerCalls: nat

    constructor (cfg: Config)
      ensures this.cfg == cfg && providerCalls == 0
    {
      this.cfg := cfg;
      providerCalls := 0;
    }

    method Start(messages: seq<Message>, env: Environment) returns (outcome: Outcome)
      modifies this`providerCalls
      ensures var run := Execute(cfg, Fresh(messages), env);
        outcome == run.outcome && providerCalls == old(providerCalls) + run.providerCalls
    {
      var state := new LoopState(Fresh(messages));
      outcome := RunLoop(state, env);
    }

    method Resume(c: Continuation, results: seq<SubmittedResult>, env: Environment) returns (outcome: Outcome)
      modifies this`providerCalls
      ensures var run := Execute(cfg, Resumed(c, results), env);
        outcome == run.outcome && providerCalls == old(providerCalls) + run.providerCalls
    {
      var state := new LoopState(State(c.messages, c.iteration, c.usage, c.trace));
      AppendResults(state, c.pendingRaw, results);
      assert state.View() == Resumed(c, results);
      outcome := RunLoop(state, env);
    }

    method AppendResults(state: LoopState, pendingRaw: seq<string>, results: seq<SubmittedResult>)
      modifies state
      ensures state.messages == old(state.messages)
        + (if pendingRaw != [] then [AssistantCalls(pendingRaw)] else []) + SubmittedMessages(results)
      ensures state.trace == old(state.trace) + SubmittedTrace(results)
      ensures state.iteration == old(state.iteration) && state.usage == old(state.usage)
    {
      if pendingRaw != [] {
        state.messages := state.messages + [AssistantCalls(pendingRaw)];
      }
      ghost var withCalls := state.messages;
      ghost var all, entries := SubmittedMessages(results), SubmittedTrace(results);
      for i := 0 to |results|
        invariant state.messages == withCalls + all[..i]
        invariant state.trace == old(state.trace) + entries[..i]
        invariant state.iteration == old(state.iteration) && state.usage == old(state.usage)
      {
        var message := ToolResult(results[i].callId, SubmittedContent(results[i]));
        assert all[..i + 1] == all[..i] + [message];
        state.messages := state.messages + [message];
        var entry := TraceEntry(results[i].callId, results[i].toolName, Frontend, results[i].success);
        assert entries[..i + 1] == entries[..i] + [entry];
        state.trace := state.trace + [entry];
      }
    }

    method RunLoop(state: LoopState, env: Environment) returns (outcome: Outcome)
      modifies state, this`providerCalls
      ensures var run := Execute(cfg, old(state.View()), env);
        outcome == run.outcome && state.View() == run.state && providerCalls == old(providerCalls) + run.providerCalls
    {
      StepAdvances(cfg);
      ghost var step := StepOf(cfg);
      ghost var whole := RunWith(step, cfg.maxIterations, state.View(), env);
      while state.iteration < cfg.maxIterations
        invariant old(providerCalls) <= providerCalls
        invariant Remains(whole, RunWith(step, cfg.maxIterations, state.View(), env), providerCalls - old(providerCalls))
        decreases cfg.maxIterations - state.iteration
      {
        var around := At(env, state.iteration + 1);
        if around.aborted {
          return Failed("cancelled");
        }
        if around.timedOut {
          return Failed("timeout");
        }
        ghost var before := state.View();
        var stopped := RunIteration(state, around, step);
        providerCalls := providerCalls + 1;
        if stopped.Some? {
          return stopped.value;
        }
      }
      outcome := Failed("loop_limit_exceeded");
    }

    method RunIteration(state: LoopState, around: Surroundings, ghost step: Stepper) returns (stopped: Option<Outcome>)
      requires step == StepOf(cfg)
      modifies state
      ensures (stopped, state.View()) == Apply(step, old(state.View()), around)
    {
      state.iteration := state.iteration + 1;
      if around.response.None? {
        return Some(Failed("provider_error"));
      }
      var response := around.response.value;
      if response.usage.Some? {
        state.usage := state.usage.Plus(response.usage.value);
      }
      if response.calls == [] {
        return Some(Completed(response.text, response.finishReason));
      }
      stopped := HandleToolCalls(state, response.calls, around.execute);
    }

    // Sorts the calls by the policy's route, noting the blocked ones.
    method RouteCalls(state: LoopState, calls: seq<RawCall>)
      returns (backend: seq<RawCall>, frontend: seq<RawCall>, approval: seq<RawCall>)
      modifies state`trace
      ensures backend == Select(cfg, calls, ToBackend)
      ensures frontend == Select(cfg, calls, ToFrontend)
      ensures approval == Select(cfg, calls, ToApproval)
      ensures state.trace == old(state.trace) + BlockedTrace(Select(cfg, calls, ToBlocked))
      ensures backend == Those(calls, (c: RawCall) => RunHere(cfg, c.name))
      ensures frontend == Those(calls, (c: RawCall) => RunThere(cfg, c.name))
      ensures approval == Those(calls, (c: RawCall) => Gated(cfg, c.name))
    {
      backend, frontend, approval := [], [], [];
      ghost var blocked: seq<RawCall> := [];
      for i := 0 to |calls|
        invariant backend == Select(cfg, calls[..i], ToBackend)
        invariant frontend == Select(cfg, calls[..i], ToFrontend)
        invariant approval == Select(cfg, calls[..i], ToApproval)
        invariant blocked == Select(cfg, calls[..i], ToBlocked)
        invariant state.trace == old(state.trace) + BlockedTrace(blocked)
      {
        var call := calls[i];
        SelectNext(cfg, calls, i, ToBackend);
        SelectNext(cfg, calls, i, ToFrontend);
        SelectNext(cfg, calls, i, ToApproval);
        SelectNext(cfg, calls, i, ToBlocked);
        if call.name in cfg.prohibited || call.name !in cfg.allowed {
          var entry := TraceEntry(call.CallId(), call.name, Blocked, false);
          BlockedTraceNext(blocked, call);
          blocked := blocked + [call];
          state.trace := state.trace + [entry];
        } else if call.name in cfg.approvalRequired {
          approval := approval + [call];
        } else if cfg.hasExecutor && call.name !in FRONTEND_TOOLS {
          backend := backend + [call];
        } else {
          frontend := frontend + [call];
        }
      }
      assert calls[..|calls|] == calls;
      SelectsThose(cfg, calls);
    }

    method HandleToolCalls(state: LoopState, calls: seq<RawCall>, execute: seq<ExecResult>) returns (outcome: Option<Outcome>)
      modifies state
      ensures (outcome, state.View()) == Handle(cfg, old(state.View()), calls, execute)
    {
      var backend, frontend, approval := RouteCalls(state, calls);
      if approval != [] {
        return Some(SuspendedForApproval(approval[0], Suspend(state.View(), calls)));
      }
      if frontend != [] {
        var results := ExecuteBatch(state, backend, execute);
        return Some(SuspendedForTool(frontend, results, Suspend(state.View(), calls)));
      }
      if backend != [] {
        ExecuteInline(state, backend, execute);
        return None;
      }
      state.messages := state.messages + [BLOCKED_NOTICE];
      outcome := None;
    }

    method ExecuteBatch(state: LoopState, calls: seq<RawCall>, execute: seq<ExecResult>) returns (results: seq<string>)
      modifies state`trace
      ensures results == Ids(calls)
      ensures state.trace == old(state.trace) + BackendTrace(calls, execute)
    {
      results := [];
      ghost var ids, entries := Ids(calls), BackendTrace(calls, execute);
      for i := 0 to |calls|
        invariant results == ids[..i]
        invariant state.trace == old(state.trace) + entries[..i]
      {
        var result := ResultAt(execute, i);
        var entry := TraceEntry(calls[i].CallId(), calls[i].name, Backend, result.error.None?);
        assert entries[..i + 1] == entries[..i] + [entry];
        state.trace := state.trace + [entry];
        results := results + [calls[i].CallId()];
      }
    }

    method ExecuteInline(state: LoopState, calls: seq<RawCall>, execute: seq<ExecResult>)
      modifies state`messages, state`trace
      ensures state.messages == old(state.messages) + [AssistantCalls(Ids(calls))] + ResultMessages(cfg, calls, execute)
      ensures state.trace == old(state.trace) + BackendTrace(calls, execute)
    {
      state.messages := state.messages + [AssistantCalls(Ids(calls))];
      ghost var withCalls := state.messages;
      ghost var all, entries := ResultMessages(cfg, calls, execute), BackendTrace(calls, execute);
      for i := 0 to |calls|
        invariant state.messages == withCalls + all[..i]
        invariant state.trace == old(state.trace) + entries[..i]
      {
        var result := ResultAt(execute, i);
        var content := if result.error.None? then Truncate(result.output, cfg.maxOutputBytes)
                       else if result.error.value == "" then "execution failed" else result.error.value;
        var entry := TraceEntry(calls[i].CallId(), calls[i].name, Backend, result.error.None?);
        assert entries[..i + 1] == entries[..i] + [entry];
        state.trace := state.trace + [entry];
        var message := ToolResult(calls[i].CallId(), content);
        assert all[..i + 1] == all[..i] + [message];
        state.messages := state.messages + [message];
      }
    }
  }

  // ----- Budget and usage -----

  function Reported(around: Surroundings): Usage {
    match around.response
    case Some(response) => if response.usage.Some? then response.usage.value else NO_USAGE
    case None => NO_USAGE
  }

  // The usage the environment reports in iterations `from + 1` up to `last`.
  function UsageBetween(env: Environment, from: int, last: int): Usage
    decreases last - from
  {
    if last <= from then NO_USAGE else UsageBetween(env, from, last - 1).Plus(Reported(At(env, last)))
  }

  lemma {:induction false} UsageSplits(env: Environment, from: int, middle: int, last: int)
    requires from <= middle <= last
    ensures UsageBetween(env, from, last) == UsageBetween(env, from, middle).Plus(UsageBetween(env, middle, last))
    decreases last - middle
  {
    if middle < last {
      UsageSplits(env, from, middle, last - 1);
      PlusAssociative(UsageBetween(env, from, middle), UsageBetween(env, middle, last - 1), Reported(At(env, last)));
    }
  }

  lemma PlusAssociative(a: Usage, b: Usage, c: Usage)
    ensures a.Plus(b).Plus(c) == a.Plus(b.Plus(c))
  {
  }

  lemma HandleKeepsCounters(cfg: Config, st: State, calls: seq<RawCall>, execute: seq<ExecResult>)
    ensures Handle(cfg, st, calls, execute).1.iteration == st.iteration
    ensures Handle(cfg, st, calls, execute).1.usage == st.usage
    ensures Handle(cfg, st, calls, execute).0.Some? ==>
      Continues(Handle(cfg, st, calls, execute).0.value, Handle(cfg, st, calls, execute).1)
  {
  }

  lemma IterateKeepsCounters(cfg: Config, st: State, around: Surroundings)
    ensures Iterate(cfg, st, around).1.iteration == st.iteration + 1
    ensures Iterate(cfg, st, around).1.usage == st.usage.Plus(Reported(around))
    ensures Iterate(cfg, st, around).0.Some? ==>
      Continues(Iterate(cfg, st, around).0.value, Iterate(cfg, st, around).1)
  {
    if around.response.Some? {
      var response := around.response.value;
      HandleKeepsCounters(cfg, Count(st.(iteration := st.iteration + 1), response.usage), response.calls, around.execute);
    }
  }

  // A suspension hands over exactly the state the run stopped in.
  ghost predicate Continues(outcome: Outcome, st: State) {
    outcome.SuspendedForTool? || outcome.SuspendedForApproval? ==>
      && outcome.continuation.messages == st.messages && outcome.continuation.iteration == st.iteration
      && outcome.continuation.usage == st.usage && outcome.continuation.trace == st.trace
  }

  // One run calls the provider once per iteration it starts, never beyond the
  // limit, and its totals are those of the start plus everything reported.
  ghost predicate Accounts(cfg: Config, st: State, env: Environment, run: Run) {
    && run.providerCalls == run.state.iteration - st.iteration
    && (run.state.iteration <= cfg.maxIterations || run.state.iteration == st.iteration)
    && run.state.usage == st.usage.Plus(UsageBetween(env, st.iteration, run.state.iteration))
    && Continues(run.outcome, run.state)
  }

  ghost predicate Reports(step: Stepper) {
    forall st, around ::
      && Apply(step, st, around).1.usage == st.usage.Plus(Reported(around))
      && (Apply(step, st, around).0.Some? ==>
            Continues(Apply(step, st, around).0.value, Apply(step, st, around).1))
  }

  lemma ZeroPlus(u: Usage)
    ensures u.Plus(NO_USAGE) == u && NO_USAGE.Plus(u) == u
  {
  }

  // What one turn adds: its call to the provider, if any, and what it reported.
  ghost predicate TurnAccounts(limit: int, st: State, around: Surroundings, turn: Turn) {
    match turn
    case Stop(outcome, state, calls) =>
      && calls <= 1 && (calls == 1 ==> st.iteration < limit)
      && state.iteration == st.iteration + calls
      && state.usage == (if calls == 1 then st.usage.Plus(Reported(around)) else st.usage)
      && Continues(outcome, state)
    case Again(next) =>
      st.iteration < limit && next.iteration == st.iteration + 1 && next.usage == st.usage.Plus(Reported(around))
  }

  lemma TurnInAccounts(step: Stepper, limit: int, st: State, around: Surroundings)
    requires Advances(step) && Reports(step)
    ensures TurnAccounts(limit, st, around, TurnIn(step, limit, st, around))
  {
    if st.iteration < limit && !around.aborted && !around.timedOut {
      var (outcome, next) := Apply(step, st, around);
      assert next.usage == st.usage.Plus(Reported(around));
    }
  }

  lemma StopAccounts(cfg: Config, st: State, env: Environment, stop: Turn)
    requires stop.Stop? && TurnAccounts(cfg.maxIterations, st, At(env, st.iteration + 1), stop)
    ensures Accounts(cfg, st, env, Run(stop.outcome, stop.state, stop.providerCalls))
  {
    ZeroPlus(st.usage);
    ZeroPlus(Reported(At(env, st.iteration + 1)));
    assert UsageBetween(env, st.iteration, st.iteration) == NO_USAGE;
    assert UsageBetween(env, st.iteration, st.iteration + 1) == NO_USAGE.Plus(Reported(At(env, st.iteration + 1)));
  }

  lemma AgainAccounts(cfg: Config, st: State, next: State, env: Environment, rest: Run)
    requires next.iteration == st.iteration + 1 <= cfg.maxIterations
    requires next.usage == st.usage.Plus(Reported(At(env, st.iteration + 1)))
    requires Accounts(cfg, next, env, rest)
    ensures Accounts(cfg, st, env, CallBefore(rest))
  {
    var k := st.iteration + 1;
    var reported := Reported(At(env, k));
    UsageSplits(env, k - 1, k, rest.state.iteration);
    assert UsageBetween(env, k - 1, k - 1) == NO_USAGE;
    assert UsageBetween(env, k - 1, k) == NO_USAGE.Plus(reported);
    ZeroPlus(reported);
    PlusAssociative(st.usage, reported, UsageBetween(env, k, rest.state.iteration));
  }

  // A chain of turns: the run it makes up.
  ghost predicate Made(cfg: Config, st: State, env: Environment, turn: Turn, rest: Run, run: Run) {
    match turn
    case Stop(outcome, state, calls) => run == Run(outcome, state, calls)
    case Again(next) => run == CallBefore(rest) && Accounts(cfg, next, env, rest)
  }

  lemma MadeAccounts(cfg: Config, st: State, env: Environment, turn: Turn, rest: Run, run: Run)
    requires TurnAccounts(cfg.maxIterations, st, At(env, st.iteration + 1), turn)
    requires Made(cfg, st, env, turn, rest, run)
    ensures Accounts(cfg, st, env, run)
  {
    match turn
    case Stop(_, _, _) => StopAccounts(cfg, st, env, turn);
    case Again(next) => AgainAccounts(cfg, st, next, env, rest);
  }

  lemma {:induction false} RunWithAccounts(step: Stepper, cfg: Config, st: State, env: Environment)
    requires Advances(step) && Reports(step)
    ensures Accounts(cfg, st, env, RunWith(step, cfg.maxIterations, st, env))
    decreases cfg.maxIterations - st.iteration
  {
    var turn := TurnIn(step, cfg.maxIterations, st, At(env, st.iteration + 1));
    var run := RunWith(step, cfg.maxIterations, st, env);
    TurnInAccounts(step, cfg.maxIterations, st, At(env, st.iteration + 1));
    if turn.Again? {
      var rest := RunWith(step, cfg.maxIterations, turn.next, env);
      RunWithAccounts(step, cfg, turn.next, env);
      MadeAccounts(cfg, st, env, turn, rest, run);
    } else {
      MadeAccounts(cfg, st, env, turn, run, run);
    }
  }

  lemma RunAccounts(cfg: Config, st: State, env: Environment)
    ensures Accounts(cfg, st, env, Execute(cfg, st, env))
  {
    StepAdvances(cfg);
    var step := StepOf(cfg);
    forall s, around
      ensures Apply(step, s, around).1.usage == s.usage.Plus(Reported(around))
      ensures Apply(step, s, around).0.Some? ==>
        Continues(Apply(step, s, around).0.value, Apply(step, s, around).1)
    {
      IterateKeepsCounters(cfg, s, around);
    }
    RunWithAccounts(step, cfg, st, env);
  }

  // What every iteration keeps, every run keeps.
  lemma {:induction false} RunWithKeeps(step: Stepper, limit: int, inv: State -> bool, st: State, env: Environment)
    requires Advances(step)
    requires forall s, around :: inv(s) ==> inv(Apply(step, s, around).1)
    requires inv(st)
    ensures inv(RunWith(step, limit, st, env).state)
    decreases limit - st.iteration
  {
    var turn := TurnIn(step, limit, st, At(env, st.iteration + 1));
    if turn.Again? {
      RunWithKeeps(step, limit, inv, turn.next, env);
    }
  }

  // A run and the resumptions that follow it, as long as it stays suspended.
  datatype Resumption = Resumption(results: seq<SubmittedResult>, env: Environment)

  datatype ChainResult = ChainResult(last: Outcome, providerCalls: nat, usage: Usage)

  function Chain(cfg: Config, st: State, env: Environment, next: seq<Resumption>): ChainResult
    decreases |next|
  {
    var run := Execute(cfg, st, env);
    var used := UsageBetween(env, st.iteration, run.state.iteration);
    if next == [] || !(run.outcome.SuspendedForTool? || run.outcome.SuspendedForApproval?) then
      ChainResult(run.outcome, run.providerCalls, used)
    else
      var rest := Chain(cfg, Resumed(run.outcome.continuation, next[0].results), next[0].env, next[1..]);
      ChainResult(rest.last, run.providerCalls + rest.providerCalls, used.Plus(rest.usage))
  }

  // However often a run is suspended and resumed, the provider is called at
  // most `maxIterations` times in all, and a continuation at the end of the
  // chain carries the sum of all usage reported along it.
  lemma {:induction false} ChainAccounts(cfg: Config, st: State, env: Environment, next: seq<Resumption>)
    ensures var c := Chain(cfg, st, env, next);
      && (st.iteration + c.providerCalls <= cfg.maxIterations || c.providerCalls == 0)
      && (c.last.SuspendedForTool? || c.last.SuspendedForApproval? ==>
            && c.last.continuation.usage == st.usage.Plus(c.usage)
            && c.last.continuation.iteration == st.iteration + c.providerCalls)
    decreases |next|
  {
    RunAccounts(cfg, st, env);
    var run := Execute(cfg, st, env);
    if next != [] && (run.outcome.SuspendedForTool? || run.outcome.SuspendedForApproval?) {
      ChainAccounts(cfg, Resumed(run.outcome.continuation, next[0].results), next[0].env, next[1..]);
    }
  }

  lemma BudgetOverResumptions(cfg: Config, messages: seq<Message>, env: Environment, next: seq<Resumption>)
    ensures var c := Chain(cfg, Fresh(messages), env, next);
      && (c.providerCalls == 0 || c.providerCalls <= cfg.maxIterations)
      && (c.last.SuspendedForTool? || c.last.SuspendedForApproval? ==> c.last.continuation.usage == c.usage)
  {
    ChainAccounts(cfg, Fresh(messages), env, next);
  }

  // ----- What gets executed -----

  ghost predicate OnlyPermitted(cfg: Config, trace: seq<TraceEntry>) {
    forall i :: 0 <= i < |trace| && trace[i].executor == Backend ==> MayExecute(cfg, trace[i].toolName)
  }

  lemma HandleExecutesPermitted(cfg: Config, st: State, calls: seq<RawCall>, execute: seq<ExecResult>)
    requires OnlyPermitted(cfg, st.trace)
    ensures OnlyPermitted(cfg, Handle(cfg, st, calls, execute).1.trace)
  {
    var backend, blocked := Select(cfg, calls, ToBackend), Select(cfg, calls, ToBlocked);
    var added := BackendTrace(backend, execute);
    SelectMembers(cfg, calls, ToBackend);
    forall i | 0 <= i < |added| ensures MayExecute(cfg, added[i].toolName) {
      assert backend[i] in backend;
    }
    var noted := BlockedTrace(blocked);
    assert forall i :: 0 <= i < |noted| ==> noted[i].executor == Blocked;
  }

  // Every backend tool the loop ever executes is allowed, not prohibited, not
  // subject to approval and not a frontend tool.
  lemma RunExecutesPermitted(cfg: Config, st: State, env: Environment)
    requires OnlyPermitted(cfg, st.trace)
    ensures OnlyPermitted(cfg, Execute(cfg, st, env).state.trace)
  {
    StepAdvances(cfg);
    var step := StepOf(cfg);
    var inv: State -> bool := (s: State) => OnlyPermitted(cfg, s.trace);
    forall s, around | inv(s) ensures inv(Apply(step, s, around).1) {
      if around.response.Some? {
        var response := around.response.value;
        HandleExecutesPermitted(cfg, Count(s.(iteration := s.iteration + 1), response.usage), response.calls, around.execute);
      }
    }
    RunWithKeeps(step, cfg.maxIterations, inv, st, env);
  }

  lemma {:induction false} ChainExecutesPermitted(cfg: Config, st: State, env: Environment, next: seq<Resumption>)
    requires OnlyPermitted(cfg, st.trace)
    ensures var last := Chain(cfg, st, env, next).last;
      last.SuspendedForTool? || last.SuspendedForApproval? ==> OnlyPermitted(cfg, last.continuation.trace)
    decreases |next|
  {
    RunExecutesPermitted(cfg, st, env);
    RunAccounts(cfg, st, env);
    var run := Execute(cfg, st, env);
    if next != [] && (run.outcome.SuspendedForTool? || run.outcome.SuspendedForApproval?) {
      var resumed := Resumed(run.outcome.continuation, next[0].results);
      var submitted := SubmittedTrace(next[0].results);
      assert forall i :: 0 <= i < |submitted| ==> submitted[i].executor == Frontend;
      ChainExecutesPermitted(cfg, resumed, next[0].env, next[1..]);
    }
  }

  // A response that contains a call needing approval executes nothing: the
  // loop suspends for the first such call with only blocked calls noted.
  lemma ApprovalExecutesNothing(cfg: Config, st: State, calls: seq<RawCall>, execute: seq<ExecResult>)
    ensures var (outcome, next) := Handle(cfg, st, calls, execute);
      (exists c :: c in calls && Gated(cfg, c.name)) <==> (outcome.Some? && outcome.value.SuspendedForApproval?)
    ensures var (outcome, next) := Handle(cfg, st, calls, execute);
      outcome.Some? && outcome.value.SuspendedForApproval? ==>
        && next.messages == st.messages && st.trace <= next.trace
        && (forall i :: |st.trace| <= i < |next.trace| ==> next.trace[i].executor == Blocked)
    ensures forall i :: 0 <= i < |calls| && Gated(cfg, calls[i].name) && (forall j :: 0 <= j < i ==> !Gated(cfg, calls[j].name)) ==>
      Handle(cfg, st, calls, execute).0.Some? && Handle(cfg, st, calls, execute).0.value.SuspendedForApproval?
      && Handle(cfg, st, calls, execute).0.value.call == calls[i]
  {
    SelectsThose(cfg, calls);
    NoneOfThose(calls, (c: RawCall) => Gated(cfg, c.name));
    forall i | 0 <= i < |calls| && Gated(cfg, calls[i].name) && (forall j :: 0 <= j < i ==> !Gated(cfg, calls[j].name))
      ensures Select(cfg, calls, ToApproval) != [] && Select(cfg, calls, ToApproval)[0] == calls[i]
    {
      FirstOfThose(calls, (c: RawCall) => Gated(cfg, c.name), i);
    }
  }

  // Without such a call: the loop suspends exactly when a tool is for the
  // client, handing out exactly those; the tools run here are noted as run, in
  // order; and if every tool is refused the model is told so.
  lemma HandlesExactly(cfg: Config, st: State, calls: seq<RawCall>, execute: seq<ExecResult>)
    requires forall c :: c in calls ==> !Gated(cfg, c.name)
    ensures var (outcome, next) := Handle(cfg, st, calls, execute);
      var here, there := Those(calls, (c: RawCall) => RunHere(cfg, c.name)), Those(calls, (c: RawCall) => RunThere(cfg, c.name));
      && (outcome.Some? <==> exists c :: c in calls && RunThere(cfg, c.name))
      && (outcome.Some? ==>
            && outcome.value.SuspendedForTool? && outcome.value.pending == there && outcome.value.backendResults == Ids(here)
            && next.messages == st.messages)
      && next.trace == st.trace + BlockedTrace(Those(calls, (c: RawCall) => Refused(cfg, c.name))) + BackendTrace(here, execute)
      && (outcome.None? && (exists c :: c in calls && RunHere(cfg, c.name)) ==>
            next.messages == st.messages + [AssistantCalls(Ids(here))] + ResultMessages(cfg, here, execute))
      && (outcome.None? && (forall c :: c in calls ==> Refused(cfg, c.name)) ==>
            next.messages == st.messages + [Plain("assistant", "All requested tools were blocked by policy.")])
  {
    SelectsThose(cfg, calls);
    NoneOfThose(calls, (c: RawCall) => Gated(cfg, c.name));
    NoneOfThose(calls, (c: RawCall) => RunThere(cfg, c.name));
    NoneOfThose(calls, (c: RawCall) => RunHere(cfg, c.name));
  }

  // Whatever a run suspends for is permitted: each call handed to the client is
  // allowed, not prohibited and free of approval; the call up for approval is
  // allowed and not prohibited, and does require it.
  ghost predicate HandsOutPermitted(cfg: Config, outcome: Outcome) {
    && (outcome.SuspendedForTool? ==>
          forall c :: c in outcome.pending ==>
            && c.name in cfg.allowed && c.name !in cfg.prohibited && c.name !in cfg.approvalRequired
            && (cfg.hasExecutor ==> c.name in FRONTEND_TOOLS))
    && (outcome.SuspendedForApproval? ==>
          var name := outcome.call.name;
          name in cfg.allowed && name !in cfg.prohibited && name in cfg.approvalRequired)
  }

  lemma IterateHandsOut(cfg: Config, st: State, around: Surroundings)
    ensures Iterate(cfg, st, around).0.Some? ==> HandsOutPermitted(cfg, Iterate(cfg, st, around).0.value)
  {
    if around.response.Some? {
      var calls := around.response.value.calls;
      SelectsThose(cfg, calls);
      ThoseMembers(calls, (c: RawCall) => Gated(cfg, c.name));
      ThoseMembers(calls, (c: RawCall) => RunThere(cfg, c.name));
      if Select(cfg, calls, ToApproval) != [] {
        assert Select(cfg, calls, ToApproval)[0] in Those(calls, (c: RawCall) => Gated(cfg, c.name));
      }
    }
  }

  // What every iteration that stops the loop yields, every run yields.
  lemma {:induction false} RunWithYields(step: Stepper, limit: int, good: Outcome -> bool, st: State, env: Environment)
    requires Advances(step)
    requires forall s, around :: Apply(step, s, around).0.Some? ==> good(Apply(step, s, around).0.value)
    requires forall error :: good(Failed(error))
    ensures good(RunWith(step, limit, st, env).outcome)
    decreases limit - st.iteration
  {
    var turn := TurnIn(step, limit, st, At(env, st.iteration + 1));
    if turn.Again? {
      RunWithYields(step, limit, good, turn.next, env);
    }
  }

  lemma RunHandsOutPermitted(cfg: Config, st: State, env: Environment)
    ensures HandsOutPermitted(cfg, Execute(cfg, st, env).outcome)
  {
    StepAdvances(cfg);
    var step := StepOf(cfg);
    var good: Outcome -> bool := (o: Outcome) => HandsOutPermitted(cfg, o);
    forall s, around | Apply(step, s, around).0.Some? ensures good(Apply(step, s, around).0.value) {
      IterateHandsOut(cfg, s, around);
    }
    RunWithYields(step, cfg.maxIterations, good, st, env);
  }

  lemma {:induction false} ChainHandsOutPermitted(cfg: Config, st: State, env: Environment, next: seq<Resumption>)
    ensures HandsOutPermitted(cfg, Chain(cfg, st, env, next).last)
    decreases |next|
  {
    RunHandsOutPermitted(cfg, st, env);
    var run := Execute(cfg, st, env);
    if next != [] && (run.outcome.SuspendedForTool? || run.outcome.SuspendedForApproval?) {
      ChainHandsOutPermitted(cfg, Resumed(run.outcome.continuation, next[0].results), next[0].env, next[1..]);
    }
  }

  // ----- How a run ends -----

  // The loop goes on: it is neither aborted nor timed out, and the response
  // calls tools, none of which is up for approval or for the client.
  ghost predicate GoesOn(cfg: Config, around: Surroundings) {
    && !around.aborted && !around.timedOut && around.response.Some? && around.response.value.calls != []
    && forall c :: c in around.response.value.calls ==> !Gated(cfg, c.name) && !RunThere(cfg, c.name)
  }

  // The outcome told by the last iteration that was started, and by the next
  // one if it was not.
  ghost predicate EndsBy(cfg: Config, env: Environment, n: int, outcome: Outcome) {
    var last, next := At(env, n), At(env, n + 1);
    match outcome
    case Failed(error) =>
      || (error == "loop_limit_exceeded" && n >= cfg.maxIterations)
      || (error == "cancelled" && n < cfg.maxIterations && next.aborted)
      || (error == "timeout" && n < cfg.maxIterations && !next.aborted && next.timedOut)
      || (error == "provider_error" && !last.aborted && !last.timedOut && last.response.None?)
    case Completed(reply, finishReason) =>
      && !last.aborted && !last.timedOut && last.response.Some? && last.response.value.calls == []
      && reply == last.response.value.text && finishReason == last.response.value.finishReason
    case SuspendedForTool(pending, _, _) =>
      && !last.aborted && !last.timedOut && last.response.Some?
      && (forall c :: c in last.response.value.calls ==> !Gated(cfg, c.name))
      && pending != [] && pending == Those(last.response.value.calls, (c: RawCall) => RunThere(cfg, c.name))
    case SuspendedForApproval(call, _) =>
      !last.aborted && !last.timedOut && last.response.Some? && call in last.response.value.calls && Gated(cfg, call.name)
  }

  // The iteration that ends the run was not one to go on from.
  ghost predicate EndsAt(cfg: Config, from: int, env: Environment, run: Run) {
    var n := run.state.iteration;
    && from <= n && EndsBy(cfg, env, n, run.outcome)
    && (forall i :: from < i < n ==> GoesOn(cfg, At(env, i)))
    && (run.outcome.Failed? && run.outcome.error != "provider_error" ==> from < n ==> GoesOn(cfg, At(env, n)))
    && (!run.outcome.Failed? || run.outcome.error == "provider_error" ==> from < n)
  }

  lemma TurnEnds(cfg: Config, st: State, around: Surroundings, env: Environment)
    requires Advances(StepOf(cfg)) && around == At(env, st.iteration + 1)
    ensures var turn := TurnIn(StepOf(cfg), cfg.maxIterations, st, around);
      if turn.Stop? then EndsAt(cfg, st.iteration, env, Run(turn.outcome, turn.state, turn.providerCalls)) else GoesOn(cfg, around)
  {
    if st.iteration < cfg.maxIterations && !around.aborted && !around.timedOut {
      assert "provider_error"[0] != "loop_limit_exceeded"[0] && "provider_error"[0] != "cancelled"[0];
      IterateEnds(cfg, st, around);
    }
  }

  lemma IterateEnds(cfg: Config, st: State, around: Surroundings)
    ensures var (outcome, next) := Iterate(cfg, st, around);
      if around.response.None? then outcome == Some(Failed("provider_error"))
      else if around.response.value.calls == [] then
        outcome == Some(Completed(around.response.value.text, around.response.value.finishReason))
      else var calls := around.response.value.calls;
        && (outcome.None? <==> forall c :: c in calls ==> !Gated(cfg, c.name) && !RunThere(cfg, c.name))
        && (outcome.Some? && outcome.value.SuspendedForTool? ==>
              && (forall c :: c in calls ==> !Gated(cfg, c.name))
              && outcome.value.pending != [] && outcome.value.pending == Those(calls, (c: RawCall) => RunThere(cfg, c.name)))
        && (outcome.Some? && outcome.value.SuspendedForApproval? ==> outcome.value.call in calls && Gated(cfg, outcome.value.call.name))
        && (outcome.Some? ==> outcome.value.SuspendedForTool? || outcome.value.SuspendedForApproval?)
  {
    if around.response.Some? && around.response.value.calls != [] {
      HandleEnds(cfg, Count(st.(iteration := st.iteration + 1), around.response.value.usage), around.response.value.calls, around.execute);
    }
  }

  lemma HandleEnds(cfg: Config, st: State, calls: seq<RawCall>, execute: seq<ExecResult>)
    ensures var outcome := Handle(cfg, st, calls, execute).0;
      && (outcome.None? <==> forall c :: c in calls ==> !Gated(cfg, c.name) && !RunThere(cfg, c.name))
      && (outcome.Some? && outcome.value.SuspendedForTool? ==>
            && (forall c :: c in calls ==> !Gated(cfg, c.name))
            && outcome.value.pending != [] && outcome.value.pending == Those(calls, (c: RawCall) => RunThere(cfg, c.name)))
      && (outcome.Some? && outcome.value.SuspendedForApproval? ==> outcome.value.call in calls && Gated(cfg, outcome.value.call.name))
      && (outcome.Some? ==> outcome.value.SuspendedForTool? || outcome.value.SuspendedForApproval?)
  {
    SelectsThose(cfg, calls);
    NoneOfThose(calls, (c: RawCall) => Gated(cfg, c.name));
    NoneOfThose(calls, (c: RawCall) => RunThere(cfg, c.name));
    ThoseMembers(calls, (c: RawCall) => Gated(cfg, c.name));
    if Select(cfg, calls, ToApproval) != [] {
      assert Select(cfg, calls, ToApproval)[0] in Those(calls, (c: RawCall) => Gated(cfg, c.name));
    }
  }

  // A run ends in the first iteration that is not one to go on from, or at the
  // limit, for the reason found there.
  lemma {:induction false} RunEndsExactly(cfg: Config, st: State, env: Environment)
    ensures EndsAt(cfg, st.iteration, env, Execute(cfg, st, env))
    decreases cfg.maxIterations - st.iteration
  {
    var turn := FirstTurn(cfg, st, env);
    if turn.Again? {
      RunEndsExactly(cfg, turn.next, env);
      LaterEnds(cfg, st.iteration, env, Execute(cfg, turn.next, env));
    }
  }

  lemma FirstTurn(cfg: Config, st: State, env: Environment) returns (turn: Turn)
    ensures turn.Stop? ==> EndsAt(cfg, st.iteration, env, Execute(cfg, st, env))
    ensures turn.Again? ==>
      && st.iteration < cfg.maxIterations && turn.next.iteration == st.iteration + 1
      && GoesOn(cfg, At(env, st.iteration + 1))
      && Execute(cfg, st, env) == CallBefore(Execute(cfg, turn.next, env))
  {
    StepAdvances(cfg);
    turn := TurnIn(StepOf(cfg), cfg.maxIterations, st, At(env, st.iteration + 1));
    TurnEnds(cfg, st, At(env, st.iteration + 1), env);
  }

  lemma LaterEnds(cfg: Config, from: int, env: Environment, rest: Run)
    requires EndsAt(cfg, from + 1, env, rest) && GoesOn(cfg, At(env, from + 1))
    ensures EndsAt(cfg, from, env, CallBefore(rest))
  {
  }

  // What is written for a backend call: its output, cut to the limit, or its
  // error, which is never empty; and what is noted of it.
  lemma ResultsWritten(cfg: Config, calls: seq<RawCall>, execute: seq<ExecResult>, i: nat)
    requires i < |calls|
    ensures var r := if i < |execute| then execute[i] else ExecResult("", Some(""));
      var id := if calls[i].id.Some? then calls[i].id.value else calls[i].generated;
      && BackendTrace(calls, execute)[i] == TraceEntry(id, calls[i].name, Backend, r.error.None?)
      && ResultMessages(cfg, calls, execute)[i].callId == id
      && var content := ResultMessages(cfg, calls, execute)[i].content;
        && (r.error.None? ==> content <= r.output && (|r.output| <= cfg.maxOutputBytes ==> content == r.output)
                              && (|r.output| > cfg.maxOutputBytes ==> |content| == cfg.maxOutputBytes))
        && (r.error.Some? && r.error.value != "" ==> content == r.error.value)
        && (r.error == Some("") ==> content == "execution failed")
  {
  }

  // What is written for a submitted result: its output, else its error, else
  // nothing.
  lemma SubmittedWritten(results: seq<SubmittedResult>, i: nat)
    requires i < |results|
    ensures var (content, r) := (SubmittedMessages(results)[i].content, results[i]);
      && SubmittedMessages(results)[i].callId == r.callId
      && SubmittedTrace(results)[i] == TraceEntry(r.callId, r.toolName, Frontend, r.success)
      && (r.output !in {None, Some("")} ==> content == r.output.value)
      && (r.output in {None, Some("")} && r.error !in {None, Some("")} ==> content == r.error.value)
      && (r.output in {None, Some("")} && r.error in {None, Some("")} ==> content == "")
  {
  }

  // ----- The transcript -----

  // Tool results appear only right after an assistant message with tool calls,
  // one for each of its ids and in the same order.
  ghost predicate Paired(ms: seq<Message>)
    decreases |ms|
  {
    if ms == [] then true
    else
      match ms[0]
      case Plain(_, _) => Paired(ms[1..])
      case ToolResult(_, _) => false
      case AssistantCalls(ids) =>
        |ids| < |ms| && Answers(ids, ms[1..1 + |ids|]) && Paired(ms[1 + |ids|..])
  }

  ghost predicate Answers(ids: seq<string>, ms: seq<Message>) {
    |ids| == |ms| && forall i :: 0 <= i < |ids| ==> ms[i].ToolResult? && ms[i].callId == ids[i]
  }

  // Appending to a paired transcript: the whole is paired exactly when what
  // was appended is.
  lemma {:induction false} PairedAppend(a: seq<Message>, b: seq<Message>)
    requires Paired(a)
    ensures Paired(a + b) <==> Paired(b)
    decreases |a|
  {
    if a == [] {
      assert a + b == b;
    } else {
      var n := if a[0].AssistantCalls? then 1 + |a[0].ids| else 1;
      assert (a + b)[n..] == a[n..] + b;
      assert a[0].AssistantCalls? ==> (a + b)[1..n] == a[1..n];
      PairedAppend(a[n..], b);
    }
  }

  // A block of one assistant message and some results is paired exactly when
  // the results answer its ids, in order.
  lemma BlockPaired(ids: seq<string>, results: seq<Message>)
    requires forall i :: 0 <= i < |results| ==> results[i].ToolResult?
    ensures Paired([AssistantCalls(ids)] + results) <==> Answers(ids, results)
  {
    var block := [AssistantCalls(ids)] + results;
    assert block[1..] == results;
    if |ids| < |block| {
      assert block[1..1 + |ids|] == results[..|ids|];
      assert block[1 + |ids|..] == results[|ids|..];
      if |ids| == |results| {
        assert results[..|ids|] == results;
      }
    }
  }

  lemma HandleKeepsPairing(cfg: Config, st: State, calls: seq<RawCall>, execute: seq<ExecResult>)
    requires Paired(st.messages)
    ensures Paired(Handle(cfg, st, calls, execute).1.messages)
  {
    var backend := Select(cfg, calls, ToBackend);
    InlinePaired(st.messages, Ids(backend), ResultMessages(cfg, backend, execute));
    NoticePaired(st.messages);
  }

  lemma InlinePaired(messages: seq<Message>, ids: seq<string>, results: seq<Message>)
    requires Paired(messages) && Answers(ids, results)
    ensures Paired(messages + [AssistantCalls(ids)] + results)
  {
    var block := [AssistantCalls(ids)] + results;
    BlockPaired(ids, results);
    PairedAppend(messages, block);
    assert messages + [AssistantCalls(ids)] + results == messages + block;
  }

  lemma NoticePaired(messages: seq<Message>)
    requires Paired(messages)
    ensures Paired(messages + [BLOCKED_NOTICE])
  {
    PairedAppend(messages, [BLOCKED_NOTICE]);
    assert [BLOCKED_NOTICE][1..] == [];
  }

  lemma RunKeepsPairing(cfg: Config, st: State, env: Environment)
    requires Paired(st.messages)
    ensures Paired(Execute(cfg, st, env).state.messages)
  {
    StepAdvances(cfg);
    var step := StepOf(cfg);
    var inv: State -> bool := (s: State) => Paired(s.messages);
    forall s, around | inv(s) ensures inv(Apply(step, s, around).1) {
      if around.response.Some? {
        var response := around.response.value;
        HandleKeepsPairing(cfg, Count(s.(iteration := s.iteration + 1), response.usage), response.calls, around.execute);
      }
    }
    RunWithKeeps(step, cfg.maxIterations, inv, st, env);
  }

  // Resuming keeps the transcript paired exactly when the submitted results
  // carry the pending raw ids in order.
  lemma ResumeKeepsPairingExactly(c: Continuation, results: seq<SubmittedResult>)
    requires Paired(c.messages)
    ensures Paired(Resumed(c, results).messages) <==> SubmittedIds(results) == c.pendingRaw
  {
    var submitted := SubmittedMessages(results);
    if c.pendingRaw != [] {
      var block := [AssistantCalls(c.pendingRaw)] + submitted;
      assert c.messages + [AssistantCalls(c.pendingRaw)] + submitted == c.messages + block;
      PairedAppend(c.messages, block);
      BlockPaired(c.pendingRaw, submitted);
      AnswersMeansIds(c.pendingRaw, results);
    } else {
      assert c.messages + [] + submitted == c.messages + submitted;
      PairedAppend(c.messages, submitted);
    }
  }

  lemma AnswersMeansIds(ids: seq<string>, results: seq<SubmittedResult>)
    ensures Answers(ids, SubmittedMessages(results)) <==> SubmittedIds(results) == ids
  {
    if Answers(ids, SubmittedMessages(results)) {
      forall i | 0 <= i < |ids| ensures SubmittedIds(results)[i] == ids[i] {
        assert SubmittedMessages(results)[i].callId == ids[i];
      }
    }
  }

  // For a tool suspension that means: answering only the calls handed to the
  // frontend keeps the pairing exactly when every call of the response was
  // handed to it under its own id.
  lemma FrontendAnswersPairExactly(cfg: Config, st: State, calls: seq<RawCall>, execute: seq<ExecResult>,
                                   results: seq<SubmittedResult>)
    requires Paired(st.messages) && calls != []
    requires Handle(cfg, st, calls, execute).0.Some? && Handle(cfg, st, calls, execute).0.value.SuspendedForTool?
    requires SubmittedIds(results) == Ids(Handle(cfg, st, calls, execute).0.value.pending)
    ensures Paired(Resumed(Handle(cfg, st, calls, execute).0.value.continuation, results).messages) <==>
      Ids(Select(cfg, calls, ToFrontend)) == RawIds(calls)
  {
    var c := Handle(cfg, st, calls, execute).0.value.continuation;
    ResumeKeepsPairingExactly(c, results);
  }
}
