/**
  The chat orchestrator: a turn calls the provider, runs backend tools, and is
  parked in a table of turns while the client answers frontend calls or an
  approval. The loop and its tool handler call each other; `limit` is the
  configured maximum number of provider calls of a turn.
*/
module ChatOrchestrator {
  import opened Text
  import L = ToolLoop

  datatype Tool = Tool(requiresApproval: bool, backend: bool)

  type Registry = map<string, Tool>

  datatype Call = Call(id: string, name: string)

  datatype Reply = Reply(text: string, calls: seq<Call>, usage: L.Usage, finishReason: string)

  // What the world does in iteration k: the clock, the provider (None: it
  // raised), and the outcomes of the backend tools in call order.
  datatype Around = Around(timedOut: bool, reply: Option<Reply>, results: seq<L.ExecResult>)

  type Environment = map<int, Around>

  function At(env: Environment, k: int): Around {
    if k in env then env[k] else Around(false, None, [])
  }

  datatype Result = Result(callId: string, name: string, output: string, error: string, succeeded: bool)
  {
    function Content(): string { if error != "" then "Error: " + error else output }
  }

  datatype Owner = Backend | Frontend | Unknown

  datatype Event = Event(callId: string, name: string, owner: Owner, succeeded: bool)

  // The state of a turn; `executed` lists the backend calls it has run.
  datatype State = State(messages: seq<L.Message>, iteration: int, usage: L.Usage, trace: seq<Event>,
                         executed: seq<Call>, pendingResults: seq<Result>, pendingFrontend: seq<Call>,
                         pendingRaw: seq<Call>)

  datatype TurnResult =
    | Final(reply: string, usage: L.Usage, finishReason: string)
    | Pending(calls: seq<Call>, completed: seq<Result>)
    | ApprovalRequired(call: Call)
    | Raised

  function Suspended(r: TurnResult): bool {
    r.Pending? || r.ApprovalRequired?
  }

  // ----- Routing -----

  datatype Route = ToUnknown | ToApproval | ToBackend | ToFrontend

  function RouteOf(reg: Registry, name: string): Route {
    if name !in reg then ToUnknown
    else if reg[name].requiresApproval then ToApproval
    else if reg[name].backend then ToBackend
    else ToFrontend
  }

  // What the registry says of a requested call: it waits for an approval, is run
  // here, or is run by the client. A call may be none of these.
  predicate Gated(reg: Registry, call: Call) {
    call.name in reg && reg[call.name].requiresApproval
  }

  predicate RunHere(reg: Registry, call: Call) {
    call.name in reg && !reg[call.name].requiresApproval && reg[call.name].backend
  }

  predicate RunThere(reg: Registry, call: Call) {
    call.name in reg && !reg[call.name].requiresApproval && !reg[call.name].backend
  }

  function Select(reg: Registry, calls: seq<Call>, route: Route): seq<Call> {
    if calls == [] then []
    else
      var n := |calls| - 1;
      Select(reg, calls[..n], route) + (if RouteOf(reg, calls[n].name) == route then [calls[n]] else [])
  }

  lemma SelectNext(reg: Registry, calls: seq<Call>, i: nat, route: Route)
    requires i < |calls|
    ensures Select(reg, calls[..i + 1], route)
      == Select(reg, calls[..i], route) + (if RouteOf(reg, calls[i].name) == route then [calls[i]] else [])
  {
    assert calls[..i + 1][..i] == calls[..i];
  }

  lemma {:induction false} SelectMembers(reg: Registry, calls: seq<Call>, route: Route)
    ensures forall c :: c in Select(reg, calls, route) <==> c in calls && RouteOf(reg, c.name) == route
  {
    if calls != [] {
      var n := |calls| - 1;
      assert calls == calls[..n] + [calls[n]];
      SelectMembers(reg, calls[..n], route);
    }
  }

  // The four selections by what the registry says.
  lemma {:induction false} SelectsThose(reg: Registry, calls: seq<Call>)
    ensures Select(reg, calls, ToApproval) == L.Those(calls, c => Gated(reg, c))
    ensures Select(reg, calls, ToBackend) == L.Those(calls, c => RunHere(reg, c))
    ensures Select(reg, calls, ToFrontend) == L.Those(calls, c => RunThere(reg, c))
    ensures Select(reg, calls, ToUnknown) == L.Those(calls, (c: Call) => c.name !in reg)
  {
    if calls != [] {
      SelectsThose(reg, calls[..|calls| - 1]);
    }
  }

  // A selection is the whole list exactly when every call takes that route.
  lemma {:induction false} SelectAll(reg: Registry, calls: seq<Call>, route: Route)
    ensures |Select(reg, calls, route)| <= |calls|
    ensures |Select(reg, calls, route)| == |calls| <==> forall c :: c in calls ==> RouteOf(reg, c.name) == route
    ensures |Select(reg, calls, route)| == |calls| ==> Select(reg, calls, route) == calls
  {
    if calls != [] {
      var n := |calls| - 1;
      assert calls == calls[..n] + [calls[n]];
      SelectAll(reg, calls[..n], route);
    }
  }

  function Ids(calls: seq<Call>): seq<string> {
    seq(|calls|, i requires 0 <= i < |calls| => calls[i].id)
  }

  function ResultIds(results: seq<Result>): seq<string> {
    seq(|results|, i requires 0 <= i < |results| => results[i].callId)
  }

  function UnknownEvents(calls: seq<Call>): seq<Event> {
    seq(|calls|, i requires 0 <= i < |calls| => Event(calls[i].id, calls[i].name, Unknown, false))
  }

  lemma UnknownEventsNext(calls: seq<Call>, call: Call)
    ensures UnknownEvents(calls + [call]) == UnknownEvents(calls) + [Event(call.id, call.name, Unknown, false)]
  {
  }

  function RunTool(call: Call, r: L.ExecResult): Result {
    match r.error
    case None => Result(call.id, call.name, r.output, "", true)
    case Some(e) => Result(call.id, call.name, "", e, false)
  }

  function RunTools(calls: seq<Call>, results: seq<L.ExecResult>): seq<Result> {
    seq(|calls|, i requires 0 <= i < |calls| => RunTool(calls[i], L.ResultAt(results, i)))
  }

  function BackendEvents(results: seq<Result>): seq<Event> {
    seq(|results|, i requires 0 <= i < |results| =>
      Event(results[i].callId, results[i].name, Backend, results[i].succeeded))
  }

  function OwnerOf(reg: Registry, name: string): Owner {
    if name !in reg then Unknown else if reg[name].backend then Backend else Frontend
  }

  function SubmittedEvents(reg: Registry, results: seq<Result>): seq<Event> {
    seq(|results|, i requires 0 <= i < |results| =>
      Event(results[i].callId, results[i].name, OwnerOf(reg, results[i].name), results[i].succeeded))
  }

  function ResultMessages(results: seq<Result>): seq<L.Message> {
    seq(|results|, i requires 0 <= i < |results| => L.ToolResult(results[i].callId, results[i].Content()))
  }

  // ----- One iteration -----

  datatype Handled = Leave(result: TurnResult, state: State) | Stay(next: State)

  // Handles a reply's tool calls: the turn is parked, or it goes on.
  function Handle(reg: Registry, st: State, calls: seq<Call>, results: seq<L.ExecResult>): Handled {
    var approval, frontend := Select(reg, calls, ToApproval), Select(reg, calls, ToFrontend);
    var backend := Select(reg, calls, ToBackend);
    var noted := st.(trace := st.trace + UnknownEvents(Select(reg, calls, ToUnknown)));
    if approval != [] then
      Leave(ApprovalRequired(approval[0]),
            noted.(pendingRaw := calls, pendingResults := [], pendingFrontend := [approval[0]] + frontend))
    else
      var done := RunTools(backend, results);
      var ran := noted.(trace := noted.trace + BackendEvents(done), executed := noted.executed + backend);
      if frontend != [] then
        Leave(Pending(frontend, done), ran.(pendingResults := done, pendingFrontend := frontend, pendingRaw := calls))
      else
        Stay(ran.(messages := ran.messages + [L.AssistantCalls(Ids(calls))] + ResultMessages(done)))
  }

  datatype Turn = Stop(result: TurnResult, state: State, providerCalls: nat) | Again(next: State)

  function Count(st: State, usage: L.Usage): State {
    st.(iteration := st.iteration + 1, usage := st.usage.Plus(usage))
  }

  function TurnIn(reg: Registry, limit: int, st: State, around: Around): (turn: Turn)
    ensures turn.Again? ==> st.iteration < limit && turn.next.iteration == st.iteration + 1
  {
    if st.iteration >= limit then Stop(Final("", st.usage, "loop_limit"), st, 0)
    else if around.timedOut then Stop(Final("", st.usage, "timeout"), st, 0)
    else if around.reply.None? then Stop(Raised, st.(iteration := st.iteration + 1), 1)
    else
      var counted := Count(st, around.reply.value.usage);
      if around.reply.value.calls == [] then
        Stop(Final(around.reply.value.text, counted.usage, around.reply.value.finishReason), counted, 1)
      else
        match Handle(reg, counted, around.reply.value.calls, around.results)
        case Leave(result, state) => Stop(result, state, 1)
        case Stay(next) => Again(next)
  }

  datatype Run = Run(result: TurnResult, state: State, providerCalls: nat)

  function RunFrom(reg: Registry, limit: int, st: State, env: Environment): Run
    decreases limit - st.iteration
  {
    match TurnIn(reg, limit, st, At(env, st.iteration + 1))
    case Stop(result, state, calls) => Run(result, state, calls)
    case Again(next) => CallBefore(RunFrom(reg, limit, next, env))
  }

  function CallBefore(run: Run): Run {
    Run(run.result, run.state, run.providerCalls + 1)
  }

  function AfterHandled(reg: Registry, limit: int, handled: Handled, env: Environment): Run {
    match handled
    case Leave(result, state) => Run(result, state, 0)
    case Stay(next) => RunFrom(reg, limit, next, env)
  }

  lemma RunFromHandled(reg: Registry, limit: int, st: State, env: Environment)
    requires st.iteration < limit && !At(env, st.iteration + 1).timedOut
    requires At(env, st.iteration + 1).reply.Some? && At(env, st.iteration + 1).reply.value.calls != []
    ensures var around := At(env, st.iteration + 1);
      RunFrom(reg, limit, st, env) ==
        CallBefore(AfterHandled(reg, limit, Handle(reg, Count(st, around.reply.value.usage), around.reply.value.calls, around.results), env))
  {
  }

  function Fresh(messages: seq<L.Message>): State {
    State(messages, 0, L.NO_USAGE, [], [], [], [], [])
  }

  // The state a parked turn goes on in once the client has answered.
  function Resumed(reg: Registry, st: State, submitted: seq<Result>): State {
    var all := st.pendingResults + submitted;
    st.(messages := st.messages + [L.AssistantCalls(Ids(st.pendingRaw))] + ResultMessages(all),
        trace := st.trace + SubmittedEvents(reg, all),
        pendingResults := [], pendingFrontend := [], pendingRaw := [])
  }

  // ----- The table of turns -----

  // `calls` counts the provider calls made for each turn id.
  datatype System = System(turns: map<string, State>, calls: map<string, nat>)

  function CallsOf(sys: System, id: string): nat {
    if id in sys.calls then sys.calls[id] else 0
  }

  function Parked(turns: map<string, State>, id: string, run: Run): map<string, State> {
    if Suspended(run.result) then turns[id := run.state] else turns
  }

  function Park(sys: System, id: string, run: Run): System {
    System(Parked(sys.turns, id, run), sys.calls[id := CallsOf(sys, id) + run.providerCalls])
  }

  function Without(turns: map<string, State>, gone: set<string>): map<string, State> {
    turns - gone
  }

  function Started(reg: Registry, limit: int, sys: System, id: string, messages: seq<L.Message>, env: Environment): (TurnResult, System) {
    var run := RunFrom(reg, limit, Fresh(messages), env);
    (run.result, Park(sys, id, run))
  }

  // `expired` are the turns the sweep finds expired, `late` says that the
  // turn itself expired between the sweep and the second look at the clock.
  function Continued(reg: Registry, limit: int, sys: System, id: string, submitted: seq<Result>,
                     expired: set<string>, late: bool, env: Environment): (TurnResult, System) {
    var swept := sys.(turns := Without(sys.turns, expired));
    if id !in swept.turns then (Final("", L.NO_USAGE, "error"), swept)
    else Popped(reg, limit, swept, id, submitted, late, env)
  }

  function Popped(reg: Registry, limit: int, sys: System, id: string, submitted: seq<Result>,
                  late: bool, env: Environment): (TurnResult, System)
    requires id in sys.turns
  {
    var st := sys.turns[id];
    var popped := sys.(turns := Without(sys.turns, {id}));
    if late then (Final("", st.usage, "error"), popped)
    else
      var run := RunFrom(reg, limit, Resumed(reg, st, submitted), env);
      (run.result, Park(popped, id, run))
  }

  class TurnState {
    var messages: seq<L.Message>
    var iteration: int
    var usage: L.Usage
    var trace: seq<Event>
    var executed: seq<Call>
    var pendingResults: seq<Result>
    var pendingFrontend: seq<Call>
    var pendingRaw: seq<Call>

    constructor (st: State)
      ensures View() == st
    {
      messages, iteration, usage, trace := st.messages, st.iteration, st.usage, st.trace;
      executed, pendingResults := st.executed, st.pendingResults;
      pendingFrontend, pendingRaw := st.pendingFrontend, st.pendingRaw;
    }

    function View(): State
      reads this
    {
      State(messages, iteration, usage, trace, executed, pendingResults, pendingFrontend, pendingRaw)
    }
  }

  class Orchestrator {
    const reg: Registry
    const limit: int
    var turns: map<string, State>
    ghost var calls: map<string, nat>

    constructor (reg: Registry, limit: int)
      ensures this.reg == reg && this.limit == limit && View() == System(map[], map[])
    {
      this.reg, this.limit, turns, calls := reg, limit, map[], map[];
    }

    ghost function View(): System
      reads this
    {
      System(turns, calls)
    }

    method ExecuteTurn(id: string, messages: seq<L.Message>, env: Environment) returns (result: TurnResult)
      modifies this
      ensures (result, View()) == Started(reg, limit, old(View()), id, messages, env)
    {
      var state := new TurnState(Fresh(messages));
      result := RunCounted(id, state, env);
    }

    // Runs the loop and counts its calls to the provider.
    method RunCounted(id: string, state: TurnState, env: Environment) returns (result: TurnResult)
      modifies this, state
      ensures var run := RunFrom(reg, limit, old(state.View()), env);
        result == run.result && View() == Park(old(View()), id, run)
    {
      ghost var made;
      result, made := RunLoop(id, state, env);
      calls := calls[id := CallsOf(View(), id) + made];
    }

    method ContinueTurn(id: string, submitted: seq<Result>, expired: set<string>, late: bool, env: Environment)
      returns (result: TurnResult)
      modifies this
      ensures (result, View()) == Continued(reg, limit, old(View()), id, submitted, expired, late, env)
    {
      turns := turns - expired;
      if id !in turns {
        return Final("", L.NO_USAGE, "error");
      }
      result := PopTurn(id, submitted, late, env);
    }

    // Takes a turn out of the table and goes on with it.
    method PopTurn(id: string, submitted: seq<Result>, late: bool, env: Environment) returns (result: TurnResult)
      requires id in turns
      modifies this
      ensures (result, View()) == Popped(reg, limit, old(View()), id, submitted, late, env)
    {
      var st := turns[id];
      turns := turns - {id};
      if late {
        return Final("", st.usage, "error");
      }
      result := ResumeTurn(id, st, submitted, env);
    }

    method ResumeTurn(id: string, st: State, submitted: seq<Result>, env: Environment) returns (result: TurnResult)
      modifies this
      ensures var run := RunFrom(reg, limit, Resumed(reg, st, submitted), env);
        result == run.result && View() == Park(old(View()), id, run)
    {
      var state := new TurnState(st);
      AppendResults(state, submitted);
      result := RunCounted(id, state, env);
    }

    method AppendResults(state: TurnState, submitted: seq<Result>)
      modifies state
      ensures state.View() == Resumed(reg, old(state.View()), submitted)
    {
      var all := state.pendingResults + submitted;
      state.messages := state.messages + [L.AssistantCalls(Ids(state.pendingRaw))];
      ghost var start, contents, events := state.View(), ResultMessages(all), SubmittedEvents(reg, all);
      for i := 0 to |all|
        invariant state.View() ==
          start.(messages := start.messages + contents[..i], trace := start.trace + events[..i])
      {
        assert contents[..i + 1] == contents[..i] + [contents[i]];
        state.messages := state.messages + [L.ToolResult(all[i].callId, all[i].Content())];
        assert events[..i + 1] == events[..i] + [events[i]];
        var owner := if all[i].name !in reg then Unknown else if reg[all[i].name].backend then Backend else Frontend;
        state.trace := state.trace + [Event(all[i].callId, all[i].name, owner, all[i].succeeded)];
      }
      state.pendingResults, state.pendingFrontend, state.pendingRaw := [], [], [];
    }

    method RunLoop(id: string, state: TurnState, env: Environment) returns (result: TurnResult, ghost made: nat)
      modifies this`turns, state
      ensures var run := RunFrom(reg, limit, old(state.View()), env);
        Run(result, state.View(), made) == run && turns == Parked(old(turns), id, run)
      decreases limit - state.iteration, 1
    {
      ghost var st := state.View();
      var around := At(env, state.iteration + 1);
      if state.iteration >= limit {
        return Final("", state.usage, "loop_limit"), 0;
      }
      if around.timedOut {
        return Final("", state.usage, "timeout"), 0;
      }
      state.iteration := state.iteration + 1;
      if around.reply.None? {
        return Raised, 1;
      }
      var reply := around.reply.value;
      state.usage := state.usage.Plus(reply.usage);
      if reply.calls == [] {
        return Final(reply.text, state.usage, reply.finishReason), 1;
      }
      RunFromHandled(reg, limit, st, env);
      assert state.View() == Count(st, reply.usage);
      result, made := HandleToolCalls(id, state, reply.calls, around.results, env);
      made := made + 1;
    }

    method Sort(state: TurnState, requested: seq<Call>)
      returns (backend: seq<Call>, frontend: seq<Call>, approval: seq<Call>)
      modifies state`trace
      ensures backend == Select(reg, requested, ToBackend)
      ensures frontend == Select(reg, requested, ToFrontend)
      ensures approval == Select(reg, requested, ToApproval)
      ensures state.trace == old(state.trace) + UnknownEvents(Select(reg, requested, ToUnknown))
      ensures backend == L.Those(requested, c => RunHere(reg, c)) && frontend == L.Those(requested, c => RunThere(reg, c))
      ensures approval == L.Those(requested, c => Gated(reg, c))
    {
      backend, frontend, approval := [], [], [];
      ghost var unknown: seq<Call> := [];
      for i := 0 to |requested|
        invariant backend == Select(reg, requested[..i], ToBackend)
        invariant frontend == Select(reg, requested[..i], ToFrontend)
        invariant approval == Select(reg, requested[..i], ToApproval)
        invariant unknown == Select(reg, requested[..i], ToUnknown)
        invariant state.trace == old(state.trace) + UnknownEvents(unknown)
      {
        var call := requested[i];
        SelectNext(reg, requested, i, ToBackend);
        SelectNext(reg, requested, i, ToFrontend);
        SelectNext(reg, requested, i, ToApproval);
        SelectNext(reg, requested, i, ToUnknown);
        if call.name !in reg {
          UnknownEventsNext(unknown, call);
          unknown := unknown + [call];
          state.trace := state.trace + [Event(call.id, call.name, Unknown, false)];
        } else if reg[call.name].requiresApproval {
          approval := approval + [call];
        } else if reg[call.name].backend {
          backend := backend + [call];
        } else {
          frontend := frontend + [call];
        }
      }
      assert requested[..|requested|] == requested;
      SelectsThose(reg, requested);
    }

    method RunBackend(state: TurnState, backend: seq<Call>, results: seq<L.ExecResult>) returns (done: seq<Result>)
      modifies state`trace, state`executed
      ensures done == RunTools(backend, results)
      ensures state.trace == old(state.trace) + BackendEvents(done)
      ensures state.executed == old(state.executed) + backend
    {
      done := [];
      ghost var all := RunTools(backend, results);
      ghost var events := BackendEvents(all);
      for i := 0 to |backend|
        invariant done == all[..i]
        invariant state.trace == old(state.trace) + events[..i]
        invariant state.executed == old(state.executed) + backend[..i]
      {
        assert all[..i + 1] == all[..i] + [all[i]] && events[..i + 1] == events[..i] + [events[i]];
        assert backend[..i + 1] == backend[..i] + [backend[i]];
        var r := RunTool(backend[i], L.ResultAt(results, i));
        state.executed := state.executed + [backend[i]];
        done := done + [r];
        state.trace := state.trace + [Event(r.callId, r.name, Backend, r.succeeded)];
      }
    }

    // Stores the turn until the client answers.
    method ParkTurn(id: string, state: TurnState, raw: seq<Call>, results: seq<Result>, frontend: seq<Call>)
      modifies this`turns, state`pendingRaw, state`pendingResults, state`pendingFrontend
      ensures state.View() == old(state.View()).(pendingRaw := raw, pendingResults := results, pendingFrontend := frontend)
      ensures turns == old(turns)[id := state.View()]
    {
      state.pendingRaw, state.pendingResults, state.pendingFrontend := raw, results, frontend;
      turns := turns[id := state.View()];
    }

    // Parks the turn, or goes back into the loop.
    method HandleToolCalls(id: string, state: TurnState, requested: seq<Call>, results: seq<L.ExecResult>, env: Environment)
      returns (result: TurnResult, ghost made: nat)
      modifies this`turns, state
      ensures var run := AfterHandled(reg, limit, Handle(reg, old(state.View()), requested, results), env);
        Run(result, state.View(), made) == run && turns == Parked(old(turns), id, run)
      decreases limit - state.iteration, 2
    {
      ghost var handled := Handle(reg, state.View(), requested, results);
      var backend, frontend, approval := Sort(state, requested);
      if approval != [] {
        ParkTurn(id, state, requested, [], [approval[0]] + frontend);
        assert handled == Leave(ApprovalRequired(approval[0]), state.View());
        return ApprovalRequired(approval[0]), 0;
      }
      var done := RunBackend(state, backend, results);
      if frontend != [] {
        ParkTurn(id, state, requested, done, frontend);
        assert handled == Leave(Pending(frontend, done), state.View());
        return Pending(frontend, done), 0;
      }
      state.messages := state.messages + [L.AssistantCalls(Ids(requested))];
      AppendMessages(state, done);
      assert handled == Stay(state.View());
      result, made := RunLoop(id, state, env);
    }

    method AppendMessages(state: TurnState, done: seq<Result>)
      modifies state`messages
      ensures state.messages == old(state.messages) + ResultMessages(done)
    {
      ghost var contents := ResultMessages(done);
      for i := 0 to |done|
        invariant state.messages == old(state.messages) + contents[..i]
      {
        assert contents[..i + 1] == contents[..i] + [contents[i]];
        state.messages := state.messages + [L.ToolResult(done[i].callId, done[i].Content())];
      }
    }
  }


  // ----- What one run does -----

  // Every backend call a turn runs is a registered backend tool that needs no
  // approval.
  ghost predicate OnlyPermitted(reg: Registry, executed: seq<Call>) {
    forall c :: c in executed ==> c.name in reg && reg[c.name].backend && !reg[c.name].requiresApproval
  }

  function Reported(around: Around): L.Usage {
    match around.reply
    case Some(reply) => reply.usage
    case None => L.NO_USAGE
  }

  function UsageBetween(env: Environment, from: int, last: int): L.Usage
    decreases last - from
  {
    if last <= from then L.NO_USAGE else Reported(At(env, from + 1)).Plus(UsageBetween(env, from + 1, last))
  }

  ghost predicate TurnAccounts(reg: Registry, limit: int, st: State, around: Around, turn: Turn) {
    match turn
    case Stop(result, state, calls) =>
      && calls <= 1 && (calls == 1 ==> st.iteration < limit)
      && state.iteration == st.iteration + calls
      && state.usage == (if calls == 1 then st.usage.Plus(Reported(around)) else st.usage)
      && (result.Final? ==> result.usage == state.usage)
      && OnlyPermitted(reg, state.executed)
    case Again(next) =>
      && st.iteration < limit && next.iteration == st.iteration + 1
      && next.usage == st.usage.Plus(Reported(around))
      && OnlyPermitted(reg, next.executed)
  }

  // Handling a reply touches neither the count nor the usage.
  ghost predicate HandledKeeps(reg: Registry, st: State, handled: Handled) {
    var next := if handled.Leave? then handled.state else handled.next;
    && next.iteration == st.iteration && next.usage == st.usage && OnlyPermitted(reg, next.executed)
    && (handled.Leave? ==> Suspended(handled.result))
  }

  lemma HandleKeeps(reg: Registry, st: State, calls: seq<Call>, results: seq<L.ExecResult>)
    requires OnlyPermitted(reg, st.executed)
    ensures HandledKeeps(reg, st, Handle(reg, st, calls, results))
  {
    SelectsThose(reg, calls);
    L.ThoseMembers(calls, c => RunHere(reg, c));
  }

  lemma TurnInAccounts(reg: Registry, limit: int, st: State, around: Around)
    requires OnlyPermitted(reg, st.executed)
    ensures TurnAccounts(reg, limit, st, around, TurnIn(reg, limit, st, around))
  {
    if st.iteration < limit && !around.timedOut {
      if around.reply.Some? {
        HandleKeeps(reg, Count(st, around.reply.value.usage), around.reply.value.calls, around.results);
      } else {
        L.ZeroPlus(st.usage);
      }
    }
  }

  function Total(usage: L.Usage, env: Environment, from: int, last: int): L.Usage {
    usage.Plus(UsageBetween(env, from, last))
  }

  // From iteration `from` with usage `before` to iteration `last` with usage
  // `after`, in `calls` provider calls.
  ghost predicate Tally(limit: int, from: int, before: L.Usage, env: Environment, last: int, after: L.Usage, calls: nat) {
    calls == last - from && (calls == 0 || last <= limit) && after == Total(before, env, from, last)
  }

  lemma TallyOfNone(limit: int, k: int, usage: L.Usage, env: Environment)
    ensures Tally(limit, k, usage, env, k, usage, 0)
  {
    FirstReported(env, k, k);
    L.ZeroPlus(usage);
  }

  lemma TallyOfOne(limit: int, k: int, usage: L.Usage, env: Environment)
    requires k < limit
    ensures Tally(limit, k, usage, env, k + 1, usage.Plus(Reported(At(env, k + 1))), 1)
  {
    FirstReported(env, k, k);
  }

  lemma TallyFrom(limit: int, k: int, usage: L.Usage, env: Environment, last: int, after: L.Usage, calls: nat)
    requires k < limit
    requires Tally(limit, k + 1, usage.Plus(Reported(At(env, k + 1))), env, last, after, calls)
    ensures Tally(limit, k, usage, env, last, after, calls + 1)
  {
    FirstReported(env, k, last);
    L.PlusAssociative(usage, Reported(At(env, k + 1)), UsageBetween(env, k + 1, last));
  }

  lemma FirstReported(env: Environment, k: int, last: int)
    ensures UsageBetween(env, k, k) == L.NO_USAGE
    ensures k < last ==> UsageBetween(env, k, last) == Reported(At(env, k + 1)).Plus(UsageBetween(env, k + 1, last))
    ensures UsageBetween(env, k, k + 1) == Reported(At(env, k + 1))
  {
    assert UsageBetween(env, k + 1, k + 1) == L.NO_USAGE;
    L.ZeroPlus(Reported(At(env, k + 1)));
  }

  ghost predicate Accounts(reg: Registry, limit: int, st: State, env: Environment, run: Run) {
    && Tally(limit, st.iteration, st.usage, env, run.state.iteration, run.state.usage, run.providerCalls)
    && (run.result.Final? ==> run.result.usage == run.state.usage)
    && OnlyPermitted(reg, run.state.executed)
  }

  lemma StopAccounts(reg: Registry, limit: int, st: State, env: Environment, stop: Turn)
    requires stop.Stop? && TurnAccounts(reg, limit, st, At(env, st.iteration + 1), stop)
    ensures Accounts(reg, limit, st, env, Run(stop.result, stop.state, stop.providerCalls))
  {
    TallyOfNone(limit, st.iteration, st.usage, env);
    if stop.providerCalls == 1 {
      TallyOfOne(limit, st.iteration, st.usage, env);
    }
  }

  lemma AgainAccounts(reg: Registry, limit: int, st: State, env: Environment, again: Turn, rest: Run)
    requires again.Again? && TurnAccounts(reg, limit, st, At(env, st.iteration + 1), again)
    requires Accounts(reg, limit, again.next, env, rest)
    ensures Accounts(reg, limit, st, env, CallBefore(rest))
  {
    TallyFrom(limit, st.iteration, st.usage, env, rest.state.iteration, rest.state.usage, rest.providerCalls);
  }

  // The first turn of a run, and the run it leads to.
  lemma Unroll(reg: Registry, limit: int, st: State, env: Environment) returns (turn: Turn, run: Run)
    requires OnlyPermitted(reg, st.executed)
    ensures TurnAccounts(reg, limit, st, At(env, st.iteration + 1), turn)
    ensures run == RunFrom(reg, limit, st, env)
    ensures turn.Stop? ==> run == Run(turn.result, turn.state, turn.providerCalls)
    ensures turn.Again? ==> run == CallBefore(RunFrom(reg, limit, turn.next, env))
  {
    turn, run := FirstTurn(reg, limit, st, env);
    TurnInAccounts(reg, limit, st, At(env, st.iteration + 1));
  }

  lemma FirstTurn(reg: Registry, limit: int, st: State, env: Environment) returns (turn: Turn, run: Run)
    ensures turn == TurnIn(reg, limit, st, At(env, st.iteration + 1)) && run == RunFrom(reg, limit, st, env)
    ensures turn.Stop? ==> run == Run(turn.result, turn.state, turn.providerCalls)
    ensures turn.Again? ==> run == CallBefore(RunFrom(reg, limit, turn.next, env))
  {
    turn := TurnIn(reg, limit, st, At(env, st.iteration + 1));
    run := RunFrom(reg, limit, st, env);
  }

  // A run calls the provider once per iteration it starts and never beyond
  // the limit, its usage is everything reported, and it runs only backend
  // tools that need no approval.
  lemma {:induction false} RunAccounts(reg: Registry, limit: int, st: State, env: Environment)
    requires OnlyPermitted(reg, st.executed)
    ensures Accounts(reg, limit, st, env, RunFrom(reg, limit, st, env))
    decreases limit - st.iteration
  {
    var turn, run := Unroll(reg, limit, st, env);
    if turn.Stop? {
      StopAccounts(reg, limit, st, env, turn);
    } else {
      RunAccounts(reg, limit, turn.next, env);
      AgainAccounts(reg, limit, st, env, turn, RunFrom(reg, limit, turn.next, env));
    }
  }

  // The turn is parked for approval exactly when some requested tool requires
  // it; what is handed out is the first such call, nothing at all is run, and
  // the transcript is left alone.
  lemma ApprovalExecutesNothing(reg: Registry, st: State, calls: seq<Call>, results: seq<L.ExecResult>)
    ensures var handled := Handle(reg, st, calls, results);
      (handled.Leave? && handled.result.ApprovalRequired?)
      <==> exists c :: c in calls && c.name in reg && reg[c.name].requiresApproval
    ensures forall i :: 0 <= i < |calls| && Gated(reg, calls[i]) && (forall j :: 0 <= j < i ==> !Gated(reg, calls[j])) ==>
      var handled := Handle(reg, st, calls, results);
      && handled.Leave? && handled.result == ApprovalRequired(calls[i])
      && handled.state.executed == st.executed && handled.state.messages == st.messages
      && handled.state.pendingRaw == calls && handled.state.pendingResults == []
      && handled.state.pendingFrontend == [calls[i]] + L.Those(calls, c => RunThere(reg, c))
  {
    SelectsThose(reg, calls);
    var gated := L.Those(calls, c => Gated(reg, c));
    L.NoneOfThose(calls, c => Gated(reg, c));
    forall i | 0 <= i < |calls| && Gated(reg, calls[i]) && (forall j :: 0 <= j < i ==> !Gated(reg, calls[j]))
      ensures gated != [] && gated[0] == calls[i]
    {
      L.FirstOfThose(calls, c => Gated(reg, c), i);
    }
  }

  // Without such a call the backend tools are run, in order; the turn is parked
  // exactly when a frontend tool is requested, and hands out exactly those.
  lemma HandlesExactly(reg: Registry, st: State, calls: seq<Call>, results: seq<L.ExecResult>)
    requires forall c :: c in calls ==> !Gated(reg, c)
    ensures var (handled, frontend) := (Handle(reg, st, calls, results), L.Those(calls, c => RunThere(reg, c)));
      var next := if handled.Leave? then handled.state else handled.next;
      && next.executed == st.executed + L.Those(calls, c => RunHere(reg, c))
      && st.trace + UnknownEvents(L.Those(calls, (c: Call) => c.name !in reg)) <= next.trace
      && (handled.Leave? <==> exists c :: c in calls && RunThere(reg, c))
      && (handled.Leave? ==>
            && handled.result == Pending(frontend, next.pendingResults) && next.messages == st.messages
            && next.pendingFrontend == frontend && next.pendingRaw == calls
            && ResultIds(next.pendingResults) == Ids(L.Those(calls, c => RunHere(reg, c))))
  {
    SelectsThose(reg, calls);
    L.NoneOfThose(calls, c => Gated(reg, c));
    L.NoneOfThose(calls, c => RunThere(reg, c));
  }

  // What a turn may run, and hand to the client: it has run only permitted
  // backend tools, hands out only frontend tools that need no approval, and a
  // call that is up for approval only as such.
  ghost predicate GatesHold(reg: Registry, result: TurnResult, st: State) {
    && OnlyPermitted(reg, st.executed)
    && (result.Pending? ==> forall c :: c in result.calls ==> c.name in reg && !reg[c.name].backend && !reg[c.name].requiresApproval)
    && (result.ApprovalRequired? ==> result.call.name in reg && reg[result.call.name].requiresApproval)
  }

  lemma TurnGates(reg: Registry, limit: int, st: State, around: Around)
    requires OnlyPermitted(reg, st.executed)
    ensures var turn := TurnIn(reg, limit, st, around);
      if turn.Stop? then GatesHold(reg, turn.result, turn.state) else OnlyPermitted(reg, turn.next.executed)
  {
    if st.iteration < limit && !around.timedOut && around.reply.Some? {
      var counted, calls := Count(st, around.reply.value.usage), around.reply.value.calls;
      HandleKeeps(reg, counted, calls, around.results);
      HandleGates(reg, counted, calls, around.results);
    }
  }

  lemma HandleGates(reg: Registry, st: State, calls: seq<Call>, results: seq<L.ExecResult>)
    requires OnlyPermitted(reg, st.executed)
    ensures var handled := Handle(reg, st, calls, results);
      handled.Leave? ==> GatesHold(reg, handled.result, handled.state)
  {
    HandleKeeps(reg, st, calls, results);
    SelectsThose(reg, calls);
    L.ThoseMembers(calls, c => Gated(reg, c));
    L.ThoseMembers(calls, c => RunThere(reg, c));
    var gated := L.Those(calls, c => Gated(reg, c));
    if gated != [] {
      assert gated[0] in gated;
    }
  }

  // Over a whole run,
  lemma {:induction false} RunGates(reg: Registry, limit: int, st: State, env: Environment)
    requires OnlyPermitted(reg, st.executed)
    ensures var run := RunFrom(reg, limit, st, env); GatesHold(reg, run.result, run.state)
    decreases limit - st.iteration
  {
    var turn, run := FirstTurn(reg, limit, st, env);
    TurnGates(reg, limit, st, At(env, st.iteration + 1));
    if turn.Again? {
      RunGates(reg, limit, turn.next, env);
    }
  }

  // ----- How a run ends -----

  // The turn goes on: it is not timed out, and the reply calls tools, none of
  // which is up for approval or for the client.
  ghost predicate GoesOn(reg: Registry, around: Around) {
    && !around.timedOut && around.reply.Some? && around.reply.value.calls != []
    && forall c :: c in around.reply.value.calls ==> !Gated(reg, c) && !RunThere(reg, c)
  }

  // The result told by the last iteration that was started, and by the next
  // one if it was not.
  ghost predicate EndsBy(reg: Registry, limit: int, env: Environment, n: int, result: TurnResult, started: bool) {
    var last, next := At(env, n), At(env, n + 1);
    match result
    case Final(reply, _, finishReason) =>
      if started then
        && !last.timedOut && last.reply.Some? && last.reply.value.calls == []
        && reply == last.reply.value.text && finishReason == last.reply.value.finishReason
      else
        reply == "" && (if n >= limit then finishReason == "loop_limit" else next.timedOut && finishReason == "timeout")
    case Raised => started && !last.timedOut && last.reply.None?
    case Pending(calls, _) =>
      && started && !last.timedOut && last.reply.Some? && (forall c :: c in last.reply.value.calls ==> !Gated(reg, c))
      && calls != [] && calls == L.Those(last.reply.value.calls, c => RunThere(reg, c))
    case ApprovalRequired(call) =>
      started && !last.timedOut && last.reply.Some? && call in last.reply.value.calls && Gated(reg, call)
  }

  ghost predicate EndsWith(reg: Registry, limit: int, from: int, env: Environment, run: Run, started: bool) {
    var n := run.state.iteration;
    && EndsBy(reg, limit, env, n, run.result, started) && from <= n && (started ==> from < n)
    && (forall i :: from < i < n ==> GoesOn(reg, At(env, i)))
    && (!started && from < n ==> GoesOn(reg, At(env, n)))
  }

  ghost predicate EndsAt(reg: Registry, limit: int, from: int, env: Environment, run: Run) {
    EndsWith(reg, limit, from, env, run, true) || EndsWith(reg, limit, from, env, run, false)
  }

  lemma TurnEnds(reg: Registry, limit: int, st: State, env: Environment)
    ensures var turn := TurnIn(reg, limit, st, At(env, st.iteration + 1));
      if turn.Stop? then EndsAt(reg, limit, st.iteration, env, Run(turn.result, turn.state, turn.providerCalls))
      else GoesOn(reg, At(env, st.iteration + 1))
  {
    var around := At(env, st.iteration + 1);
    var turn := TurnIn(reg, limit, st, around);
    if st.iteration < limit && !around.timedOut {
      if around.reply.Some? && around.reply.value.calls != [] {
        HandleEnds(reg, Count(st, around.reply.value.usage), around.reply.value.calls, around.results);
      }
      assert turn.Stop? ==> EndsBy(reg, limit, env, turn.state.iteration, turn.result, true);
    } else {
      assert EndsBy(reg, limit, env, turn.state.iteration, turn.result, false);
    }
  }

  lemma HandleEnds(reg: Registry, st: State, calls: seq<Call>, results: seq<L.ExecResult>)
    ensures var handled := Handle(reg, st, calls, results);
      && (handled.Stay? <==> forall c :: c in calls ==> !Gated(reg, c) && !RunThere(reg, c))
      && (handled.Leave? ==> handled.state.iteration == st.iteration)
      && (handled.Leave? && handled.result.Pending? ==>
            && (forall c :: c in calls ==> !Gated(reg, c))
            && handled.result.calls != [] && handled.result.calls == L.Those(calls, c => RunThere(reg, c)))
      && (handled.Leave? && handled.result.ApprovalRequired? ==> handled.result.call in calls && Gated(reg, handled.result.call))
      && (handled.Leave? ==> handled.result.Pending? || handled.result.ApprovalRequired?)
  {
    SelectsThose(reg, calls);
    L.NoneOfThose(calls, c => Gated(reg, c));
    L.NoneOfThose(calls, c => RunThere(reg, c));
    L.ThoseMembers(calls, c => Gated(reg, c));
    if Select(reg, calls, ToApproval) != [] {
      assert Select(reg, calls, ToApproval)[0] in L.Those(calls, c => Gated(reg, c));
    }
  }

  // A run ends in the first iteration that is not one to go on from, or at the
  // limit, for the reason found there.
  lemma {:induction false} RunEndsExactly(reg: Registry, limit: int, st: State, env: Environment)
    ensures EndsAt(reg, limit, st.iteration, env, RunFrom(reg, limit, st, env))
    decreases limit - st.iteration
  {
    var turn, run := FirstTurn(reg, limit, st, env);
    TurnEnds(reg, limit, st, env);
    if turn.Again? {
      var rest := RunFrom(reg, limit, turn.next, env);
      RunEndsExactly(reg, limit, turn.next, env);
      LaterEnds(reg, limit, st.iteration, env, rest);
      assert run == CallBefore(rest);
    }
  }

  lemma LaterEnds(reg: Registry, limit: int, from: int, env: Environment, rest: Run)
    requires EndsAt(reg, limit, from + 1, env, rest) && GoesOn(reg, At(env, from + 1))
    ensures EndsAt(reg, limit, from, env, CallBefore(rest))
  {
  }

  // What is written for a backend call, and noted of it: its output, or its
  // error marked as one.
  lemma ResultsWritten(calls: seq<Call>, results: seq<L.ExecResult>, i: nat)
    requires i < |calls|
    ensures var r := if i < |results| then results[i] else L.ExecResult("", Some(""));
      var done := RunTools(calls, results);
      && ResultMessages(done)[i] == L.ToolResult(calls[i].id,
           if r.error.None? then r.output else if r.error.value == "" then "" else "Error: " + r.error.value)
      && BackendEvents(done)[i] == Event(calls[i].id, calls[i].name, Backend, r.error.None?)
  {
  }

  // What is noted of a submitted result, by what the registry says of its tool.
  lemma SubmittedNoted(reg: Registry, results: seq<Result>, i: nat)
    requires i < |results|
    ensures var event := SubmittedEvents(reg, results)[i];
      && event.callId == results[i].callId && event.name == results[i].name && event.succeeded == results[i].succeeded
      && (event.owner == Unknown <==> event.name !in reg)
      && (event.owner == Backend <==> event.name in reg && reg[event.name].backend)
  {
  }

  // ----- The transcript -----

  lemma ResultsAnswer(ids: seq<string>, results: seq<Result>)
    ensures L.Answers(ids, ResultMessages(results)) <==> ResultIds(results) == ids
  {
    if L.Answers(ids, ResultMessages(results)) {
      forall i | 0 <= i < |ids| ensures ResultIds(results)[i] == ids[i] {
        assert ResultMessages(results)[i].callId == ids[i];
      }
    }
  }

  lemma BlockAppended(ms: seq<L.Message>, ids: seq<string>, results: seq<Result>)
    requires L.Paired(ms)
    ensures L.Paired(ms + [L.AssistantCalls(ids)] + ResultMessages(results)) <==> ResultIds(results) == ids
  {
    var block := [L.AssistantCalls(ids)] + ResultMessages(results);
    assert ms + [L.AssistantCalls(ids)] + ResultMessages(results) == ms + block;
    L.PairedAppend(ms, block);
    L.BlockPaired(ids, ResultMessages(results));
    ResultsAnswer(ids, results);
  }

  // The assistant message written inline lists every call of the reply, but
  // only registered tools are answered: the transcript stays paired exactly
  // when the reply names no unknown tool.
  lemma InlinePairsExactly(reg: Registry, st: State, calls: seq<Call>, results: seq<L.ExecResult>)
    requires L.Paired(st.messages)
    requires Handle(reg, st, calls, results).Stay?
    ensures L.Paired(Handle(reg, st, calls, results).next.messages) <==> forall c :: c in calls ==> c.name in reg
  {
    var backend := Select(reg, calls, ToBackend);
    var done := RunTools(backend, results);
    assert ResultIds(done) == Ids(backend);
    BlockAppended(st.messages, Ids(calls), done);
    SelectAll(reg, calls, ToBackend);
    SelectMembers(reg, calls, ToApproval);
    SelectMembers(reg, calls, ToFrontend);
    if Ids(backend) == Ids(calls) {
      assert |backend| == |Ids(backend)| == |calls|;
    }
    forall c | c in calls ensures RouteOf(reg, c.name) != ToApproval && RouteOf(reg, c.name) != ToFrontend {
      assert c !in Select(reg, calls, ToApproval) && c !in Select(reg, calls, ToFrontend);
    }
  }

  // Continuing a parked turn keeps the transcript paired exactly when the
  // stored results followed by the submitted ones answer the raw calls in order.
  lemma ContinuePairsExactly(reg: Registry, st: State, submitted: seq<Result>)
    requires L.Paired(st.messages)
    ensures L.Paired(Resumed(reg, st, submitted).messages) <==>
      ResultIds(st.pendingResults) + ResultIds(submitted) == Ids(st.pendingRaw)
  {
    BlockAppended(st.messages, Ids(st.pendingRaw), st.pendingResults + submitted);
    assert ResultIds(st.pendingResults + submitted) == ResultIds(st.pendingResults) + ResultIds(submitted);
  }

  // So a client that answers exactly the pending frontend calls keeps it
  // paired exactly when the reply listed its backend calls first.
  lemma FrontendAnswersPairExactly(reg: Registry, st: State, calls: seq<Call>, results: seq<L.ExecResult>, submitted: seq<Result>)
    requires L.Paired(st.messages)
    requires Handle(reg, st, calls, results).Leave? && Handle(reg, st, calls, results).result.Pending?
    requires ResultIds(submitted) == Ids(Handle(reg, st, calls, results).result.calls)
    ensures L.Paired(Resumed(reg, Handle(reg, st, calls, results).state, submitted).messages) <==>
      Ids(Select(reg, calls, ToBackend)) + Ids(Select(reg, calls, ToFrontend)) == Ids(calls)
  {
    var parked := Handle(reg, st, calls, results).state;
    ContinuePairsExactly(reg, parked, submitted);
    assert ResultIds(parked.pendingResults) == Ids(Select(reg, calls, ToBackend));
  }

  // ----- Whole sessions -----

  datatype Request =
    | Execute(id: string, messages: seq<L.Message>, env: Environment)
    | Continue(id: string, submitted: seq<Result>, expired: set<string>, late: bool, env: Environment)

  function Serve(reg: Registry, limit: int, sys: System, request: Request): System {
    match request
    case Execute(id, messages, env) => Started(reg, limit, sys, id, messages, env).1
    case Continue(id, submitted, expired, late, env) => Continued(reg, limit, sys, id, submitted, expired, late, env).1
  }

  function ServeAll(reg: Registry, limit: int, requests: seq<Request>): System {
    if requests == [] then System(map[], map[])
    else Serve(reg, limit, ServeAll(reg, limit, requests[..|requests| - 1]), requests[|requests| - 1])
  }

  // Turn ids are generated afresh: none has been used before.
  ghost predicate FreshIds(requests: seq<Request>) {
    forall i, j :: 0 <= i < j < |requests| && requests[j].Execute? ==> requests[i].id != requests[j].id
  }

  // A parked turn has made one provider call per iteration, and no turn ever
  // made more than the limit.
  ghost predicate WithinBudget(reg: Registry, limit: int, sys: System) {
    && (forall id :: id in sys.turns ==>
          && sys.turns[id].iteration == CallsOf(sys, id)
          && OnlyPermitted(reg, sys.turns[id].executed))
    && (forall id :: CallsOf(sys, id) == 0 || CallsOf(sys, id) <= limit)
  }

  lemma ParkWithinBudget(reg: Registry, limit: int, sys: System, id: string, st: State, env: Environment)
    requires WithinBudget(reg, limit, sys) && id !in sys.turns
    requires st.iteration == CallsOf(sys, id) && OnlyPermitted(reg, st.executed)
    ensures WithinBudget(reg, limit, Park(sys, id, RunFrom(reg, limit, st, env)))
  {
    RunAccounts(reg, limit, st, env);
    KeepBudget(reg, limit, sys, id, st, env, RunFrom(reg, limit, st, env));
  }

  lemma KeepBudget(reg: Registry, limit: int, sys: System, id: string, st: State, env: Environment, run: Run)
    requires WithinBudget(reg, limit, sys) && id !in sys.turns
    requires st.iteration == CallsOf(sys, id) && Accounts(reg, limit, st, env, run)
    ensures WithinBudget(reg, limit, Park(sys, id, run))
  {
    var next := Park(sys, id, run);
    assert CallsOf(next, id) == run.state.iteration;
    forall other | other != id ensures CallsOf(next, other) == CallsOf(sys, other) {
    }
  }

  // Only ids that were executed or continued appear in the tables.
  ghost predicate Known(requests: seq<Request>, sys: System) {
    forall id :: id in sys.turns || id in sys.calls ==> exists i :: 0 <= i < |requests| && requests[i].id == id
  }

  // In every session the provider is called at most `limit` times per turn,
  // however the turn is parked and continued.
  lemma {:induction false} EveryTurnWithinBudget(reg: Registry, limit: int, requests: seq<Request>)
    requires FreshIds(requests)
    ensures WithinBudget(reg, limit, ServeAll(reg, limit, requests))
    ensures Known(requests, ServeAll(reg, limit, requests))
  {
    if requests != [] {
      var n := |requests| - 1;
      var sys := ServeAll(reg, limit, requests[..n]);
      EveryTurnWithinBudget(reg, limit, requests[..n]);
      ServeKnown(reg, limit, requests[..n], sys, requests[n]);
      assert requests[..n] + [requests[n]] == requests;
      match requests[n]
      case Execute(id, messages, env) =>
        assert id !in sys.turns && id !in sys.calls;
        ParkWithinBudget(reg, limit, sys, id, Fresh(messages), env);
      case Continue(id, submitted, expired, late, env) =>
        ContinueWithinBudget(reg, limit, sys, id, submitted, expired, late, env);
    }
  }

  lemma ServeKnown(reg: Registry, limit: int, requests: seq<Request>, sys: System, request: Request)
    requires Known(requests, sys)
    ensures Known(requests + [request], Serve(reg, limit, sys, request))
  {
    var next, all := Serve(reg, limit, sys, request), requests + [request];
    forall id | id in next.turns || id in next.calls ensures exists i :: 0 <= i < |all| && all[i].id == id {
      if id == request.id {
        assert all[|requests|].id == id;
      } else {
        assert id in sys.turns || id in sys.calls;
        var i :| 0 <= i < |requests| && requests[i].id == id;
        assert all[i].id == id;
      }
    }
  }

  lemma SweepWithinBudget(reg: Registry, limit: int, sys: System, gone: set<string>)
    requires WithinBudget(reg, limit, sys)
    ensures WithinBudget(reg, limit, sys.(turns := Without(sys.turns, gone)))
  {
    var swept := sys.(turns := Without(sys.turns, gone));
    forall id ensures CallsOf(swept, id) == CallsOf(sys, id) {
    }
    forall id | id in swept.turns ensures id in sys.turns && swept.turns[id] == sys.turns[id] {
    }
  }

  lemma ContinueWithinBudget(reg: Registry, limit: int, sys: System, id: string, submitted: seq<Result>,
                             expired: set<string>, late: bool, env: Environment)
    requires WithinBudget(reg, limit, sys)
    ensures WithinBudget(reg, limit, Continued(reg, limit, sys, id, submitted, expired, late, env).1)
  {
    var swept := sys.(turns := Without(sys.turns, expired));
    SweepWithinBudget(reg, limit, sys, expired);
    SweepWithinBudget(reg, limit, swept, {id});
    if id in swept.turns && !late {
      var popped := swept.(turns := Without(swept.turns, {id}));
      ParkWithinBudget(reg, limit, popped, id, Resumed(reg, swept.turns[id], submitted), env);
    }
  }

  // A suspension is answered at most once: continuing takes the turn out of
  // the table, it is back only if this answer suspended it again, and a turn
  // that is not in the table runs nothing and changes no other turn.
  lemma AnsweredOnce(reg: Registry, limit: int, sys: System, id: string, submitted: seq<Result>,
                     expired: set<string>, late: bool, env: Environment)
    ensures var (result, next) := Continued(reg, limit, sys, id, submitted, expired, late, env);
      && (id in next.turns <==> Suspended(result))
      && (id !in sys.turns || id in expired ==> result == Final("", L.NO_USAGE, "error") && next.calls == sys.calls)
      && (forall other :: other != id ==>
            (other in next.turns <==> other in sys.turns && other !in expired)
            && (other in next.turns ==> next.turns[other] == sys.turns[other]))
  {
  }

  // What a request is answered with, and the state of its turn afterwards.
  function Answered(reg: Registry, limit: int, sys: System, request: Request): TurnResult {
    match request
    case Execute(id, messages, env) => Started(reg, limit, sys, id, messages, env).0
    case Continue(id, submitted, expired, late, env) => Continued(reg, limit, sys, id, submitted, expired, late, env).0
  }

  // and over whole sessions: whatever was asked before, no request is answered
  // with a call for the client that needs an approval or is run here, a call is
  // put up for approval only if its tool requires it, and the turns that are
  // parked have run only permitted backend tools.
  lemma EveryAnswerGated(reg: Registry, limit: int, requests: seq<Request>, request: Request)
    requires FreshIds(requests)
    ensures var (sys, answer) := (ServeAll(reg, limit, requests), Answered(reg, limit, ServeAll(reg, limit, requests), request));
      && (forall id :: id in sys.turns ==> OnlyPermitted(reg, sys.turns[id].executed))
      && (answer.Pending? ==>
            forall c :: c in answer.calls ==> c.name in reg && !reg[c.name].backend && !reg[c.name].requiresApproval)
      && (answer.ApprovalRequired? ==> answer.call.name in reg && reg[answer.call.name].requiresApproval)
  {
    var sys := ServeAll(reg, limit, requests);
    EveryTurnWithinBudget(reg, limit, requests);
    match request
    case Execute(id, messages, env) => RunGates(reg, limit, Fresh(messages), env);
    case Continue(id, submitted, expired, late, env) =>
      if id in sys.turns && id !in expired {
        RunGates(reg, limit, Resumed(reg, sys.turns[id], submitted), env);
      }
  }
}
