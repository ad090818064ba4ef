/**
  The single-flight dispatcher of accepted fix operations: any number of
  threads dispatch operations, one lock per operation id, and a store that
  keeps one artifact per operation.

  The system is a state machine over the steps of the threads. A thread may
  also be cut short at any step by an exception nobody catches.
*/
module FixDispatch {
  import opened Text

  // ----- What a dispatch finds -----

  datatype Packaging = NotSupplied | ValidPackage | InvalidPackage | PackagingDefect

  // The igniter raises, or its result is judged for completeness and eligibility.
  datatype Ignition = Raises(provider: bool) | Returns(complete: bool, eligible: bool)

  // `routing` is the dispatcher's mode of handing back a route instead of
  // finalizing an operation that is not to be implemented.
  datatype World = World(routing: bool, manifestValid: bool, planValid: bool, policyEnabled: bool, packaging: Packaging,
                         authorityPasses: bool, ignition: Ignition)

  datatype Status =
    | ValidationFailed | PackageValidationFailed | InternalError | SkippedDisabled | Blocked | ProviderFailed
    | Accepted | Rejected

  // The stored outcome of an operation, and the thread that stored it.
  datatype Artifact = Artifact(status: Status, author: nat, ignited: bool)

  datatype Route = SuspendRepair | SuspendDecision | SuspendEvidence | RejectedRoute

  // What a dispatch ends with: a callback, or a route handed back.
  datatype Callback = Continue | Finalize | Routed(route: Route)

  datatype Outcome = Existing(artifact: Artifact) | Called(artifact: Artifact, callback: Callback)

  // ----- Threads -----

  datatype Pc =
    | Waiting
    | Holding
    | Preparing
    | Igniting
    | Ignited
    | Storing(artifact: Artifact, callback: Callback)
    | Calling(artifact: Artifact, callback: Callback)
    | Finished(outcome: Outcome)
    | Aborted

  datatype Thread = Thread(operation: string, world: World, pc: Pc)

  datatype Call = Call(thread: nat, operation: string, artifact: Artifact, callback: Callback)

  datatype System = System(threads: seq<Thread>, locks: map<string, nat>, store: map<string, Artifact>,
                           ignitions: map<string, nat>, lost: map<string, nat>, calls: seq<Call>)

  function Count(m: map<string, nat>, k: string): nat {
    if k in m then m[k] else 0
  }

  predicate Critical(pc: Pc) {
    !pc.Waiting? && !pc.Finished? && !pc.Aborted?
  }

  // The igniter has run in this dispatch and nothing is stored yet.
  predicate HoldsIgnition(pc: Pc) {
    pc.Ignited? || (pc.Storing? && pc.artifact.ignited)
  }

  function Unresolved(w: World, route: Route): Callback {
    if w.routing then Routed(route) else Finalize
  }

  // What is decided before the igniter is involved: the artifact to store and
  // the callback to make, or None to go on to ignition.
  function Prepare(t: nat, w: World): Option<(Artifact, Callback)> {
    if !w.manifestValid || !w.planValid then Some((Artifact(ValidationFailed, t, false), Unresolved(w, SuspendRepair)))
    else if w.policyEnabled && w.packaging == InvalidPackage then
      Some((Artifact(PackageValidationFailed, t, false), Unresolved(w, SuspendRepair)))
    else if w.policyEnabled && w.packaging == PackagingDefect then
      Some((Artifact(InternalError, t, false), Unresolved(w, SuspendRepair)))
    else if !w.policyEnabled then Some((Artifact(SkippedDisabled, t, false), Continue))
    else if !w.authorityPasses then Some((Artifact(Blocked, t, false), Unresolved(w, SuspendDecision)))
    else None
  }

  function Judge(t: nat, w: World): (Artifact, Callback) {
    match w.ignition
    case Raises(provider) =>
      (Artifact(if provider then ProviderFailed else ValidationFailed, t, true), Unresolved(w, SuspendEvidence))
    case Returns(complete, eligible) =>
      if !complete then (Artifact(Blocked, t, true), Unresolved(w, SuspendEvidence))
      else if !eligible then (Artifact(Rejected, t, true), Unresolved(w, RejectedRoute))
      else (Artifact(Accepted, t, true), Continue)
  }

  function At(sys: System, t: nat, pc: Pc): System
    requires t < |sys.threads|
  {
    sys.(threads := sys.threads[t := sys.threads[t].(pc := pc)])
  }

  // Leaving the critical section frees the lock.
  function Leave(sys: System, t: nat, pc: Pc): System
    requires t < |sys.threads|
  {
    At(sys, t, pc).(locks := sys.locks - {sys.threads[t].operation})
  }

  // One step of a thread.
  function Step(sys: System, t: nat): (next: System)
    requires t < |sys.threads|
    ensures |next.threads| == |sys.threads|
  {
    var operation, world := sys.threads[t].operation, sys.threads[t].world;
    match sys.threads[t].pc
    case Waiting =>
      if operation in sys.locks then sys else At(sys, t, Holding).(locks := sys.locks[operation := t])
    case Holding =>
      if operation in sys.store then Leave(sys, t, Finished(Existing(sys.store[operation]))) else At(sys, t, Preparing)
    case Preparing =>
      var prepared := Prepare(t, world);
      if prepared.Some? then At(sys, t, Storing(prepared.value.0, prepared.value.1)) else At(sys, t, Igniting)
    case Igniting =>
      At(sys, t, Ignited).(ignitions := sys.ignitions[operation := Count(sys.ignitions, operation) + 1])
    case Ignited =>
      var judged := Judge(t, world);
      At(sys, t, Storing(judged.0, judged.1))
    case Storing(artifact, callback) =>
      At(sys, t, Calling(artifact, callback)).(store := sys.store[operation := artifact])
    case Calling(artifact, callback) =>
      Leave(sys, t, Finished(Called(artifact, callback))).(calls := sys.calls + [Call(t, operation, artifact, callback)])
    case Finished(_) => sys
    case Aborted => sys
  }

  // An exception that is not caught: the lock is freed, nothing is stored. The
  // callback has been made if it is the callback that raised.
  function Abort(sys: System, t: nat): System
    requires t < |sys.threads|
  {
    var operation, pc := sys.threads[t].operation, sys.threads[t].pc;
    if !Critical(pc) then sys
    else if pc.Calling? then
      Leave(sys, t, Aborted).(calls := sys.calls + [Call(t, operation, pc.artifact, pc.callback)])
    else if HoldsIgnition(pc) then
      Leave(sys, t, Aborted).(lost := sys.lost[operation := Count(sys.lost, operation) + 1])
    else Leave(sys, t, Aborted)
  }

  datatype Move = Go(thread: nat) | Fail(thread: nat) | Spawn(operation: string, world: World)

  function Act(sys: System, move: Move): System {
    match move
    case Go(t) => if t < |sys.threads| then Step(sys, t) else sys
    case Fail(t) => if t < |sys.threads| then Abort(sys, t) else sys
    case Spawn(operation, world) => sys.(threads := sys.threads + [Thread(operation, world, Waiting)])
  }

  const INITIAL := System([], map[], map[], map[], map[], [])

  function Run(moves: seq<Move>): System {
    if moves == [] then INITIAL else Act(Run(moves[..|moves| - 1]), moves[|moves| - 1])
  }

  // ----- Invariants -----

  // A lock is held by exactly the thread that is in its critical section.
  ghost predicate Locked(sys: System) {
    && (forall t :: 0 <= t < |sys.threads| && Critical(sys.threads[t].pc) ==>
          sys.threads[t].operation in sys.locks && sys.locks[sys.threads[t].operation] == t)
    && (forall o :: o in sys.locks ==>
          var t := sys.locks[o];
          t < |sys.threads| && Critical(sys.threads[t].pc) && sys.threads[t].operation == o)
  }

  // A fix whose manifest and plan are valid, and one the igniter is asked about:
  // the policy is enabled, no packaging is in the way, and authority passes.
  ghost predicate Sound(w: World) {
    w.manifestValid && w.planValid
  }

  ghost predicate Packaged(w: World) {
    w.packaging == NotSupplied || w.packaging == ValidPackage
  }

  ghost predicate Asked(w: World) {
    Sound(w) && w.policyEnabled && Packaged(w) && w.authorityPasses
  }

  // The implementation is continued exactly for a sound fix that the policy
  // does not ask about, or that the igniter returned complete and eligible.
  ghost predicate MayContinue(w: World) {
    && w.manifestValid && w.planValid
    && (!w.policyEnabled || (w.packaging in {NotSupplied, ValidPackage} && w.authorityPasses && w.ignition == Returns(true, true)))
  }

  // When each status is stored.
  ghost predicate Deserves(w: World, status: Status) {
    match status
    case ValidationFailed => !Sound(w) || (Asked(w) && w.ignition == Raises(false))
    case PackageValidationFailed => Sound(w) && w.policyEnabled && w.packaging == InvalidPackage
    case InternalError => Sound(w) && w.policyEnabled && w.packaging == PackagingDefect
    case SkippedDisabled => Sound(w) && !w.policyEnabled
    case Blocked =>
      && Sound(w) && w.policyEnabled && Packaged(w)
      && (!w.authorityPasses || (w.ignition.Returns? && !w.ignition.complete))
    case ProviderFailed => Asked(w) && w.ignition == Raises(true)
    case Accepted => Asked(w) && w.ignition == Returns(true, true)
    case Rejected => Asked(w) && w.ignition == Returns(true, false)
  }

  // Where an operation that is not continued is routed to.
  ghost predicate LeadsTo(w: World, route: Route) {
    match route
    case SuspendRepair => !Sound(w) || (w.policyEnabled && !Packaged(w))
    case SuspendDecision => Sound(w) && w.policyEnabled && Packaged(w) && !w.authorityPasses
    case SuspendEvidence => Asked(w) && (w.ignition.Raises? || !w.ignition.complete)
    case RejectedRoute => Asked(w) && w.ignition == Returns(true, false)
  }

  // Exactly one status is deserved, and unless the fix may continue one route.
  lemma DeservesOne(w: World, s: Status, r: Status)
    ensures Deserves(w, s) && Deserves(w, r) ==> s == r
    ensures exists x :: Deserves(w, x)
  {
    assert Deserves(w, ValidationFailed) || Deserves(w, PackageValidationFailed) || Deserves(w, InternalError)
           || Deserves(w, SkippedDisabled) || Deserves(w, Blocked) || Deserves(w, ProviderFailed)
           || Deserves(w, Accepted) || Deserves(w, Rejected);
  }

  // What a dispatch stores and calls back for the world it found: the status
  // deserved, by an igniter if it was asked; the implementation continued
  // exactly if it may be; otherwise finalized, or routed in routing mode.
  ghost predicate Settles(w: World, artifact: Artifact, callback: Callback) {
    && Deserves(w, artifact.status) && (artifact.ignited <==> Asked(w))
    && (callback == Continue <==> MayContinue(w))
    && (callback != Continue ==> if w.routing then callback.Routed? && LeadsTo(w, callback.route) else callback == Finalize)
  }

  ghost predicate ThreadOk(sys: System, t: nat)
    requires t < |sys.threads|
  {
    var operation, world := sys.threads[t].operation, sys.threads[t].world;
    match sys.threads[t].pc
    case Preparing => operation !in sys.store
    case Igniting => operation !in sys.store && Prepare(t, world).None?
    case Ignited => operation !in sys.store && Prepare(t, world).None?
    case Storing(a, c) => operation !in sys.store && Settles(world, a, c) && a.author == t
    case Calling(a, c) => operation in sys.store && sys.store[operation] == a && Settles(world, a, c) && a.author == t
    case Finished(outcome) => operation in sys.store && outcome.artifact == sys.store[operation]
    case _ => true
  }

  ghost predicate CallOk(sys: System, call: Call) {
    && call.operation in sys.store && sys.store[call.operation] == call.artifact
    && call.thread < |sys.threads| && sys.threads[call.thread].operation == call.operation
    && call.artifact.author == call.thread
    && Settles(sys.threads[call.thread].world, call.artifact, call.callback)
    && (sys.threads[call.thread].pc == Finished(Called(call.artifact, call.callback)) || sys.threads[call.thread].pc == Aborted)
  }

  // A stored artifact is what its author's dispatch deserved.
  ghost predicate StoredOk(sys: System, o: string)
    requires o in sys.store
  {
    var (a, author) := (sys.store[o], sys.store[o].author);
    && author < |sys.threads| && sys.threads[author].operation == o
    && Deserves(sys.threads[author].world, a.status) && (a.ignited <==> Asked(sys.threads[author].world))
  }

  // Where the ignitions of an operation went: one may be in the hands of the
  // thread that holds the lock, one is in the store, the others were lost.
  function InHand(sys: System, o: string): nat {
    if o in sys.locks && sys.locks[o] < |sys.threads| && HoldsIgnition(sys.threads[sys.locks[o]].pc) then 1 else 0
  }

  function InStore(sys: System, o: string): nat {
    if o in sys.store && sys.store[o].ignited then 1 else 0
  }

  ghost predicate IgnitionsAccounted(sys: System) {
    forall o :: Count(sys.ignitions, o) == InHand(sys, o) + InStore(sys, o) + Count(sys.lost, o)
  }

  ghost predicate Inv(sys: System) {
    && Locked(sys)
    && (forall t :: 0 <= t < |sys.threads| ==> ThreadOk(sys, t))
    && (forall o :: o in sys.store ==> StoredOk(sys, o))
    && (forall i :: 0 <= i < |sys.calls| ==> CallOk(sys, sys.calls[i]))
    && (forall i, j :: 0 <= i < j < |sys.calls| ==> sys.calls[i].operation != sys.calls[j].operation)
    && IgnitionsAccounted(sys)
  }

  // A move of thread t leaves the other threads and what t is about alone.
  ghost predicate OnlyMoves(sys: System, next: System, t: nat) {
    && t < |sys.threads| == |next.threads|
    && (forall u :: 0 <= u < |sys.threads| && u != t ==> next.threads[u] == sys.threads[u])
    && next.threads[t].operation == sys.threads[t].operation && next.threads[t].world == sys.threads[t].world
  }

  // The lock of t's operation changes hands only as t enters or leaves.
  ghost predicate LockFollows(sys: System, next: System, t: nat)
    requires t < |sys.threads| && t < |next.threads|
  {
    var o := sys.threads[t].operation;
    && (forall p :: p != o ==> (p in next.locks <==> p in sys.locks) && (p in sys.locks ==> next.locks[p] == sys.locks[p]))
    && (Critical(next.threads[t].pc) ==> o in next.locks && next.locks[o] == t)
    && (!Critical(next.threads[t].pc) && Critical(sys.threads[t].pc) ==> o !in next.locks)
    && (!Critical(next.threads[t].pc) && !Critical(sys.threads[t].pc) ==>
          (o in next.locks <==> o in sys.locks) && (o in sys.locks ==> next.locks[o] == sys.locks[o]))
    && (Critical(next.threads[t].pc) && !Critical(sys.threads[t].pc) ==> o !in sys.locks)
  }

  // The step of a thread that changes nothing but where it is.
  lemma StepThreads(sys: System, t: nat)
    requires t < |sys.threads|
    ensures exists pc :: Step(sys, t).threads == sys.threads[t := sys.threads[t].(pc := pc)]
  {
    var next := Step(sys, t);
    assert next.threads == sys.threads[t := sys.threads[t].(pc := next.threads[t].pc)] by {
      match sys.threads[t].pc {
        case Waiting => assert sys.threads[t := sys.threads[t]] == sys.threads;
        case Finished(_) => assert sys.threads[t := sys.threads[t]] == sys.threads;
        case Aborted => assert sys.threads[t := sys.threads[t]] == sys.threads;
        case _ =>
      }
    }
  }

  lemma StepMoves(sys: System, t: nat)
    requires t < |sys.threads|
    ensures OnlyMoves(sys, Step(sys, t), t)
  {
    StepThreads(sys, t);
  }

  lemma EnterLocks(sys: System, t: nat)
    requires t < |sys.threads| && Locked(sys) && sys.threads[t].pc.Waiting?
    ensures LockFollows(sys, Step(sys, t), t)
  {
  }

  lemma LeaveLocks(sys: System, t: nat, pc: Pc)
    requires t < |sys.threads| && Locked(sys) && Critical(sys.threads[t].pc) && !Critical(pc)
    ensures LockFollows(sys, Leave(sys, t, pc), t)
  {
  }

  lemma StayLocks(sys: System, next: System, t: nat)
    requires t < |sys.threads| && Locked(sys) && Critical(sys.threads[t].pc)
    requires t < |next.threads| && Critical(next.threads[t].pc) && next.locks == sys.locks
    ensures LockFollows(sys, next, t)
  {
  }

  lemma StepLocks(sys: System, t: nat)
    requires t < |sys.threads| && Locked(sys)
    ensures LockFollows(sys, Step(sys, t), t)
  {
    var next := Step(sys, t);
    match sys.threads[t].pc
    case Waiting => EnterLocks(sys, t);
    case Holding =>
      if sys.threads[t].operation in sys.store {
        LeaveLocks(sys, t, next.threads[t].pc);
      } else {
        StayLocks(sys, next, t);
      }
    case Calling(artifact, callback) =>
      LeaveLocks(sys, t, Finished(Called(artifact, callback)));
      SameLocks(sys, Leave(sys, t, Finished(Called(artifact, callback))), next, t);
    case Finished(_) =>
    case Aborted =>
    case _ => StayLocks(sys, next, t);
  }

  lemma SameLocks(sys: System, next: System, other: System, t: nat)
    requires t < |sys.threads| && t < |next.threads| && LockFollows(sys, next, t)
    requires other.locks == next.locks && other.threads == next.threads
    ensures LockFollows(sys, other, t)
  {
  }

  lemma AbortMoves(sys: System, t: nat)
    requires t < |sys.threads| && Locked(sys)
    ensures OnlyMoves(sys, Abort(sys, t), t) && LockFollows(sys, Abort(sys, t), t)
  {
    if Critical(sys.threads[t].pc) {
      var left := Leave(sys, t, Aborted);
      LeaveLocks(sys, t, Aborted);
      assert Abort(sys, t).threads == left.threads && Abort(sys, t).locks == left.locks;
      SameLocks(sys, left, Abort(sys, t), t);
    }
  }

  lemma LockedKept(sys: System, next: System, t: nat)
    requires Locked(sys) && OnlyMoves(sys, next, t) && LockFollows(sys, next, t)
    ensures Locked(next)
  {
    forall u | 0 <= u < |next.threads| && Critical(next.threads[u].pc)
      ensures next.threads[u].operation in next.locks && next.locks[next.threads[u].operation] == u
    {
      if u != t {
        assert sys.threads[u].operation in sys.locks && sys.locks[sys.threads[u].operation] == u;
      }
    }
  }

  // The store gets its first artifact for an operation from the thread that
  // holds its lock, and never changes it.
  ghost predicate StoreFollows(sys: System, next: System, t: nat)
    requires t < |sys.threads|
  {
    var o := sys.threads[t].operation;
    && (forall p :: p in sys.store ==> p in next.store && next.store[p] == sys.store[p])
    && (forall p :: p in next.store && p !in sys.store ==>
          p == o && sys.threads[t].pc.Storing? && next.store[p] == sys.threads[t].pc.artifact)
  }

  lemma StepStores(sys: System, t: nat)
    requires t < |sys.threads| && ThreadOk(sys, t)
    ensures StoreFollows(sys, Step(sys, t), t)
  {
  }

  // The decision, before and by the igniter, settles the operation.
  lemma PrepareSettles(t: nat, w: World)
    ensures match Prepare(t, w)
      case Some((artifact, callback)) => Settles(w, artifact, callback) && artifact.author == t && !Asked(w)
      case None => Asked(w)
  {
  }

  lemma JudgeSettles(t: nat, w: World)
    requires Asked(w)
    ensures Settles(w, Judge(t, w).0, Judge(t, w).1) && Judge(t, w).0.author == t && Judge(t, w).0.ignited
  {
  }

  lemma EarlyStepThread(sys: System, t: nat)
    requires t < |sys.threads| && ThreadOk(sys, t)
    requires sys.threads[t].pc.Waiting? || sys.threads[t].pc.Holding? || sys.threads[t].pc.Igniting?
    ensures ThreadOk(Step(sys, t), t)
  {
  }

  lemma PreparedThread(sys: System, t: nat)
    requires t < |sys.threads| && ThreadOk(sys, t) && (sys.threads[t].pc.Preparing? || sys.threads[t].pc.Ignited?)
    ensures ThreadOk(Step(sys, t), t)
  {
    PrepareSettles(t, sys.threads[t].world);
    if sys.threads[t].pc.Ignited? {
      JudgeSettles(t, sys.threads[t].world);
    }
  }

  lemma LateStepThread(sys: System, t: nat)
    requires t < |sys.threads| && ThreadOk(sys, t)
    requires sys.threads[t].pc.Storing? || sys.threads[t].pc.Calling? || sys.threads[t].pc.Finished? || sys.threads[t].pc.Aborted?
    ensures ThreadOk(Step(sys, t), t)
  {
  }

  lemma StepThread(sys: System, t: nat)
    requires t < |sys.threads| && ThreadOk(sys, t)
    ensures ThreadOk(Step(sys, t), t)
  {
    match sys.threads[t].pc {
      case Waiting | Holding | Igniting => EarlyStepThread(sys, t);
      case Preparing | Ignited => PreparedThread(sys, t);
      case _ => LateStepThread(sys, t);
    }
  }

  lemma AbortStores(sys: System, t: nat)
    requires t < |sys.threads|
    ensures Abort(sys, t).store == sys.store && StoreFollows(sys, Abort(sys, t), t)
  {
  }

  lemma AbortThread(sys: System, t: nat)
    requires t < |sys.threads| && ThreadOk(sys, t)
    ensures ThreadOk(Abort(sys, t), t)
  {
    var next := Abort(sys, t);
    AbortStores(sys, t);
    assert Critical(sys.threads[t].pc) ==> next.threads[t].pc == Aborted;
  }

  lemma ThreadsKept(sys: System, next: System, t: nat)
    requires Locked(sys) && OnlyMoves(sys, next, t) && StoreFollows(sys, next, t) && ThreadOk(next, t)
    requires forall u :: 0 <= u < |sys.threads| ==> ThreadOk(sys, u)
    ensures forall u :: 0 <= u < |next.threads| ==> ThreadOk(next, u)
  {
    forall u | 0 <= u < |next.threads| && u != t ensures ThreadOk(next, u) {
      assert ThreadOk(sys, u);
    }
  }

  lemma StoredKept(sys: System, next: System, t: nat)
    requires OnlyMoves(sys, next, t) && StoreFollows(sys, next, t) && ThreadOk(sys, t)
    requires forall o :: o in sys.store ==> StoredOk(sys, o)
    ensures forall o :: o in next.store ==> StoredOk(next, o)
  {
    forall o | o in next.store ensures StoredOk(next, o) {
      if o in sys.store {
        assert StoredOk(sys, o);
      }
    }
  }

  // The calls made: the old ones, and perhaps one by t about its own artifact.
  ghost predicate CallsFollow(sys: System, next: System, t: nat)
    requires t < |sys.threads| && t < |next.threads|
  {
    next.calls == sys.calls ||
    (sys.threads[t].pc.Calling?
     && next.calls == sys.calls + [Call(t, sys.threads[t].operation, sys.threads[t].pc.artifact, sys.threads[t].pc.callback)]
     && (next.threads[t].pc == Finished(Called(sys.threads[t].pc.artifact, sys.threads[t].pc.callback)) || next.threads[t].pc == Aborted))
  }

  // Threads that are done stay as they are.
  ghost predicate DoneStays(sys: System, next: System, t: nat)
    requires t < |sys.threads| && t < |next.threads|
  {
    sys.threads[t].pc.Finished? || sys.threads[t].pc.Aborted? ==> next.threads[t] == sys.threads[t]
  }

  lemma StepCalls(sys: System, t: nat)
    requires t < |sys.threads|
    ensures CallsFollow(sys, Step(sys, t), t) && DoneStays(sys, Step(sys, t), t)
  {
  }

  lemma AbortCalls(sys: System, t: nat)
    requires t < |sys.threads|
    ensures CallsFollow(sys, Abort(sys, t), t) && DoneStays(sys, Abort(sys, t), t)
  {
  }

  ghost predicate CallsOk(sys: System) {
    && (forall i :: 0 <= i < |sys.calls| ==> CallOk(sys, sys.calls[i]))
    && (forall i, j :: 0 <= i < j < |sys.calls| ==> sys.calls[i].operation != sys.calls[j].operation)
  }

  lemma CallsKept(sys: System, next: System, t: nat)
    requires OnlyMoves(sys, next, t) && StoreFollows(sys, next, t) && CallsFollow(sys, next, t) && DoneStays(sys, next, t)
    requires ThreadOk(sys, t) && CallsOk(sys)
    ensures CallsOk(next)
  {
    forall i | 0 <= i < |sys.calls| ensures CallOk(next, sys.calls[i]) {
      assert CallOk(sys, sys.calls[i]);
    }
    if next.calls != sys.calls {
      forall i | 0 <= i < |sys.calls| ensures sys.calls[i].operation != sys.threads[t].operation {
        assert CallOk(sys, sys.calls[i]);
      }
    }
  }

  // ----- Ignitions -----

  // An ignition comes into t's hands, moves from there to the store, or is lost.
  ghost predicate IgnitionsFollow(sys: System, next: System, t: nat)
    requires t < |sys.threads| && t < |next.threads|
  {
    var o := sys.threads[t].operation;
    OthersIgnite(sys, next, o) &&
    Count(next.ignitions, o) - InStore(next, o) - Count(next.lost, o) - Holds(next.threads[t].pc)
       == Count(sys.ignitions, o) - InStore(sys, o) - Count(sys.lost, o) - Holds(sys.threads[t].pc)
  }

  ghost predicate OthersIgnite(sys: System, next: System, o: string) {
    forall p :: p != o ==>
      Count(next.ignitions, p) == Count(sys.ignitions, p) && Count(next.lost, p) == Count(sys.lost, p)
      && InStore(next, p) == InStore(sys, p)
  }

  function Holds(pc: Pc): nat {
    if HoldsIgnition(pc) then 1 else 0
  }

  lemma StepIgnites(sys: System, t: nat)
    requires t < |sys.threads| && ThreadOk(sys, t)
    ensures IgnitionsFollow(sys, Step(sys, t), t)
  {
    StepIgnitesOthers(sys, t);
    match sys.threads[t].pc {
      case Storing(_, _) => StoringIgnites(sys, t);
      case Calling(_, _) =>
      case Igniting =>
      case _ => QuietStep(sys, t);
    }
  }

  lemma StoringIgnites(sys: System, t: nat)
    requires t < |sys.threads| && ThreadOk(sys, t) && sys.threads[t].pc.Storing?
    requires OthersIgnite(sys, Step(sys, t), sys.threads[t].operation)
    ensures IgnitionsFollow(sys, Step(sys, t), t)
  {
  }

  // Steps that neither ignite nor store.
  lemma QuietStep(sys: System, t: nat)
    requires t < |sys.threads| && ThreadOk(sys, t)
    requires !sys.threads[t].pc.Storing? && !sys.threads[t].pc.Calling? && !sys.threads[t].pc.Igniting?
    ensures var next := Step(sys, t);
      && next.ignitions == sys.ignitions && next.store == sys.store && next.lost == sys.lost
      && Holds(next.threads[t].pc) == Holds(sys.threads[t].pc)
  {
    match sys.threads[t].pc {
      case Preparing => PreparingHolds(sys, t);
      case Ignited =>
      case _ =>
    }
  }

  lemma PreparingHolds(sys: System, t: nat)
    requires t < |sys.threads| && sys.threads[t].pc.Preparing?
    ensures Holds(Step(sys, t).threads[t].pc) == 0
  {
  }

  lemma StepIgnitesOthers(sys: System, t: nat)
    requires t < |sys.threads|
    ensures OthersIgnite(sys, Step(sys, t), sys.threads[t].operation)
  {
    var o := sys.threads[t].operation;
    StepLosesNothing(sys, t);
    StepIgnitionMap(sys, t);
    OneKey(sys.ignitions, o, Count(sys.ignitions, o) + 1);
    StepStoresOne(sys, t);
  }

  lemma StepLosesNothing(sys: System, t: nat)
    requires t < |sys.threads|
    ensures Step(sys, t).lost == sys.lost
  {
  }

  lemma StepIgnitionMap(sys: System, t: nat)
    requires t < |sys.threads|
    ensures var o := sys.threads[t].operation;
      Step(sys, t).ignitions == if sys.threads[t].pc.Igniting? then sys.ignitions[o := Count(sys.ignitions, o) + 1] else sys.ignitions
  {
  }

  lemma StepStoresOne(sys: System, t: nat)
    requires t < |sys.threads|
    ensures Step(sys, t).store == if sys.threads[t].pc.Storing? then sys.store[sys.threads[t].operation := sys.threads[t].pc.artifact] else sys.store
  {
  }

  lemma OneKey(m: map<string, nat>, k: string, n: nat)
    ensures forall p :: p != k ==> Count(m[k := n], p) == Count(m, p)
  {
  }

  lemma AbortMaps(sys: System, t: nat)
    requires t < |sys.threads|
    ensures var (o, next) := (sys.threads[t].operation, Abort(sys, t));
      && next.ignitions == sys.ignitions && next.store == sys.store
      && next.lost == (if HoldsIgnition(sys.threads[t].pc) then sys.lost[o := Count(sys.lost, o) + 1] else sys.lost)
      && Holds(next.threads[t].pc) == 0
  {
  }

  lemma AbortIgnites(sys: System, t: nat)
    requires t < |sys.threads|
    ensures IgnitionsFollow(sys, Abort(sys, t), t)
  {
    var o := sys.threads[t].operation;
    AbortMaps(sys, t);
    OneKey(sys.lost, o, Count(sys.lost, o) + 1);
  }

  lemma IgnitionsKept(sys: System, next: System, t: nat)
    requires Locked(sys) && Locked(next) && OnlyMoves(sys, next, t) && LockFollows(sys, next, t)
    requires IgnitionsFollow(sys, next, t) && IgnitionsAccounted(sys)
    ensures IgnitionsAccounted(next)
  {
    var o := sys.threads[t].operation;
    forall p ensures Count(next.ignitions, p) == InHand(next, p) + InStore(next, p) + Count(next.lost, p) {
      assert Count(sys.ignitions, p) == InHand(sys, p) + InStore(sys, p) + Count(sys.lost, p);
      if p == o {
        HandMoves(sys, next, t);
      }
    }
  }

  // Only the holder of the lock has an ignition of its operation in hand.
  lemma HandMoves(sys: System, next: System, t: nat)
    requires Locked(sys) && Locked(next) && OnlyMoves(sys, next, t) && LockFollows(sys, next, t)
    ensures var o := sys.threads[t].operation;
      InHand(next, o) - InHand(sys, o) == Holds(next.threads[t].pc) - Holds(sys.threads[t].pc)
  {
  }

  // ----- Every run -----

  lemma SpawnKeeps(sys: System, operation: string, world: World)
    requires Inv(sys)
    ensures Inv(Act(sys, Spawn(operation, world)))
  {
    var next := Act(sys, Spawn(operation, world));
    forall u | 0 <= u < |next.threads| ensures ThreadOk(next, u) {
      if u < |sys.threads| {
        assert ThreadOk(sys, u);
      }
    }
    forall i | 0 <= i < |next.calls| ensures CallOk(next, next.calls[i]) {
      assert CallOk(sys, sys.calls[i]);
    }
    forall o | o in next.store ensures StoredOk(next, o) {
      assert StoredOk(sys, o);
    }
    forall o ensures InHand(next, o) == InHand(sys, o) {
    }
    forall o ensures Count(next.ignitions, o) == InHand(next, o) + InStore(next, o) + Count(next.lost, o) {
      assert Count(sys.ignitions, o) == InHand(sys, o) + InStore(sys, o) + Count(sys.lost, o);
    }
  }

  lemma MoveKeeps(sys: System, next: System, t: nat)
    requires Inv(sys) && OnlyMoves(sys, next, t) && LockFollows(sys, next, t) && StoreFollows(sys, next, t)
    requires ThreadOk(next, t) && CallsFollow(sys, next, t) && DoneStays(sys, next, t) && IgnitionsFollow(sys, next, t)
    ensures Inv(next)
  {
    LockedKept(sys, next, t);
    ThreadsKept(sys, next, t);
    StoredKept(sys, next, t);
    CallsKept(sys, next, t);
    IgnitionsKept(sys, next, t);
  }

  lemma ActKeeps(sys: System, move: Move)
    requires Inv(sys)
    ensures Inv(Act(sys, move))
  {
    match move
    case Spawn(operation, world) => SpawnKeeps(sys, operation, world);
    case Go(t) =>
      if t < |sys.threads| {
        StepMoves(sys, t);
        StepLocks(sys, t);
        StepStores(sys, t);
        StepThread(sys, t);
        StepCalls(sys, t);
        StepIgnites(sys, t);
        MoveKeeps(sys, Step(sys, t), t);
      }
    case Fail(t) =>
      if t < |sys.threads| {
        AbortMoves(sys, t);
        AbortStores(sys, t);
        AbortThread(sys, t);
        AbortCalls(sys, t);
        AbortIgnites(sys, t);
        MoveKeeps(sys, Abort(sys, t), t);
      }
  }

  lemma {:induction false} RunKeeps(moves: seq<Move>)
    ensures Inv(Run(moves))
  {
    if moves != [] {
      RunKeeps(moves[..|moves| - 1]);
      ActKeeps(Run(moves[..|moves| - 1]), moves[|moves| - 1]);
    }
  }

  // Under any interleaving the igniter runs at most once per operation, plus
  // once for every dispatch that was cut short between its ignition and its
  // artifact.
  lemma IgnitedAtMostOnce(moves: seq<Move>, operation: string)
    ensures var sys := Run(moves);
      && Count(sys.ignitions, operation) == InHand(sys, operation) + InStore(sys, operation) + Count(sys.lost, operation)
      && InHand(sys, operation) + InStore(sys, operation) <= 1
  {
    RunKeeps(moves);
    var sys := Run(moves);
    assert Count(sys.ignitions, operation) == InHand(sys, operation) + InStore(sys, operation) + Count(sys.lost, operation);
    if InHand(sys, operation) == 1 {
      assert ThreadOk(sys, sys.locks[operation]);
    }
  }

  // Losing ignitions is the only way to repeat them, and it can happen any
  // number of times.
  ghost predicate Idle(sys: System, operation: string, ignitions: nat) {
    operation !in sys.locks && operation !in sys.store && Count(sys.ignitions, operation) == ignitions
  }

  // A dispatch that is cut short right after its ignition.
  function LostDispatch(t: nat, operation: string, w: World): seq<Move> {
    [Spawn(operation, w), Go(t), Go(t), Go(t), Go(t), Fail(t)]
  }

  function ActAll(sys: System, moves: seq<Move>): System {
    if moves == [] then sys else Act(ActAll(sys, moves[..|moves| - 1]), moves[|moves| - 1])
  }

  lemma RunLast(moves: seq<Move>, move: Move)
    ensures Run(moves + [move]) == Act(Run(moves), move)
  {
    assert (moves + [move])[..|moves|] == moves;
  }

  lemma ActAllLast(sys: System, moves: seq<Move>)
    requires moves != []
    ensures ActAll(sys, moves) == Act(ActAll(sys, moves[..|moves| - 1]), moves[|moves| - 1])
  {
  }

  lemma {:induction false} RunThen(moves: seq<Move>, more: seq<Move>)
    ensures Run(moves + more) == ActAll(Run(moves), more)
  {
    if more == [] {
      assert moves + more == moves;
    } else {
      var earlier, last := more[..|more| - 1], more[|more| - 1];
      assert moves + more == (moves + earlier) + [last];
      RunThen(moves, earlier);
      RunLast(moves + earlier, last);
      ActAllLast(Run(moves), more);
    }
  }

  lemma IgniteFromHolding(sys: System, t: nat)
    requires t < |sys.threads| && sys.threads[t].pc == Holding && sys.threads[t].operation !in sys.store
    requires Prepare(t, sys.threads[t].world).None?
    ensures var o, ignited := sys.threads[t].operation, Step(Step(Step(sys, t), t), t);
      && ignited.threads[t].pc == Ignited && ignited.threads[t].operation == o
      && ignited.store == sys.store && ignited.locks == sys.locks
      && Count(ignited.ignitions, o) == Count(sys.ignitions, o) + 1
  {
    var preparing := Step(sys, t);
    var igniting := Step(preparing, t);
    assert igniting.threads[t].pc == Igniting;
  }

  // A new thread that is cut short right after its ignition.
  lemma LostThreadIgnites(sys: System, operation: string, w: World, ignitions: nat)
    requires Idle(sys, operation, ignitions) && Prepare(|sys.threads|, w).None?
    ensures var t := |sys.threads|;
      Idle(Abort(Step(Step(Step(Step(Act(sys, Spawn(operation, w)), t), t), t), t), t), operation, ignitions + 1)
  {
    var t := |sys.threads|;
    var holding := Step(Act(sys, Spawn(operation, w)), t);
    IgniteFromHolding(holding, t);
  }

  lemma LostDispatchIgnites(sys: System, operation: string, w: World, ignitions: nat)
    requires Idle(sys, operation, ignitions) && Prepare(|sys.threads|, w).None?
    ensures Idle(ActAll(sys, LostDispatch(|sys.threads|, operation, w)), operation, ignitions + 1)
  {
    LostThreadIgnites(sys, operation, w, ignitions);
    SixMoves(sys, LostDispatch(|sys.threads|, operation, w));
  }

  lemma SixMoves(sys: System, m: seq<Move>)
    requires |m| == 6
    ensures ActAll(sys, m) == Act(Act(Act(Act(Act(Act(sys, m[0]), m[1]), m[2]), m[3]), m[4]), m[5])
  {
    assert m[..5][..4] == m[..4] && m[..4][..3] == m[..3] && m[..3][..2] == m[..2] && m[..2][..1] == m[..1];
    assert m[..1][..0] == [];
    assert ActAll(sys, m[..1]) == Act(sys, m[0]);
    assert ActAll(sys, m[..2]) == Act(ActAll(sys, m[..1]), m[1]);
    assert ActAll(sys, m[..3]) == Act(ActAll(sys, m[..2]), m[2]);
    assert ActAll(sys, m[..4]) == Act(ActAll(sys, m[..3]), m[3]);
    assert ActAll(sys, m[..5]) == Act(ActAll(sys, m[..4]), m[4]);
  }

  lemma {:induction false} IgnitedAnyNumberOfTimes(operation: string, w: World, n: nat) returns (moves: seq<Move>)
    requires Prepare(0, w).None?
    ensures Count(Run(moves).ignitions, operation) == n && Idle(Run(moves), operation, n)
  {
    if n == 0 {
      moves := [];
    } else {
      var earlier := IgnitedAnyNumberOfTimes(operation, w, n - 1);
      var t := |Run(earlier).threads|;
      LostDispatchIgnites(Run(earlier), operation, w, n - 1);
      moves := earlier + LostDispatch(t, operation, w);
      RunThen(earlier, LostDispatch(t, operation, w));
    }
  }

  // Every callback comes after the artifact was stored, is about that artifact,
  // and is the only one of its operation. It continues the implementation
  // exactly if the fix is sound and the policy is disabled, or no packaging and
  // no authority is in the way and the igniter returned it complete and
  // eligible; otherwise it finalizes, or hands back the route deserved.
  lemma CallbacksAfterStore(moves: seq<Move>, i: nat)
    requires i < |Run(moves).calls|
    ensures var sys := Run(moves);
      var call := sys.calls[i];
      && call.operation in sys.store && sys.store[call.operation] == call.artifact
      && call.thread < |sys.threads| && sys.threads[call.thread].operation == call.operation
      && call.artifact.author == call.thread
      && (forall j :: 0 <= j < |sys.calls| && sys.calls[j].operation == call.operation ==> j == i)
    ensures var (w, call) := (Run(moves).threads[Run(moves).calls[i].thread].world, Run(moves).calls[i]);
      && (call.callback == Continue <==>
            && w.manifestValid && w.planValid
            && (!w.policyEnabled || (w.packaging in {NotSupplied, ValidPackage} && w.authorityPasses && w.ignition == Returns(true, true))))
      && Deserves(w, call.artifact.status) && (call.artifact.ignited <==> Asked(w))
      && (call.callback != Continue ==>
            if w.routing then call.callback.Routed? && LeadsTo(w, call.callback.route) else call.callback == Finalize)
  {
    RunKeeps(moves);
    assert CallOk(Run(moves), Run(moves).calls[i]);
  }

  // What is stored for an operation is what the dispatch that stored it
  // deserved: in particular it is accepted exactly when that fix was sound, the
  // policy enabled, nothing in the way, and the igniter's result complete and
  // eligible.
  lemma StoredIsDeserved(moves: seq<Move>, operation: string)
    requires operation in Run(moves).store
    ensures var sys := Run(moves);
      var a := sys.store[operation];
      && a.author < |sys.threads| && sys.threads[a.author].operation == operation
      && Deserves(sys.threads[a.author].world, a.status) && (a.ignited <==> Asked(sys.threads[a.author].world))
      && (a.status == Accepted <==>
            var w := sys.threads[a.author].world;
            && w.manifestValid && w.planValid && w.policyEnabled && w.packaging in {NotSupplied, ValidPackage}
            && w.authorityPasses && w.ignition == Returns(true, true))
  {
    RunKeeps(moves);
    assert StoredOk(Run(moves), operation);
  }

  // A stored artifact stays, and whoever finishes a dispatch of that operation
  // returns it.
  lemma {:induction false} StoredForever(moves: seq<Move>, more: seq<Move>, operation: string)
    requires operation in Run(moves).store
    ensures operation in Run(moves + more).store && Run(moves + more).store[operation] == Run(moves).store[operation]
  {
    if more == [] {
      assert moves + more == moves;
    } else {
      var earlier, last := more[..|more| - 1], more[|more| - 1];
      assert moves + more == (moves + earlier) + [last];
      StoredForever(moves, earlier, operation);
      RunLast(moves + earlier, last);
      RunKeeps(moves + earlier);
      StoreKept(Run(moves + earlier), last);
    }
  }

  lemma StoreKept(sys: System, move: Move)
    requires Inv(sys)
    ensures forall p :: p in sys.store ==> p in Act(sys, move).store && Act(sys, move).store[p] == sys.store[p]
  {
    match move
    case Spawn(_, _) =>
    case Go(t) => if t < |sys.threads| { StepStores(sys, t); }
    case Fail(t) => if t < |sys.threads| { AbortStores(sys, t); }
  }

  lemma FinishedReturnsStored(moves: seq<Move>, t: nat)
    requires t < |Run(moves).threads| && Run(moves).threads[t].pc.Finished?
    ensures var sys := Run(moves);
      var o := sys.threads[t].operation;
      o in sys.store && sys.threads[t].pc.outcome.artifact == sys.store[o]
  {
    RunKeeps(moves);
    assert ThreadOk(Run(moves), t);
  }

  // No two threads are ever in the critical section of one operation.
  lemma MutualExclusion(moves: seq<Move>, t: nat, u: nat)
    requires t < |Run(moves).threads| && u < |Run(moves).threads|
    requires Critical(Run(moves).threads[t].pc) && Critical(Run(moves).threads[u].pc)
    requires Run(moves).threads[t].operation == Run(moves).threads[u].operation
    ensures t == u
  {
    RunKeeps(moves);
  }

  // ----- The critical section as code -----

  // What one dispatch does to the store, the igniter and the callbacks when
  // nothing cuts it short.
  datatype Effects = Effects(store: map<string, Artifact>, ignitions: map<string, nat>, calls: seq<Call>)

  function Settled(t: nat, operation: string, before: Effects, artifact: Artifact, callback: Callback): (Outcome, Effects) {
    (Called(artifact, callback),
     Effects(before.store[operation := artifact], before.ignitions, before.calls + [Call(t, operation, artifact, callback)]))
  }

  function Dispatched(t: nat, operation: string, w: World, before: Effects): (Outcome, Effects) {
    if operation in before.store then (Existing(before.store[operation]), before)
    else
      match Prepare(t, w)
      case Some(prepared) => Settled(t, operation, before, prepared.0, prepared.1)
      case None =>
        var judged := Judge(t, w);
        Settled(t, operation, before.(ignitions := before.ignitions[operation := Count(before.ignitions, operation) + 1]), judged.0, judged.1)
  }

  // An uninterrupted dispatch of an operation that is not stored settles it as
  // its world deserves; one that is stored changes nothing.
  lemma DispatchSettles(t: nat, operation: string, w: World, before: Effects)
    ensures var (outcome, after) := Dispatched(t, operation, w, before);
      if operation in before.store then outcome == Existing(before.store[operation]) && after == before
      else
        && outcome.Called? && Settles(w, outcome.artifact, outcome.callback) && outcome.artifact.author == t
        && after.store == before.store[operation := outcome.artifact]
        && after.calls == before.calls + [Call(t, operation, outcome.artifact, outcome.callback)]
        && Count(after.ignitions, operation) == Count(before.ignitions, operation) + (if Asked(w) then 1 else 0)
  {
    PrepareSettles(t, w);
    if Asked(w) {
      JudgeSettles(t, w);
    }
  }

  class Dispatcher {
    var store: map<string, Artifact>
    ghost var ignitions: map<string, nat>
    var calls: seq<Call>

    constructor ()
      ensures View() == Effects(map[], map[], [])
    {
      store, ignitions, calls := map[], map[], [];
    }

    ghost function View(): Effects
      reads this
    {
      Effects(store, ignitions, calls)
    }

    // Persists first, then calls back.
    method PersistAndCall(t: nat, operation: string, artifact: Artifact, callback: Callback) returns (outcome: Outcome)
      modifies this`store, this`calls
      ensures (outcome, View()) == Settled(t, operation, old(View()), artifact, callback)
    {
      store := store[operation := artifact];
      calls := calls + [Call(t, operation, artifact, callback)];
      outcome := Called(artifact, callback);
    }

    method DispatchUnlocked(t: nat, operation: string, w: World) returns (outcome: Outcome)
      modifies this
      ensures (outcome, View()) == Dispatched(t, operation, w, old(View()))
      ensures operation in old(store) ==> outcome == Existing(old(store)[operation]) && View() == old(View())
      ensures operation !in old(store) ==> outcome.Called? && Settles(w, outcome.artifact, outcome.callback)
    {
      DispatchSettles(t, operation, w, View());
      if operation in store {
        return Existing(store[operation]);
      }
      if !w.manifestValid || !w.planValid {
        outcome := PersistAndCall(t, operation, Artifact(ValidationFailed, t, false), Unresolved(w, SuspendRepair));
        return;
      }
      if w.policyEnabled && w.packaging == InvalidPackage {
        outcome := PersistAndCall(t, operation, Artifact(PackageValidationFailed, t, false), Unresolved(w, SuspendRepair));
        return;
      }
      if w.policyEnabled && w.packaging == PackagingDefect {
        outcome := PersistAndCall(t, operation, Artifact(InternalError, t, false), Unresolved(w, SuspendRepair));
        return;
      }
      if !w.policyEnabled {
        outcome := PersistAndCall(t, operation, Artifact(SkippedDisabled, t, false), Continue);
        return;
      }
      if !w.authorityPasses {
        outcome := PersistAndCall(t, operation, Artifact(Blocked, t, false), Unresolved(w, SuspendDecision));
        return;
      }
      outcome := Ignite(t, operation, w);
    }

    method Ignite(t: nat, operation: string, w: World) returns (outcome: Outcome)
      modifies this
      ensures var judged := Judge(t, w);
        (outcome, View()) == Settled(t, operation,
          old(View()).(ignitions := old(ignitions)[operation := Count(old(ignitions), operation) + 1]), judged.0, judged.1)
      ensures outcome.Called? && (Asked(w) ==> Settles(w, outcome.artifact, outcome.callback))
    {
      if Asked(w) {
        JudgeSettles(t, w);
      }
      ignitions := ignitions[operation := Count(ignitions, operation) + 1];
      match w.ignition {
        case Raises(provider) =>
          var status := if provider then ProviderFailed else ValidationFailed;
          outcome := PersistAndCall(t, operation, Artifact(status, t, true), Unresolved(w, SuspendEvidence));
        case Returns(complete, eligible) =>
          if !complete {
            outcome := PersistAndCall(t, operation, Artifact(Blocked, t, true), Unresolved(w, SuspendEvidence));
          } else if !eligible {
            outcome := PersistAndCall(t, operation, Artifact(Rejected, t, true), Unresolved(w, RejectedRoute));
          } else {
            outcome := PersistAndCall(t, operation, Artifact(Accepted, t, true), Continue);
          }
      }
    }
  }

  function Steps(sys: System, t: nat, n: nat): (after: System)
    requires t < |sys.threads|
    ensures |after.threads| == |sys.threads|
    decreases n
  {
    if n == 0 then sys else Steps(Step(sys, t), t, n - 1)
  }

  function EffectsOf(sys: System): Effects {
    Effects(sys.store, sys.ignitions, sys.calls)
  }

  // After n steps of thread t it has finished with this outcome and effect,
  // and no ignition was lost.
  ghost predicate Does(sys: System, t: nat, n: nat, result: (Outcome, Effects))
    requires t < |sys.threads|
  {
    var after := Steps(sys, t, n);
    after.threads[t].pc == Finished(result.0) && EffectsOf(after) == result.1 && after.lost == sys.lost
  }

  lemma DoesNext(sys: System, t: nat, n: nat, result: (Outcome, Effects))
    requires t < |sys.threads| && Step(sys, t).lost == sys.lost && Does(Step(sys, t), t, n, result)
    ensures Does(sys, t, n + 1, result)
  {
  }

  lemma FromStoring(sys: System, t: nat)
    requires t < |sys.threads| && sys.threads[t].pc.Storing?
    ensures Does(sys, t, 2, Settled(t, sys.threads[t].operation, EffectsOf(sys), sys.threads[t].pc.artifact, sys.threads[t].pc.callback))
  {
    var stored := Step(sys, t);
    var called := Step(stored, t);
    assert Steps(called, t, 0) == called;
    assert Steps(stored, t, 1) == called;
  }

  lemma FromIgniting(sys: System, t: nat)
    requires t < |sys.threads| && sys.threads[t].pc.Igniting?
    ensures var o := sys.threads[t].operation;
      var judged := Judge(t, sys.threads[t].world);
      Does(sys, t, 4, Settled(t, o, EffectsOf(sys).(ignitions := sys.ignitions[o := Count(sys.ignitions, o) + 1]), judged.0, judged.1))
  {
    var ignited := Step(sys, t);
    var judged := Judge(t, sys.threads[t].world);
    var storing := Step(ignited, t);
    FromStoring(storing, t);
    var result := Settled(t, sys.threads[t].operation, EffectsOf(storing), judged.0, judged.1);
    DoesNext(ignited, t, 2, result);
    DoesNext(sys, t, 3, result);
  }

  lemma PreparedStores(sys: System, t: nat)
    requires t < |sys.threads| && sys.threads[t].pc.Preparing? && sys.threads[t].operation !in sys.store
    requires Prepare(t, sys.threads[t].world).Some?
    ensures Does(Step(sys, t), t, 2, Dispatched(t, sys.threads[t].operation, sys.threads[t].world, EffectsOf(sys)))
    ensures Step(sys, t).lost == sys.lost
  {
    FromStoring(Step(sys, t), t);
  }

  lemma PreparedIgnites(sys: System, t: nat)
    requires t < |sys.threads| && sys.threads[t].pc.Preparing? && sys.threads[t].operation !in sys.store
    requires Prepare(t, sys.threads[t].world).None?
    ensures Does(Step(sys, t), t, 4, Dispatched(t, sys.threads[t].operation, sys.threads[t].world, EffectsOf(sys)))
    ensures Step(sys, t).lost == sys.lost
  {
    FromIgniting(Step(sys, t), t);
  }

  lemma FromPreparing(sys: System, t: nat) returns (n: nat)
    requires t < |sys.threads| && sys.threads[t].pc.Preparing? && sys.threads[t].operation !in sys.store
    ensures Does(sys, t, n, Dispatched(t, sys.threads[t].operation, sys.threads[t].world, EffectsOf(sys)))
  {
    var next := Step(sys, t);
    var result := Dispatched(t, sys.threads[t].operation, sys.threads[t].world, EffectsOf(sys));
    if Prepare(t, sys.threads[t].world).Some? {
      PreparedStores(sys, t);
      DoesNext(sys, t, 2, result);
      n := 3;
    } else {
      PreparedIgnites(sys, t);
      DoesNext(sys, t, 4, result);
      n := 5;
    }
  }

  // A thread that holds the lock and is not cut short does, step by step,
  // exactly what the code does.
  lemma StepsDispatch(sys: System, t: nat) returns (n: nat)
    requires t < |sys.threads| && sys.threads[t].pc == Holding
    ensures Does(sys, t, n, Dispatched(t, sys.threads[t].operation, sys.threads[t].world, EffectsOf(sys)))
  {
    var next := Step(sys, t);
    var result := Dispatched(t, sys.threads[t].operation, sys.threads[t].world, EffectsOf(sys));
    if sys.threads[t].operation in sys.store {
      assert Steps(next, t, 0) == next;
      n := 1;
    } else {
      var m := FromPreparing(next, t);
      DoesNext(sys, t, m, result);
      n := m + 1;
    }
  }
}
