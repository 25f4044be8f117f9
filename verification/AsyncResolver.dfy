/**
 * AsyncResolver with its worker threads and posted tasks, as interleaved steps of the threads that take part.
 * Any touch of a deleted resolver or a freed State is recorded as a fault; the theorems say there is none.
 */
module AsyncResolving {
  datatype Status = kLive | kDead

  datatype Holder = NoOne | Worker(id: nat) | OwnerThread

  datatype Address = Address(family: int, ip: int)

  /** What ResolveHostname gives. */
  datatype Result = Result(error: int, addresses: seq<Address>)

  const UNRESOLVED := Result(-1, [])

  /** A detached thread: resolving, holding the lock, after the test and the post, after unlocking, ended. */
  datatype WorkerPc = Resolving | Holding(result: Result) | Tested(result: Result) | Unlocked(result: Result) | Gone(result: Result)

  /** A task and the worker that posted it. */
  datatype Post = Post(worker: nat, result: Result)

  datatype TaskPc = Entered | Locked | HasRead(live: bool) | Signalling | Returned | Leaving

  datatype DeletePc = Locking | Marking | Releasing

  /** What the owning sequence is doing: nothing, a posted task, or the destructor (inside a task or not). */
  datatype Owner = Idle | Task(pc: TaskPc, post: Post) | Deleting(at: DeletePc, inTask: bool, post: Post)

  /** `error` and `addresses` are kept as one result; `signals` is what SignalDone was fired for, so far. */
  datatype System = System(
    resolver: bool, result: Result, recursionCheck: bool, destroyCalled: bool, deletions: nat,
    status: Status, mutex: Holder, refs: int, freed: bool,
    workers: seq<WorkerPc>, queue: seq<Post>, owner: Owner, fault: bool, signals: seq<Post>)

  const NO_POST := Post(0, UNRESOLVED)

  const INITIAL := System(true, UNRESOLVED, false, false, 0, kLive, NoOne, 1, false, [], [], Idle, false, [])

  datatype Move = Start | Destroy | RunTask | SignalReturns | OwnerStep | WorkerStep(id: nat, result: Result)

  function TouchResolver(s: System): System {
    s.(fault := s.fault || !s.resolver)
  }

  function TouchState(s: System): System {
    s.(fault := s.fault || s.freed)
  }

  function AddRef(s: System): System {
    TouchState(s).(refs := s.refs + 1)
  }

  function Release(s: System): System {
    TouchState(s).(refs := s.refs - 1, freed := s.freed || s.refs - 1 == 0)
  }

  /** The caller's part: one call at a time, and none after Destroy. Everything else happens on its own. */
  predicate Enabled(s: System, m: Move) {
    match m
    case Start => (s.owner == Idle || (s.owner.Task? && s.owner.pc == Signalling)) && !s.destroyCalled
    case Destroy => (s.owner == Idle || (s.owner.Task? && s.owner.pc == Signalling)) && !s.destroyCalled
    case RunTask => s.owner == Idle && s.queue != []
    case SignalReturns => s.owner.Task? && s.owner.pc == Signalling
    case OwnerStep => OwnerCanStep(s)
    case WorkerStep(i, _) => i < |s.workers| && !s.workers[i].Gone? && (s.workers[i] == Resolving ==> s.mutex == NoOne)
  }

  predicate OwnerCanStep(s: System) {
    match s.owner
    case Idle => false
    case Task(pc, _) => pc != Signalling && (pc == Entered ==> s.mutex == NoOne)
    case Deleting(at, _, _) => at == Locking ==> s.mutex == NoOne
  }

  /** `state_` is copied into the thread's closure. */
  function StartCall(s: System): System {
    AddRef(TouchResolver(s)).(workers := s.workers + [Resolving])
  }

  function DestroyCall(s: System): System {
    MaybeSelfDestruct(TouchResolver(s).(destroyCalled := true), s.owner)
  }

  /** Deletes at once, or clears the flag so that the caller up the stack will; `after` is where control returns. */
  function MaybeSelfDestruct(s: System, after: Owner): System {
    var s1 := TouchResolver(s);
    if !s1.recursionCheck then s1.(owner := Deleting(Locking, s1.owner.Task?, RunningPost(s1.owner)))
    else s1.(recursionCheck := false, owner := after)
  }

  function RunningPost(o: Owner): Post {
    if o.Task? then o.post else NO_POST
  }

  function ResolveDone(s: System, post: Post): System {
    TouchResolver(s).(result := post.result, recursionCheck := true, signals := s.signals + [post], owner := Task(Signalling, post))
  }

  function TaskStep(s: System, pc: TaskPc, post: Post): System {
    match pc
    case Entered => TouchState(s).(mutex := OwnerThread, owner := Task(Locked, post))
    case Locked => TouchState(s).(mutex := NoOne, owner := Task(HasRead(s.status == kLive), post))
    case HasRead(live) => if live then ResolveDone(s, post) else s.(owner := Task(Leaving, post))
    case Signalling => s.(owner := Task(Returned, post))
    case Returned => MaybeSelfDestruct(s, Task(Leaving, post))
    case Leaving => Release(s).(owner := Idle)
  }

  /** ~AsyncResolver: the status changes under the lock, then the member `state_` is released. */
  function DeleteStep(s: System, at: DeletePc, inTask: bool, post: Post): System {
    match at
    case Locking => TouchState(TouchResolver(s)).(mutex := OwnerThread, owner := Deleting(Marking, inTask, post))
    case Marking => TouchState(TouchResolver(s)).(status := kDead, mutex := NoOne, owner := Deleting(Releasing, inTask, post))
    case Releasing =>
      Release(TouchResolver(s)).(resolver := false, deletions := s.deletions + 1, owner := if inTask then Task(Leaving, post) else Idle)
  }

  function ThreadStep(s: System, i: nat, result: Result): System
    requires i < |s.workers|
  {
    match s.workers[i]
    case Resolving => TouchState(s).(mutex := Worker(i), workers := s.workers[i := Holding(result)])
    case Holding(r) =>
      var s1 := TouchState(s).(workers := s.workers[i := Tested(r)]);
      if s.status == kLive then AddRef(s1).(queue := s.queue + [Post(i, r)]) else s1
    case Tested(r) => TouchState(s).(mutex := NoOne, workers := s.workers[i := Unlocked(r)])
    case Unlocked(r) => Release(s).(workers := s.workers[i := Gone(r)])
    case Gone(_) => s
  }

  function Step(s: System, m: Move): System
    requires Enabled(s, m)
  {
    match m
    case Start => StartCall(s)
    case Destroy => DestroyCall(s)
    case RunTask => s.(queue := s.queue[1..], owner := Task(Entered, s.queue[0]))
    case SignalReturns => TaskStep(s, Signalling, s.owner.post)
    case OwnerStep => if s.owner.Task? then TaskStep(s, s.owner.pc, s.owner.post) else DeleteStep(s, s.owner.at, s.owner.inTask, s.owner.post)
    case WorkerStep(i, result) => ThreadStep(s, i, result)
  }

  // The invariant

  function Running(workers: seq<WorkerPc>): nat {
    if workers == [] then 0
    else Running(workers[..|workers| - 1]) + (if workers[|workers| - 1].Gone? then 0 else 1)
  }

  /** Who holds a reference to State: the resolver, each thread, each task waiting, and the task that runs. */
  function Holders(s: System): nat {
    (if s.resolver then 1 else 0) + Running(s.workers) + |s.queue| + (if InTask(s.owner) then 1 else 0)
  }

  predicate InTask(o: Owner) {
    o.Task? || (o.Deleting? && o.inTask)
  }

  predicate Counted(s: System) {
    s.refs == Holders(s) && (s.freed <==> s.refs == 0)
  }

  predicate Critical(w: WorkerPc) {
    w.Holding? || w.Tested?
  }

  predicate OwnerCritical(o: Owner) {
    (o.Task? && o.pc == Locked) || (o.Deleting? && o.at == Marking)
  }

  ghost predicate MutexOk(s: System) {
    && (forall i :: 0 <= i < |s.workers| ==> (Critical(s.workers[i]) <==> s.mutex == Worker(i)))
    && (OwnerCritical(s.owner) <==> s.mutex == OwnerThread)
    && (s.mutex.Worker? ==> s.mutex.id < |s.workers|)
  }

  /** Inside ResolveDone, from its first line to the last. */
  predicate Notifying(o: Owner) {
    o.Task? && (o.pc == Signalling || o.pc == Returned)
  }

  predicate ResolverOk(s: System) {
    && s.deletions == (if s.resolver then 0 else 1)
    && (s.status == kDead <==> !s.resolver || (s.owner.Deleting? && s.owner.at == Releasing))
    && (s.owner.Deleting? ==> s.resolver && s.destroyCalled)
    && (!s.resolver ==> s.destroyCalled)
    && (s.destroyCalled && s.resolver ==> s.owner.Deleting? || Notifying(s.owner))
    && (Notifying(s.owner) || (s.owner.Task? && s.owner.pc == HasRead(true)) ==> s.resolver)
    && (if Notifying(s.owner) then s.recursionCheck == !s.destroyCalled else !s.recursionCheck)
  }

  ghost predicate Inv(s: System) {
    !s.fault && Counted(s) && MutexOk(s) && ResolverOk(s)
  }

  lemma {:induction false} RunningUpdated(workers: seq<WorkerPc>, i: nat, w: WorkerPc)
    requires i < |workers|
    ensures Running(workers[i := w]) == Running(workers) - (if workers[i].Gone? then 0 else 1) + (if w.Gone? then 0 else 1)
  {
    var last := |workers| - 1;
    if i < last {
      RunningUpdated(workers[..last], i, w);
      assert workers[i := w][..last] == workers[..last][i := w];
    } else {
      assert workers[i := w][..last] == workers[..last];
    }
  }

  lemma {:induction false} RunningMore(workers: seq<WorkerPc>)
    ensures Running(workers + [Resolving]) == Running(workers) + 1
  {
    assert (workers + [Resolving])[..|workers|] == workers;
  }

  lemma {:induction false} SomeRunning(workers: seq<WorkerPc>, i: nat)
    requires i < |workers| && !workers[i].Gone?
    ensures Running(workers) > 0
  {
    if i < |workers| - 1 {
      SomeRunning(workers[..|workers| - 1], i);
    }
  }

  lemma CallKeeps(s: System, m: Move)
    requires Inv(s) && Enabled(s, m) && (m == Start || m == Destroy || m == RunTask || m == SignalReturns)
    ensures Inv(Step(s, m))
  {
    RunningMore(s.workers);
  }

  lemma OwnerStepKeeps(s: System)
    requires Inv(s) && Enabled(s, OwnerStep)
    ensures Inv(Step(s, OwnerStep))
  {
    hide Running;
  }

  function NextPc(w: WorkerPc, result: Result): WorkerPc {
    match w
    case Resolving => Holding(result)
    case Holding(r) => Tested(r)
    case Tested(r) => Unlocked(r)
    case Unlocked(r) => Gone(r)
    case Gone(r) => Gone(r)
  }

  lemma WorkerStepCounts(s: System, i: nat, result: Result)
    requires Inv(s) && Enabled(s, WorkerStep(i, result))
    ensures Counted(Step(s, WorkerStep(i, result)))
  {
    hide MutexOk;
    SomeRunning(s.workers, i);
    RunningUpdated(s.workers, i, NextPc(s.workers[i], result));
    hide Running;
  }

  lemma WorkerStepKeeps(s: System, i: nat, result: Result)
    requires Inv(s) && Enabled(s, WorkerStep(i, result))
    ensures Inv(Step(s, WorkerStep(i, result)))
  {
    SomeRunning(s.workers, i);
    WorkerStepCounts(s, i, result);
    hide Running;
    var s' := Step(s, WorkerStep(i, result));
    assert s'.workers == s.workers[i := NextPc(s.workers[i], result)];
  }

  lemma StepKeeps(s: System, m: Move)
    requires Inv(s) && Enabled(s, m)
    ensures Inv(Step(s, m))
  {
    match m
    case OwnerStep => OwnerStepKeeps(s);
    case WorkerStep(i, result) => WorkerStepKeeps(s, i, result);
    case _ => CallKeeps(s, m);
  }

  // Runs

  ghost predicate Reaches(moves: seq<Move>, s: System) {
    if moves == [] then s == INITIAL
    else
      var last := |moves| - 1;
      exists before :: Reaches(moves[..last], before) && Enabled(before, moves[last]) && s == Step(before, moves[last])
  }

  lemma {:induction false} ReachableInv(moves: seq<Move>, s: System)
    requires Reaches(moves, s)
    ensures Inv(s)
  {
    if moves != [] {
      var last := |moves| - 1;
      var before :| Reaches(moves[..last], before) && Enabled(before, moves[last]) && s == Step(before, moves[last]);
      ReachableInv(moves[..last], before);
      StepKeeps(before, moves[last]);
    }
  }

  /**
   * In every interleaving: nothing deleted or freed is touched; the resolver is deleted at most once, only
   * after Destroy, and whenever the sequence is idle after Destroy it has been deleted exactly once; inside
   * SignalDone it is still there; ResolveDone only ever runs on a live resolver; State is freed exactly when
   * nobody holds it.
   */
  lemma EveryInterleaving(moves: seq<Move>, s: System)
    requires Reaches(moves, s)
    ensures !s.fault
    ensures s.deletions <= 1 && (s.deletions == 1 <==> !s.resolver) && (s.deletions == 1 ==> s.destroyCalled)
    ensures s.owner == Idle && s.destroyCalled ==> s.deletions == 1
    ensures s.owner.Task? && (s.owner.pc == Signalling || s.owner.pc == HasRead(true)) ==> s.resolver && s.deletions == 0
    ensures s.refs == Holders(s) && (s.freed <==> Holders(s) == 0)
  {
    ReachableInv(moves, s);
  }

  // Destroy is carried out

  /** The steps the owning sequence still has to take before the resolver is gone. */
  function OwnerStepsLeft(s: System): nat {
    if !s.resolver then 0
    else if s.owner.Deleting? then
      match s.owner.at
      case Locking => 3
      case Marking => 2
      case Releasing => 1
    else if s.owner.Task? && s.owner.pc == Returned then 4
    else 5
  }

  /** After Destroy every step of the owning sequence leads closer to the deletion; no other step leads away. */
  lemma DeletionComesCloser(s: System, m: Move)
    requires Inv(s) && Enabled(s, m) && s.destroyCalled && s.resolver
    ensures Step(s, m).destroyCalled
    ensures m == OwnerStep || m == SignalReturns ==> OwnerStepsLeft(Step(s, m)) < OwnerStepsLeft(s)
    ensures m.WorkerStep? ==> OwnerStepsLeft(Step(s, m)) == OwnerStepsLeft(s)
    ensures m != Start && m != Destroy && m != RunTask
  {
  }

  /** It is never stuck: it can step, or the handler must return, or a thread holds the lock and can step. */
  lemma DeletionIsNotStuck(s: System)
    requires Inv(s) && s.destroyCalled && s.resolver
    ensures || Enabled(s, OwnerStep) || Enabled(s, SignalReturns)
            || (s.mutex.Worker? && forall r :: Enabled(s, WorkerStep(s.mutex.id, r)))
  {
  }

  /** A thread that holds the lock gives it up after at most two of its own steps. */
  lemma LockIsGivenUp(s: System, first: Result, second: Result)
    requires Inv(s) && s.mutex.Worker?
    ensures var m := WorkerStep(s.mutex.id, first);
            && Enabled(s, m)
            && var s1 := Step(s, m);
               (s.workers[s.mutex.id].Holding? ==>
                  Enabled(s1, WorkerStep(s.mutex.id, second)) && Step(s1, WorkerStep(s.mutex.id, second)).mutex == NoOne)
    ensures s.workers[s.mutex.id].Tested? ==> Step(s, WorkerStep(s.mutex.id, first)).mutex == NoOne
  {
    WorkerStepKeeps(s, s.mutex.id, first);
  }

  ghost predicate Leads(s: System, moves: seq<Move>, end: System)
    decreases |moves|
  {
    if moves == [] then s == end else Enabled(s, moves[0]) && Leads(Step(s, moves[0]), moves[1..], end)
  }

  /** The steps the thread that holds the lock takes before giving it up. */
  function LockSteps(s: System): nat
    requires s.mutex.Worker? ==> s.mutex.id < |s.workers|
  {
    if s.mutex.Worker? then if s.workers[s.mutex.id].Holding? then 2 else 1 else 0
  }

  lemma OneStepCloser(s: System) returns (m: Move)
    requires Inv(s) && s.destroyCalled && s.resolver
    ensures Enabled(s, m) && Inv(Step(s, m)) && Step(s, m).destroyCalled
    ensures OwnerStepsLeft(Step(s, m)) * 3 + LockSteps(Step(s, m)) < OwnerStepsLeft(s) * 3 + LockSteps(s)
  {
    DeletionIsNotStuck(s);
    m := if Enabled(s, OwnerStep) then OwnerStep else if Enabled(s, SignalReturns) then SignalReturns else WorkerStep(s.mutex.id, UNRESOLVED);
    StepKeeps(s, m);
    DeletionComesCloser(s, m);
  }

  /** From every state after Destroy, letting each thread finish what it is doing deletes the resolver. */
  lemma {:induction false} DestroyCompletes(s: System) returns (moves: seq<Move>, end: System)
    requires Inv(s) && s.destroyCalled
    ensures Leads(s, moves, end) && !end.resolver && end.deletions == 1 && !end.fault
    ensures |moves| <= OwnerStepsLeft(s) * 3 + LockSteps(s)
    decreases OwnerStepsLeft(s) * 3 + LockSteps(s)
  {
    if !s.resolver {
      moves, end := [], s;
    } else {
      var m := OneStepCloser(s);
      hide Inv;
      var rest;
      rest, end := DestroyCompletes(Step(s, m));
      moves := [m] + rest;
      assert moves[1..] == rest;
    }
  }

  // Results are delivered

  predicate Posted(w: WorkerPc) {
    w.Tested? || w.Unlocked? || w.Gone?
  }

  function Unposted(workers: seq<WorkerPc>): nat {
    if workers == [] then 0
    else Unposted(workers[..|workers| - 1]) + (if Posted(workers[|workers| - 1]) then 0 else 1)
  }

  /** The task that runs and has not come to its signal. */
  function InFlight(o: Owner): seq<Post> {
    if o.Task? && (o.pc == Entered || o.pc == Locked || o.pc == HasRead(true)) then [o.post] else []
  }

  /** The results on their way, those delivered first. */
  function Log(s: System): seq<Post> {
    s.signals + InFlight(s.owner) + s.queue
  }

  ghost predicate IsPostOf(p: Post, workers: seq<WorkerPc>) {
    p.worker < |workers| && Posted(workers[p.worker]) && workers[p.worker].result == p.result
  }

  ghost predicate Distinct(log: seq<Post>) {
    forall i, j :: 0 <= i < j < |log| ==> log[i].worker != log[j].worker
  }

  function LastResult(signals: seq<Post>): Result {
    if signals == [] then UNRESOLVED else signals[|signals| - 1].result
  }

  /** Every post is one worker's result, no worker posts twice, and until Destroy none is missing. */
  ghost predicate Delivering(s: System) {
    && (forall i :: 0 <= i < |Log(s)| ==> IsPostOf(Log(s)[i], s.workers))
    && Distinct(Log(s)) && s.result == LastResult(s.signals)
    && (!s.destroyCalled ==>
          && |Log(s)| + Unposted(s.workers) == |s.workers|
          && !s.owner.Deleting? && (s.owner.Task? ==> s.owner.pc != HasRead(false)))
  }

  lemma {:induction false} UnpostedUpdated(workers: seq<WorkerPc>, i: nat, w: WorkerPc)
    requires i < |workers|
    ensures Unposted(workers[i := w]) == Unposted(workers) - (if Posted(workers[i]) then 0 else 1) + (if Posted(w) then 0 else 1)
  {
    var last := |workers| - 1;
    if i < last {
      UnpostedUpdated(workers[..last], i, w);
      assert workers[i := w][..last] == workers[..last][i := w];
    } else {
      assert workers[i := w][..last] == workers[..last];
    }
  }

  lemma UnpostedMore(workers: seq<WorkerPc>)
    ensures Unposted(workers + [Resolving]) == Unposted(workers) + 1
  {
    assert (workers + [Resolving])[..|workers|] == workers;
  }

  lemma {:induction false} OnceAllArePosted(workers: seq<WorkerPc>)
    requires forall i :: 0 <= i < |workers| ==> Posted(workers[i])
    ensures Unposted(workers) == 0
  {
    if workers != [] {
      OnceAllArePosted(workers[..|workers| - 1]);
    }
  }

  /**
   * Exactly one step signals: that of a task which found the resolver live. It signals once, for its own result,
   * which is the resolver's from then on.
   */
  lemma OnlyALiveTaskSignals(s: System, m: Move)
    requires Inv(s) && Enabled(s, m)
    ensures var s' := Step(s, m);
            if m == OwnerStep && s.owner.Task? && s.owner.pc == HasRead(true)
            then s'.signals == s.signals + [s.owner.post] && s'.result == s.owner.post.result && s'.owner == Task(Signalling, s.owner.post)
            else s'.signals == s.signals && s'.result == s.result
    ensures m == OwnerStep && s.owner.Task? && s.owner.pc == Locked ==>
              Step(s, m).owner == Task(HasRead(s.resolver), s.owner.post)
    ensures m.WorkerStep? && s.workers[m.id] == Resolving ==> Step(s, m).workers[m.id] == Holding(m.result)
    ensures m.WorkerStep? && s.workers[m.id].Holding? && s.resolver && !s.owner.Deleting? ==>
              Step(s, m).queue == s.queue + [Post(m.id, s.workers[m.id].result)]
  {
  }

  lemma LogMoves(s: System, m: Move)
    requires Inv(s) && Delivering(s) && Enabled(s, m)
    ensures var s' := Step(s, m);
            Log(s') == if m.WorkerStep? && s.workers[m.id].Holding? && s.status == kLive then Log(s) + [Post(m.id, s.workers[m.id].result)]
                       else if m == OwnerStep && s.owner.Task? && s.owner.pc == Locked && s.status == kDead then s.signals + s.queue
                       else Log(s)
  {
    hide Running, Unposted, IsPostOf, Distinct, MutexOk, Counted;
    if m.WorkerStep? {
      if s.workers[m.id].Holding? {
        var p := Post(m.id, s.workers[m.id].result);
        assert s.signals + InFlight(s.owner) + (s.queue + [p]) == Log(s) + [p];
      }
    } else if m == OwnerStep {
      OwnerLog(s);
    } else if m == RunTask {
      assert s.signals + [] + s.queue == s.signals + [s.queue[0]] + s.queue[1..];
    }
  }

  lemma OwnerLog(s: System)
    requires ResolverOk(s) && OwnerCanStep(s)
    ensures Log(Step(s, OwnerStep)) ==
            if s.owner.Task? && s.owner.pc == Locked && s.status == kDead then s.signals + s.queue else Log(s)
  {
    if s.owner.Task? {
      assert s.signals + [s.owner.post] + s.queue == s.signals + [s.owner.post] + [] + s.queue;
    }
    assert s.signals + [] + s.queue == s.signals + s.queue;
  }

  lemma CallsKeepWorkers(s: System)
    ensures StartCall(s).workers == s.workers + [Resolving] && DestroyCall(s).workers == s.workers
  {
  }

  lemma ThreadMoves(s: System, i: nat, result: Result)
    requires Enabled(s, WorkerStep(i, result))
    ensures ThreadStep(s, i, result).workers == s.workers[i := NextPc(s.workers[i], result)]
  {
  }

  lemma WorkersAfter(s: System, m: Move)
    requires Enabled(s, m)
    ensures Step(s, m).workers ==
            if m == Start then s.workers + [Resolving]
            else if m.WorkerStep? then s.workers[m.id := NextPc(s.workers[m.id], m.result)]
            else s.workers
  {
    hide TaskStep, DeleteStep, ThreadStep, StartCall, DestroyCall;
    match m
    case Start => CallsKeepWorkers(s);
    case Destroy => CallsKeepWorkers(s);
    case RunTask =>
    case SignalReturns => TaskKeepsWorkers(s, s.owner.pc, s.owner.post);
    case OwnerStep =>
      if s.owner.Task? {
        TaskKeepsWorkers(s, s.owner.pc, s.owner.post);
      } else {
        DeleteKeepsWorkers(s, s.owner.at, s.owner.inTask, s.owner.post);
      }
    case WorkerStep(i, result) => ThreadMoves(s, i, result);
  }

  lemma TaskKeepsWorkers(s: System, pc: TaskPc, post: Post)
    ensures TaskStep(s, pc, post).workers == s.workers && TaskStep(s, Signalling, post).workers == s.workers
  {
  }

  lemma DeleteKeepsWorkers(s: System, at: DeletePc, inTask: bool, post: Post)
    ensures DeleteStep(s, at, inTask, post).workers == s.workers
  {
  }

  /** Every worker that posted before is as good a sender as it was. */
  lemma PostsStay(s: System, m: Move, p: Post)
    requires Enabled(s, m) && IsPostOf(p, s.workers)
    ensures IsPostOf(p, Step(s, m).workers)
  {
    WorkersAfter(s, m);
    hide Step;
  }

  lemma NoSecondPost(s: System, i: nat)
    requires Delivering(s) && i < |s.workers| && s.workers[i].Holding?
    ensures Distinct(Log(s) + [Post(i, s.workers[i].result)])
  {
    var log := Log(s);
    forall k | 0 <= k < |log|
      ensures log[k].worker != i
    {
      assert IsPostOf(log[k], s.workers);
    }
  }

  lemma FewerAreDistinct(a: seq<Post>, b: seq<Post>, c: seq<Post>)
    requires Distinct(a + b + c)
    ensures Distinct(a + c)
  {
    var all, fewer := a + b + c, a + c;
    assert forall i :: 0 <= i < |a| ==> fewer[i] == all[i];
    assert forall i :: |a| <= i < |fewer| ==> fewer[i] == all[i + |b|];
  }

  lemma UnpostedMoves(s: System, m: Move)
    requires Inv(s) && Enabled(s, m)
    ensures var s' := Step(s, m);
            && |s'.workers| == |s.workers| + (if m == Start then 1 else 0)
            && Unposted(s'.workers) ==
               Unposted(s.workers) + (if m == Start then 1 else if m.WorkerStep? && s.workers[m.id].Holding? then -1 else 0)
  {
    UnpostedMore(s.workers);
    if m.WorkerStep? {
      UnpostedUpdated(s.workers, m.id, NextPc(s.workers[m.id], m.result));
    }
    hide Running, Unposted;
  }

  lemma StepDelivers(s: System, m: Move)
    requires Inv(s) && Delivering(s) && Enabled(s, m)
    ensures Delivering(Step(s, m))
  {
    var s' := Step(s, m);
    LogMoves(s, m);
    UnpostedMoves(s, m);
    OnlyALiveTaskSignals(s, m);
    if m.WorkerStep? && s.workers[m.id].Holding? {
      NoSecondPost(s, m.id);
    }
    if m == OwnerStep && s.owner.Task? && s.owner.pc == Locked {
      FewerAreDistinct(s.signals, InFlight(s.owner), s.queue);
    }
    hide Unposted, Running, Distinct;
    forall i | 0 <= i < |Log(s')|
      ensures IsPostOf(Log(s')[i], s'.workers)
    {
      var p := Log(s')[i];
      if p in Log(s) {
        var k :| 0 <= k < |Log(s)| && Log(s)[k] == p;
        PostsStay(s, m, p);
      }
    }
    DestroyIsLate(s, m);
  }

  /** Until Destroy is called, no task finds the resolver dead and the destructor does not run. */
  lemma DestroyIsLate(s: System, m: Move)
    requires Inv(s) && Enabled(s, m) && (s.owner.Task? && !s.destroyCalled ==> s.owner.pc != HasRead(false))
    ensures var s' := Step(s, m);
            !s'.destroyCalled ==> !s.destroyCalled && !s'.owner.Deleting? && (s'.owner.Task? ==> s'.owner.pc != HasRead(false))
    ensures !s.destroyCalled ==> s.status == kLive && s.resolver && !s.owner.Deleting?
  {
    hide Running, MutexOk;
  }

  function Starts(moves: seq<Move>): nat {
    if moves == [] then 0 else Starts(moves[..|moves| - 1]) + (if moves[|moves| - 1] == Start then 1 else 0)
  }

  lemma {:induction false} ReachableDelivers(moves: seq<Move>, s: System)
    requires Reaches(moves, s)
    ensures Inv(s) && Delivering(s) && |s.workers| == Starts(moves)
  {
    if moves != [] {
      var last := |moves| - 1;
      var before :| Reaches(moves[..last], before) && Enabled(before, moves[last]) && s == Step(before, moves[last]);
      ReachableDelivers(moves[..last], before);
      StepKeeps(before, moves[last]);
      StepDelivers(before, moves[last]);
      UnpostedMoves(before, moves[last]);
    }
  }

  /** The sequence is idle, nothing is queued and every thread has ended. */
  predicate Quiet(s: System) {
    s.owner == Idle && s.queue == [] && forall i :: 0 <= i < |s.workers| ==> s.workers[i].Gone?
  }

  /**
   * Every signal is one worker's result, and no worker signals twice. While Destroy was not called, once all is
   * quiet there was one signal for every Start, and the resolver holds the result signalled last.
   */
  lemma EveryResultIsDelivered(moves: seq<Move>, s: System)
    requires Reaches(moves, s)
    ensures Distinct(s.signals) && forall i :: 0 <= i < |s.signals| ==> IsPostOf(s.signals[i], s.workers)
    ensures s.result == if s.signals == [] then UNRESOLVED else s.signals[|s.signals| - 1].result
    ensures !s.destroyCalled && Quiet(s) ==> |s.signals| == Starts(moves) == |s.workers|
  {
    ReachableDelivers(moves, s);
    var log := Log(s);
    assert forall i :: 0 <= i < |s.signals| ==> log[i] == s.signals[i];
    if Quiet(s) {
      OnceAllArePosted(s.workers);
      assert s.signals + [] + [] == s.signals;
    }
  }

  /** Signals come in the order in which the results were posted: the log grows at its end alone. */
  lemma LogOnlyGrows(moves: seq<Move>, s: System, m: Move)
    requires Reaches(moves, s) && Enabled(s, m) && !s.destroyCalled && m != Destroy
    ensures Log(s) <= Log(Step(s, m)) && s.signals <= Log(s)
  {
    ReachableDelivers(moves, s);
    LogMoves(s, m);
    DestroyIsLate(s, m);
    hide Inv, Delivering, Step;
  }

  /** The first address of the family asked for, unless the last result was an error. */
  method GetResolvedAddress(s: System, family: int) returns (found: bool, address: Address)
    requires s.resolver && !s.destroyCalled
    ensures found <==> s.result.error == 0 && exists i :: 0 <= i < |s.result.addresses| && s.result.addresses[i].family == family
    ensures found ==> exists i :: 0 <= i < |s.result.addresses| && address == s.result.addresses[i] && address.family == family &&
                                  forall j :: 0 <= j < i ==> s.result.addresses[j].family != family
  {
    address := Address(family, 0);
    if s.result.error != 0 || s.result.addresses == [] {
      return false, address;
    }
    for i := 0 to |s.result.addresses|
      invariant forall j :: 0 <= j < i ==> s.result.addresses[j].family != family
    {
      if family == s.result.addresses[i].family {
        return true, s.result.addresses[i];
      }
    }
    found := false;
  }

  // Nothing gets stuck

  function WorkerSteps(w: WorkerPc): nat {
    match w
    case Resolving => 11
    case Holding(_) => 10
    case Tested(_) => 2
    case Unlocked(_) => 1
    case Gone(_) => 0
  }

  function AllWorkerSteps(workers: seq<WorkerPc>): nat {
    if workers == [] then 0 else AllWorkerSteps(workers[..|workers| - 1]) + WorkerSteps(workers[|workers| - 1])
  }

  function TaskSteps(o: Owner): nat {
    if !o.Task? then 0
    else
      match o.pc
      case Entered => 6
      case Locked => 5
      case HasRead(_) => 4
      case Signalling => 3
      case Returned => 2
      case Leaving => 1
  }

  /** The steps left until all is quiet, if nobody calls. */
  function StepsLeft(s: System): nat {
    AllWorkerSteps(s.workers) + 7 * |s.queue| + TaskSteps(s.owner)
  }

  lemma {:induction false} WorkerStepsUpdated(workers: seq<WorkerPc>, i: nat, w: WorkerPc)
    requires i < |workers|
    ensures AllWorkerSteps(workers[i := w]) == AllWorkerSteps(workers) - WorkerSteps(workers[i]) + WorkerSteps(w)
  {
    var last := |workers| - 1;
    if i < last {
      WorkerStepsUpdated(workers[..last], i, w);
      assert workers[i := w][..last] == workers[..last][i := w];
    } else {
      assert workers[i := w][..last] == workers[..last];
    }
  }

  lemma {:induction false} NoWorkerSteps(workers: seq<WorkerPc>)
    ensures AllWorkerSteps(workers) == 0 <==> forall i :: 0 <= i < |workers| ==> workers[i].Gone?
  {
    if workers != [] {
      var last := |workers| - 1;
      NoWorkerSteps(workers[..last]);
      assert forall i :: 0 <= i < last ==> workers[..last][i] == workers[i];
    }
  }

  /**
   * Until Destroy, every step that is no call leads closer to quiet, and while it is not quiet there is such a
   * step: no scheduling keeps a result from being delivered.
   */
  lemma QuietComesCloser(s: System, m: Move)
    requires Inv(s) && Delivering(s) && !s.destroyCalled && Enabled(s, m) && m != Start && m != Destroy
    ensures StepsLeft(Step(s, m)) < StepsLeft(s) && !Step(s, m).destroyCalled
  {
    if m.WorkerStep? {
      WorkerStepsUpdated(s.workers, m.id, NextPc(s.workers[m.id], m.result));
    }
    DestroyIsLate(s, m);
    hide AllWorkerSteps, Running, Unposted, MutexOk, IsPostOf, Distinct;
  }

  lemma UntilQuiet(s: System) returns (m: Move)
    requires Inv(s) && !s.destroyCalled && !Quiet(s)
    ensures Enabled(s, m) && m != Start && m != Destroy
  {
    if s.mutex.Worker? {
      m := WorkerStep(s.mutex.id, UNRESOLVED);
    } else if Enabled(s, OwnerStep) {
      m := OwnerStep;
    } else if Enabled(s, SignalReturns) {
      m := SignalReturns;
    } else if Enabled(s, RunTask) {
      m := RunTask;
    } else {
      var i :| 0 <= i < |s.workers| && !s.workers[i].Gone?;
      m := WorkerStep(i, UNRESOLVED);
    }
  }

  lemma OneReached(moves: seq<Move>, s: System, m: Move)
    requires Reaches(moves, s) && Enabled(s, m)
    ensures Reaches(moves + [m], Step(s, m))
  {
    hide Step, Enabled;
    assert (moves + [m])[..|moves|] == moves;
  }

  lemma FirstMoved(moves: seq<Move>, more: seq<Move>)
    requires more != []
    ensures moves + [more[0]] + more[1..] == moves + more
  {
  }

  lemma {:induction false} LeadsOn(moves: seq<Move>, s: System, more: seq<Move>, end: System)
    requires Reaches(moves, s) && Leads(s, more, end)
    ensures Reaches(moves + more, end)
    decreases |more|
  {
    if more == [] {
      assert moves + more == moves;
    } else {
      hide Step, Enabled, Reaches;
      OneReached(moves, s, more[0]);
      FirstMoved(moves, more);
      LeadsOn(moves + [more[0]], Step(s, more[0]), more[1..], end);
    }
  }

  lemma StepReaches(moves: seq<Move>, s: System, m: Move)
    requires Reaches(moves, s) && Enabled(s, m) && m != Start
    ensures Reaches(moves + [m], Step(s, m)) && Starts(moves + [m]) == Starts(moves)
  {
    hide Step, Enabled;
    OneReached(moves, s, m);
    assert (moves + [m])[..|moves|] == moves;
  }

  /** From every state before Destroy the steps that are no calls lead to quiet, with every result delivered. */
  lemma {:induction false} ResultsArrive(moves: seq<Move>, s: System) returns (more: seq<Move>, end: System)
    requires Reaches(moves, s) && !s.destroyCalled
    ensures Leads(s, more, end) && Quiet(end) && |more| <= StepsLeft(s) && |end.signals| == Starts(moves)
    decreases StepsLeft(s)
  {
    ReachableDelivers(moves, s);
    if Quiet(s) {
      more, end := [], s;
      EveryResultIsDelivered(moves, s);
    } else {
      var m := UntilQuiet(s);
      QuietComesCloser(s, m);
      StepReaches(moves, s, m);
      hide Inv, Delivering, StepsLeft, Quiet, Reaches, Enabled, Step, Starts;
      var rest;
      rest, end := ResultsArrive(moves + [m], Step(s, m));
      more := [m] + rest;
      assert more[1..] == rest;
    }
  }
}
