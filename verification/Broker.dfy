/** The broker as a state machine.  Every request runs in its own thread: it reads and checks a task
    record without a lock, acquires one or two file locks, and then runs its locked body.  The three
    parts are separate steps, so the record a body works from may be stale by then. */
module Broker {
  import opened Wrappers
  import opened Commits
  import opened Lifecycle
  import opened LifecycleInvariant

  datatype Request =
    | Start(task: string, parallel: bool, deps: seq<string>)
    | Complete(task: string)
    | Merge(task: string)
    | Abort(task: string)
    | Sync(bundle: string)
    | Export
    | ProjectStatus
    | Run(task: string, readonly: bool)
    | Index(task: string)

  datatype LockRequest = LockRequest(name: string, shared: bool)

  /** `got` counts the locks of the plan acquired so far, in plan order. */
  datatype Thread = Thread(req: Request, snap: Option<Record>, got: nat)

  datatype Event =
    | CompletedAt(task: string, head: Commit)
    | MergedInto(task: string, head: Commit, before: Commit, after: Commit)

  /** What has happened so far, kept for stating properties only: recorded completions and merges,
      the commit each start accepted for each dependency, and the order of starts. */
  datatype History = History(
    log: seq<Event>,
    accepted: map<string, map<string, Commit>>,
    rank: map<string, nat>,
    clock: nat)

  datatype State = State(world: World, threads: map<nat, Thread>, past: History)

  function InitialState(root: Commit): State
  {
    State(InitialWorld(root), map[], History([], map[], map[], 0))
  }

  /******* Before the lock *******/

  predicate RequestAllowed(req: Request, r: Record)
  {
    match req
    case Complete(_) => r.status == Active
    case Merge(_) => r.mode == Parallel && r.status == Completed
    case Abort(_) => Pending(r)
    case Run(_, readonly) => readonly || r.status == Active
    case Index(_) => r.status == Active || r.status == Completed
    case _ => true
  }

  predicate OnTask(req: Request)
  {
    req.Complete? || req.Merge? || req.Abort? || req.Run? || req.Index?
  }

  /** Everything a handler checks before it takes its first lock; on success the record it read. */
  function Admit(w: World, req: Request): Result<Option<Record>, Fault>
  {
    match req
    case Start(task, _, deps) =>
      if ValidStartRequest(task, deps) && task !in w.records then Success(None) else Failure(Rejected)
    case Sync(_) =>
      if AnyActiveSequential(w.records) || AnyPending(w.records) then Failure(Rejected) else Success(None)
    case Export => Success(None)
    case ProjectStatus => Success(None)
    case _ =>
      match LoadTask(w, req.task)
      case Failure(f) => Failure(f)
      case Success(r) => if RequestAllowed(req, r) then Success(Some(r)) else Failure(Rejected)
  }

  /******* Locks *******/

  /** The workspace lock used by completion and indexing. */
  function TaskLockName(task: string, r: Record): string
  {
    if r.mode == Integration then INTEGRATION_LOCK else task
  }

  /** The workspace lock used by provider execution and review. */
  function RunLockName(task: string, r: Record): string
  {
    if r.mode == Integration || r.status == Merged then INTEGRATION_LOCK else task
  }

  function LockPlan(t: Thread): seq<LockRequest>
  {
    match t.req
    case Start(_, _, _) => [LockRequest(INTEGRATION_LOCK, false)]
    case Sync(_) => [LockRequest(INTEGRATION_LOCK, false)]
    case Export => [LockRequest(INTEGRATION_LOCK, true)]
    case ProjectStatus => [LockRequest(INTEGRATION_LOCK, true)]
    case Merge(task) => [LockRequest(INTEGRATION_LOCK, false), LockRequest(task, false)]
    case Abort(task) => [LockRequest(INTEGRATION_LOCK, false), LockRequest(task, false)]
    case Complete(task) => if t.snap.None? then [] else [LockRequest(TaskLockName(task, t.snap.value), false)]
    case Index(task) => if t.snap.None? then [] else [LockRequest(TaskLockName(task, t.snap.value), false)]
    case Run(task, readonly) => if t.snap.None? then [] else [LockRequest(RunLockName(task, t.snap.value), readonly)]
  }

  predicate Compatible(a: LockRequest, b: LockRequest)
  {
    a.name == b.name ==> a.shared && b.shared
  }

  predicate Holds(t: Thread, l: LockRequest)
  {
    exists k :: 0 <= k < t.got && k < |LockPlan(t)| && LockPlan(t)[k] == l
  }

  /** `flock` blocks on any conflicting holder, also on another handle of the same thread. */
  ghost predicate LockFree(s: State, l: LockRequest)
  {
    forall id, h :: id in s.threads && Holds(s.threads[id], h) ==> Compatible(h, l)
  }

  /** All locks are held: the thread is inside its locked body. */
  predicate Inside(t: Thread)
  {
    t.got == |LockPlan(t)|
  }

  predicate IsExecutor(req: Request)
  {
    req.Run? || req.Index?
  }

  /** An executor gets a writable mount of its workspace unless it is a read-only run. */
  predicate Writable(req: Request)
  {
    req.Index? || (req.Run? && !req.readonly)
  }

  /******* Steps *******/

  datatype Step =
    | Begin(id: nat, req: Request)
    | Acquire(id: nat)
    | Body(id: nat, choice: Choice)
    | WorkStep(id: nat, act: Action)
    | Finish(id: nat)
    | Inbound(bundle: string, main: Commit)

  ghost predicate Enabled(s: State, step: Step)
  {
    match step
    case Begin(id, req) =>
      && id !in s.threads && Admit(s.world, req).Success?
      // Environment assumption: one start per task name is in flight at a time.
      && (req.Start? ==> forall j :: j in s.threads && s.threads[j].req.Start? ==> s.threads[j].req.task != req.task)
    case Acquire(id) =>
      id in s.threads && s.threads[id].got < |LockPlan(s.threads[id])|
      && LockFree(s, LockPlan(s.threads[id])[s.threads[id].got])
    case Body(id, _) => id in s.threads && Inside(s.threads[id]) && !IsExecutor(s.threads[id].req)
    case WorkStep(id, act) =>
      && id in s.threads && Inside(s.threads[id]) && Writable(s.threads[id].req)
      && s.threads[id].snap.Some?
      && var t := s.threads[id];
         ActionAllowed(s.world, WorkspaceOf(t.req.task, t.snap.value), t.snap.value.branch, act)
    case Finish(id) => id in s.threads && Inside(s.threads[id]) && IsExecutor(s.threads[id].req)
    case Inbound(_, _) => true
  }

  function AcceptedFor(records: map<string, Record>, deps: seq<string>): map<string, Commit>
  {
    map d | d in deps && d in records && Integrated(records[d]).Some? :: Integrated(records[d]).value
  }

  function WithoutThread(s: State, id: nat): State
  {
    s.(threads := s.threads - {id})
  }

  /** The locked body of a lifecycle request, and the release of its locks. */
  function ApplyBody(s: State, id: nat, choice: Choice): State
    requires id in s.threads
  {
    var t := s.threads[id];
    var s1 := WithoutThread(s, id);
    match t.req
    case Start(task, parallel, deps) =>
      var (w, out) := StartBody(s.world, task, parallel, deps, choice);
      if out.Failed? then s1.(world := w)
      else s1.(world := w,
               past := s.past.(accepted := s.past.accepted[task := AcceptedFor(s.world.records, deps)],
                               rank := s.past.rank[task := s.past.clock], clock := s.past.clock + 1))
    case Complete(task) =>
      if t.snap.None? then s1
      else
        var (w, out) := CompleteBody(s.world, task, t.snap.value);
        if out.Failed? || out.record.head.None? then s1.(world := w)
        else s1.(world := w, past := s.past.(log := s.past.log + [CompletedAt(task, out.record.head.value)]))
    case Merge(task) =>
      if t.snap.None? then s1
      else
        var (w, out) := MergeBody(s.world, task, t.snap.value, choice);
        if out.Failed? || t.snap.value.head.None? || INTEGRATION_BRANCH !in s.world.refs || INTEGRATION_BRANCH !in w.refs
        then s1.(world := w)
        else s1.(world := w, past := s.past.(log := s.past.log +
               [MergedInto(task, t.snap.value.head.value, s.world.refs[INTEGRATION_BRANCH], w.refs[INTEGRATION_BRANCH])]))
    case Abort(task) =>
      if t.snap.None? then s1 else s1.(world := AbortBody(s.world, task, t.snap.value).0)
    case Sync(bundle) => s1.(world := SyncBody(s.world, bundle).0)
    case _ => s1
  }

  function Apply(s: State, step: Step): State
    requires Enabled(s, step)
  {
    match step
    case Begin(id, req) => s.(threads := s.threads[id := Thread(req, Admit(s.world, req).value, 0)])
    case Acquire(id) => s.(threads := s.threads[id := s.threads[id].(got := s.threads[id].got + 1)])
    case Body(id, choice) => ApplyBody(s, id, choice)
    case WorkStep(id, act) =>
      var t := s.threads[id];
      s.(world := Work(s.world, WorkspaceOf(t.req.task, t.snap.value), t.snap.value.branch, act))
    case Finish(id) => WithoutThread(s, id)
    case Inbound(bundle, main) => s.(world := s.world.(inbound := s.world.inbound[bundle := main]))
  }

  /** A run: each step is enabled where it is taken. */
  ghost predicate Legal(s: State, steps: seq<Step>)
    decreases |steps|
  {
    steps == [] || (Enabled(s, steps[0]) && Legal(Apply(s, steps[0]), steps[1..]))
  }

  ghost function After(s: State, steps: seq<Step>): State
    requires Legal(s, steps)
    decreases |steps|
  {
    if steps == [] then s else After(Apply(s, steps[0]), steps[1..])
  }
}
