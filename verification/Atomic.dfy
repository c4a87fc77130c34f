/** The atomic layer: every request reads its record, takes its locks and runs its body in one step. */
module Atomic {
  import opened Wrappers
  import opened Commits
  import opened Lifecycle
  import opened LifecycleInvariant
  import opened Broker
  import opened BrokerInvariant

  /** Order numbers the starts, so that acyclicity can be stated. */
  datatype AtomicState = AtomicState(world: World, rank: map<string, nat>, clock: nat)

  datatype AtomicStep =
    | Handle(req: Request, choice: Choice)
    | Execute(req: Request, act: Action)
    | HumanBundle(bundle: string, main: Commit)

  /** One lifecycle request on a fresh snapshot. */
  function HandleWorld(w: World, req: Request, choice: Choice): World
  {
    match Admit(w, req)
    case Failure(_) => w
    case Success(snap) =>
      match req
      case Start(task, parallel, deps) => StartBody(w, task, parallel, deps, choice).0
      case Complete(task) => if snap.None? then w else CompleteBody(w, task, snap.value).0
      case Merge(task) => if snap.None? then w else MergeBody(w, task, snap.value, choice).0
      case Abort(task) => if snap.None? then w else AbortBody(w, task, snap.value).0
      case Sync(bundle) => SyncBody(w, bundle).0
      case _ => w
  }

  /** One action of an executor that was admitted with a writable mount. */
  predicate MayExecute(w: World, req: Request, act: Action)
  {
    && IsExecutor(req) && Writable(req)
    && Admit(w, req).Success? && Admit(w, req).value.Some?
    && ActionAllowed(w, WorkspaceOf(req.task, Admit(w, req).value.value), Admit(w, req).value.value.branch, act)
  }

  function StepWorld(w: World, step: AtomicStep): World
  {
    match step
    case Handle(req, choice) => HandleWorld(w, req, choice)
    case Execute(req, act) =>
      if MayExecute(w, req, act)
      then Work(w, WorkspaceOf(req.task, Admit(w, req).value.value), Admit(w, req).value.value.branch, act)
      else w
    case HumanBundle(bundle, main) => w.(inbound := w.inbound[bundle := main])
  }

  function StepState(s: AtomicState, step: AtomicStep): AtomicState
  {
    var w' := StepWorld(s.world, step);
    if step.Handle? && step.req.Start? && step.req.task !in s.world.records && step.req.task in w'.records
    then AtomicState(w', s.rank[step.req.task := s.clock], s.clock + 1)
    else s.(world := w')
  }

  function AtomicRun(s: AtomicState, steps: seq<AtomicStep>): AtomicState
    decreases |steps|
  {
    if steps == [] then s else AtomicRun(StepState(s, steps[0]), steps[1..])
  }

  function AtomicInit(root: Commit): AtomicState
  {
    AtomicState(InitialWorld(root), map[], 0)
  }

  /** Each dependency is integrated, and its integrated commit lies in the base of its dependant. */
  ghost predicate DepIntegrated(s: AtomicState, t: string, d: string)
  {
    && t in s.world.records && d in s.world.records
    && t in s.rank && d in s.rank && s.rank[d] < s.rank[t]
    && Integrated(s.world.records[d]).Some?
    && Ancestor(Integrated(s.world.records[d]).value, s.world.records[t].base)
  }

  ghost predicate AtomicInv(s: AtomicState)
  {
    && RepoInv(s.world)
    && s.rank.Keys == s.world.records.Keys
    && (forall t :: t in s.rank ==> s.rank[t] < s.clock)
    && (forall t, d :: t in s.world.records && d in s.world.records[t].deps ==> DepIntegrated(s, t, d))
  }

  /** What an atomic step does to the records that were there before it. */
  ghost predicate RecordsKept(w: World, w': World)
  {
    forall t :: t in w.records ==>
      && t in w'.records && SameTask(w.records[t], w'.records[t])
      && (Integrated(w.records[t]).Some? ==> w'.records[t] == w.records[t])
  }

  lemma FreshSnapshot(w: World, req: Request)
    requires RepoInv(w) && Admit(w, req).Success? && OnTask(req)
    ensures Admit(w, req).value.Some? && RequestAllowed(req, Admit(w, req).value.value)
    ensures req.task in w.records && w.records[req.task] == Admit(w, req).value.value
    ensures SnapOk(w, req.task, Admit(w, req).value.value)
  {
    var r := w.records[req.task];
    if Pending(r) && r.status == Completed {
      assert Ancestor(r.head.value, r.head.value);
    }
  }

  lemma CompleteKeepsRecords(w: World, task: string, snap: Record)
    requires RepoInv(w) && SnapOk(w, task, snap) && snap.status == Active && w.records[task] == snap
    ensures RecordsKept(w, CompleteBody(w, task, snap).0)
    ensures CompleteBody(w, task, snap).0.records.Keys == w.records.Keys
  {
    CompleteEvolves(w, task, snap);
  }

  lemma MergeKeepsRecords(w: World, task: string, snap: Record, choice: Choice)
    requires RepoInv(w) && SnapOk(w, task, snap) && snap.mode == Parallel && snap.status == Completed
    requires w.records[task] == snap
    ensures RecordsKept(w, MergeBody(w, task, snap, choice).0)
    ensures MergeBody(w, task, snap, choice).0.records.Keys == w.records.Keys
  {
    MergeEffect(w, task, snap, choice);
  }

  lemma AbortKeepsRecords(w: World, task: string, snap: Record)
    requires RepoInv(w) && SnapOk(w, task, snap) && Pending(snap) && w.records[task] == snap
    ensures RecordsKept(w, AbortBody(w, task, snap).0)
    ensures AbortBody(w, task, snap).0.records.Keys == w.records.Keys
  {
    AbortRuns(w, task, snap);
  }

  /** A request other than start keeps the invariant, the task set and every integrated record. */
  lemma HandleKeeps(w: World, req: Request, choice: Choice)
    requires RepoInv(w) && !req.Start?
    ensures var w' := HandleWorld(w, req, choice);
            RepoInv(w') && RecordsKept(w, w') && w'.records.Keys == w.records.Keys
  {
    if Admit(w, req).Success? {
      if OnTask(req) {
        FreshSnapshot(w, req);
      }
      var snap := Admit(w, req).value;
      match req
      case Complete(task) => CompleteKeeps(w, task, snap.value); CompleteKeepsRecords(w, task, snap.value);
      case Merge(task) => MergeKeeps(w, task, snap.value, choice); MergeKeepsRecords(w, task, snap.value, choice);
      case Abort(task) => AbortKeeps(w, task, snap.value); AbortKeepsRecords(w, task, snap.value);
      case Sync(bundle) => SyncKeeps(w, bundle); SyncRecords(w, bundle);
      case _ =>
    }
  }

  lemma KeptStateKeeps(s: AtomicState, w': World)
    requires AtomicInv(s) && RepoInv(w') && RecordsKept(s.world, w') && w'.records.Keys == s.world.records.Keys
    ensures AtomicInv(s.(world := w'))
  {
    var s' := s.(world := w');
    forall t, d | t in w'.records && d in w'.records[t].deps
      ensures DepIntegrated(s', t, d)
    {
      assert DepIntegrated(s, t, d);
    }
  }

  lemma StartStateKeeps(s: AtomicState, task: string, parallel: bool, deps: seq<string>, choice: Choice)
    requires AtomicInv(s) && task !in s.world.records && task !in deps
    ensures AtomicInv(StepState(s, Handle(Start(task, parallel, deps), choice)))
  {
    var w := s.world;
    var step := Handle(Start(task, parallel, deps), choice);
    if Admit(w, step.req).Success? {
      StartKeeps(w, task, parallel, deps, choice);
      StartRecords(w, task, parallel, deps, choice);
      StartedRecord(w, task, parallel, deps, choice);
      var (w', out) := StartBody(w, task, parallel, deps, choice);
      if out.Failed? {
        KeptStateKeeps(s, w');
      } else {
        var base := w.refs[INTEGRATION_BRANCH];
        DependenciesMet(w.records, deps, base);
        StartedStateKeeps(s, w', task, out.record);
      }
    }
  }

  lemma StartedStateKeeps(s: AtomicState, w': World, task: string, r: Record)
    requires AtomicInv(s) && RepoInv(w') && task !in s.world.records && task !in r.deps
    requires w'.records == s.world.records[task := r]
    requires forall d :: d in r.deps ==> DependencyMet(s.world.records, d, r.base)
    ensures AtomicInv(AtomicState(w', s.rank[task := s.clock], s.clock + 1))
  {
    var s' := AtomicState(w', s.rank[task := s.clock], s.clock + 1);
    forall t, d | t in w'.records && d in w'.records[t].deps
      ensures DepIntegrated(s', t, d)
    {
      if t == task {
        assert DependencyMet(s.world.records, d, r.base);
      } else {
        assert DepIntegrated(s, t, d);
      }
    }
  }

  lemma AtomicStepKeeps(s: AtomicState, step: AtomicStep)
    requires AtomicInv(s)
    ensures AtomicInv(StepState(s, step))
  {
    match step
    case Handle(req, choice) =>
      if req.Start? {
        if req.task !in s.world.records && req.task !in req.deps {
          StartStateKeeps(s, req.task, req.parallel, req.deps, choice);
        }
      } else {
        HandleKeeps(s.world, req, choice);
        KeptStateKeeps(s, StepWorld(s.world, step));
      }
    case Execute(req, act) =>
      if MayExecute(s.world, req, act) {
        FreshSnapshot(s.world, req);
        WorkKeeps(s.world, req.task, Admit(s.world, req).value.value, act);
      }
      KeptStateKeeps(s, StepWorld(s.world, step));
    case HumanBundle(bundle, main) =>
      var w' := StepWorld(s.world, step);
      assert RepoInv(w') by { assert forall t :: IsPending(w', t) == IsPending(s.world, t); }
      KeptStateKeeps(s, w');
  }

  lemma {:induction false} AtomicRunKeeps(s: AtomicState, steps: seq<AtomicStep>)
    requires AtomicInv(s)
    ensures AtomicInv(AtomicRun(s, steps))
    decreases |steps|
  {
    if steps != [] {
      AtomicStepKeeps(s, steps[0]);
      AtomicRunKeeps(StepState(s, steps[0]), steps[1..]);
    }
  }

  /******* The two layers *******/

  /** Handling a request in one step does to the world what the interleaved broker does when its check and its body
      follow each other. */
  lemma HandlingIsCheckThenBody(s: State, id: nat, req: Request, choice: Choice)
    requires Admit(s.world, req).Success? && !IsExecutor(req)
    ensures var admitted := s.(threads := s.threads[id := Thread(req, Admit(s.world, req).value, 0)]);
            ApplyBody(admitted, id, choice).world == HandleWorld(s.world, req, choice)
  {
  }

  /** An action of a freshly admitted executor is allowed in both layers or in neither, and has the same effect. */
  lemma ExecutingIsWorking(s: State, id: nat, act: Action)
    requires id in s.threads && IsExecutor(s.threads[id].req) && Inside(s.threads[id])
    requires Admit(s.world, s.threads[id].req) == Success(s.threads[id].snap)
    ensures Enabled(s, WorkStep(id, act)) <==> MayExecute(s.world, s.threads[id].req, act)
    ensures Enabled(s, WorkStep(id, act)) ==>
              Apply(s, WorkStep(id, act)).world == StepWorld(s.world, Execute(s.threads[id].req, act))
  {
  }

  /** d is in the transitive closure of the dependencies of t, by a path of n + 1 edges. */
  ghost predicate Closure(w: World, t: string, d: string, n: nat)
    decreases n
  {
    && t in w.records
    && if n == 0 then d in w.records[t].deps
       else exists e :: e in w.records[t].deps && Closure(w, e, d, n - 1)
  }

  lemma {:induction false} ClosureIntegrated(s: AtomicState, t: string, d: string, n: nat)
    requires AtomicInv(s) && Closure(s.world, t, d, n)
    ensures DepIntegrated(s, t, d)
    decreases n
  {
    if n == 0 {
      assert DepIntegrated(s, t, d);
    } else {
      var e :| e in s.world.records[t].deps && Closure(s.world, e, d, n - 1);
      ClosureIntegrated(s, e, d, n - 1);
      assert DepIntegrated(s, t, e);
      assert HistoryOk(s.world.records[e], s.world.refs[INTEGRATION_BRANCH]);
      var c := Integrated(s.world.records[d]).value;
      AncestorTransitive(c, s.world.records[e].base, Integrated(s.world.records[e]).value);
      AncestorTransitive(c, Integrated(s.world.records[e]).value, s.world.records[t].base);
    }
  }

  /** In every run: each member of the transitive closure of a task's dependencies is integrated,
      its integrated commit is an ancestor of the task's base commit, and no task is in its own closure. */
  lemma DependencyClosureIsInBase(root: Commit, steps: seq<AtomicStep>, t: string, d: string, n: nat)
    requires Closure(AtomicRun(AtomicInit(root), steps).world, t, d, n)
    ensures var w := AtomicRun(AtomicInit(root), steps).world;
            && t != d && t in w.records && d in w.records
            && Integrated(w.records[d]).Some?
            && Ancestor(Integrated(w.records[d]).value, w.records[t].base)
  {
    InitialKeeps(root);
    AtomicRunKeeps(AtomicInit(root), steps);
    ClosureIntegrated(AtomicRun(AtomicInit(root), steps), t, d, n);
  }

  /******* Rejections *******/

  /** A rejected start or merge leaves refs, worktrees, records, bundles and the fetched human
      branch alone; at most repo/agent has switched to the integration branch.  This holds for a
      stale snapshot as well. */
  ghost predicate OnlySwitched(w: World, w': World)
  {
    w' == w.(agent := w'.agent) && w'.agent.clean == w.agent.clean
  }

  lemma RejectedStartChangesNothing(w: World, task: string, parallel: bool, deps: seq<string>, choice: Choice)
    requires StartBody(w, task, parallel, deps, choice).1.Failed?
    ensures OnlySwitched(w, StartBody(w, task, parallel, deps, choice).0)
  {
  }

  lemma RejectedMergeChangesNothing(w: World, task: string, snap: Record, choice: Choice)
    requires RepoInv(w) && SnapOk(w, task, snap) && snap.mode == Parallel && snap.status == Completed
    requires MergeBody(w, task, snap, choice).1.Failed?
    ensures OnlySwitched(w, MergeBody(w, task, snap, choice).0)
  {
    MergeEffect(w, task, snap, choice);
  }

  /******* Synchronisation *******/

  ghost predicate Comparable(a: Commit, b: Commit)
  {
    Ancestor(a, b) || Ancestor(b, a)
  }

  ghost function Later(a: Commit, b: Commit): Commit
  {
    if Ancestor(a, b) then b else a
  }

  /** The bundle is there, repo/agent is clean and the human branch was not rewound since the last fetch. */
  predicate Fetched(w: World, bundle: string)
  {
    bundle in w.inbound && w.agent.clean && FetchAccepted(w, w.inbound[bundle])
  }

  /** A synchronisation succeeds exactly when it can fetch and the two histories are comparable; then the
      integration branch is at the later of the two and the bundle is consumed.  On diverged
      histories repo/agent has switched branch and the human branch stays where it was fetched, which
      is what refuses an earlier bundle later on; if it cannot fetch nothing changes at all. */
  lemma SyncIsExact(w: World, bundle: string)
    requires RepoInv(w)
    ensures var (w', out) := SyncBody(w, bundle);
            var ours := w.refs[INTEGRATION_BRANCH];
            && (out.Synced? <==> Fetched(w, bundle) && Comparable(ours, w.inbound[bundle]))
            && (out.Synced? ==>
                  && out.head == Later(ours, w.inbound[bundle])
                  && out.action == (if ours == w.inbound[bundle] then AlreadySynchronized
                                    else if Ancestor(ours, w.inbound[bundle]) then FastForwarded else IntegrationAhead)
                  && w' == Switched(w, INTEGRATION_BRANCH).(
                             refs := w.refs[INTEGRATION_BRANCH := out.head], inbound := w.inbound - {bundle},
                             human := Some(w.inbound[bundle])))
            && (out.SyncFailed? ==>
                  w' == if Fetched(w, bundle) then Switched(w, INTEGRATION_BRANCH).(human := Some(w.inbound[bundle])) else w)
  {
    if Fetched(w, bundle) {
      var theirs := w.inbound[bundle];
      var w1 := w.(human := Some(theirs));
      assert RepoInv(w1) by { assert forall t :: IsPending(w1, t) == IsPending(w, t); }
      SwitchedKeeps(w1);
      var ours := w.refs[INTEGRATION_BRANCH];
      assert w.refs[INTEGRATION_BRANCH := ours] == w.refs;
      if Ancestor(ours, theirs) && Ancestor(theirs, ours) {
        AncestorAntisymmetric(ours, theirs);
      }
    }
  }

  /** A first bundle is fast-forwarded to, then a second one carries the history from before it. */
  function Rewinding(root: Commit, tree: nat, choice: Choice): seq<AtomicStep>
  {
    [HumanBundle("a", Commit(tree, [root])), Handle(Sync("a"), choice), HumanBundle("b", root)]
  }

  /** Comparable histories are not enough: in this run a bundle that integration contains is refused. */
  lemma RewoundBundleIsRefused(root: Commit, tree: nat, choice: Choice)
    ensures var w := AtomicRun(AtomicInit(root), Rewinding(root, tree, choice)).world;
            && INTEGRATION_BRANCH in w.refs && "b" in w.inbound && w.agent.clean
            && Comparable(w.refs[INTEGRATION_BRANCH], w.inbound["b"]) && SyncBody(w, "b").1.SyncFailed?
  {
    var main := Commit(tree, [root]);
    NotAnAncestor(root, main);
    FirstSync(root, main, choice);
    RewindingEnds(root, tree, choice);
    hide RepoInv;
    hide Ancestor;
  }

  /** The world after the first bundle and its synchronisation. */
  function Forwarded(root: Commit, main: Commit): World
  {
    InitialWorld(root).(refs := map[INTEGRATION_BRANCH := main], inbound := map[], human := Some(main))
  }

  lemma NotAnAncestor(root: Commit, main: Commit)
    requires main.parents == [root]
    ensures main != root && Ancestor(root, main) && !Ancestor(main, root)
  {
    assert Ancestor(root, main.parents[0]);
    assert root == main.parents[0] != main;
    if Ancestor(main, root) {
      AncestorAntisymmetric(main, root);
    }
  }

  lemma FirstSync(root: Commit, main: Commit, choice: Choice)
    requires main.parents == [root]
    ensures HandleWorld(InitialWorld(root).(inbound := map["a" := main]), Sync("a"), choice) == Forwarded(root, main)
  {
    var w := InitialWorld(root).(inbound := map["a" := main]);
    NotAnAncestor(root, main);
    InitialKeeps(root);
    assert RepoInv(w) by { assert forall t :: IsPending(w, t) == IsPending(InitialWorld(root), t); }
    SyncIsExact(w, "a");
    assert w.inbound - {"a"} == map[];
    assert w.refs[INTEGRATION_BRANCH := main] == map[INTEGRATION_BRANCH := main];
    assert Switched(w, INTEGRATION_BRANCH) == w;
    hide SyncBody;
  }

  lemma RewindingEnds(root: Commit, tree: nat, choice: Choice)
    ensures var main := Commit(tree, [root]);
            AtomicRun(AtomicInit(root), Rewinding(root, tree, choice)).world == Forwarded(root, main).(inbound := map["b" := root])
  {
    var main := Commit(tree, [root]);
    var s0 := AtomicInit(root);
    var s1 := StepState(s0, HumanBundle("a", main));
    var s2 := StepState(s1, Handle(Sync("a"), choice));
    var s3 := StepState(s2, HumanBundle("b", root));
    var steps := Rewinding(root, tree, choice);
    assert steps[1..] == [Handle(Sync("a"), choice), HumanBundle("b", root)];
    assert steps[1..][1..] == [HumanBundle("b", root)] && [HumanBundle("b", root)][1..] == [];
    assert AtomicRun(s2, [HumanBundle("b", root)]) == AtomicRun(s3, []) == s3;
    assert AtomicRun(s1, steps[1..]) == AtomicRun(s2, steps[1..][1..]);
    assert s1.world.inbound == map["a" := main];
    FirstSync(root, main, choice);
    hide HandleWorld;
  }
}
