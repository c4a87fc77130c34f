/** What holds in every run of the interleaved broker: any number of concurrent requests, any
    schedule, any choice of Git and any behaviour of the executors within their own workspace. */
module BrokerTheorems {
  import opened Wrappers
  import opened Commits
  import opened Lifecycle
  import opened LifecycleInvariant
  import opened Broker
  import opened BrokerInvariant

  ghost predicate Reachable(root: Commit, steps: seq<Step>, s: State)
  {
    Legal(InitialState(root), steps) && s == After(InitialState(root), steps)
  }

  lemma ReachableInv(root: Commit, steps: seq<Step>, s: State)
    requires Reachable(root, steps, s)
    ensures Inv(s)
  {
    InitialInv(root);
    RunKeeps(InitialState(root), steps);
  }

  /******* Merging *******/

  /** A merge that changes the record of its task, however stale the record it works from, takes in
      exactly a head that a completion recorded for the task, which is also the head recorded now, the
      head of the task branch and the HEAD of the worktree. */
  lemma MergeTakesRecordedHead(root: Commit, steps: seq<Step>, s: State, id: nat, choice: Choice)
    requires Reachable(root, steps, s) && Enabled(s, Body(id, choice)) && s.threads[id].req.Merge?
    ensures var task := s.threads[id].req.task;
            var w, w' := s.world, Apply(s, Body(id, choice)).world;
            task in w.records && task in w'.records &&
            (w'.records[task] != w.records[task] ==>
               && task in w.trees && BranchOf(task) in w.refs
               && var h := w.refs[BranchOf(task)];
                  && CompletedAt(task, h) in s.past.log
                  && w.records[task].status == Completed && w.records[task].head == Some(h)
                  && HeadCommit(w, w.trees[task]) == Some(h)
                  && w'.records[task].status == Merged && w'.records[task].head == Some(h)
                  && w'.records[task].mergeCommit == Some(w'.refs[INTEGRATION_BRANCH])
                  && Ancestor(h, w'.refs[INTEGRATION_BRANCH])
                  && Ancestor(w.refs[INTEGRATION_BRANCH], w'.refs[INTEGRATION_BRANCH]))
  {
    ReachableInv(root, steps, s);
    hide Reachable;
    hide PastOk;
    hide LocksOk;
    hide StartsDistinct;
    hide Exclusive;
    hide HistoryOk;
    hide MergeBody;
    var t := s.threads[id];
    assert ThreadOk(s.world, s.past.log, t);
    MergeEffect(s.world, t.req.task, t.snap.value, choice);
  }

  /******* The integration branch *******/

  ghost predicate OnIntegration(w: World, e: Event)
  {
    e.CompletedAt? && e.task in w.records && w.records[e.task].mode == Integration
  }

  /** Between any two points of a run the integration branch moved forward, and everything merged
      or completed by the first point is still in its history at the second. */
  lemma IntegrationNeverMovesBack(root: Commit, steps: seq<Step>, s: State, more: seq<Step>)
    requires Reachable(root, steps, s) && Legal(s, more)
    ensures Forward(s.world, After(s, more).world)
    ensures forall e :: e in s.past.log && e.MergedInto? ==>
              Ancestor(e.after, After(s, more).world.refs[INTEGRATION_BRANCH])
    ensures forall e :: e in s.past.log && OnIntegration(s.world, e) ==>
              Ancestor(e.head, After(s, more).world.refs[INTEGRATION_BRANCH])
  {
    ReachableInv(root, steps, s);
    RunKeeps(s, more);
    var s' := After(s, more);
    forall e | e in s.past.log
      ensures e.MergedInto? ==> Ancestor(e.after, s'.world.refs[INTEGRATION_BRANCH])
      ensures OnIntegration(s.world, e) ==> Ancestor(e.head, s'.world.refs[INTEGRATION_BRANCH])
    {
      EventStaysOk(s.world, s'.world, s.past.log, s.past.log, e);
    }
  }

  /******* Tasks *******/

  /** At most one integration task is active, and beside it no parallel task is pending. */
  lemma IntegrationWorkIsExclusive(root: Commit, steps: seq<Step>, s: State, t: string, u: string)
    requires Reachable(root, steps, s)
    requires t in s.world.records && ActiveSequential(s.world.records[t]) && u in s.world.records && u != t
    ensures !ActiveSequential(s.world.records[u]) && !Pending(s.world.records[u])
  {
    ReachableInv(root, steps, s);
  }

  /** Some task is active or, being parallel, pending: what the check before a synchronisation excludes. */
  ghost predicate Busy(w: World)
  {
    AnyActiveSequential(w.records) || AnyPending(w.records)
  }

  /** A task that has no record in w keeps w' busy. */
  ghost predicate BusyWithNew(w: World, w': World)
  {
    exists t :: t in w'.records && t !in w.records && (ActiveSequential(w'.records[t]) || Pending(w'.records[t]))
  }

  /** What the check of a synchronisation is worth later in any run: a task is active or pending then if and
      only if one is that was started after the check. */
  lemma BusyAfterSyncCheckIff(root: Commit, steps: seq<Step>, s: State, req: Request, more: seq<Step>)
    requires Reachable(root, steps, s) && req.Sync? && Admit(s.world, req).Success? && Legal(s, more)
    ensures Busy(After(s, more).world) <==> BusyWithNew(s.world, After(s, more).world)
  {
    ReachableInv(root, steps, s);
    RunKeeps(s, more);
    var w, w' := s.world, After(s, more).world;
    forall t | t in w'.records && (ActiveSequential(w'.records[t]) || Pending(w'.records[t]))
      ensures t !in w.records
    {
      assert t in w.records ==> RecordEvolves(w.records[t], w'.records[t]);
    }
  }

  /** A synchronisation moves the integration branch under an active or pending task if and only if a task
      started after its check is active or pending then, and it gets through Git with a proper
      descendant. */
  lemma SyncMovesUnderTaskIff(root: Commit, steps: seq<Step>, s: State, id: nat, req: Request, more: seq<Step>, choice: Choice)
    requires Reachable(root, steps, s) && Enabled(s, Begin(id, req)) && req.Sync?
    requires Legal(Apply(s, Begin(id, req)), more)
    requires var s1 := After(Apply(s, Begin(id, req)), more); Enabled(s1, Body(id, choice)) && s1.threads[id].req == req
    ensures var w1 := After(Apply(s, Begin(id, req)), more).world;
            var w2 := Apply(After(Apply(s, Begin(id, req)), more), Body(id, choice)).world;
            && INTEGRATION_BRANCH in w1.refs && INTEGRATION_BRANCH in w2.refs
            && ((Busy(w1) && w2.refs[INTEGRATION_BRANCH] != w1.refs[INTEGRATION_BRANCH]) <==>
                  && BusyWithNew(s.world, w1)
                  && req.bundle in w1.inbound && w1.agent.clean && FetchAccepted(w1, w1.inbound[req.bundle])
                  && w1.inbound[req.bundle] != w1.refs[INTEGRATION_BRANCH]
                  && Ancestor(w1.refs[INTEGRATION_BRANCH], w1.inbound[req.bundle]))
  {
    var all := [Begin(id, req)] + more;
    assert all[1..] == more;
    ReachableInv(root, steps, s);
    RunKeeps(s, all);
    BusyAfterSyncCheckIff(root, steps, s, req, all);
    var s1 := After(s, all);
    assert s1 == After(Apply(s, Begin(id, req)), more);
    SyncMovesIff(s1.world, req.bundle);
    assert Apply(s1, Body(id, choice)).world == SyncBody(s1.world, req.bundle).0;
    hide Inv;
    hide SyncBody;
    hide Legal;
    hide After;
    hide Busy;
    hide BusyWithNew;
  }

  /** A task has a worktree, and a branch, exactly while its record is pending. */
  lemma PendingIffPresent(root: Commit, steps: seq<Step>, s: State, t: string)
    requires Reachable(root, steps, s)
    ensures t in s.world.trees <==> IsPending(s.world, t)
    ensures t != INTEGRATION_LOCK ==> (BranchOf(t) in s.world.refs <==> IsPending(s.world, t))
    ensures IsPending(s.world, t) ==> t != INTEGRATION_LOCK
  {
    ReachableInv(root, steps, s);
  }

  /** A merged or aborted task is never pending again, and an aborted one stays aborted. */
  lemma TerminalNeverRevives(root: Commit, steps: seq<Step>, s: State, more: seq<Step>, t: string)
    requires Reachable(root, steps, s) && Legal(s, more)
    requires t in s.world.records && Terminal(s.world.records[t])
    ensures t in After(s, more).world.records && Terminal(After(s, more).world.records[t])
    ensures s.world.records[t].status == Aborted ==> After(s, more).world.records[t].status == Aborted
    ensures t !in After(s, more).world.trees
  {
    ReachableInv(root, steps, s);
    RunKeeps(s, more);
    assert RecordEvolves(s.world.records[t], After(s, more).world.records[t]);
    assert TreesOk(After(s, more).world);
  }

  /** A complete or merge that reaches its locks after the task became terminal changes nothing. */
  lemma StaleRequestFails(root: Commit, steps: seq<Step>, s: State, id: nat, choice: Choice)
    requires Reachable(root, steps, s) && Enabled(s, Body(id, choice))
    requires s.threads[id].req.Complete? || s.threads[id].req.Merge?
    requires s.threads[id].req.task in s.world.records && Terminal(s.world.records[s.threads[id].req.task])
    ensures Apply(s, Body(id, choice)) == WithoutThread(s, id)
  {
    ReachableInv(root, steps, s);
    hide Reachable;
    hide PastOk;
    hide LocksOk;
    hide Exclusive;
    hide HistoryOk;
    var t := s.threads[id];
    assert ThreadOk(s.world, s.past.log, t);
    assert TreesOk(s.world);
    assert t.req.task !in s.world.trees;
    assert CheckoutAt(s.world, WorkspaceOf(t.req.task, t.snap.value)).None?;
  }

  /** An abort does not read its record again: one that reaches its locks after a merge rewrites
      the record to aborted, and touches no ref and no worktree. */
  lemma StaleAbortOnlyRewritesRecord(root: Commit, steps: seq<Step>, s: State, id: nat, choice: Choice)
    requires Reachable(root, steps, s) && Enabled(s, Body(id, choice)) && s.threads[id].req.Abort?
    requires s.threads[id].req.task in s.world.records && Terminal(s.world.records[s.threads[id].req.task])
    ensures var task := s.threads[id].req.task;
            var w, w' := s.world, Apply(s, Body(id, choice)).world;
            && w' == w.(records := w.records[task := w'.records[task]])
            && w'.records[task].status == Aborted
  {
    ReachableInv(root, steps, s);
    hide Reachable;
    hide PastOk;
    hide LogOk;
    hide LocksOk;
    hide HistoryOk;
    hide HeadsOk;
    hide Exclusive;
    var t := s.threads[id];
    var task := t.req.task;
    assert ThreadOk(s.world, s.past.log, t);
    AbortRuns(s.world, task, t.snap.value);
    assert task !in s.world.trees && BranchOf(task) !in s.world.refs;
    assert s.world.trees - {task} == s.world.trees;
    assert s.world.refs - {BranchOf(task)} == s.world.refs;
  }

  /** "Merged stays merged" fails in exactly one way: a step changes the record of a merged task if
      and only if it is the locked body of an abort of that task. */
  lemma MergedChangesOnlyByStaleAbort(root: Commit, steps: seq<Step>, s: State, step: Step, t: string)
    requires Reachable(root, steps, s) && Enabled(s, step)
    requires t in s.world.records && s.world.records[t].status == Merged
    ensures t in Apply(s, step).world.records
    ensures Apply(s, step).world.records[t] != s.world.records[t] <==>
              step.Body? && s.threads[step.id].req == Abort(t)
  {
    ReachableInv(root, steps, s);
    hide Inv;
    hide Reachable;
    hide Apply;
    if step.Body? {
      assert step == Body(step.id, step.choice);
      BodyKeepsRecords(s, step.id, step.choice);
      BodyTouchesOwnRecord(s, step.id, step.choice);
      if s.threads[step.id].req == Abort(t) {
        StaleAbortOnlyRewritesRecord(root, steps, s, step.id, step.choice);
      } else if s.threads[step.id].req == Complete(t) || s.threads[step.id].req == Merge(t) {
        StaleRequestFails(root, steps, s, step.id, step.choice);
        assert WithoutThread(s, step.id).world == s.world;
      }
    } else {
      OnlyBodiesWriteRecords(s, step);
    }
  }

  lemma OnlyBodiesWriteRecords(s: State, step: Step)
    requires Enabled(s, step) && !step.Body?
    ensures Apply(s, step).world.records == s.world.records
  {
  }

  lemma BodyKeepsRecords(s: State, id: nat, choice: Choice)
    requires Inv(s) && Enabled(s, Body(id, choice))
    ensures s.world.records.Keys <= Apply(s, Body(id, choice)).world.records.Keys
  {
    StepKeeps(s, Body(id, choice));
    hide Inv;
    hide Apply;
  }

  ghost predicate SameElsewhere(w: World, w': World, task: string)
  {
    forall t :: t in w.records && t != task ==> t in w'.records && w'.records[t] == w.records[t]
  }

  lemma LifecycleBodiesTouchOwnRecord(w: World, task: string, snap: Record, choice: Choice)
    requires RepoInv(w) && SnapOk(w, task, snap)
    ensures snap.status == Active ==> SameElsewhere(w, CompleteBody(w, task, snap).0, task)
    ensures snap.mode == Parallel && snap.status == Completed ==> SameElsewhere(w, MergeBody(w, task, snap, choice).0, task)
    ensures Pending(snap) ==> SameElsewhere(w, AbortBody(w, task, snap).0, task)
  {
    if snap.status == Active {
      CompleteEvolves(w, task, snap);
    }
    if snap.mode == Parallel && snap.status == Completed {
      MergeEffect(w, task, snap, choice);
    }
    if Pending(snap) {
      AbortRuns(w, task, snap);
    }
  }

  /** A locked body rewrites no record but that of its own task; start and sync rewrite none. */
  lemma BodyTouchesOwnRecord(s: State, id: nat, choice: Choice)
    requires Inv(s) && Enabled(s, Body(id, choice))
    ensures var w, w' := s.world, Apply(s, Body(id, choice)).world;
            forall t :: t in w.records && t in w'.records && w'.records[t] != w.records[t] ==>
              s.threads[id].req in {Complete(t), Merge(t), Abort(t)}
  {
    var t := s.threads[id];
    assert ThreadOk(s.world, s.past.log, t);
    hide RepoInv;
    hide PastOk;
    hide LogOk;
    hide LocksOk;
    hide CompleteBody;
    hide MergeBody;
    hide AbortBody;
    hide StartBody;
    hide SyncBody;
    var w' := Apply(s, Body(id, choice)).world;
    if t.req.Complete? || t.req.Merge? || t.req.Abort? {
      LifecycleBodiesTouchOwnRecord(s.world, t.req.task, t.snap.value, choice);
      assert SameElsewhere(s.world, w', t.req.task);
    } else if t.req.Start? {
      StartRecords(s.world, t.req.task, t.req.parallel, t.req.deps, choice);
      assert SameElsewhere(s.world, w', t.req.task);
    } else if t.req.Sync? {
      SyncRecords(s.world, t.req.bundle);
    }
  }

  /******* Dependencies *******/

  /** p[0] depends on p[1], which depends on p[2], and so on. */
  ghost predicate DependencyPath(w: World, p: seq<string>)
  {
    && |p| >= 2
    && forall i :: 0 <= i < |p| - 1 ==> p[i] in w.records && p[i + 1] in w.records[p[i]].deps
  }

  lemma {:induction false} DependencyChain(w: World, past: History, p: seq<string>)
    requires PastOk(w, past) && DependencyPath(w, p)
    ensures p[0] in w.records && p[|p| - 1] in w.records && past.rank[p[|p| - 1]] < past.rank[p[0]]
    ensures p[|p| - 2] in past.accepted && p[|p| - 1] in past.accepted[p[|p| - 2]]
    ensures Ancestor(past.accepted[p[|p| - 2]][p[|p| - 1]], w.records[p[0]].base)
    decreases |p|
  {
    assert DepOk(w, past, p[0], p[1]);
    if |p| > 2 {
      var q := p[1..];
      assert DependencyPath(w, q) by {
        forall i | 0 <= i < |q| - 1
          ensures q[i] in w.records && q[i + 1] in w.records[q[i]].deps
        {
          assert q[i] == p[i + 1] && q[i + 1] == p[i + 2];
        }
      }
      DependencyChain(w, past, q);
      var c := past.accepted[p[|p| - 2]][p[|p| - 1]];
      AncestorTransitive(c, w.records[p[1]].base, past.accepted[p[0]][p[1]]);
      AncestorTransitive(c, past.accepted[p[0]][p[1]], w.records[p[0]].base);
    }
  }

  /** Along every chain of dependencies, the commit that was accepted for the last task lies in the
      base of the first; and no chain comes back to its first task. */
  lemma AcceptedDependenciesAreInBase(root: Commit, steps: seq<Step>, s: State, p: seq<string>)
    requires Reachable(root, steps, s) && DependencyPath(s.world, p)
    ensures p[0] != p[|p| - 1]
    ensures p[|p| - 2] in s.past.accepted && p[|p| - 1] in s.past.accepted[p[|p| - 2]]
    ensures p[0] in s.world.records
    ensures Ancestor(s.past.accepted[p[|p| - 2]][p[|p| - 1]], s.world.records[p[0]].base)
  {
    ReachableInv(root, steps, s);
    DependencyChain(s.world, s.past, p);
  }

  /** What was accepted for a dependency is still what it is integrated as: a merged dependency has that
      merge commit, a completed integration dependency that head or a later one; and neither is active or
      pending again. */
  lemma AcceptedStaysIntegrated(root: Commit, steps: seq<Step>, s: State, t: string, d: string)
    requires Reachable(root, steps, s) && t in s.world.records && d in s.world.records[t].deps
    ensures d in s.world.records && t in s.past.accepted && d in s.past.accepted[t]
    ensures var r, c := s.world.records[d], s.past.accepted[t][d];
            && !ActiveSequential(r) && !Pending(r)
            && (r.mode == Parallel && r.status == Merged ==> r.mergeCommit == Some(c))
            && (r.mode == Integration ==> r.status == Completed && r.head.Some? && Ancestor(c, r.head.value))
            && Ancestor(c, s.world.records[t].base)
  {
    ReachableInv(root, steps, s);
    assert DepOk(s.world, s.past, t, d);
  }

  /******* Workspaces and locks *******/

  /** The workspaces a thread works on inside its locked body, and whether it may write there. */
  function Touches(t: Thread): set<(Workspace, bool)>
  {
    match t.req
    case Start(_, _, _) => {(AgentTree, true)}
    case Sync(_) => {(AgentTree, true)}
    case Export => {(AgentTree, false)}
    case ProjectStatus => {(AgentTree, false)}
    case Merge(task) => {(AgentTree, true), (TaskTree(task), true)}
    case Abort(task) => {(AgentTree, true), (TaskTree(task), true)}
    case Complete(task) => if t.snap.None? then {} else {(WorkspaceOf(task, t.snap.value), true)}
    case Run(task, _) => if t.snap.None? then {} else {(WorkspaceOf(task, t.snap.value), Writable(t.req))}
    case Index(task) => if t.snap.None? then {} else {(WorkspaceOf(task, t.snap.value), Writable(t.req))}
  }

  function WorkspaceLock(ws: Workspace): string
  {
    match ws
    case AgentTree => INTEGRATION_LOCK
    case TaskTree(task) => task
  }

  /** The workspace and the lock a request takes from its snapshot agree, and the lock is exclusive
      exactly when the mount or the body may write. */
  lemma LockCoversWorkspace(s: State, t: Thread, ws: Workspace, write: bool)
    requires ThreadOk(s.world, s.past.log, t) && Inside(t) && (ws, write) in Touches(t)
    ensures Holds(t, LockRequest(WorkspaceLock(ws), !write))
  {
    var l := LockRequest(WorkspaceLock(ws), !write);
    if (t.req.Merge? || t.req.Abort?) && ws.TaskTree? {
      assert LockPlan(t)[1] == l;
    } else {
      assert LockPlan(t)[0] == l;
    }
  }

  /** An executor or lifecycle operation that may write a workspace overlaps no other one there;
      readers may overlap each other. */
  lemma WritersAreAlone(root: Commit, steps: seq<Step>, s: State, i: nat, j: nat, ws: Workspace, wi: bool, wj: bool)
    requires Reachable(root, steps, s) && i in s.threads && j in s.threads && i != j
    requires Inside(s.threads[i]) && (ws, wi) in Touches(s.threads[i])
    requires Inside(s.threads[j]) && (ws, wj) in Touches(s.threads[j])
    ensures !wi && !wj
  {
    ReachableInv(root, steps, s);
    LockCoversWorkspace(s, s.threads[i], ws, wi);
    LockCoversWorkspace(s, s.threads[j], ws, wj);
    assert Compatible(LockRequest(WorkspaceLock(ws), !wi), LockRequest(WorkspaceLock(ws), !wj));
  }

  /** Whether a thread works with the shared Git directory of repo/agent inside its body, and may write
      there: lifecycle bodies, and executors through their checkout or, for a parallel task, through the
      second mount. */
  function UsesGitDirectory(t: Thread): Option<bool>
  {
    match t.req
    case Export => Some(false)
    case ProjectStatus => Some(false)
    case Run(_, _) => Some(Writable(t.req))
    case Index(_) => Some(Writable(t.req))
    case Complete(_) => Some(false)
    case _ => Some(true)
  }

  /** The thread holds no lock but that of its own parallel task. */
  predicate OnlyTaskLock(t: Thread)
  {
    t.snap.Some? && LockPlan(t) != [] && |LockPlan(t)| == 1 && LockPlan(t)[0].name != INTEGRATION_LOCK
  }

  /** The Git directory is not covered by the workspace locks: two threads can be inside their bodies with it, one of
      them writing, only if one of the two holds just the lock of a parallel task. */
  lemma GitDirectorySharing(root: Commit, steps: seq<Step>, s: State, i: nat, j: nat)
    requires Reachable(root, steps, s) && i in s.threads && j in s.threads && i != j
    requires Inside(s.threads[i]) && Inside(s.threads[j])
    requires UsesGitDirectory(s.threads[i]) == Some(true) && UsesGitDirectory(s.threads[j]).Some?
    ensures OnlyTaskLock(s.threads[i]) || OnlyTaskLock(s.threads[j])
  {
    ReachableInv(root, steps, s);
    if !OnlyTaskLock(s.threads[i]) && !OnlyTaskLock(s.threads[j]) {
      var a := HoldsIntegration(s, i);
      var b := HoldsIntegration(s, j);
      NeverConflicting(s, i, j, a, b);
    }
    hide Reachable;
    hide RepoInv;
    hide PastOk;
    hide LogOk;
  }

  lemma NeverConflicting(s: State, i: nat, j: nat, a: LockRequest, b: LockRequest)
    requires Inv(s) && i in s.threads && j in s.threads && i != j
    requires Holds(s.threads[i], a) && Holds(s.threads[j], b)
    ensures a.name == b.name ==> a.shared && b.shared
  {
    assert Compatible(a, b);
  }

  /** A thread inside its body that holds more than a task lock holds the integration lock, exclusively if
      it may write the Git directory. */
  lemma HoldsIntegration(s: State, i: nat) returns (l: LockRequest)
    requires Inv(s) && i in s.threads && Inside(s.threads[i]) && !OnlyTaskLock(s.threads[i])
    requires UsesGitDirectory(s.threads[i]).Some?
    ensures Holds(s.threads[i], l) && l.name == INTEGRATION_LOCK && (UsesGitDirectory(s.threads[i]).value ==> !l.shared)
  {
    var t := s.threads[i];
    assert ThreadOk(s.world, s.past.log, t);
    l := LockPlan(t)[0];
    assert l.name == INTEGRATION_LOCK;
  }

  /** Two different workspaces of reachable tasks never share a lock. */
  lemma WorkspaceLocksDiffer(root: Commit, steps: seq<Step>, s: State, a: Workspace, b: Workspace)
    requires Reachable(root, steps, s) && a != b
    requires CheckoutAt(s.world, a).Some? && CheckoutAt(s.world, b).Some?
    ensures WorkspaceLock(a) != WorkspaceLock(b)
  {
    ReachableInv(root, steps, s);
    assert TreesOk(s.world);
  }

  /** Nested locks are always taken integration first, and never twice under one name. */
  lemma LockOrder(root: Commit, steps: seq<Step>, s: State, id: nat)
    requires Reachable(root, steps, s) && id in s.threads
    ensures var plan := LockPlan(s.threads[id]);
            1 <= |plan| <= 2 && (|plan| == 2 ==> plan[0].name == INTEGRATION_LOCK && plan[1].name != INTEGRATION_LOCK)
  {
    ReachableInv(root, steps, s);
    assert ThreadOk(s.world, s.past.log, s.threads[id]);
  }

  /** Were a parallel task called "integration" to exist, its merge or abort would wait for itself. */
  lemma IntegrationNamedTaskWouldDeadlock(s: State, id: nat)
    requires id in s.threads && s.threads[id].got == 1
    requires s.threads[id].req == Merge(INTEGRATION_LOCK) || s.threads[id].req == Abort(INTEGRATION_LOCK)
    ensures !Enabled(s, Acquire(id))
  {
    var t := s.threads[id];
    assert LockPlan(t)[0] == LockRequest(INTEGRATION_LOCK, false);
    var l := LockRequest(INTEGRATION_LOCK, false);
    assert LockPlan(t)[1] == l && Holds(t, l) && !Compatible(l, l);
  }
}
