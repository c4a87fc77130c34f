/** Exactly when each operation succeeds, what it then records, and which refusals are answers to the
    request (Rejected) and which are faults (Internal).  Modes and statuses are written out. */
module LifecycleOutcomes {
  import opened Wrappers
  import opened Commits
  import opened Lifecycle
  import opened LifecycleInvariant
  import opened Broker
  import opened BrokerInvariant

  /******* Starting *******/

  ghost predicate NoActiveIntegration(records: map<string, Record>)
  {
    forall t :: t in records ==> !(records[t].mode == Integration && records[t].status == Active)
  }

  ghost predicate NoUnmergedParallel(records: map<string, Record>)
  {
    forall t :: t in records ==> !(records[t].mode == Parallel && records[t].status in {Active, Completed})
  }

  /** A dependency that a start accepts: merged into, or completed within, the history of base. */
  ghost predicate IntegratedInto(records: map<string, Record>, dep: string, base: Commit)
  {
    dep in records &&
    var r := records[dep];
    match r.mode
    case Parallel => r.status == Merged && r.mergeCommit.Some? && Ancestor(r.mergeCommit.value, base)
    case Integration => r.status == Completed && r.head.Some? && Ancestor(r.head.value, base)
  }

  lemma MetMeansIntegrated(records: map<string, Record>, deps: seq<string>, base: Commit)
    ensures DependencyFault(records, deps, base).None? <==> forall d :: d in deps ==> IntegratedInto(records, d, base)
  {
    DependenciesMet(records, deps, base);
    assert forall d :: DependencyMet(records, d, base) <==> IntegratedInto(records, d, base);
    hide DependencyMet;
    hide IntegratedInto;
  }

  /** In a repository that satisfies the invariant an unmet dependency is the requester's mistake. */
  lemma {:induction false} UnmetIsRejected(w: World, deps: seq<string>, base: Commit)
    requires RepoInv(w)
    ensures DependencyFault(w.records, deps, base) in {None, Some(Rejected)}
  {
    if deps != [] {
      UnmetIsRejected(w, deps[1..], base);
      assert deps[0] in w.records ==> RecordOk(deps[0], w.records[deps[0]]);
    }
    hide Layout;
    hide HeadsOk;
    hide Exclusive;
  }

  ghost predicate StartAllowed(w: World, task: string, parallel: bool, deps: seq<string>, choice: Choice)
    requires INTEGRATION_BRANCH in w.refs
  {
    && w.agent.clean
    && (forall d :: d in deps ==> IntegratedInto(w.records, d, w.refs[INTEGRATION_BRANCH]))
    && NoActiveIntegration(w.records)
    && if parallel then task !in w.trees && BranchOf(task) !in w.refs && choice.addOk
       else NoUnmergedParallel(w.records)
  }

  /** A start succeeds if and only if repo/agent is clean, the dependencies are integrated, no integration
      task is active and, if parallel, worktree and branch are free, else no parallel task is unmerged. */
  lemma StartSucceedsIff(w: World, task: string, parallel: bool, deps: seq<string>, choice: Choice)
    requires RepoInv(w)
    ensures StartBody(w, task, parallel, deps, choice).1.Done? <==> StartAllowed(w, task, parallel, deps, choice)
  {
    SwitchedKeeps(w);
    MetMeansIntegrated(w.records, deps, w.refs[INTEGRATION_BRANCH]);
    FiltersWrittenOut(w.records);
    hide RepoInv;
    hide CanSwitch;
    hide DependencyFault;
    hide IntegratedInto;
    hide AnyActiveSequential;
    hide AnyPending;
    hide NoActiveIntegration;
    hide NoUnmergedParallel;
  }

  lemma FiltersWrittenOut(records: map<string, Record>)
    ensures AnyActiveSequential(records) <==> !NoActiveIntegration(records)
    ensures AnyPending(records) <==> !NoUnmergedParallel(records)
  {
  }

  /** What a successful start records and creates. */
  lemma StartRecordsTask(w: World, task: string, parallel: bool, deps: seq<string>, choice: Choice)
    requires RepoInv(w) && StartBody(w, task, parallel, deps, choice).1.Done?
    ensures var (w', out) := StartBody(w, task, parallel, deps, choice);
            var base := w.refs[INTEGRATION_BRANCH];
            var branch := if parallel then "agent/" + task else "agent/integration";
            && out.record == Record(if parallel then Parallel else Integration, branch, base, None, Active, deps, None)
            && w'.records == w.records[task := out.record]
            && w'.refs == (if parallel then w.refs[branch := base] else w.refs)
            && w'.trees == (if parallel then w.trees[task := Checkout(OnBranch(branch), true)] else w.trees)
            && w'.agent == Checkout(OnBranch("agent/integration"), true)
            && w'.inbound == w.inbound && w'.human == w.human
  {
    hide RepoInv;
    hide CanSwitch;
    hide DependencyFault;
    hide AnyActiveSequential;
    hide AnyPending;
  }

  /** A refused start is a fault exactly if repo/agent is dirty, or all but Git's own part was fine. */
  lemma StartFault(w: World, task: string, parallel: bool, deps: seq<string>, choice: Choice)
    requires RepoInv(w) && StartBody(w, task, parallel, deps, choice).1.Failed?
    ensures StartBody(w, task, parallel, deps, choice).1.fault == Internal <==>
              || !w.agent.clean
              || (&& (forall d :: d in deps ==> IntegratedInto(w.records, d, w.refs[INTEGRATION_BRANCH]))
                  && NoActiveIntegration(w.records)
                  && parallel && task !in w.trees && (BranchOf(task) in w.refs || !choice.addOk))
  {
    SwitchedKeeps(w);
    MetMeansIntegrated(w.records, deps, w.refs[INTEGRATION_BRANCH]);
    UnmetIsRejected(w, deps, w.refs[INTEGRATION_BRANCH]);
    FiltersWrittenOut(w.records);
    hide RepoInv;
    hide CanSwitch;
    hide DependencyFault;
    hide IntegratedInto;
    hide AnyActiveSequential;
    hide AnyPending;
    hide NoActiveIntegration;
    hide NoUnmergedParallel;
  }

  /** For a name without a record, Git's part of a parallel start can only refuse the name "integration"
      or what `worktree add` itself objects to. */
  lemma FreeNames(w: World, task: string)
    requires RepoInv(w) && task !in w.records
    ensures task !in w.trees && (BranchOf(task) in w.refs <==> task == "integration")
  {
    OnlyIntegrationIsIntegrationBranch(task);
    hide HeadsOk;
    hide Exclusive;
    hide HistoryOk;
  }

  /******* Completing *******/

  /** The checkout a snapshot selects: repo/agent for an integration task, else the task's own worktree. */
  function WorkspaceCheckout(w: World, task: string, snap: Record): Option<Checkout>
  {
    if snap.mode == Integration then Some(w.agent) else if task in w.trees then Some(w.trees[task]) else None
  }

  /** A completion succeeds if and only if the workspace exists, is clean and is on the branch of the task; it then
      records the head of that branch.  Another branch is the requester's mistake, the rest is a fault. */
  lemma CompleteSucceedsIff(w: World, task: string, snap: Record)
    requires RepoInv(w) && SnapOk(w, task, snap) && snap.status == Active
    ensures var (w', out) := CompleteBody(w, task, snap);
            var c := WorkspaceCheckout(w, task, snap);
            && (out.Done? <==> c.Some? && c.value.clean && c.value.head == OnBranch(snap.branch))
            && (out.Done? ==>
                  && snap.branch in w.refs
                  && out.record == snap.(head := Some(w.refs[snap.branch]), status := Completed)
                  && w' == w.(records := w.records[task := out.record]))
            && (out.Failed? ==> w' == w && (out.fault == Rejected <==> c.Some? && c.value.clean))
  {
    BranchesExist(w, task, snap);
    hide RepoInv;
    hide SnapOk;
  }

  lemma BranchesExist(w: World, task: string, snap: Record)
    requires RepoInv(w) && SnapOk(w, task, snap) && snap.status in {Active, Completed}
    ensures snap.mode == Integration ==> snap.branch == INTEGRATION_BRANCH
    ensures snap.mode == Parallel ==> snap.branch == BranchOf(task)
    ensures |snap.branch| > 0
    ensures INTEGRATION_BRANCH in w.refs && (task in w.trees && snap.mode == Parallel ==> snap.branch in w.refs)
    ensures snap.mode == Integration ==> HeadAllowed(w.agent.head, snap.branch)
    ensures snap.mode == Parallel && task in w.trees ==> HeadAllowed(w.trees[task].head, snap.branch)
  {
    assert task in w.trees ==> IsPending(w, task);
    hide HeadsOk;
    hide Exclusive;
    hide HistoryOk;
  }

  /******* Merging *******/

  ghost predicate MergeChecked(w: World, task: string, snap: Record)
  {
    && task in w.trees && w.trees[task].clean && w.agent.clean
    && snap.head.Some? && BranchOf(task) in w.refs && w.refs[BranchOf(task)] == snap.head.value
    && (w.trees[task].head == OnBranch(BranchOf(task)) || w.trees[task].head == Detached(snap.head.value))
  }

  /** A merge succeeds if and only if worktree and repo/agent are clean, branch and worktree HEAD are still the
      recorded head, and Git is up to date or has no conflict; the integration branch then stays where it is or
      gets a commit with both heads as parents, never a fast-forward. */
  lemma MergeSucceedsIff(w: World, task: string, snap: Record, choice: Choice)
    requires RepoInv(w) && SnapOk(w, task, snap) && snap.mode == Parallel && snap.status == Completed
    ensures MergeBody(w, task, snap, choice).1.Done? <==>
              && MergeChecked(w, task, snap)
              && (Ancestor(snap.head.value, w.refs[INTEGRATION_BRANCH]) || !choice.conflict)
    ensures MergeBody(w, task, snap, choice).1.Done? ==>
              var refs := MergeBody(w, task, snap, choice).0.refs;
              && INTEGRATION_BRANCH in refs
              && refs[INTEGRATION_BRANCH] ==
                   if Ancestor(snap.head.value, w.refs[INTEGRATION_BRANCH]) then w.refs[INTEGRATION_BRANCH]
                   else Commit(choice.tree, [w.refs[INTEGRATION_BRANCH], snap.head.value])
  {
    BranchesExist(w, task, snap);
    if task in w.trees {
      CheckedMeansUnmoved(w, task, snap);
    }
    if MergeChecked(w, task, snap) {
      CleanupCannotBeRefused(w, task, snap, choice);
      OnlyIntegrationIsIntegrationBranch(task);
      assert task != INTEGRATION_LOCK;
    }
    hide RepoInv;
    hide SnapOk;
    hide MergeCleanup;
  }

  lemma CheckedMeansUnmoved(w: World, task: string, snap: Record)
    requires snap.branch == BranchOf(task) && task in w.trees && BranchOf(task) in w.refs
    requires HeadAllowed(w.trees[task].head, BranchOf(task))
    ensures MergeChecked(w, task, snap) <==>
              w.trees[task].clean && w.agent.clean && HeadUnmoved(w, snap, w.trees[task])
    ensures HeadCommit(w, w.trees[task]).Some?
  {
  }

  /** A refused merge is a fault exactly if the worktree is gone or a checkout is dirty; a moved head and a
      conflict are answers. */
  lemma MergeFault(w: World, task: string, snap: Record, choice: Choice)
    requires RepoInv(w) && SnapOk(w, task, snap) && snap.mode == Parallel && snap.status == Completed
    requires MergeBody(w, task, snap, choice).1.Failed?
    ensures MergeBody(w, task, snap, choice).1.fault == Internal <==>
              task !in w.trees || !w.trees[task].clean || !w.agent.clean
  {
    BranchesExist(w, task, snap);
    SwitchedKeeps(w);
    assert snap.head.Some?;
    if MergeChecked(w, task, snap) {
      CheckedMeansUnmoved(w, task, snap);
      CleanupCannotBeRefused(w, task, snap, choice);
    } else if task in w.trees {
      CheckedMeansUnmoved(w, task, snap);
    }
    hide RepoInv;
    hide SnapOk;
    hide MergeCleanup;
    hide CanSwitch;
  }

  /******* Synchronising *******/

  /** A refused synchronisation is an answer exactly if Git could fetch, that is, on diverged histories. */
  lemma SyncFault(w: World, bundle: string)
    requires RepoInv(w) && SyncBody(w, bundle).1.SyncFailed?
    ensures SyncBody(w, bundle).1.fault == Rejected <==>
              && bundle in w.inbound && w.agent.clean
              && (w.human.None? || Ancestor(w.human.value, w.inbound[bundle]))
  {
    if bundle in w.inbound {
      var w1 := w.(human := Some(w.inbound[bundle]));
      assert RepoInv(w1) by { assert forall t :: IsPending(w1, t) == IsPending(w, t); }
      SwitchedKeeps(w1);
    }
    hide RepoInv;
    hide CanSwitch;
  }

  /******* Before the lock *******/

  /** In a repository that satisfies the invariant a record is found by every request unless it is aborted: its
      workspace is always there. */
  lemma LoadSucceedsIff(w: World, task: string)
    requires RepoInv(w)
    ensures LoadTask(w, task) ==
              if task !in w.records then Failure(Internal)
              else if w.records[task].status == Aborted then Failure(Rejected)
              else Success(w.records[task])
  {
    assert task in w.records && Pending(w.records[task]) ==> IsPending(w, task) && task in w.trees;
    assert task in w.records ==> RecordOk(task, w.records[task]);
    hide HeadsOk;
    hide Exclusive;
    hide HistoryOk;
  }

  ghost predicate Found(w: World, task: string)
  {
    task in w.records && w.records[task].status != Aborted
  }

  /** Exactly which requests pass the checks before their locks. */
  lemma AdmittedIff(w: World, req: Request)
    requires RepoInv(w)
    ensures Admit(w, req).Success? <==>
              match req
              case Start(task, _, deps) => ValidStartRequest(task, deps) && task !in w.records
              case Complete(task) => Found(w, task) && w.records[task].status == Active
              case Merge(task) => Found(w, task) && w.records[task].mode == Parallel && w.records[task].status == Completed
              case Abort(task) =>
                Found(w, task) && w.records[task].mode == Parallel && w.records[task].status in {Active, Completed}
              case Sync(_) => NoActiveIntegration(w.records) && NoUnmergedParallel(w.records)
              case Run(task, readonly) => Found(w, task) && (readonly || w.records[task].status == Active)
              case Index(task) => Found(w, task) && w.records[task].status in {Active, Completed}
              case _ => true
    ensures Admit(w, req).Failure? ==>
              (Admit(w, req).error == Internal <==> OnTask(req) && req.task !in w.records)
  {
    if OnTask(req) {
      LoadSucceedsIff(w, req.task);
    }
    FiltersWrittenOut(w.records);
    hide RepoInv;
    hide LoadTask;
    hide AnyActiveSequential;
    hide AnyPending;
    hide NoActiveIntegration;
    hide NoUnmergedParallel;
  }

  predicate Alphanumeric(c: char)
  {
    'A' <= c <= 'Z' || 'a' <= c <= 'z' || '0' <= c <= '9'
  }

  /** Exactly which names and start requests are valid. */
  lemma ValidNameIff(s: string)
    ensures ValidName(s) <==>
              && 1 <= |s| <= 64 && Alphanumeric(s[0])
              && forall i :: 1 <= i < |s| ==> Alphanumeric(s[i]) || s[i] in {'.', '_', '-'}
  {
  }

  lemma ValidStartIff(task: string, deps: seq<string>)
    ensures ValidStartRequest(task, deps) <==>
              ValidName(task) && |deps| <= 128 && forall d :: d in deps ==> ValidName(d) && d != task
  {
    hide ValidName;
  }

  /** A valid name is one path component and one branch component, and never an option. */
  lemma ValidNamesAreSafe(s: string)
    requires ValidName(s)
    ensures '/' !in s && s != "." && s != ".." && s[0] != '-' && ' ' !in s && '\n' !in s && 0 as char !in s
    ensures 1 <= |s| <= 64
    ensures "agent/" <= BranchOf(s) && BranchOf(s)[6..] == s
  {
  }
}
