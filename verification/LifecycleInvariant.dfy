/** The repository invariant, and the proof that every locked body and every executor action keeps it
    even when it works from a record read before its lock. */
module LifecycleInvariant {
  import opened Wrappers
  import opened Commits
  import opened Lifecycle

  /******* Branch names *******/

  lemma BranchOfInjective(t: string, u: string)
    requires BranchOf(t) == BranchOf(u)
    ensures t == u
  {
    assert t == BranchOf(t)[|BRANCH_PREFIX|..];
    assert u == BranchOf(u)[|BRANCH_PREFIX|..];
  }

  lemma OnlyIntegrationIsIntegrationBranch(t: string)
    ensures BranchOf(t) == INTEGRATION_BRANCH <==> t == INTEGRATION_LOCK
  {
    assert BranchOf(INTEGRATION_LOCK) == INTEGRATION_BRANCH;
    if BranchOf(t) == INTEGRATION_BRANCH {
      BranchOfInjective(t, INTEGRATION_LOCK);
    }
  }

  /******* The invariant *******/

  ghost predicate RecordOk(t: string, r: Record)
  {
    && (r.mode == Parallel ==> r.branch == BranchOf(t) && t != INTEGRATION_LOCK)
    && (r.mode == Integration ==> r.branch == INTEGRATION_BRANCH && (r.status == Active || r.status == Completed))
    && (r.status == Completed ==> r.head.Some?)
    && (r.status == Merged ==> r.mergeCommit.Some?)
  }

  /** Every base and every integrated commit lies in the integration history, base first. */
  ghost predicate HistoryOk(r: Record, integration: Commit)
  {
    && Ancestor(r.base, integration)
    && (Integrated(r).Some? ==>
          Ancestor(r.base, Integrated(r).value) && Ancestor(Integrated(r).value, integration))
  }

  ghost predicate IsPending(w: World, t: string)
  {
    t in w.records && Pending(w.records[t])
  }

  ghost predicate TreesOk(w: World)
  {
    forall t :: t in w.trees <==> IsPending(w, t)
  }

  ghost predicate BranchesOk(w: World)
  {
    forall t :: t != INTEGRATION_LOCK ==> (BranchOf(t) in w.refs <==> IsPending(w, t))
  }

  predicate HeadAllowed(h: Head, branch: string)
  {
    h == OnBranch(branch) || h.Detached?
  }

  ghost predicate CheckoutsOk(w: World)
  {
    && (forall t :: t in w.trees ==> HeadAllowed(w.trees[t].head, BranchOf(t)))
    && HeadAllowed(w.agent.head, INTEGRATION_BRANCH)
  }

  /** Worktrees and task branches exist exactly for the pending tasks. */
  ghost predicate Layout(w: World)
  {
    TreesOk(w) && BranchesOk(w) && CheckoutsOk(w)
  }

  ghost predicate HeadsOk(w: World)
  {
    forall t :: IsPending(w, t) && w.records[t].status == Completed ==>
      && w.records[t].head.Some? && BranchOf(t) in w.refs
      && Ancestor(w.records[t].head.value, w.refs[BranchOf(t)])
  }

  /** One integration task at a time, and none beside a pending parallel task. */
  ghost predicate Exclusive(w: World)
  {
    forall t, u :: t in w.records && u in w.records && ActiveSequential(w.records[t]) ==>
      (ActiveSequential(w.records[u]) ==> t == u) && !Pending(w.records[u])
  }

  ghost predicate RepoInv(w: World)
  {
    && INTEGRATION_BRANCH in w.refs
    && (forall t :: t in w.records ==>
          RecordOk(t, w.records[t]) && HistoryOk(w.records[t], w.refs[INTEGRATION_BRANCH]))
    && Layout(w)
    && HeadsOk(w)
    && Exclusive(w)
  }

  function InitialWorld(root: Commit): World
  {
    World(map[INTEGRATION_BRANCH := root], Checkout(OnBranch(INTEGRATION_BRANCH), true), map[], map[], map[], None)
  }

  lemma InitialKeeps(root: Commit)
    ensures RepoInv(InitialWorld(root))
  {
    forall t | t != INTEGRATION_LOCK
      ensures BranchOf(t) !in InitialWorld(root).refs
    {
      OnlyIntegrationIsIntegrationBranch(t);
    }
  }

  /** What a record read before the lock still tells about the current one: identity, base and
      dependencies never change, and while the task is pending a recorded head can only be followed
      by a later one. */
  ghost predicate SnapOk(w: World, t: string, snap: Record)
  {
    && t in w.records
    && RecordOk(t, snap)
    && SameTask(snap, w.records[t])
    && (snap.mode == Parallel && snap.status == Completed && Pending(w.records[t]) ==>
          && w.records[t].status == Completed && w.records[t].head.Some?
          && Ancestor(snap.head.value, w.records[t].head.value))
  }

  predicate SameTask(a: Record, b: Record)
  {
    a.mode == b.mode && a.branch == b.branch && a.base == b.base && a.deps == b.deps
  }

  /** The integration branch never moves backwards. */
  ghost predicate Forward(w: World, w': World)
  {
    && INTEGRATION_BRANCH in w.refs && INTEGRATION_BRANCH in w'.refs
    && Ancestor(w.refs[INTEGRATION_BRANCH], w'.refs[INTEGRATION_BRANCH])
  }

  /** How records may change: never out of the task's identity, never back to pending, and a
      completed head is only replaced by a later one.  Merged may still become aborted. */
  ghost predicate RecordEvolves(r: Record, r': Record)
  {
    && SameTask(r, r')
    && (Terminal(r) ==> Terminal(r'))
    && (r.status == Aborted ==> r'.status == Aborted)
    && (Pending(r') ==> Pending(r))
    && (ActiveSequential(r') ==> ActiveSequential(r))
    && (Pending(r') && r.status == Completed ==>
          && r'.status == Completed && r.head.Some? && r'.head.Some?
          && Ancestor(r.head.value, r'.head.value))
    && (Integrated(r).Some? ==> IntegratedStays(r, r'))
  }

  /** A merge commit stays what it is while the record is merged; a completed integration head is only
      replaced by a later one. */
  ghost predicate IntegratedStays(r: Record, r': Record)
  {
    match r.mode
    case Parallel => r'.status == Merged ==> r'.mergeCommit == r.mergeCommit
    case Integration => r'.status == Completed && r.head.Some? && r'.head.Some? && Ancestor(r.head.value, r'.head.value)
  }

  ghost predicate Evolves(w: World, w': World)
  {
    forall t :: t in w.records ==> t in w'.records && RecordEvolves(w.records[t], w'.records[t])
  }

  lemma EvolvesReflexive(w: World, w': World)
    requires RepoInv(w) && w'.records == w.records
    ensures Evolves(w, w')
  {
  }

  lemma EvolvesTransitive(w: World, w': World, w'': World)
    requires Evolves(w, w') && Evolves(w', w'')
    ensures Evolves(w, w'')
  {
    forall t | t in w.records
      ensures RecordEvolves(w.records[t], w''.records[t])
    {
      var r, r', r'' := w.records[t], w'.records[t], w''.records[t];
      if Pending(r'') && r.status == Completed {
        AncestorTransitive(r.head.value, r'.head.value, r''.head.value);
      }
      if r.mode == Integration && Integrated(r).Some? {
        AncestorTransitive(r.head.value, r'.head.value, r''.head.value);
      }
    }
  }

  /** A snapshot stays as good as it was while records evolve. */
  lemma SnapStaysOk(w: World, w': World, t: string, snap: Record)
    requires SnapOk(w, t, snap) && Evolves(w, w')
    ensures SnapOk(w', t, snap)
  {
    var r, r' := w.records[t], w'.records[t];
    assert RecordEvolves(r, r');
    if snap.mode == Parallel && snap.status == Completed && Pending(r') {
      AncestorTransitive(snap.head.value, r.head.value, r'.head.value);
    }
  }

  /******* Preservation *******/

  lemma SwitchedKeeps(w: World)
    requires RepoInv(w)
    ensures CanSwitch(w, INTEGRATION_BRANCH)
    ensures RepoInv(Switched(w, INTEGRATION_BRANCH))
  {
    forall t | t in w.trees
      ensures w.trees[t].head != OnBranch(INTEGRATION_BRANCH)
    {
      assert IsPending(w, t);
      OnlyIntegrationIsIntegrationBranch(t);
    }
    var w' := Switched(w, INTEGRATION_BRANCH);
    assert forall t :: IsPending(w', t) == IsPending(w, t);
  }

  lemma HistoryMovesForward(w: World, c: Commit)
    requires RepoInv(w) && Ancestor(w.refs[INTEGRATION_BRANCH], c)
    ensures forall t :: t in w.records ==> HistoryOk(w.records[t], c)
  {
    forall t | t in w.records
      ensures HistoryOk(w.records[t], c)
    {
      var r := w.records[t];
      AncestorTransitive(r.base, w.refs[INTEGRATION_BRANCH], c);
      if Integrated(r).Some? {
        AncestorTransitive(Integrated(r).value, w.refs[INTEGRATION_BRANCH], c);
      }
    }
  }

  /** Moving only the integration branch, forward, keeps the invariant. */
  lemma AdvanceIntegrationKeeps(w: World, c: Commit)
    requires RepoInv(w) && Ancestor(w.refs[INTEGRATION_BRANCH], c)
    ensures RepoInv(w.(refs := w.refs[INTEGRATION_BRANCH := c]))
  {
    var w' := w.(refs := w.refs[INTEGRATION_BRANCH := c]);
    HistoryMovesForward(w, c);
    forall t | t != INTEGRATION_LOCK
      ensures BranchOf(t) != INTEGRATION_BRANCH
    {
      OnlyIntegrationIsIntegrationBranch(t);
    }
    assert forall t :: IsPending(w', t) == IsPending(w, t);
    forall t | IsPending(w', t) && w'.records[t].status == Completed
      ensures Ancestor(w'.records[t].head.value, w'.refs[BranchOf(t)])
    {
      assert IsPending(w, t);
    }
  }

  /** A new integration task record. */
  lemma AddSequentialKeeps(w: World, task: string, r: Record)
    requires RepoInv(w) && task !in w.records && !AnyActiveSequential(w.records) && !AnyPending(w.records)
    requires r.mode == Integration && r.status == Active && r.branch == INTEGRATION_BRANCH
    requires r.base == w.refs[INTEGRATION_BRANCH]
    ensures RepoInv(w.(records := w.records[task := r]))
  {
    var w' := w.(records := w.records[task := r]);
    assert forall t :: IsPending(w', t) == IsPending(w, t);
    assert HeadsOk(w') by { assert HeadsOk(w); }
  }

  /** The world with a new parallel task, its branch and its worktree. */
  function WithParallel(w: World, task: string, r: Record): World
  {
    w.(refs := w.refs[BranchOf(task) := r.base],
       trees := w.trees[task := Checkout(OnBranch(BranchOf(task)), true)],
       records := w.records[task := r])
  }

  ghost predicate Addable(w: World, task: string, r: Record)
  {
    && RepoInv(w) && task !in w.records && task != INTEGRATION_LOCK && !AnyActiveSequential(w.records)
    && r.mode == Parallel && r.status == Active && r.branch == BranchOf(task)
    && r.base == w.refs[INTEGRATION_BRANCH]
  }

  lemma AddedRecords(w: World, task: string, r: Record)
    requires Addable(w, task, r)
    ensures var w' := WithParallel(w, task, r);
            && w'.refs[INTEGRATION_BRANCH] == w.refs[INTEGRATION_BRANCH]
            && (forall t :: IsPending(w', t) <==> (t == task || IsPending(w, t)))
            && (forall t :: t in w'.records ==> RecordOk(t, w'.records[t]) && HistoryOk(w'.records[t], w'.refs[INTEGRATION_BRANCH]))
            && Exclusive(w')
  {
    OnlyIntegrationIsIntegrationBranch(task);
    hide Layout;
    hide HeadsOk;
  }

  lemma AddedLayout(w: World, task: string, r: Record)
    requires Addable(w, task, r)
    requires forall t :: IsPending(WithParallel(w, task, r), t) <==> (t == task || IsPending(w, t))
    ensures Layout(WithParallel(w, task, r))
  {
    hide RecordOk;
    hide HistoryOk;
    hide HeadsOk;
    hide Exclusive;
    hide IsPending;
    var w' := WithParallel(w, task, r);
    forall t | t != INTEGRATION_LOCK
      ensures BranchOf(t) in w'.refs <==> IsPending(w', t)
    {
      if BranchOf(t) == BranchOf(task) {
        BranchOfInjective(t, task);
      }
    }
    assert TreesOk(w');
    assert BranchesOk(w');
    assert CheckoutsOk(w');
  }

  lemma AddParallelKeeps(w: World, task: string, r: Record)
    requires Addable(w, task, r)
    ensures RepoInv(WithParallel(w, task, r))
  {
    AddedRecords(w, task, r);
    AddedLayout(w, task, r);
    forall t | t != task
      ensures BranchOf(t) != BranchOf(task)
    {
      if BranchOf(t) == BranchOf(task) {
        BranchOfInjective(t, task);
      }
    }
    HeadsCarryOver(w, WithParallel(w, task, r), task);
    hide Layout;
    hide Exclusive;
    hide RecordOk;
    hide HistoryOk;
  }

  /** Completed heads carry over to a world that differs only at one task that is not pending
      and completed there. */
  lemma HeadsCarryOver(w: World, w': World, task: string)
    requires HeadsOk(w)
    requires IsPending(w', task) ==> w'.records[task].status == Active
    requires forall t :: t != task ==> (t in w'.records <==> t in w.records)
    requires forall t :: t != task && t in w.records ==> w'.records[t] == w.records[t]
    requires forall t :: t != task && BranchOf(t) in w.refs ==>
               BranchOf(t) in w'.refs && w'.refs[BranchOf(t)] == w.refs[BranchOf(t)]
    ensures HeadsOk(w')
  {
    forall t | IsPending(w', t) && w'.records[t].status == Completed
      ensures w'.records[t].head.Some? && BranchOf(t) in w'.refs
      ensures Ancestor(w'.records[t].head.value, w'.refs[BranchOf(t)])
    {
      assert IsPending(w, t);
    }
  }

  lemma StartKeeps(w: World, task: string, parallel: bool, deps: seq<string>, choice: Choice)
    requires RepoInv(w) && task !in w.records
    ensures var (w', out) := StartBody(w, task, parallel, deps, choice);
            && RepoInv(w') && Forward(w, w') && w'.refs[INTEGRATION_BRANCH] == w.refs[INTEGRATION_BRANCH]
  {
    SwitchedKeeps(w);
    OnlyIntegrationIsIntegrationBranch(task);
    var w1 := Switched(w, INTEGRATION_BRANCH);
    var (w', out) := StartBody(w, task, parallel, deps, choice);
    if out.Done? && parallel {
      AddParallelKeeps(w1, task, out.record);
    } else if out.Done? {
      AddSequentialKeeps(w1, task, out.record);
    }
  }

  /** A start adds at most its own record. */
  lemma StartEvolves(w: World, task: string, parallel: bool, deps: seq<string>, choice: Choice)
    requires RepoInv(w) && task !in w.records
    ensures var (w', out) := StartBody(w, task, parallel, deps, choice);
            && Evolves(w, w')
            && w'.records == if out.Done? then w.records[task := out.record] else w.records
  {
    var (w', out) := StartBody(w, task, parallel, deps, choice);
    StartRecords(w, task, parallel, deps, choice);
    forall t | t in w.records
      ensures t in w'.records && RecordEvolves(w.records[t], w'.records[t])
    {
      assert RecordOk(t, w.records[t]);
      assert w'.records[t] == w.records[t];
    }
  }

  lemma StartRecords(w: World, task: string, parallel: bool, deps: seq<string>, choice: Choice)
    ensures var (w', out) := StartBody(w, task, parallel, deps, choice);
            w'.records == if out.Done? then w.records[task := out.record] else w.records
  {
  }

  /** No parallel task can be called "integration": its branch name is taken. */
  lemma ParallelIntegrationRefused(w: World, deps: seq<string>, choice: Choice)
    requires RepoInv(w)
    ensures StartBody(w, INTEGRATION_LOCK, true, deps, choice).1.Failed?
    ensures StartBody(w, INTEGRATION_LOCK, true, deps, choice).0.records == w.records
  {
    OnlyIntegrationIsIntegrationBranch(INTEGRATION_LOCK);
  }

  lemma CompleteKeeps(w: World, task: string, snap: Record)
    requires RepoInv(w) && SnapOk(w, task, snap) && snap.status == Active
    ensures var (w', out) := CompleteBody(w, task, snap);
            RepoInv(w') && Forward(w, w') && w'.refs == w.refs
  {
    CompleteEvolves(w, task, snap);
    var (w', out) := CompleteBody(w, task, snap);
    if out.Done? {
      RecompleteKeeps(w, task, out.record);
    }
  }

  /** Replacing a record that is active, or pending, by the same task completed at its branch head. */
  lemma RecompleteKeeps(w: World, task: string, r: Record)
    requires RepoInv(w) && task in w.records && SameTask(r, w.records[task]) && RecordOk(task, w.records[task])
    requires r.status == Completed && r.branch in w.refs && r.head == Some(w.refs[r.branch])
    requires r.mode == Parallel ==> Pending(w.records[task])
    ensures RepoInv(w.(records := w.records[task := r]))
  {
    var w' := w.(records := w.records[task := r]);
    assert HistoryOk(w.records[task], w.refs[INTEGRATION_BRANCH]);
    assert HistoryOk(r, w.refs[INTEGRATION_BRANCH]) by {
      assert Ancestor(w.refs[INTEGRATION_BRANCH], w.refs[INTEGRATION_BRANCH]);
    }
    assert RecordOk(task, r);
    RecompletedLayout(w, w', task, r);
    RecompletedHeads(w, w', task, r);
  }

  lemma RecompletedLayout(w: World, w': World, task: string, r: Record)
    requires Layout(w) && Exclusive(w) && task in w.records
    requires w' == w.(records := w.records[task := r])
    requires Pending(r) == Pending(w.records[task]) && !ActiveSequential(r)
    ensures Layout(w') && Exclusive(w')
  {
    assert forall t :: IsPending(w', t) == IsPending(w, t);
    ExclusiveCarriesOver(w, w');
  }

  lemma RecompletedHeads(w: World, w': World, task: string, r: Record)
    requires HeadsOk(w) && w'.refs == w.refs && task in w.records && w'.records == w.records[task := r]
    requires Pending(r) ==> r.branch == BranchOf(task)
    requires r.branch in w.refs && r.head == Some(w.refs[r.branch])
    ensures HeadsOk(w')
  {
    forall t | IsPending(w', t) && w'.records[t].status == Completed
      ensures w'.records[t].head.Some? && BranchOf(t) in w'.refs
      ensures Ancestor(w'.records[t].head.value, w'.refs[BranchOf(t)])
    {
      if t != task {
        assert IsPending(w, t);
      }
    }
  }

  lemma ExclusiveCarriesOver(w: World, w': World)
    requires Exclusive(w)
    requires forall t :: t in w'.records && ActiveSequential(w'.records[t]) ==>
               t in w.records && ActiveSequential(w.records[t])
    requires forall t :: IsPending(w', t) ==> IsPending(w, t)
    ensures Exclusive(w')
  {
    forall t, u | t in w'.records && u in w'.records && ActiveSequential(w'.records[t])
      ensures (ActiveSequential(w'.records[u]) ==> t == u) && !Pending(w'.records[u])
    {
      if Pending(w'.records[u]) {
        assert IsPending(w', u);
      }
    }
  }

  /** A stale completion fails once the task is no longer pending; otherwise it records the
      head its branch has now, which is no earlier than the head recorded before. */
  lemma CompleteEvolves(w: World, task: string, snap: Record)
    requires RepoInv(w) && SnapOk(w, task, snap) && snap.status == Active
    ensures var (w', out) := CompleteBody(w, task, snap);
            && Evolves(w, w')
            && (out.Done? ==>
                  && snap.branch in w.refs && out.record == snap.(head := Some(w.refs[snap.branch]), status := Completed)
                  && w' == w.(records := w.records[task := out.record])
                  && (snap.mode == Parallel ==> Pending(w.records[task])))
            && (out.Failed? ==> w' == w)
  {
    var (w', out) := CompleteBody(w, task, snap);
    hide Exclusive;
    hide BranchesOk;
    if out.Done? && snap.mode == Parallel {
      assert IsPending(w, task);
    }
  }

  /** A stale merge that gets past its checks merges the head that is recorded now. */
  lemma UnmovedHeadIsCurrent(w: World, task: string, snap: Record)
    requires RepoInv(w) && SnapOk(w, task, snap) && snap.mode == Parallel && snap.status == Completed
    requires task in w.trees && HeadUnmoved(w, snap, w.trees[task])
    ensures Pending(w.records[task]) && w.records[task].status == Completed
    ensures w.records[task].head == snap.head
  {
    assert IsPending(w, task);
    AncestorAntisymmetric(snap.head.value, w.records[task].head.value);
  }

  /** With its own worktree gone, no other checkout holds the branch of a task. */
  lemma OwnBranchIsFree(w: World, w': World, task: string)
    requires CheckoutsOk(w) && task != INTEGRATION_LOCK
    requires w'.trees == w.trees - {task} && HeadAllowed(w'.agent.head, INTEGRATION_BRANCH)
    ensures !InSomeTree(w', BranchOf(task)) && w'.agent.head != OnBranch(BranchOf(task))
  {
    OnlyIntegrationIsIntegrationBranch(task);
    forall t | t in w'.trees
      ensures w'.trees[t].head != OnBranch(BranchOf(task))
    {
      if BranchOf(t) == BranchOf(task) {
        BranchOfInjective(t, task);
      }
    }
  }

  /** `worktree remove` and `branch -d` both succeed on a clean worktree whose branch is in HEAD. */
  lemma CleanupRuns(w: World, task: string, snap: Record, merged: Commit)
    requires CheckoutsOk(w) && RecordOk(task, snap) && snap.mode == Parallel && snap.status == Completed
    requires task in w.trees && w.trees[task].clean
    requires w.agent.head == OnBranch(INTEGRATION_BRANCH)
    requires INTEGRATION_BRANCH in w.refs && w.refs[INTEGRATION_BRANCH] == merged
    requires BranchOf(task) in w.refs && Ancestor(w.refs[BranchOf(task)], merged)
    ensures var r := snap.(status := Merged, mergeCommit := Some(merged));
            MergeCleanup(w, task, snap, TaskTree(task), merged) ==
              (w.(refs := w.refs - {BranchOf(task)}, trees := w.trees - {task}, records := w.records[task := r]), Done(r))
  {
    var w1 := w.(trees := w.trees - {task});
    OwnBranchIsFree(w, w1, task);
    assert CanDeleteMerged(w1, snap.branch);
  }

  /** Once `git merge` has succeeded, neither cleanup command can be refused: a merge either
      changes nothing but the agent checkout, or runs to the end. */
  lemma CleanupCannotBeRefused(w: World, task: string, snap: Record, choice: Choice)
    requires RepoInv(w) && SnapOk(w, task, snap) && snap.mode == Parallel && snap.status == Completed
    requires task in w.trees && w.trees[task].clean && w.agent.clean && HeadUnmoved(w, snap, w.trees[task])
    ensures var merged := MergeHead(w.refs[INTEGRATION_BRANCH], snap.head.value, choice);
            var (w', out) := MergeBody(w, task, snap, choice);
            && (merged.None? ==> out == Failed(Rejected) && w' == Switched(w, INTEGRATION_BRANCH))
            && (merged.Some? ==>
                  && out == Done(snap.(status := Merged, mergeCommit := merged))
                  && Ancestor(snap.head.value, merged.value)
                  && Ancestor(w.refs[INTEGRATION_BRANCH], merged.value)
                  && w'.refs == w.refs[INTEGRATION_BRANCH := merged.value] - {BranchOf(task)}
                  && w'.trees == w.trees - {task}
                  && w'.records == w.records[task := out.record]
                  && w' == Switched(w, INTEGRATION_BRANCH).(refs := w'.refs, trees := w'.trees, records := w'.records))
  {
    SwitchedKeeps(w);
    OnlyIntegrationIsIntegrationBranch(task);
    var ours := w.refs[INTEGRATION_BRANCH];
    var merged := MergeHead(ours, snap.head.value, choice);
    if merged.Some? {
      MergeDescends(choice.tree, ours, snap.head.value);
      var w1 := Switched(w, INTEGRATION_BRANCH);
      var w2 := w1.(refs := w1.refs[INTEGRATION_BRANCH := merged.value]);
      CleanupRuns(w2, task, snap, merged.value);
      assert MergeBody(w, task, snap, choice) == MergeCleanup(w2, task, snap, TaskTree(task), merged.value);
    }
  }

  /** A merge either leaves refs and records alone or takes in the head recorded now. */
  lemma MergeEffect(w: World, task: string, snap: Record, choice: Choice)
    requires RepoInv(w) && SnapOk(w, task, snap) && snap.mode == Parallel && snap.status == Completed
    ensures var (w', out) := MergeBody(w, task, snap, choice);
            && (out.Failed? ==> w' == w || w' == Switched(w, INTEGRATION_BRANCH))
            && (out.Done? ==>
                  && INTEGRATION_BRANCH in w'.refs && task in w.trees && HeadUnmoved(w, snap, w.trees[task])
                  && Pending(w.records[task]) && w.records[task].head == snap.head
                  && out.record == snap.(status := Merged, mergeCommit := Some(w'.refs[INTEGRATION_BRANCH]))
                  && w'.records == w.records[task := out.record]
                  && Ancestor(snap.head.value, w'.refs[INTEGRATION_BRANCH])
                  && Ancestor(w.refs[INTEGRATION_BRANCH], w'.refs[INTEGRATION_BRANCH])
                  && w' == Switched(w, INTEGRATION_BRANCH).(
                             refs := w.refs[INTEGRATION_BRANCH := w'.refs[INTEGRATION_BRANCH]] - {BranchOf(task)},
                             trees := w.trees - {task}, records := w'.records))
  {
    SwitchedKeeps(w);
    OnlyIntegrationIsIntegrationBranch(task);
    if task in w.trees && w.trees[task].clean && w.agent.clean && HeadUnmoved(w, snap, w.trees[task]) {
      CleanupCannotBeRefused(w, task, snap, choice);
      UnmovedHeadIsCurrent(w, task, snap);
    }
  }

  lemma MergeKeeps(w: World, task: string, snap: Record, choice: Choice)
    requires RepoInv(w) && SnapOk(w, task, snap) && snap.mode == Parallel && snap.status == Completed
    ensures var (w', out) := MergeBody(w, task, snap, choice);
            RepoInv(w') && Forward(w, w') && Evolves(w, w')
  {
    SwitchedKeeps(w);
    MergeEffect(w, task, snap, choice);
    var (w', out) := MergeBody(w, task, snap, choice);
    if out.Done? {
      MergedKeeps(w, w', task, out.record);
    } else {
      EvolvesReflexive(w, w');
    }
  }

  lemma MergedKeeps(w: World, w': World, task: string, r: Record)
    requires RepoInv(w) && task in w.records && Pending(w.records[task]) && SameTask(r, w.records[task])
    requires RecordOk(task, r) && r.status == Merged
    requires INTEGRATION_BRANCH in w'.refs && r.mergeCommit == Some(w'.refs[INTEGRATION_BRANCH])
    requires Ancestor(w.refs[INTEGRATION_BRANCH], w'.refs[INTEGRATION_BRANCH])
    requires w' == Switched(w, INTEGRATION_BRANCH).(
                     refs := w.refs[INTEGRATION_BRANCH := w'.refs[INTEGRATION_BRANCH]] - {BranchOf(task)},
                     trees := w.trees - {task}, records := w.records[task := r])
    ensures RepoInv(w') && Evolves(w, w')
  {
    var merged := w'.refs[INTEGRATION_BRANCH];
    var w1 := Switched(w, INTEGRATION_BRANCH);
    var w2 := w1.(refs := w1.refs[INTEGRATION_BRANCH := merged]);
    SwitchedKeeps(w);
    AdvanceIntegrationKeeps(w1, merged);
    MergedHistory(w, task, r, merged);
    EvolvesAt(w, w', task, r);
    RetireKeeps(w2, task, r);
    hide RepoInv;
    hide RecordOk;
    hide HistoryOk;
    hide Evolves;
  }

  lemma MergedHistory(w: World, task: string, r: Record, merged: Commit)
    requires RepoInv(w) && task in w.records && SameTask(r, w.records[task]) && r.mode == Parallel && r.status == Merged
    requires r.mergeCommit == Some(merged) && Ancestor(w.refs[INTEGRATION_BRANCH], merged)
    ensures HistoryOk(r, merged)
  {
    assert HistoryOk(w.records[task], w.refs[INTEGRATION_BRANCH]);
    AncestorTransitive(r.base, w.refs[INTEGRATION_BRANCH], merged);
    assert Ancestor(merged, merged);
  }

  /** One record evolves and the others stay. */
  lemma EvolvesAt(w: World, w': World, task: string, r: Record)
    requires RepoInv(w) && task in w.records && RecordEvolves(w.records[task], r)
    requires w'.records == w.records[task := r]
    ensures Evolves(w, w')
  {
    EvolvesReflexive(w, w);
    hide RepoInv;
    hide RecordEvolves;
  }

  /** Retiring a task: its branch and worktree go, and its record becomes terminal. */
  lemma RetireKeeps(w: World, task: string, r: Record)
    requires RepoInv(w) && task in w.records && r.mode == Parallel && Terminal(r)
    requires RecordOk(task, r) && HistoryOk(r, w.refs[INTEGRATION_BRANCH])
    ensures RepoInv(w.(refs := w.refs - {BranchOf(task)}, trees := w.trees - {task},
                       records := w.records[task := r]))
  {
    var w' := w.(refs := w.refs - {BranchOf(task)}, trees := w.trees - {task}, records := w.records[task := r]);
    OnlyIntegrationIsIntegrationBranch(task);
    assert w'.refs[INTEGRATION_BRANCH] == w.refs[INTEGRATION_BRANCH];
    RetiredLayout(w, w', task, r);
  }

  lemma RetiredLayout(w: World, w': World, task: string, r: Record)
    requires Layout(w) && HeadsOk(w) && Exclusive(w) && task != INTEGRATION_LOCK && Terminal(r)
    requires w' == w.(refs := w.refs - {BranchOf(task)}, trees := w.trees - {task}, records := w.records[task := r])
    ensures Layout(w') && HeadsOk(w') && Exclusive(w')
  {
    forall t
      ensures IsPending(w', t) == (t != task && IsPending(w, t))
      ensures BranchOf(t) == BranchOf(task) ==> t == task
    {
      if BranchOf(t) == BranchOf(task) {
        BranchOfInjective(t, task);
      }
    }
    assert TreesOk(w') && BranchesOk(w') && CheckoutsOk(w');
    HeadsCarryOver(w, w', task);
    ExclusiveCarriesOver(w, w');
  }

  lemma AbortRuns(w: World, task: string, snap: Record)
    requires RepoInv(w) && SnapOk(w, task, snap) && Pending(snap)
    ensures var (w', out) := AbortBody(w, task, snap);
            && out == Done(snap.(status := Aborted))
            && w' == w.(refs := w.refs - {BranchOf(task)}, trees := w.trees - {task},
                        records := w.records[task := snap.(status := Aborted)])
  {
    OwnBranchIsFree(w, w.(trees := w.trees - {task}), task);
    assert w.refs - {BranchOf(task)} == if BranchOf(task) in w.refs then w.refs - {BranchOf(task)} else w.refs;
  }

  lemma AbortKeeps(w: World, task: string, snap: Record)
    requires RepoInv(w) && SnapOk(w, task, snap) && Pending(snap)
    ensures var (w', out) := AbortBody(w, task, snap);
            && RepoInv(w') && Forward(w, w') && w'.refs[INTEGRATION_BRANCH] == w.refs[INTEGRATION_BRANCH]
            && Evolves(w, w')
  {
    AbortRuns(w, task, snap);
    OnlyIntegrationIsIntegrationBranch(task);
    RetireKeeps(w, task, snap.(status := Aborted));
  }

  lemma SyncRecords(w: World, bundle: string)
    ensures SyncBody(w, bundle).0.records == w.records && SyncBody(w, bundle).0.trees == w.trees
  {
  }

  lemma SyncKeeps(w: World, bundle: string)
    requires RepoInv(w)
    ensures RepoInv(SyncBody(w, bundle).0) && Forward(w, SyncBody(w, bundle).0)
  {
    var w' := SyncBody(w, bundle).0;
    if bundle in w.inbound && w.agent.clean && FetchAccepted(w, w.inbound[bundle]) {
      var theirs := w.inbound[bundle];
      var w1 := w.(human := Some(theirs));
      assert RepoInv(w1) by { assert forall t :: IsPending(w1, t) == IsPending(w, t); }
      SwitchedKeeps(w1);
      var w2 := Switched(w1, INTEGRATION_BRANCH);
      var ours := w2.refs[INTEGRATION_BRANCH];
      var w3 := w2.(inbound := w2.inbound - {bundle});
      assert RepoInv(w3) by { assert forall t :: IsPending(w3, t) == IsPending(w2, t); }
      if ours != theirs && Ancestor(ours, theirs) {
        AdvanceIntegrationKeeps(w3, theirs);
      }
    }
  }

  /** When a synchronisation moves the integration branch: exactly if it gets through Git and the human
      commit is a proper descendant. */
  lemma SyncMovesIff(w: World, bundle: string)
    requires RepoInv(w)
    ensures INTEGRATION_BRANCH in SyncBody(w, bundle).0.refs
    ensures SyncBody(w, bundle).0.refs[INTEGRATION_BRANCH] != w.refs[INTEGRATION_BRANCH] <==>
              && bundle in w.inbound && w.agent.clean && FetchAccepted(w, w.inbound[bundle])
              && w.inbound[bundle] != w.refs[INTEGRATION_BRANCH]
              && Ancestor(w.refs[INTEGRATION_BRANCH], w.inbound[bundle])
  {
    if bundle in w.inbound && w.agent.clean && FetchAccepted(w, w.inbound[bundle]) {
      var w1 := w.(human := Some(w.inbound[bundle]));
      assert RepoInv(w1) by { assert forall t :: IsPending(w1, t) == IsPending(w, t); }
      SwitchedKeeps(w1);
    }
  }

  /** Whatever an executor does to its own workspace and branch keeps the invariant. */
  lemma WorkKeeps(w: World, task: string, snap: Record, act: Action)
    requires RepoInv(w) && SnapOk(w, task, snap) && snap.status != Merged
    requires ActionAllowed(w, WorkspaceOf(task, snap), snap.branch, act)
    ensures var w' := Work(w, WorkspaceOf(task, snap), snap.branch, act);
            RepoInv(w') && Forward(w, w') && w'.records == w.records
  {
    var ws := WorkspaceOf(task, snap);
    var w' := Work(w, ws, snap.branch, act);
    assert forall t :: IsPending(w', t) == IsPending(w, t);
    if act.Advance? && snap.mode == Integration {
      AdvanceIntegrationKeeps(w, act.to);
    } else if act.Advance? {
      OnlyIntegrationIsIntegrationBranch(task);
      forall t | IsPending(w', t) && w'.records[t].status == Completed
        ensures Ancestor(w'.records[t].head.value, w'.refs[BranchOf(t)])
      {
        assert IsPending(w, t);
        if BranchOf(t) == snap.branch {
          AncestorTransitive(w.records[t].head.value, w.refs[snap.branch], act.to);
        }
      }
    } else {
      forall t | IsPending(w', t) && w'.records[t].status == Completed
        ensures Ancestor(w'.records[t].head.value, w'.refs[BranchOf(t)])
      {
        assert IsPending(w, t);
      }
    }
  }
}
