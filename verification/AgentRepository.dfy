/** The agent repository and the task records as mutable state, with the locked bodies of the broker
    written as the ordered Git commands and record updates they are.  Each method is proved to
    have exactly the effect of its specification in Lifecycle, on every path, including every path on
    which a Git command refuses. */
module AgentRepository {
  import opened Wrappers
  import opened Commits
  import opened Lifecycle
  import opened LifecycleInvariant

  class Repository {
    var refs: map<string, Commit>
    var agent: Checkout
    var trees: map<string, Checkout>
    var records: map<string, Record>
    var inbound: map<string, Commit>
    var human: Option<Commit>

    function Now(): World
      reads this
    {
      World(refs, agent, trees, records, inbound, human)
    }

    constructor (root: Commit)
      ensures Now() == InitialWorld(root)
    {
      refs := map[INTEGRATION_BRANCH := root];
      agent := Checkout(OnBranch(INTEGRATION_BRANCH), true);
      trees, records, inbound, human := map[], map[], map[], None;
    }

    /******* Git commands *******/

    /** `git switch agent/integration` in repo/agent. */
    method SwitchToIntegration() returns (ok: bool)
      modifies this`agent
      ensures ok == CanSwitch(old(Now()), INTEGRATION_BRANCH)
      ensures Now() == if ok then Switched(old(Now()), INTEGRATION_BRANCH) else old(Now())
    {
      ok := CanSwitch(Now(), INTEGRATION_BRANCH);
      if ok {
        agent := agent.(head := OnBranch(INTEGRATION_BRANCH));
      }
    }

    /** `git merge --no-ff --no-edit theirs` on the integration branch; a conflict is aborted. */
    method MergeNoFastForward(theirs: Commit, choice: Choice) returns (ok: bool)
      requires INTEGRATION_BRANCH in refs && agent.head == OnBranch(INTEGRATION_BRANCH)
      modifies this`refs
      ensures var merged := MergeHead(old(refs)[INTEGRATION_BRANCH], theirs, choice);
              && ok == merged.Some?
              && refs == if ok then old(refs)[INTEGRATION_BRANCH := merged.value] else old(refs)
    {
      var ours := refs[INTEGRATION_BRANCH];
      if Ancestor(theirs, ours) {
        assert refs[INTEGRATION_BRANCH := ours] == refs;
        return true;
      }
      if choice.conflict {
        return false;
      }
      refs := refs[INTEGRATION_BRANCH := Commit(choice.tree, [ours, theirs])];
      ok := true;
    }

    /** `git worktree remove`, with `--force` when force is set. */
    method WorktreeRemove(ws: Workspace, force: bool) returns (ok: bool)
      modifies this`trees
      ensures ok == (ws.TaskTree? && ws.task in old(trees) && (force || old(trees)[ws.task].clean))
      ensures trees == if ok then old(trees) - {ws.task} else old(trees)
    {
      ok := ws.TaskTree? && ws.task in trees && (force || trees[ws.task].clean);
      if ok {
        trees := trees - {ws.task};
      }
    }

    /** `git branch -d` (safe) or `-D` (force). */
    method BranchDelete(branch: string, force: bool) returns (ok: bool)
      modifies this`refs
      ensures ok == (if force
                     then branch in old(refs) && agent.head != OnBranch(branch) && !InSomeTree(Now(), branch)
                     else branch in old(refs) && agent.head != OnBranch(branch) && !InSomeTree(Now(), branch)
                          && HeadCommit(old(Now()), agent).Some? && Ancestor(old(refs)[branch], HeadCommit(old(Now()), agent).value))
      ensures refs == if ok then old(refs) - {branch} else old(refs)
    {
      if force {
        ok := branch in refs && agent.head != OnBranch(branch) && !InSomeTree(Now(), branch);
      } else {
        ok := CanDeleteMerged(Now(), branch);
      }
      if ok {
        refs := refs - {branch};
      }
    }

    /******* Starting *******/

    /** Every dependency in order; the first one that is not integrated into base decides the error. */
    method ValidateDependencies(deps: seq<string>, base: Commit) returns (fault: Option<Fault>)
      ensures fault == DependencyFault(records, deps, base)
      ensures fault.None? <==> forall d :: d in deps ==> DependencyMet(records, d, base)
    {
      var i := 0;
      while i < |deps|
        invariant 0 <= i <= |deps|
        invariant DependencyFault(records, deps, base) == DependencyFault(records, deps[i..], base)
        invariant forall j :: 0 <= j < i ==> DependencyMet(records, deps[j], base)
      {
        var dep := deps[i];
        assert deps[i..][0] == dep && deps[i..][1..] == deps[i + 1..];
        if dep !in records {
          return Some(Rejected);
        }
        var r := records[dep];
        var required: Option<Commit>;
        if r.mode == Parallel {
          if r.status != Merged {
            return Some(Rejected);
          }
          required := r.mergeCommit;
        } else {
          if r.status != Completed {
            return Some(Rejected);
          }
          required := r.head;
        }
        if required.None? {
          return Some(Internal);
        }
        if !Ancestor(required.value, base) {
          return Some(Rejected);
        }
        i := i + 1;
      }
      fault := None;
    }

    /** The branch and worktree of a parallel task, from the integration branch. */
    method CreateParallelWorktree(task: string, choice: Choice) returns (r: Result<string, Fault>)
      requires INTEGRATION_BRANCH in refs
      modifies this`refs, this`trees
      ensures r == if task in old(trees) then Failure(Rejected)
                   else if BranchOf(task) in old(refs) || !choice.addOk then Failure(Internal)
                   else Success(BranchOf(task))
      ensures r.Success? ==>
                && refs == old(refs)[BranchOf(task) := old(refs)[INTEGRATION_BRANCH]]
                && trees == old(trees)[task := Checkout(OnBranch(BranchOf(task)), true)]
      ensures r.Failure? ==> refs == old(refs) && trees == old(trees)
    {
      var branch := BranchOf(task);
      if task in trees {
        return Failure(Rejected);
      }
      if branch in refs || !choice.addOk {
        return Failure(Internal);
      }
      refs := refs[branch := refs[INTEGRATION_BRANCH]];
      trees := trees[task := Checkout(OnBranch(branch), true)];
      r := Success(branch);
    }

    method StartTaskLocked(task: string, parallel: bool, deps: seq<string>, choice: Choice) returns (out: Outcome)
      modifies this
      ensures (Now(), out) == StartBody(old(Now()), task, parallel, deps, choice)
    {
      if !agent.clean {
        return Failed(Internal);
      }
      var ok := SwitchToIntegration();
      if !ok {
        return Failed(Internal);
      }
      var base := refs[INTEGRATION_BRANCH];
      var fault := ValidateDependencies(deps, base);
      if fault.Some? {
        return Failed(fault.value);
      }
      var branch, mode := INTEGRATION_BRANCH, Integration;
      if parallel {
        if AnyActiveSequential(records) {
          return Failed(Rejected);
        }
        var created := CreateParallelWorktree(task, choice);
        if created.Failure? {
          return Failed(created.error);
        }
        branch, mode := created.value, Parallel;
      } else {
        if AnyActiveSequential(records) {
          return Failed(Rejected);
        }
        if AnyPending(records) {
          return Failed(Rejected);
        }
      }
      var r := Record(mode, branch, base, None, Active, deps, None);
      records := records[task := r];
      out := Done(r);
    }

    /******* Completing *******/

    method CompleteTaskLocked(task: string, snap: Record) returns (out: Outcome)
      modifies this
      ensures (Now(), out) == CompleteBody(old(Now()), task, snap)
    {
      var c := CheckoutAt(Now(), WorkspaceOf(task, snap));
      if c.None? || !c.value.clean {
        return Failed(Internal);
      }
      if ShowCurrent(c.value) != snap.branch {
        return Failed(Rejected);
      }
      var head := HeadCommit(Now(), c.value);
      if head.None? {
        return Failed(Internal);
      }
      var r := snap.(head := head);
      r := r.(status := Completed);
      records := records[task := r];
      out := Done(r);
    }

    /******* Merging *******/

    /** The recorded head, provided branch and worktree HEAD still equal it. */
    method ValidateRecordedHead(snap: Record, ws: Workspace) returns (r: Result<Commit, Fault>)
      requires CheckoutAt(Now(), ws).Some?
      ensures var c := CheckoutAt(Now(), ws).value;
              r == if snap.head.None? || snap.branch !in refs || HeadCommit(Now(), c).None? then Failure(Internal)
                   else if HeadUnmoved(Now(), snap, c) then Success(snap.head.value)
                   else Failure(Rejected)
    {
      if snap.head.None? || snap.branch !in refs {
        return Failure(Internal);
      }
      var workspaceHead := HeadCommit(Now(), CheckoutAt(Now(), ws).value);
      if workspaceHead.None? {
        return Failure(Internal);
      }
      if refs[snap.branch] != snap.head.value || workspaceHead.value != snap.head.value {
        return Failure(Rejected);
      }
      r := Success(snap.head.value);
    }

    /** Everything but the record update. */
    method MergeParallelWorktree(ghost task: string, snap: Record, ws: Workspace, choice: Choice) returns (r: Result<Commit, Fault>)
      requires ws == WorkspaceOf(task, snap)
      modifies this`refs, this`agent, this`trees
      ensures var (w, out) := MergeBody(old(Now()), task, snap, choice);
              && (r.Success? <==> out.Done?)
              && (r.Failure? ==> out == Failed(r.error) && Now() == w)
              && (r.Success? ==>
                    && out.record == snap.(status := Merged, mergeCommit := Some(r.value))
                    && Now() == w.(records := records)
                    && w.records == records[task := out.record])
    {
      var c := CheckoutAt(Now(), ws);
      if c.None? || !c.value.clean {
        return Failure(Internal);
      }
      if !agent.clean {
        return Failure(Internal);
      }
      var recorded := ValidateRecordedHead(snap, ws);
      if recorded.Failure? {
        return Failure(recorded.error);
      }
      var ok := SwitchToIntegration();
      if !ok {
        return Failure(Internal);
      }
      ok := MergeNoFastForward(recorded.value, choice);
      if !ok {
        return Failure(Rejected);
      }
      var merged := refs[INTEGRATION_BRANCH];
      ok := WorktreeRemove(ws, false);
      if !ok {
        return Failure(Internal);
      }
      ok := BranchDelete(snap.branch, false);
      if !ok {
        return Failure(Internal);
      }
      r := Success(merged);
    }

    method MergeTaskLocked(task: string, snap: Record, choice: Choice) returns (out: Outcome)
      modifies this
      ensures (Now(), out) == MergeBody(old(Now()), task, snap, choice)
    {
      var ws := WorkspaceOf(task, snap);
      var merged := MergeParallelWorktree(task, snap, ws, choice);
      if merged.Failure? {
        return Failed(merged.error);
      }
      var r := snap.(status := Merged);
      r := r.(mergeCommit := Some(merged.value));
      records := records[task := r];
      out := Done(r);
    }

    /******* Aborting *******/

    method AbortTaskLocked(task: string, snap: Record) returns (out: Outcome)
      modifies this
      ensures (Now(), out) == AbortBody(old(Now()), task, snap)
    {
      var ws := WorkspaceOf(task, snap);
      if CheckoutAt(Now(), ws).Some? {
        var removed := WorktreeRemove(ws, true);
        if !removed {
          return Failed(Internal);
        }
      } else {
        assert trees - {task} == trees;
      }
      if snap.branch in refs {
        var deleted := BranchDelete(snap.branch, true);
        if !deleted {
          return Failed(Internal);
        }
      } else {
        assert refs - {snap.branch} == refs;
      }
      var r := snap.(status := Aborted);
      records := records[task := r];
      out := Done(r);
    }

    /******* Synchronising with human main *******/

    method SynchronizeAgentRepository(bundle: string) returns (out: SyncOutcome)
      modifies this
      ensures (Now(), out) == SyncBody(old(Now()), bundle)
    {
      if bundle !in inbound {
        return SyncFailed(Internal);
      }
      if !agent.clean {
        return SyncFailed(Internal);
      }
      var theirs := inbound[bundle];
      if !FetchAccepted(Now(), theirs) {
        return SyncFailed(Internal);
      }
      human := Some(theirs);
      var ok := SwitchToIntegration();
      if !ok {
        return SyncFailed(Internal);
      }
      var ours := refs[INTEGRATION_BRANCH];
      var action: SyncAction;
      if ours == theirs {
        action := AlreadySynchronized;
      } else if Ancestor(ours, theirs) {
        refs := refs[INTEGRATION_BRANCH := theirs];
        action := FastForwarded;
      } else if Ancestor(theirs, ours) {
        action := IntegrationAhead;
      } else {
        return SyncFailed(Rejected);
      }
      inbound := inbound - {bundle};
      out := Synced(action, refs[INTEGRATION_BRANCH]);
    }
  }
}
