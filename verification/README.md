# Verification of the agent development platform

A Dafny model of the broker (`agentd`), its Git task lifecycle, its execution policies, its
interactive executor loop, its RPC protocol and its provider-state reconciliation, with proofs of
what they keep. `dafny verify dfyconfig.toml` checks everything.

## What is modelled

**Task and Git lifecycle.** `Commits` models commits as content-addressed values that carry their
history. `Lifecycle` specifies what each locked body (start, complete, merge, abort, synchronise)
does to refs, checkouts, worktrees, task records and inbound bundles, including every refusal by Git.
`AgentRepository` and `GitHandoff` write the same operations as ordered commands on mutable state and
are proved against that specification; `LifecycleOutcomes` says exactly when each operation succeeds. On top
there are two layers:

- *Atomic* (`Atomic`): one request is one step.
- *Interleaved* (`Broker`, `BrokerInvariant`, `BrokerTheorems`, `BrokerProgress`, `BrokerWitness`, `Granularity`):
  reading and checking the record, taking each lock, and running the locked body are separate
  steps of any number of concurrent requests, so a body may work from a stale record.

The table says which layer a row about runs belongs to. Its rows name lemmas and methods; the functions they
specify, such as `Lifecycle.MergeBody` or `PolicyResolver.Merge`, have no rows of their own.

**Policies.** `PolicySchema` normalises policy documents, `PolicySerialization` with `Json` and `Text`
prints them canonically (`Toml` reads compiled strings back), `PolicyResolver` overlays restriction layers and rejects widening,
`PolicyNarrowing` says what that means dimension by dimension, `PolicyExactness` says leaf by leaf what a
resolution yields, `PolicyCompile` matches capabilities and compiles to Codex arguments and Cursor's sandbox
document, and `CompiledSettings` says what those contain.

**Processes.** `Interactive` is the executor loop over a pseudo-terminal, `Rpc` the server and client of
one request, `Reconcile` the update of managed fields in provider state.

## Where the code does less than it says

- "Merged" is not final: `task-abort` does not read its record again under its locks. Proved exactly:
  `BrokerTheorems.MergedChangesOnlyByStaleAbort`, with a run in `BrokerWitness.MergedCanBecomeAborted`.
- "cannot sync while tasks are active" is checked before the lock only. Proved exactly:
  `BrokerTheorems.BusyAfterSyncCheckIff` and `BrokerTheorems.SyncMovesUnderTaskIff`, with a run in
  `BrokerWitness.SyncCanPassActiveTask`.
- A bundle whose history integration already contains can still be refused, because the fetch does not
  move the human branch backwards (`Atomic.RewoundBundleIsRefused`; exact condition in `Atomic.SyncIsExact`).
- A first installation of a provider state file copies the seed without validating it, so the next run can
  fail. Proved exactly: `Reconcile.ReconcilingAgainChangesNothing`, with an instance in
  `Reconcile.FirstInstallationIsUnchecked`.
- An empty state file is reconciled "successfully" to an empty one, without any managed value. Proved
  exactly: `Reconcile.ManagedIff`, with the instance `Reconcile.EmptyStateStaysEmpty`.
- A destination may contain U+007F, which TOML does not accept unescaped, so its Codex domain table cannot be
  read. Proved exactly: `PolicyCompile.DomainTableDecodes` and `PolicyCompile.CodexNetwork`, with an
  instance in `PolicyCompile.UnreadableDestination`.
- The pseudo-terminal's master is closed after the container cleanup in one `finally`, so a cleanup that
  raises leaves it open (`Interactive.EveryExitIsClean`).
- A request whose `op` is a list or an object is answered as an internal error, not as an unsupported
  operation. Proved exactly: `Rpc.UnknownOperation`, with the instance `Rpc.ListIsNoOperation`.

## Assumptions about the environment

- A locked body is one step. All bodies but parallel completions hold the integration lock, so what can
  really run in the middle of another body is a parallel completion or an executor of a parallel task. `Granularity`
  proves that both commute with every body for another task, and that no single read of a start can tell
  whether a completion has happened.
- An executor with a writable mount advances its own branch to descendants, dirties or cleans its own checkout, and
  moves its own HEAD between its branch and detached commits; nothing else.
- At most one start per task name is in flight. The check that a record does not exist yet is made
  before the lock.
- `flock` blocks on every conflicting holder, also on another handle of the same thread. Executors exit
  when asked to; `NoDeadlock` uses this.
- Git in a missing directory fails; `worktree add -b` fails on an existing branch; `branch -d` needs the
  branch contained in HEAD; `merge --no-ff` conflicts, is up to date, or makes a two-parent commit.
- A deployed seed file holds at most one JSON document. After an error on a state document other than the
  last, jq's exit status may or may not report it; both are covered (`Reconcile.Reporting`).
- Python's `repr` of non-integral floats is a finite injective table of number tokens that are not
  integer tokens.
- The terminal hands out the child's bytes in order and reports its end only when none are left. A child
  does not survive SIGKILL, and "no such process" means that it is gone.

## Model

| member | source | states |
|---|---|---|
| `Commits.AncestorTransitive` | platform-src/agentdev/core/dependencies.py:56-63 | `merge-base --is-ancestor` on content-addressed commits is transitive |
| `Commits.AncestorAntisymmetric` | platform-src/agentdev/core/git_handoff.py:102-112 | two commits that are ancestors of each other are the same commit, so the branches of a synchronisation exclude each other |
| `Commits.MergeDescends` | platform-src/agentdev/core/worktrees.py:64-68 | a merge commit descends from both of its sides |
| `AgentRepository.Repository.SwitchToIntegration` | platform-src/agentdev/core/worktrees.py:63-63 | `git switch agent/integration`: refused exactly when the branch is missing or checked out in a linked worktree; otherwise only HEAD of repo/agent changes |
| `AgentRepository.Repository.MergeNoFastForward` | platform-src/agentdev/core/worktrees.py:64-67 | `git merge --no-ff`: already up to date, a conflict that leaves the branch where it was, or a commit with both parents |
| `AgentRepository.Repository.WorktreeRemove` | platform-src/agentdev/core/worktrees.py:69-83 | refuses a missing worktree and, without force, a dirty one |
| `AgentRepository.Repository.BranchDelete` | platform-src/agentdev/core/worktrees.py:70-92 | safe deletion needs the branch contained in HEAD; no deletion of a checked-out branch |
| `AgentRepository.Repository.ValidateDependencies` | platform-src/agentdev/core/dependencies.py:23-66 | the loop reports no fault exactly when every dependency is integrated and its commit is an ancestor of the base; otherwise the fault class of the first unmet one |
| `AgentRepository.Repository.CreateParallelWorktree` | platform-src/agentdev/core/worktrees.py:16-28 | branch and worktree are created together from integration or not at all |
| `AgentRepository.Repository.StartTaskLocked` | platform-src/agentdev/core/tasks.py:120-177 | the ordered steps of a start have the effect of `Lifecycle.StartBody` on every path |
| `AgentRepository.Repository.CompleteTaskLocked` | platform-src/agentdev/core/tasks.py:185-204 | completion has the effect of `Lifecycle.CompleteBody` for any, possibly stale, record |
| `AgentRepository.Repository.ValidateRecordedHead` | platform-src/agentdev/core/worktrees.py:31-48 | accepts exactly when branch and worktree HEAD both equal the recorded head |
| `AgentRepository.Repository.MergeParallelWorktree` | platform-src/agentdev/core/worktrees.py:51-71 | the ordered Git steps of a merge have the effect of `Lifecycle.MergeBody` short of the record |
| `AgentRepository.Repository.MergeTaskLocked` | platform-src/agentdev/core/tasks.py:212-230 | a merge with its record update has the effect of `Lifecycle.MergeBody` on every path |
| `AgentRepository.Repository.AbortTaskLocked` | platform-src/agentdev/core/tasks.py:238-253 | an abort has the effect of `Lifecycle.AbortBody`, whether or not worktree and branch still exist |
| `AgentRepository.Repository.SynchronizeAgentRepository` | platform-src/agentdev/core/git_handoff.py:86-115 | the ordered Git steps of a synchronisation have the effect of `Lifecycle.SyncBody` on every path |
| `GitHandoff.Handoff.Build` | platform-src/agentdev/core/git_handoff.py:66-77 | the command sequence of an initialisation, any one of which may fail, and the HEAD check at its end |
| `GitHandoff.Handoff.InitializeAgentRepository` | platform-src/agentdev/core/git_handoff.py:53-83 | succeeds exactly on a fresh project whose bundle has the expected commit and whose commands all work; any failure removes the partial repository and keeps the bundle |
| `LifecycleInvariant.InitialKeeps` | platform-src/agentdev/core/git_handoff.py:66-83 | a freshly initialised repository satisfies the repository invariant |
| `LifecycleInvariant.StartKeeps` | platform-src/agentdev/core/tasks.py:120-177 | a start keeps the repository invariant and leaves the integration head where it was |
| `LifecycleInvariant.ParallelIntegrationRefused` | platform-src/agentdev/core/worktrees.py:23-27 | a parallel task named "integration" can never get a worktree, because its branch is the integration branch |
| `LifecycleInvariant.CompleteKeeps` | platform-src/agentdev/core/tasks.py:185-204 | a completion from a stale record keeps the repository invariant and moves no ref |
| `LifecycleInvariant.CompleteEvolves` | platform-src/agentdev/core/tasks.py:185-204 | a completion that succeeds records the current head of its own branch, and for a parallel one the record was still pending; a failed one changes nothing |
| `LifecycleInvariant.UnmovedHeadIsCurrent` | platform-src/agentdev/core/worktrees.py:39-48 | a stale merge that passes the head check works on the head that is recorded now |
| `LifecycleInvariant.CleanupCannotBeRefused` | platform-src/agentdev/core/worktrees.py:60-71 | once the merge command succeeds, worktree removal and safe branch deletion meet their preconditions, and the record ends merged with its recorded head below its merge commit |
| `LifecycleInvariant.MergeEffect` | platform-src/agentdev/core/tasks.py:212-230 | the full effect of a merge from a stale record: rejected without change except for the switch, or exactly one record, branch, worktree and the integration ref change |
| `LifecycleInvariant.MergeKeeps` | platform-src/agentdev/core/tasks.py:212-230 | a merge from a stale record keeps the repository invariant |
| `LifecycleInvariant.AbortRuns` | platform-src/agentdev/core/worktrees.py:74-92 | an abort from a pending snapshot always runs to its end: branch and worktree gone, the record aborted, everything else as before |
| `LifecycleInvariant.AbortKeeps` | platform-src/agentdev/core/tasks.py:238-253 | an abort from a stale record keeps the repository invariant |
| `LifecycleInvariant.SyncKeeps` | platform-src/agentdev/core/git_handoff.py:86-115 | a synchronisation keeps the repository invariant although its task check was made before the lock |
| `LifecycleInvariant.SyncMovesIff` | platform-src/agentdev/core/git_handoff.py:94-112 | a synchronisation moves the integration branch exactly if it can fetch and the human commit is a proper descendant |
| `LifecycleInvariant.WorkKeeps` | platform-src/agentdev/broker/daemon.py:609-616 | an executor that works from a stale record, within the environment assumption, keeps the repository invariant |
| `LifecycleInvariant.SnapStaysOk` | platform-src/agentdev/core/tasks.py:61-97 | what a record read before the lock tells about identity, base and heads survives every later step |
| `LifecycleOutcomes.MetMeansIntegrated` | platform-src/agentdev/core/dependencies.py:31-66 | a start accepts its dependencies if and only if each is merged, or completed if an integration task, at a commit in the history of the base |
| `LifecycleOutcomes.UnmetIsRejected` | platform-src/agentdev/core/dependencies.py:35-66 | in a valid repository an unmet dependency is always an answer to the request, never a fault |
| `LifecycleOutcomes.StartSucceedsIff` | platform-src/agentdev/core/tasks.py:138-160 | exactly when a start succeeds, parallel or not |
| `LifecycleOutcomes.StartRecordsTask` | platform-src/agentdev/core/tasks.py:144-177 | the record, branch, worktree and everything else after a successful start, for each mode |
| `LifecycleOutcomes.StartFault` | platform-src/agentdev/core/tasks.py:138-156 | which refused starts are faults (code 1) and which are answers (code 2) |
| `LifecycleOutcomes.FreeNames` | platform-src/agentdev/core/worktrees.py:23-27 | for a new name, worktree and branch are free unless the name is "integration" |
| `LifecycleOutcomes.CompleteSucceedsIff` | platform-src/agentdev/core/tasks.py:196-204 | exactly when a completion succeeds, what it records, and which refusal is which |
| `LifecycleOutcomes.MergeSucceedsIff` | platform-src/agentdev/core/worktrees.py:60-71 | exactly when a merge succeeds, and the integration head it leaves: unchanged if up to date, else a commit with both heads as parents |
| `LifecycleOutcomes.MergeFault` | platform-src/agentdev/core/worktrees.py:60-67 | which refused merges are faults and which are answers |
| `LifecycleOutcomes.SyncFault` | platform-src/agentdev/core/git_handoff.py:95-112 | a refused synchronisation is an answer exactly on diverged histories that could be fetched |
| `LifecycleOutcomes.LoadSucceedsIff` | platform-src/agentdev/core/tasks.py:61-97 | in a valid repository a task is found unless it has no record (fault) or is aborted (answer); its workspace always exists |
| `LifecycleOutcomes.AdmittedIff` | platform-src/agentdev/broker/daemon.py:750-876 | exactly which requests pass the checks before their locks, and which refusals are faults |
| `LifecycleOutcomes.ValidNameIff` | platform-src/agentdev/core/validation.py:10-25 | exactly which names are valid |
| `LifecycleOutcomes.ValidStartIff` | platform-src/agentdev/core/dependencies.py:13-20 | exactly which start requests are valid |
| `LifecycleOutcomes.ValidNamesAreSafe` | platform-src/agentdev/core/validation.py:10-25 | a valid name is one path and branch component, never an option, and read back from its branch |
| `Atomic.AtomicRunKeeps` | platform-src/agentdev/core/dependencies.py:31-66 | atomic: along every run each dependency of each record is integrated into its base |
| `Atomic.ClosureIntegrated` | platform-src/agentdev/core/dependencies.py:31-66 | atomic: the same for the transitive closure, and starts are ordered along dependencies |
| `Atomic.HandlingIsCheckThenBody` | platform-src/agentdev/broker/daemon.py:795-876 | one atomic request has the effect on the repository of its check and its body in the interleaved broker, one right after the other |
| `Atomic.ExecutingIsWorking` | platform-src/agentdev/broker/daemon.py:1191-1203 | an executor action is allowed in both layers or in neither, with the same effect |
| `Atomic.DependencyClosureIsInBase` | platform-src/agentdev/core/tasks.py:111-177 | atomic: in every run each member of a task's transitive closure is integrated, its integrated commit is an ancestor of the base commit, and no task is in its own closure |
| `Atomic.RejectedStartChangesNothing` | platform-src/agentdev/core/tasks.py:138-161 | a rejected start leaves records, refs, worktrees and bundles unchanged; at most repo/agent has switched branch |
| `Atomic.RejectedMergeChangesNothing` | platform-src/agentdev/core/worktrees.py:64-67 | a rejected or conflicting merge leaves records, refs, worktrees and bundles unchanged |
| `Atomic.SyncIsExact` | platform-src/agentdev/core/git_handoff.py:86-115 | a synchronisation succeeds exactly on comparable histories with a clean checkout and a human branch that was not rewound; then integration is at the later history, the bundle is consumed and the action says which case it was. On diverged histories repo/agent has switched branch and the human branch stays at the fetched commit; if it cannot fetch nothing changes |
| `Atomic.RewoundBundleIsRefused` | platform-src/agentdev/core/git_handoff.py:97-98 | comparability alone is not enough: a run from a fresh repository after which the fetch refuses a bundle that integration contains |
| `BrokerInvariant.InitialInv` | platform-src/agentdev/broker/daemon.py:795-820 | interleaved: the initial state satisfies the invariant over threads, locks, log and repository |
| `BrokerInvariant.DependenciesMet` | platform-src/agentdev/core/dependencies.py:31-66 | validation reports no fault if and only if every listed dependency is met |
| `BrokerInvariant.StartBodyKeeps` | platform-src/agentdev/broker/daemon.py:795-820 | interleaved: a start, successful or not, keeps the invariant, with the commit accepted for each dependency in its base |
| `BrokerInvariant.CompleteBodyKeeps` | platform-src/agentdev/broker/daemon.py:823-838 | interleaved: a completion from a stale snapshot keeps the invariant |
| `BrokerInvariant.MergeBodyKeeps` | platform-src/agentdev/broker/daemon.py:841-858 | interleaved: a merge from a stale snapshot keeps the invariant |
| `BrokerInvariant.AbortBodyKeeps` | platform-src/agentdev/broker/daemon.py:861-876 | interleaved: an abort from a stale snapshot keeps the invariant |
| `BrokerInvariant.SyncBodyKeeps` | platform-src/agentdev/broker/daemon.py:750-767 | interleaved: a synchronisation keeps the invariant |
| `BrokerInvariant.WorkStepKeeps` | platform-src/agentdev/broker/daemon.py:609-616 | interleaved: an executor step keeps the invariant |
| `BrokerInvariant.StepKeeps` | platform-src/agentdev/broker/daemon.py:795-876 | interleaved: every enabled step keeps the invariant and only evolves the repository forward |
| `BrokerInvariant.RunKeeps` | platform-src/agentdev/broker/daemon.py:795-876 | interleaved: the same for every run from any state that satisfies the invariant |
| `BrokerTheorems.MergeTakesRecordedHead` | platform-src/agentdev/core/worktrees.py:31-71 | interleaved: a merge that changes its record takes in exactly a head that a completion logged, which is also the head recorded now, the branch head and the worktree HEAD |
| `BrokerTheorems.IntegrationNeverMovesBack` | platform-src/agentdev/core/worktrees.py:51-92 | interleaved: between any two points of a run the integration head moves forward, and every logged merge commit and completed integration head stays an ancestor of it |
| `BrokerTheorems.IntegrationWorkIsExclusive` | platform-src/agentdev/core/tasks.py:138-161 | interleaved: at most one integration task is active, and beside it no parallel task is active or completed |
| `BrokerTheorems.PendingIffPresent` | platform-src/agentdev/core/worktrees.py:16-28 | interleaved: a worktree, and a branch, exist exactly while the record is pending |
| `BrokerTheorems.TerminalNeverRevives` | platform-src/agentdev/core/tasks.py:61-97 | interleaved: a merged or aborted record never becomes pending again, and an aborted one stays aborted |
| `BrokerTheorems.StaleRequestFails` | platform-src/agentdev/broker/daemon.py:823-858 | interleaved: a complete or merge whose task became terminal before its locks were granted changes nothing |
| `BrokerTheorems.StaleAbortOnlyRewritesRecord` | platform-src/agentdev/broker/daemon.py:861-876 | interleaved: an abort that is granted its locks after the task became terminal touches no ref and no worktree |
| `BrokerTheorems.MergedChangesOnlyByStaleAbort` | platform-src/agentdev/broker/daemon.py:861-876 | interleaved: "merged stays merged" fails for a step if and only if the step is the locked body of an abort of that task |
| `BrokerTheorems.BodyTouchesOwnRecord` | platform-src/agentdev/broker/daemon.py:823-876 | interleaved: no locked body rewrites the record of another task |
| `BrokerTheorems.DependencyChain` | platform-src/agentdev/core/dependencies.py:31-66 | along every dependency path the accepted commit of the last task is in the base of the first, and start ranks fall strictly |
| `BrokerTheorems.AcceptedDependenciesAreInBase` | platform-src/agentdev/core/dependencies.py:31-66 | interleaved: the same in every run, for the commit seen at acceptance; no dependency path is a cycle |
| `BrokerTheorems.AcceptedStaysIntegrated` | platform-src/agentdev/core/dependencies.py:40-55 | interleaved: an accepted dependency is never active or pending again; while merged its merge commit is the accepted commit, and a completed integration head is the accepted one or a later one |
| `BrokerTheorems.LockCoversWorkspace` | platform-src/agentdev/core/locking.py:40-51 | the lock and the workspace chosen from one snapshot agree, and the lock is exclusive exactly when the body or mount may write |
| `BrokerTheorems.WritersAreAlone` | platform-src/agentdev/broker/daemon.py:1101-1210 | interleaved: whoever may write a workspace overlaps no other executor or lifecycle operation there; readers may overlap |
| `BrokerTheorems.GitDirectorySharing` | platform-src/agentdev/broker/daemon.py:609-616 | interleaved: two threads are inside with the shared Git directory, one of them writing, only if one of them holds just the lock of a parallel task |
| `BrokerTheorems.WorkspaceLocksDiffer` | platform-src/agentdev/core/locking.py:40-51 | interleaved: different existing workspaces have different locks |
| `BrokerTheorems.LockOrder` | platform-src/agentdev/broker/daemon.py:841-876 | interleaved: nested locks are integration first, then a task lock of another name |
| `BrokerTheorems.IntegrationNamedTaskWouldDeadlock` | platform-src/agentdev/broker/daemon.py:847-848 | a merge or abort of a parallel task named "integration" would wait for itself; with `LockOrder` no such request is reachable |
| `BrokerProgress.RunToEnd` | platform-src/agentdev/core/locking.py:20-37 | a request that no other one blocks can take its remaining locks and finish, with the effect of its body |
| `BrokerProgress.SomeUnblocked` | platform-src/agentdev/core/locking.py:20-37 | interleaved: among requests in flight some one is blocked by no other |
| `BrokerProgress.NoDeadlock` | platform-src/agentdev/core/locking.py:11-51 | interleaved: from every reachable state all requests in flight can finish, by steps of those requests only |
| `BrokerWitness.MergedCanBecomeAborted` | platform-src/agentdev/broker/daemon.py:864-876 | interleaved: a concrete reachable run in which a merged record becomes aborted |
| `BrokerTheorems.BusyAfterSyncCheckIff` | platform-src/agentdev/broker/daemon.py:755-759 | interleaved: at any time after the pre-lock check of a synchronisation a task is active or pending if and only if one that was started after the check is |
| `BrokerTheorems.SyncMovesUnderTaskIff` | platform-src/agentdev/broker/daemon.py:755-767 | interleaved: a synchronisation moves the integration branch under an active or pending task if and only if a task started after its check is active or pending and Git fetches a proper descendant |
| `BrokerWitness.SyncCanPassActiveTask` | platform-src/agentdev/broker/daemon.py:755-767 | interleaved: a concrete reachable run in which a synchronisation moves integration while an integration task is active |
| `Granularity.ProgressIsInvisible` | platform-src/agentdev/core/tasks.py:40-53 | each read a start makes of the records gives the same before and after the progress of a pending task |
| `Granularity.StartIgnoresProgress` | platform-src/agentdev/core/tasks.py:138-160 | replacing one pending record by another commutes with a start: same outcome, same world up to that record |
| `Granularity.CompletionCommutesWithStart` | platform-src/agentdev/broker/daemon.py:804-838 | a parallel completion, which a start does not exclude, commutes with it: the same world and the same two outcomes in either order |
| `Granularity.CompletionCommutesWithMerge` | platform-src/agentdev/broker/daemon.py:823-858 | a parallel completion commutes with the merge of another task |
| `Granularity.CompletionCommutesWithAbort` | platform-src/agentdev/broker/daemon.py:823-876 | a parallel completion commutes with the abort of another task |
| `Granularity.CompletionCommutesWithCompletion` | platform-src/agentdev/broker/daemon.py:823-838 | a parallel completion commutes with the completion of another task of either mode |
| `Granularity.CompletionCommutesWithSync` | platform-src/agentdev/broker/daemon.py:759-838 | a parallel completion commutes with a synchronisation |
| `Granularity.ActionIsLocal` | platform-src/agentdev/broker/daemon.py:609-616 | whatever an executor of a parallel task does replaces its branch head and checkout only |
| `Granularity.ActionCommutesWithStart` | platform-src/agentdev/broker/daemon.py:804-820 | an executor action on a parallel task commutes with a start |
| `Granularity.ActionCommutesWithMerge` | platform-src/agentdev/broker/daemon.py:847-858 | an executor action on a parallel task commutes with the merge of another |
| `Granularity.ActionCommutesWithAbort` | platform-src/agentdev/broker/daemon.py:866-876 | an executor action on a parallel task commutes with the abort of another |
| `Granularity.ActionCommutesWithSync` | platform-src/agentdev/broker/daemon.py:759-767 | an executor action on a parallel task commutes with a synchronisation |
| `Granularity.ActionCommutesWithCompletion` | platform-src/agentdev/broker/daemon.py:829-838 | an executor action on a parallel task commutes with the completion of another |
| `Text.Sorted` | platform-src/agentdev/policy/schema.py:130-130 | `sorted`: the ascending enumeration by code point, with exactly the given elements |
| `Text.BeforeIff` | platform-src/agentdev/policy/serialization.py:28-34 | the order of keys and destinations: a proper prefix first, else the smaller code point at the first difference |
| `Text.AscendingUnique` | platform-src/agentdev/policy/schema.py:130-130 | an ascending list is determined by its elements, so the order given does not matter |
| `Json.NatOfDigits` | platform-src/agentdev/policy/serialization.py:28-34 | decimal digits of an integer read back |
| `Json.ReadEscapedAll` | platform-src/agentdev/policy/serialization.py:28-34 | string escaping (section 7 of RFC 8259) is inverted by reading up to the closing quotation mark, for every string |
| `Json.ParsePrint` | platform-src/agentdev/policy/serialization.py:28-34 | compact sorted-key printing followed by parsing is the identity on every printable value and leaves what follows it |
| `Json.EscapeIs` | platform-src/agentdev/policy/serialization.py:28-34 | exactly how each character is written in a string |
| `Json.DigitsAreCanonical` | platform-src/agentdev/policy/serialization.py:28-34 | integers are written without leading zeros |
| `Json.PrintIsCompact` | platform-src/agentdev/policy/serialization.py:28-34 | separators carry no space, and of two members the one with the earlier key comes first |
| `Json.PrintInjective` | platform-src/agentdev/policy/serialization.py:28-34 | two printable values have the same text exactly when they are equal |
| `PolicySchema.NormalizeDestinationList` | platform-src/agentdev/policy/schema.py:110-130 | the loop with its seen set accepts exactly lists of valid distinct destinations and returns them sorted |
| `PolicySchema.SortListIsSorted` | platform-src/agentdev/policy/schema.py:130-130 | sorting the accepted list gives the ascending enumeration of its elements |
| `PolicySchema.MemoryPositive` | platform-src/agentdev/policy/schema.py:91-107 | every accepted memory quantity is positive |
| `PolicySchema.MemoryTextIs` | platform-src/agentdev/policy/schema.py:91-107 | the value of a quantity with each suffix, in either case; any other suffix is refused |
| `PolicySchema.MemoryTextOnly` | platform-src/agentdev/policy/schema.py:100-104 | nothing but a quantity without leading zero and at most one suffix is accepted |
| `PolicySchema.ValidDestinationIff` | platform-src/agentdev/policy/schema.py:116-125 | a destination is valid if and only if it is not empty, equals its stripped form, and has neither NUL nor newline |
| `PolicySchema.NormalizedDestinationsAre` | platform-src/agentdev/policy/schema.py:110-130 | a destination list is accepted if and only if its items are valid and distinct; the result is those in ascending order |
| `PolicySchema.WhitespaceIs` | platform-src/agentdev/policy/schema.py:119-119 | the characters a destination may not start or end with |
| `PolicySchema.CpuIs` | platform-src/agentdev/policy/schema.py:77-88 | exactly which cpu limits are accepted, and as what; a whole one is written as an integer |
| `PolicySchema.FromDictValid` | platform-src/agentdev/policy/schema.py:389-425 | whatever `from_dict` accepts satisfies the constructors' checks |
| `PolicySchema.StringsNormalize` | platform-src/agentdev/policy/schema.py:110-130 | normal destinations are their own normal form |
| `PolicySchema.DictRoundTrip` | platform-src/agentdev/policy/schema.py:389-439 | `from_dict(as_dict(p))` is p for every valid policy |
| `PolicySerialization.CanonicalRoundTrip` | platform-src/agentdev/policy/serialization.py:25-34 | a parser and `from_dict` recover every valid policy from its canonical JSON, for arbitrary destination strings |
| `PolicySerialization.SameTextIffSamePolicy` | platform-src/agentdev/policy/serialization.py:25-34 | two valid policies have the same canonical text exactly when they are equal |
| `PolicyResolver.MergeRestrictions` | platform-src/agentdev/policy/resolver.py:59-93 | the recursive loop over a layer computes `Merge`, in whatever order it visits the fields |
| `PolicyResolver.NotWiderReflexive` | platform-src/agentdev/policy/resolver.py:179-242 | narrowing is reflexive |
| `PolicyResolver.NotWiderTransitive` | platform-src/agentdev/policy/resolver.py:179-242 | narrowing is transitive on valid policies, network mode and destination sets included |
| `PolicyResolver.NotWiderAntisymmetric` | platform-src/agentdev/policy/resolver.py:179-242 | two valid policies that do not widen each other are equal |
| `PolicyResolver.ResolveLayers` | platform-src/agentdev/policy/resolver.py:248-269 | the loop that replaces the effective policy layer by layer computes `Resolve` |
| `PolicyResolver.CandidateValid` | platform-src/agentdev/policy/resolver.py:96-109 | an overlaid candidate that normalises is a valid policy |
| `PolicyResolver.ResolutionNarrows` | platform-src/agentdev/policy/resolver.py:248-269 | for any number of layers an accepted resolution is valid and not wider than the baseline |
| `PolicyResolver.ResolveSplits` | platform-src/agentdev/policy/resolver.py:248-269 | resolving a stack is resolving its first part and then the rest |
| `PolicyResolver.ResolutionBelowIntermediate` | platform-src/agentdev/policy/resolver.py:248-269 | an accepted resolution is not wider than any intermediate policy |
| `PolicyNarrowing.WideningIs` | platform-src/agentdev/policy/resolver.py:179-242 | the check passes if and only if no dimension is widened, with every value written out; otherwise it names the first widened one |
| `PolicyNarrowing.ResolutionWithin` | platform-src/agentdev/policy/resolver.py:248-269 | an accepted result grants no more than the baseline and any intermediate policy: write, read, network, credentials, each Git permission, sandbox, cpu, memory, pids and class |
| `PolicyNarrowing.LayerAcceptedIff` | platform-src/agentdev/policy/resolver.py:96-109 | a layer is accepted if and only if it yields a policy that widens no dimension; an escalation is reported for the first widened one |
| `PolicyExactness.OverlayLookup` | platform-src/agentdev/policy/resolver.py:59-93 | below an overlay a plain value is the layer's if the layer reaches it, else the base's |
| `PolicyExactness.MergedDestinations` | platform-src/agentdev/policy/resolver.py:85-93 | the destinations after an overlay: given, cleared on leaving allowlist mode, or inherited |
| `PolicyExactness.AcceptedLeaf` | platform-src/agentdev/policy/schema.py:389-425 | each leaf of an accepted document normalises to what the policy holds |
| `PolicyExactness.LayerLeaf` | platform-src/agentdev/policy/resolver.py:96-109 | one layer: a leaf is the normal form of what the layer mentions, else unchanged |
| `PolicyExactness.LayerDestinations` | platform-src/agentdev/policy/resolver.py:85-109 | one layer: the destinations, with the clearing rule |
| `PolicyExactness.ResolutionIsExact` | platform-src/agentdev/policy/resolver.py:248-269 | any stack: a leaf of an accepted result is the normalised value of the last layer that mentions it, else the baseline's |
| `PolicyExactness.DestinationsAreExact` | platform-src/agentdev/policy/resolver.py:248-269 | any stack: the destinations are those last given when the result is an allowlist, and none otherwise |
| `PolicyExactness.OverlaySim` | platform-src/agentdev/policy/resolver.py:59-93 | whether an overlay succeeds depends on the base only through its objects and keys |
| `PolicyExactness.FromLeaves` | platform-src/agentdev/policy/schema.py:389-425 | a document of the right shape whose leaves normalise to a valid policy's is accepted as that policy |
| `PolicyExactness.ShapeMeans` | platform-src/agentdev/policy/schema.py:40-55 | the keys of every object of an accepted document |
| `PolicyExactness.AcceptedIff` | platform-src/agentdev/policy/schema.py:389-425 | a document is accepted if and only if it has the right shape, each leaf is allowed, and destinations are given exactly in allowlist mode |
| `PolicyExactness.OverlaySucceedsIff` | platform-src/agentdev/policy/resolver.py:70-73 | an overlay fails exactly on a field the base does not have |
| `PolicyExactness.CandidateSucceedsIff` | platform-src/agentdev/policy/resolver.py:96-109 | exactly which layers yield a candidate |
| `PolicyExactness.EmptyLayerChangesNothing` | platform-src/agentdev/policy/resolver.py:59-109 | a layer that says nothing is accepted and changes nothing |
| `PolicyExactness.ReapplyingChangesNothing` | platform-src/agentdev/policy/resolver.py:96-109 | applying an accepted layer a second time is accepted and changes nothing |
| `PolicyCompile.RequiredOf` | platform-src/agentdev/policy/capabilities.py:35-59 | the requirement set built branch by branch |
| `PolicyCompile.ClassMustBeListed` | platform-src/agentdev/policy/capabilities.py:96-133 | a security class a driver does not list is missing, whatever else it offers |
| `PolicyCompile.CompatibilityIsCovered` | platform-src/agentdev/policy/capabilities.py:96-133 | a compatibility policy requires nothing beyond workspace modes and the class itself |
| `PolicyCompile.DriversMatchCompatibilityOnly` | platform-src/agentdev/agents/codex.py:163-174 | Codex and Cursor match exactly the compatibility class |
| `Toml.BasicOfJson` | platform-src/agentdev/agents/codex.py:83-86 | the JSON text of a string is read back as a TOML basic string if and only if it does not contain U+007F |
| `PolicyCompile.DomainTableDecodes` | platform-src/agentdev/agents/codex.py:82-87 | TOML reads a domain table if and only if its destinations are distinct and without U+007F; then it allows exactly those |
| `PolicyCompile.UnreadableDestination` | platform-src/agentdev/agents/codex.py:82-87 | a valid destination whose domain table TOML does not read |
| `PolicyCompile.CompileCodex` | platform-src/agentdev/agents/codex.py:236-297 | appending argument groups step by step gives the compiled settings or the first refusal |
| `PolicyCompile.CodexCompilesIff` | platform-src/agentdev/agents/codex.py:236-297 | exactly which valid policies Codex compiles |
| `PolicyCompile.CodexNetwork` | platform-src/agentdev/agents/codex.py:253-278 | an argument that opens the network, disables the proxy or names domains appears only for the modes that ask for it, and a domain table is the policy's, readable exactly if no destination contains U+007F |
| `PolicyCompile.CodexGrants` | platform-src/agentdev/agents/codex.py:253-278 | a writable policy gets the network settings its mode asks for |
| `PolicyCompile.CodexHidesState` | platform-src/agentdev/agents/codex.py:280-293 | denied provider authentication compiles to hidden provider state inside the native sandbox |
| `PolicyCompile.CursorCompilesIff` | platform-src/agentdev/agents/cursor.py:211-270 | exactly which valid policies Cursor compiles |
| `PolicyCompile.DocumentAllows` | platform-src/agentdev/agents/cursor.py:66-98 | a sandbox document denies by default and allows exactly the policy's destinations |
| `CompiledSettings.RequiredMeans` | platform-src/agentdev/policy/capabilities.py:40-58 | which capabilities a policy requires, name by name |
| `CompiledSettings.AvailableMeans` | platform-src/agentdev/policy/capabilities.py:96-112 | which capabilities a driver offers, name by name |
| `CompiledSettings.HardenedMisses` | platform-src/agentdev/policy/capabilities.py:131-133 | for a hardened policy Codex lacks only the class, Cursor also the network controls |
| `CompiledSettings.CodexSandbox` | platform-src/agentdev/agents/codex.py:253-254 | a read policy gets the read-only sandbox and a write policy the workspace-write one, never asking for approval, with the isolation its sandbox flag selects |
| `CompiledSettings.CodexLocksProxy` | platform-src/agentdev/agents/codex.py:90-127 | an open network with an allowlist comes with every proxy lock, by its text |
| `CompiledSettings.CodexCredentials` | platform-src/agentdev/agents/codex.py:43-75 | denied provider authentication ends the arguments with the credential profile, by its text, extending the profile of the workspace access; otherwise nothing is added |
| `CompiledSettings.CodexRefusals` | platform-src/agentdev/agents/codex.py:236-283 | the reason for which Codex refuses a policy |
| `CompiledSettings.CursorRefusals` | platform-src/agentdev/agents/cursor.py:211-255 | the reason for which Cursor refuses a policy |
| `CompiledSettings.CursorSandbox` | platform-src/agentdev/agents/cursor.py:66-98 | a compiled policy has the sandbox disabled for an open network, else one generated document, by its text, with type, denied ranges and allowed destinations |
| `CompiledSettings.ReadBaselineStaysReadOnly` | platform-src/agentdev/agents/codex.py:253-254 | end to end: a baseline without write access compiles only to the read-only sandbox |
| `PolicyCompile.ResolvedFields` | platform-src/agentdev/policy/resolver.py:179-269 | what of a baseline survives any accepted stack, for the fields the compilers read |
| `PolicyCompile.DenyBaselineStaysOffline` | platform-src/agentdev/policy/resolver.py:153-176 | end to end: a deny baseline never compiles to settings that open the task network |
| `PolicyCompile.AllowlistBaselineBoundsCodex` | platform-src/agentdev/agents/codex.py:236-297 | end to end: an allowlist baseline compiles only to Codex domain tables that, if TOML reads them at all, stay inside its destinations, and never to an open network without a table |
| `PolicyCompile.AllowlistBaselineBoundsCursor` | platform-src/agentdev/agents/cursor.py:211-270 | end to end: an allowlist baseline compiles only to Cursor allow lists inside its destinations |
| `PolicyCompile.SandboxBaselineKeepsSandbox` | platform-src/agentdev/agents/cursor.py:211-270 | end to end: a sandbox-required baseline never compiles to a disabled sandbox under either driver |
| `PolicyCompile.AuthDenyBaselineHidesState` | platform-src/agentdev/agents/codex.py:280-293 | end to end: a baseline that denies provider authentication compiles only to settings that hide it |
| `PolicyCompile.HardenedBaselineCompilesNowhere` | platform-src/agentdev/policy/capabilities.py:115-133 | end to end: a hardened baseline compiles under neither driver |
| `Reconcile.GetBelowSet` | platform-src/agentdev/broker/daemon.py:445-450 | `getpath` at or below a path just set by `setpath` |
| `Reconcile.GetAboveSet` | platform-src/agentdev/broker/daemon.py:445-450 | `getpath` above a path just set |
| `Reconcile.GetApartFromSet` | platform-src/agentdev/broker/daemon.py:445-450 | `setpath` leaves unrelated paths alone |
| `Reconcile.SetSame` | platform-src/agentdev/broker/daemon.py:445-450 | setting a path to the non-null value it has changes nothing |
| `Reconcile.SetSucceedsIff` | platform-src/agentdev/broker/daemon.py:445-450 | `setpath` fails exactly when a plain value stands above the path |
| `Reconcile.AgreementSurvives` | platform-src/agentdev/broker/daemon.py:444-451 | setting the seed's value at one managed path keeps agreement at any other, overlapping or nested |
| `Reconcile.ApplyAgrees` | platform-src/agentdev/broker/daemon.py:444-451 | after the update program every path in it holds the seed's value |
| `Reconcile.ApplyLeavesRest` | platform-src/agentdev/broker/daemon.py:444-451 | the update program keeps every path unrelated to the managed ones |
| `Reconcile.ApplySucceedsIff` | platform-src/agentdev/broker/daemon.py:444-451 | exactly on which states the update program succeeds |
| `Reconcile.RunOverDocuments` | platform-src/agentdev/broker/daemon.py:444-451 | the program runs over every document of a file; the exit status reports any error or one on the last document |
| `Reconcile.SeedProviderHome` | platform-src/agentdev/broker/daemon.py:428-483 | building the checks and the program in one loop, then validating, running over the state's documents into a copy and moving it into place |
| `Reconcile.ReconciledValues` | platform-src/agentdev/broker/daemon.py:466-481 | after a success every document of the state file holds the seed's value at the managed field and at each managed path; no document is dropped exactly if the program failed on none, and then every unrelated value is kept |
| `Reconcile.ManagedIff` | platform-src/agentdev/broker/daemon.py:466-481 | after a success on an existing file the managed values are in it if and only if it had a document |
| `Reconcile.EmptyStateStaysEmpty` | platform-src/agentdev/broker/daemon.py:473-478 | an empty state file is replaced by an empty one, successfully |
| `Reconcile.ReconcilingAgainChangesNothing` | platform-src/agentdev/broker/daemon.py:466-481 | for every state, seed and plan a second run changes nothing; after a success it succeeds if and only if the seed is valid |
| `Reconcile.FirstInstallationIsUnchecked` | platform-src/agentdev/broker/daemon.py:469-470 | a first installation from an invalid seed succeeds, and the next run fails |
| `Reconcile.ReconciledIff` | platform-src/agentdev/broker/daemon.py:466-481 | exactly when the step succeeds on an existing file: a valid seed, and a state of JSON documents each of which (or the last) the program reaches; otherwise the file is untouched |
| `Interactive.Executor.TerminateProcessGroup` | platform-src/agentdev/runtime/podman.py:97-120 | the loop over the catchable signals and the final kill, one delivery at a time, computes `TerminateGroup` |
| `Interactive.Executor.RunInteractive` | platform-src/agentdev/runtime/podman.py:152-239 | the loop and its `finally`, for any environment and any number of turns, compute `Play` |
| `Interactive.TerminationEscalates` | platform-src/agentdev/runtime/podman.py:97-120 | a running child is interrupted, asked to terminate if and only if it survives that, and killed if and only if it survives both; then it has ended |
| `Interactive.KillIsNeeded` | platform-src/agentdev/runtime/podman.py:116-120 | a child that survives the first two signals runs until the third |
| `Interactive.NoSignalWithoutCause` | platform-src/agentdev/runtime/podman.py:219-239 | a child that ends by itself is never signalled |
| `Interactive.ReadsFullChunks` | platform-src/agentdev/runtime/podman.py:195-195 | a read takes all there is, up to 4096 bytes |
| `Interactive.EachTurnForwards` | platform-src/agentdev/runtime/podman.py:192-199 | a turn forwards at least the next piece of output before it looks at a cancellation or the child's end |
| `Interactive.EveryExitIsClean` | platform-src/agentdev/runtime/podman.py:235-239 | on every way out, exceptions of the I/O object included, the child has ended and the cleanup was called once; the terminal is closed exactly if the cleanup did not raise |
| `Interactive.PriorityOfEnds` | platform-src/agentdev/runtime/podman.py:181-228 | in every setting, unless an exception ends the loop: the first decisive turn decides, and in it the deadline counts before a cancellation and that before the child's end |
| `Interactive.ExitCode` | platform-src/agentdev/runtime/podman.py:230-238 | in every setting: a run that returns gives 124, 130 or the child's own code, following that priority; it raises exactly if an exception ended the loop or the cleanup raised |
| `Interactive.NoFailureWithoutCause` | platform-src/agentdev/runtime/podman.py:184-227 | the loop ends in an exception only if the I/O object raises |
| `Interactive.BytesInOrder` | platform-src/agentdev/runtime/podman.py:192-228 | what was read, then what is unread, is what the child wrote; what was forwarded is what was read, all of it when the child ends by itself |
| `Rpc.EveryOperationIsDispatched` | platform-src/agentdev/broker/rpc.py:17-45 | every request that passes the shape check has a branch in the dispatcher |
| `Rpc.Connection.Dispatch` | platform-src/agentdev/broker/rpc.py:135-169 | the branch of one operation sends its frames as far as the connection carries them |
| `Rpc.Connection.HandleRequest` | platform-src/agentdev/broker/rpc.py:106-184 | for any input line, operation behaviour and point of disconnection, the frames sent are that prefix of the conversation |
| `Rpc.UnknownOperation` | platform-src/agentdev/broker/rpc.py:82-89 | a request that names no operation is rejected with code 2 if and only if its operation is neither a list nor an object; otherwise it is answered as an internal error |
| `Rpc.ListIsNoOperation` | platform-src/agentdev/broker/rpc.py:84-85 | the operation [] is answered as an internal error |
| `Rpc.ConversationIsComplete` | platform-src/agentdev/broker/rpc.py:106-184 | every request yields one result or error, or start, output, and exactly one exit or error; a run states its class and repeats it |
| `Rpc.Terminal.Rpc` | platform-src/agentdev/broker/cli.py:174-298 | the client computes `Client` and restores terminal mode and signal handlers on every way out |
| `Rpc.ClientOnComplete` | platform-src/agentdev/broker/cli.py:211-289 | on any complete conversation the client writes the output and returns the code of the last frame |
| `Rpc.LiveConversation` | platform-src/agentdev/broker/cli.py:211-289 | server and client together on a live connection: never an unexpected response or a changed class |
| `Rpc.ClientCode` | platform-src/agentdev/broker/rpc.py:124-184 | the code the client returns for each kind of operation and each way it can end |
| `Rpc.FirstFrame` | platform-src/agentdev/broker/rpc.py:124-150 | what a result operation sends and what each streaming operation starts with |
| `Rpc.UnreadableRequest` | platform-src/agentdev/broker/rpc.py:70-79 | what cannot be read as a request is answered with one error |
| `Rpc.ForeignField` | platform-src/agentdev/broker/rpc.py:86-89 | a field the operation does not take is refused with code 2 |
| `Rpc.FieldsMean` | platform-src/agentdev/broker/rpc.py:23-42 | which operations take which field |
| `Rpc.ClientGuards` | platform-src/agentdev/broker/cli.py:221-286 | against any server the client refuses an unexpected first frame, a missing class and a changed class |
| `Rpc.RunReportsExecutor` | platform-src/agentdev/broker/daemon.py:1191-1210 | a run that reaches its executor: the client returns the executor's code and wrote exactly its output |
| `Rpc.BrokenConversation` | platform-src/agentdev/broker/cli.py:270-275 | a connection cut before the last frame: end of file, 130 after a cancellation, or an unexpected close |

## Left out

- Podman argument text, image build, version, status and smoke operations, volume creation and the shell migration script.
- The bodies of project export and project status: they only read and appear as shared lock holders.
- Project initialisation inside the broker runs: `GitHandoff` proves it on its own, and runs start from its result.
- BrokerTheorems.WritersAreAlone: is about checkouts; a writable parallel run also has the shared Git directory mounted writable under its task lock only, which `BrokerTheorems.GitDirectorySharing` delimits and the assumption on executors confines to its own branch.
- Two starts of one name in flight at the same time, which the code does not exclude.
- Kill points between a Git step and the record write, for which the code has no recovery path.
- Timestamps, the workspace path in a record, file modes, ACLs, path canonicalisation and symlink checks.
- Error message texts: a fault is rejected or internal; a policy error keeps the field of an escalation but not the other texts.
- The nested policy records are one flat record; mappings with non-string keys and strings with lone surrogates are not modelled.
- The SHA-256 of the canonical text.
- The legacy mapping of run flags, the profile table and the legacy compile paths; today's run operation uses those and not the compilers for resolved policies.
- Cursor's sandbox document is a JSON value; its text escapes non-ASCII characters, which `Json.Print` does not.
- jq reads and writes numbers as doubles; the model has exact values. The managed field is taken as a jq identifier. A seed file with several documents, of which the script would validate the last and use the first.
- Input written to the pseudo-terminal and window sizes: the loop forwards them without checking how much was accepted.
- Frame encoding (JSON lines, base64), peer credentials, the accept loop and the client's input pump.
- Request argument parsing, project import, reference synchronisation and bootstrap.
