/** The task records and the agent repository of one project, and what each locked body of the
    broker does to them.  These functions are the specification that the methods of
    AgentRepository are proved against, and the steps of the Broker state machine.
 */
module Lifecycle {
  import opened Wrappers
  import opened Commits

  const INTEGRATION_BRANCH := "agent/integration"
  const INTEGRATION_LOCK := "integration"
  const BRANCH_PREFIX := "agent/"

  /******* Records and repository state *******/

  datatype Mode = Integration | Parallel

  datatype Status = Active | Completed | Merged | Aborted

  /** One `tasks/<task>.json` file.  The record map is keyed by task name, so the name is not repeated. */
  datatype Record = Record(
    mode: Mode,
    branch: string,
    base: Commit,
    head: Option<Commit>,
    status: Status,
    deps: seq<string>,
    mergeCommit: Option<Commit>)

  datatype Head = OnBranch(branch: string) | Detached(at: Commit)

  datatype Checkout = Checkout(head: Head, clean: bool)

  /** refs/heads, the checkout of repo/agent, the linked worktrees by task, the task records,
      the inbound bundles with the human main commit each carries, and refs/remotes/human-main. */
  datatype World = World(
    refs: map<string, Commit>,
    agent: Checkout,
    trees: map<string, Checkout>,
    records: map<string, Record>,
    inbound: map<string, Commit>,
    human: Option<Commit>)

  datatype Workspace = AgentTree | TaskTree(task: string)

  /** Rejected is an InputValidationError (code 2 on the wire); Internal is every other exception. */
  datatype Fault = Rejected | Internal

  datatype Outcome = Done(record: Record) | Failed(fault: Fault)

  /** What Git and the file system decide: whether `worktree add` accepts the branch name,
      whether a merge conflicts, and the tree of a merge commit. */
  datatype Choice = Choice(addOk: bool, conflict: bool, tree: nat)

  function BranchOf(task: string): (b: string)
    ensures |b| == |BRANCH_PREFIX| + |task|
  {
    BRANCH_PREFIX + task
  }

  predicate Pending(r: Record)
  {
    r.mode == Parallel && (r.status == Active || r.status == Completed)
  }

  predicate Terminal(r: Record)
  {
    r.status == Merged || r.status == Aborted
  }

  predicate ActiveSequential(r: Record)
  {
    r.mode == Integration && r.status == Active
  }

  predicate AnyActiveSequential(records: map<string, Record>)
  {
    exists t :: t in records && ActiveSequential(records[t])
  }

  predicate AnyPending(records: map<string, Record>)
  {
    exists t :: t in records && Pending(records[t])
  }

  /** The commit a dependant needs in its base: the merge commit of a merged parallel task or the
      recorded head of a completed integration task. */
  function Integrated(r: Record): Option<Commit>
  {
    match r.mode
    case Parallel => if r.status == Merged then r.mergeCommit else None
    case Integration => if r.status == Completed then r.head else None
  }

  /******* Git queries *******/

  function HeadCommit(w: World, c: Checkout): Option<Commit>
  {
    match c.head
    case OnBranch(b) => if b in w.refs then Some(w.refs[b]) else None
    case Detached(at) => Some(at)
  }

  /** `git branch --show-current`: empty on a detached HEAD. */
  function ShowCurrent(c: Checkout): string
  {
    match c.head
    case OnBranch(b) => b
    case Detached(_) => ""
  }

  function CheckoutAt(w: World, ws: Workspace): Option<Checkout>
  {
    match ws
    case AgentTree => Some(w.agent)
    case TaskTree(t) => if t in w.trees then Some(w.trees[t]) else None
  }

  predicate InSomeTree(w: World, branch: string)
  {
    exists t :: t in w.trees && w.trees[t].head == OnBranch(branch)
  }

  /** `git switch` in repo/agent: the branch exists and no linked worktree has it checked out. */
  predicate CanSwitch(w: World, branch: string)
  {
    branch in w.refs && (w.agent.head == OnBranch(branch) || !InSomeTree(w, branch))
  }

  function Switched(w: World, branch: string): World
  {
    w.(agent := w.agent.(head := OnBranch(branch)))
  }

  /** `git merge --no-ff`: up to date, a conflict, or a two-parent commit. */
  function MergeHead(ours: Commit, theirs: Commit, choice: Choice): Option<Commit>
  {
    if Ancestor(theirs, ours) then Some(ours)
    else if choice.conflict then None
    else Some(Commit(choice.tree, [ours, theirs]))
  }

  /******* Before the lock *******/

  predicate NameChar(c: char)
  {
    'A' <= c <= 'Z' || 'a' <= c <= 'z' || '0' <= c <= '9' || c == '.' || c == '_' || c == '-'
  }

  predicate ValidName(s: string)
  {
    && 1 <= |s| <= 64
    && (forall i :: 0 <= i < |s| ==> NameChar(s[i]))
    && s[0] !in {'.', '_', '-'}
  }

  predicate ValidStartRequest(task: string, deps: seq<string>)
  {
    && ValidName(task)
    && |deps| <= 128
    && (forall i :: 0 <= i < |deps| ==> ValidName(deps[i]))
    && task !in deps
  }

  function WorkspaceOf(task: string, r: Record): Workspace
  {
    if r.mode == Integration || r.status == Merged then AgentTree else TaskTree(task)
  }

  /** The record snapshot a request works from; its workspace directory must exist. */
  function LoadTask(w: World, task: string): Result<Record, Fault>
  {
    if task !in w.records then Failure(Internal)
    else
      var r := w.records[task];
      if r.status == Aborted then Failure(Rejected)
      else if CheckoutAt(w, WorkspaceOf(task, r)).None? then Failure(Internal)
      else Success(r)
  }

  /******* Locked bodies *******/

  predicate DependencyMet(records: map<string, Record>, dep: string, base: Commit)
  {
    && dep in records
    && Integrated(records[dep]).Some?
    && Ancestor(Integrated(records[dep]).value, base)
  }

  /** The exception the first unmet dependency raises; None when every dependency is met. */
  function DependencyFault(records: map<string, Record>, deps: seq<string>, base: Commit): Option<Fault>
  {
    if deps == [] then None
    else if DependencyMet(records, deps[0], base) then DependencyFault(records, deps[1..], base)
    else Some(UnmetFault(records, deps[0]))
  }

  /** An integrated record without a commit is a corrupt record; everything else is rejected. */
  function UnmetFault(records: map<string, Record>, dep: string): Fault
  {
    if dep !in records then Rejected
    else
      var r := records[dep];
      if r.mode == Parallel && r.status == Merged && r.mergeCommit.None? then Internal
      else if r.mode == Integration && r.status == Completed && r.head.None? then Internal
      else Rejected
  }

  function StartBody(w: World, task: string, parallel: bool, deps: seq<string>, choice: Choice): (World, Outcome)
  {
    if !w.agent.clean || !CanSwitch(w, INTEGRATION_BRANCH) then (w, Failed(Internal))
    else
      var w1 := Switched(w, INTEGRATION_BRANCH);
      var base := w.refs[INTEGRATION_BRANCH];
      var fault := DependencyFault(w.records, deps, base);
      if fault.Some? then (w1, Failed(fault.value))
      else if AnyActiveSequential(w.records) then (w1, Failed(Rejected))
      else if parallel then StartParallel(w1, task, deps, base, choice)
      else if AnyPending(w.records) then (w1, Failed(Rejected))
      else
        var r := Record(Integration, INTEGRATION_BRANCH, base, None, Active, deps, None);
        (w1.(records := w1.records[task := r]), Done(r))
  }

  function StartParallel(w: World, task: string, deps: seq<string>, base: Commit, choice: Choice): (World, Outcome)
  {
    var branch := BranchOf(task);
    if task in w.trees then (w, Failed(Rejected))
    else if branch in w.refs || !choice.addOk then (w, Failed(Internal))
    else
      var r := Record(Parallel, branch, base, None, Active, deps, None);
      (w.(refs := w.refs[branch := base],
          trees := w.trees[task := Checkout(OnBranch(branch), true)],
          records := w.records[task := r]),
       Done(r))
  }

  function CompleteBody(w: World, task: string, snap: Record): (World, Outcome)
  {
    var c := CheckoutAt(w, WorkspaceOf(task, snap));
    if c.None? || !c.value.clean then (w, Failed(Internal))
    else if ShowCurrent(c.value) != snap.branch then (w, Failed(Rejected))
    else if HeadCommit(w, c.value).None? then (w, Failed(Internal))
    else
      var r := snap.(head := HeadCommit(w, c.value), status := Completed);
      (w.(records := w.records[task := r]), Done(r))
  }

  /** Branch and workspace HEAD both still equal the recorded head. */
  predicate HeadUnmoved(w: World, snap: Record, c: Checkout)
  {
    && snap.head.Some?
    && snap.branch in w.refs && w.refs[snap.branch] == snap.head.value
    && HeadCommit(w, c) == snap.head
  }

  function MergeBody(w: World, task: string, snap: Record, choice: Choice): (World, Outcome)
  {
    var ws := WorkspaceOf(task, snap);
    var c := CheckoutAt(w, ws);
    if c.None? || !c.value.clean || !w.agent.clean then (w, Failed(Internal))
    else if snap.head.None? || snap.branch !in w.refs || HeadCommit(w, c.value).None? then (w, Failed(Internal))
    else if !HeadUnmoved(w, snap, c.value) then (w, Failed(Rejected))
    else if !CanSwitch(w, INTEGRATION_BRANCH) then (w, Failed(Internal))
    else
      var w1 := Switched(w, INTEGRATION_BRANCH);
      var merged := MergeHead(w.refs[INTEGRATION_BRANCH], snap.head.value, choice);
      if merged.None? then (w1, Failed(Rejected))
      else MergeCleanup(w1.(refs := w1.refs[INTEGRATION_BRANCH := merged.value]), task, snap, ws, merged.value)
  }

  /** `worktree remove`, `branch -d` and the record update; either Git command may refuse. */
  function MergeCleanup(w: World, task: string, snap: Record, ws: Workspace, merged: Commit): (World, Outcome)
  {
    if ws.AgentTree? || ws.task !in w.trees || !w.trees[ws.task].clean then (w, Failed(Internal))
    else
      var w1 := w.(trees := w.trees - {ws.task});
      if !CanDeleteMerged(w1, snap.branch) then (w1, Failed(Internal))
      else
        var r := snap.(status := Merged, mergeCommit := Some(merged));
        (w1.(refs := w1.refs - {snap.branch}, records := w1.records[task := r]), Done(r))
  }

  /** `branch -d` in repo/agent: checked out nowhere and contained in HEAD. */
  predicate CanDeleteMerged(w: World, branch: string)
  {
    && branch in w.refs
    && w.agent.head != OnBranch(branch) && !InSomeTree(w, branch)
    && HeadCommit(w, w.agent).Some? && Ancestor(w.refs[branch], HeadCommit(w, w.agent).value)
  }

  function AbortBody(w: World, task: string, snap: Record): (World, Outcome)
  {
    var ws := WorkspaceOf(task, snap);
    if ws.AgentTree? then (w, Failed(Internal))
    else
      var w1 := w.(trees := w.trees - {ws.task});
      if snap.branch in w.refs && (w1.agent.head == OnBranch(snap.branch) || InSomeTree(w1, snap.branch))
      then (w1, Failed(Internal))
      else
        var r := snap.(status := Aborted);
        (w1.(refs := w1.refs - {snap.branch}, records := w1.records[task := r]), Done(r))
  }

  datatype SyncAction = AlreadySynchronized | FastForwarded | IntegrationAhead

  datatype SyncOutcome = Synced(action: SyncAction, head: Commit) | SyncFailed(fault: Fault)

  /** `fetch` without a leading "+" refuses to move refs/remotes/human-main backwards. */
  predicate FetchAccepted(w: World, theirs: Commit)
  {
    w.human.None? || Ancestor(w.human.value, theirs)
  }

  function SyncBody(w: World, bundle: string): (World, SyncOutcome)
  {
    if bundle !in w.inbound || !w.agent.clean || !FetchAccepted(w, w.inbound[bundle]) then (w, SyncFailed(Internal))
    else
      var theirs := w.inbound[bundle];
      var w1 := w.(human := Some(theirs));
      if !CanSwitch(w1, INTEGRATION_BRANCH) then (w1, SyncFailed(Internal))
      else
        var w2 := Switched(w1, INTEGRATION_BRANCH);
        var ours := w2.refs[INTEGRATION_BRANCH];
        var done := w2.(inbound := w2.inbound - {bundle});
        if ours == theirs then (done, Synced(AlreadySynchronized, ours))
        else if Ancestor(ours, theirs) then
          (done.(refs := done.refs[INTEGRATION_BRANCH := theirs]), Synced(FastForwarded, theirs))
        else if Ancestor(theirs, ours) then (done, Synced(IntegrationAhead, ours))
        else (w2, SyncFailed(Rejected))
  }

  /******* What an executor or indexer with a writable mount may do *******/

  /** Advance the task branch to a descendant, dirty or clean the checkout, or move its HEAD
      between the task branch and any detached commit.  This is the environment assumption. */
  datatype Action = Advance(to: Commit) | SetClean(clean: bool) | MoveHead(head: Head)

  predicate ActionAllowed(w: World, ws: Workspace, branch: string, act: Action)
  {
    && CheckoutAt(w, ws).Some?
    && match act
       case Advance(to) => branch in w.refs && Ancestor(w.refs[branch], to)
       case SetClean(_) => true
       case MoveHead(h) => h == OnBranch(branch) || h.Detached?
  }

  function WithCheckout(w: World, ws: Workspace, c: Checkout): World
  {
    match ws
    case AgentTree => w.(agent := c)
    case TaskTree(t) => w.(trees := w.trees[t := c])
  }

  function Work(w: World, ws: Workspace, branch: string, act: Action): World
    requires ActionAllowed(w, ws, branch, act)
  {
    var c := CheckoutAt(w, ws).value;
    match act
    case Advance(to) => w.(refs := w.refs[branch := to])
    case SetClean(b) => WithCheckout(w, ws, c.(clean := b))
    case MoveHead(h) => WithCheckout(w, ws, c.(head := h))
  }
}
