/** Why a locked body may be one step although not all bodies exclude each other.  Every body but the
    completion of a parallel task holds the integration lock, exclusively or, if it writes nothing, shared.  A
    parallel completion holds only the lock of its task, so it may run at any moment between the reads
    and writes of another body.  It commutes with each of them, and none of what a start reads of the
    records tells whether it has happened. */
module Granularity {
  import opened Wrappers
  import opened Commits
  import opened Lifecycle
  import opened LifecycleInvariant

  /** The records with one pending record replaced by another pending one. */
  ghost predicate Progress(records: map<string, Record>, records': map<string, Record>, t: string)
  {
    t in records && Pending(records[t]) && t in records' && Pending(records'[t]) && records' == records[t := records'[t]]
  }

  /** Each of the reads a start makes of the records, taken by itself, gives the same before and after such
      a replacement; so it does not matter between which of them the replacement falls. */
  lemma ProgressIsInvisible(records: map<string, Record>, records': map<string, Record>, t: string, deps: seq<string>, base: Commit)
    requires Progress(records, records', t)
    ensures DependencyFault(records', deps, base) == DependencyFault(records, deps, base)
    ensures AnyActiveSequential(records') == AnyActiveSequential(records)
    ensures AnyPending(records') == AnyPending(records)
  {
    ProgressKeepsFault(records, records', t, deps, base);
    assert forall u :: u in records && u != t ==> records'[u] == records[u];
  }

  lemma {:induction false} ProgressKeepsFault(records: map<string, Record>, records': map<string, Record>, t: string, deps: seq<string>, base: Commit)
    requires Progress(records, records', t)
    ensures DependencyFault(records', deps, base) == DependencyFault(records, deps, base)
  {
    if deps != [] {
      ProgressKeepsFault(records, records', t, deps[1..], base);
      assert deps[0] != t && deps[0] in records ==> records'[deps[0]] == records[deps[0]];
    }
  }

  /** A start has the same outcome and the same effect on everything else, on either side of the progress
      of a pending task. */
  lemma StartIgnoresProgress(w: World, t: string, r: Record, task: string, parallel: bool, deps: seq<string>, choice: Choice)
    requires t in w.records && Pending(w.records[t]) && Pending(r) && task != t
    ensures var (w1, out1) := StartBody(w, task, parallel, deps, choice);
            var (w2, out2) := StartBody(w.(records := w.records[t := r]), task, parallel, deps, choice);
            out2 == out1 && w2 == w1.(records := w1.records[t := r])
  {
    var v := w.(records := w.records[t := r]);
    assert CanSwitch(v, INTEGRATION_BRANCH) == CanSwitch(w, INTEGRATION_BRANCH);
    if CanSwitch(w, INTEGRATION_BRANCH) {
      ProgressIsInvisible(w.records, v.records, t, deps, w.refs[INTEGRATION_BRANCH]);
      var sequential := Record(Integration, INTEGRATION_BRANCH, w.refs[INTEGRATION_BRANCH], None, Active, deps, None);
      assert w.records[t := r][task := sequential] == w.records[task := sequential][t := r];
      var branched := Record(Parallel, BranchOf(task), w.refs[INTEGRATION_BRANCH], None, Active, deps, None);
      assert w.records[t := r][task := branched] == w.records[task := branched][t := r];
    }
    hide DependencyFault;
    hide AnyActiveSequential;
    hide AnyPending;
  }

  /** Two worlds in which a task has the same worktree and the same branch. */
  ghost predicate SameTaskFiles(w: World, v: World, t: string)
  {
    && t in w.trees && t in v.trees && w.trees[t] == v.trees[t]
    && BranchOf(t) in w.refs && BranchOf(t) in v.refs && w.refs[BranchOf(t)] == v.refs[BranchOf(t)]
  }

  /** The world after a completion with the given outcome. */
  function Recorded(w: World, t: string, out: Outcome): World
  {
    if out.Failed? then w else w.(records := w.records[t := out.record])
  }

  /** A parallel completion reads its worktree and branch, and writes its record. */
  lemma CompletionReadsOwnFiles(w: World, v: World, t: string, snap: Record)
    requires snap.mode == Parallel && snap.status == Active && snap.branch == BranchOf(t)
    requires SameTaskFiles(w, v, t) && HeadAllowed(w.trees[t].head, BranchOf(t))
    ensures var out := CompleteBody(w, t, snap).1;
            CompleteBody(w, t, snap).0 == Recorded(w, t, out) && CompleteBody(v, t, snap) == (Recorded(v, t, out), out)
  {
  }

  /** A parallel completion whose task is no longer pending fails, and changes nothing. */
  lemma CompletionNeedsTree(w: World, t: string, snap: Record)
    requires snap.mode == Parallel && snap.status == Active && t !in w.trees
    ensures CompleteBody(w, t, snap) == (w, Failed(Internal))
  {
  }

  /** One after the other in either order: the same world and the same two outcomes. */
  ghost predicate Commute(a: World -> (World, Outcome), b: World -> (World, Outcome), w: World)
  {
    && b(a(w).0).0 == a(b(w).0).0
    && a(b(w).0).1 == a(w).1
    && b(a(w).0).1 == b(w).1
  }

  function Completing(t: string, snap: Record): World -> (World, Outcome)
  {
    w => CompleteBody(w, t, snap)
  }

  function Starting(task: string, parallel: bool, deps: seq<string>, choice: Choice): World -> (World, Outcome)
  {
    w => StartBody(w, task, parallel, deps, choice)
  }

  function Merging(task: string, snap: Record, choice: Choice): World -> (World, Outcome)
  {
    w => MergeBody(w, task, snap, choice)
  }

  function Aborting(task: string, snap: Record): World -> (World, Outcome)
  {
    w => AbortBody(w, task, snap)
  }

  /** A parallel completion about to run, from a possibly stale snapshot. */
  ghost predicate CompletionReady(w: World, t: string, snap: Record)
  {
    RepoInv(w) && SnapOk(w, t, snap) && snap.mode == Parallel && snap.status == Active
  }

  /** A start leaves the files of existing tasks alone, and gives none of them a worktree. */
  lemma StartLeavesFiles(w: World, t: string, task: string, parallel: bool, deps: seq<string>, choice: Choice)
    requires RepoInv(w) && t in w.records && task !in w.records
    ensures var v := StartBody(w, task, parallel, deps, choice).0;
            (t in w.trees ==> SameTaskFiles(w, v, t)) && (t !in w.trees ==> t !in v.trees)
  {
    OtherFiles(w, t, task);
    hide RepoInv;
    hide DependencyFault;
    hide AnyActiveSequential;
    hide AnyPending;
    hide CanSwitch;
  }

  lemma CompletionCommutesWithStart(w: World, t: string, snap: Record, task: string, parallel: bool, deps: seq<string>, choice: Choice)
    requires CompletionReady(w, t, snap) && task !in w.records
    ensures Commute(Completing(t, snap), Starting(task, parallel, deps, choice), w)
  {
    var v := StartBody(w, task, parallel, deps, choice).0;
    StartLeavesFiles(w, t, task, parallel, deps, choice);
    if t in w.trees {
      assert IsPending(w, t) && HeadAllowed(w.trees[t].head, BranchOf(t));
      CompletionReadsOwnFiles(w, v, t, snap);
      var out := CompleteBody(w, t, snap).1;
      if out.Done? {
        CompleteEvolves(w, t, snap);
        StartIgnoresProgress(w, t, out.record, task, parallel, deps, choice);
      }
    } else {
      CompletionNeedsTree(w, t, snap);
      CompletionNeedsTree(v, t, snap);
    }
    hide CompleteBody;
    hide StartBody;
    hide RepoInv;
  }

  /******* Merge, abort and synchronisation read no record inside their bodies *******/

  lemma CleanupReadsNoRecords(w: World, records: map<string, Record>, u: string, snap: Record, ws: Workspace, merged: Commit)
    ensures var (w1, out) := MergeCleanup(w, u, snap, ws, merged);
            && w1.records == Recorded(w, u, out).records
            && MergeCleanup(w.(records := records), u, snap, ws, merged) ==
                 (w1.(records := Recorded(w.(records := records), u, out).records), out)
  {
  }

  lemma MergeReadsNoRecords(w: World, records: map<string, Record>, u: string, snap: Record, choice: Choice)
    ensures var (w1, out) := MergeBody(w, u, snap, choice);
            && w1.records == Recorded(w, u, out).records
            && MergeBody(w.(records := records), u, snap, choice) ==
                 (w1.(records := Recorded(w.(records := records), u, out).records), out)
  {
    var v := w.(records := records);
    assert CanSwitch(v, INTEGRATION_BRANCH) == CanSwitch(w, INTEGRATION_BRANCH);
    hide MergeCleanup;
    hide CanSwitch;
    hide MergeHead;
    hide Recorded;
    var ws := WorkspaceOf(u, snap);
    if CanSwitch(w, INTEGRATION_BRANCH) && snap.head.Some? {
      var merged := MergeHead(w.refs[INTEGRATION_BRANCH], snap.head.value, choice);
      if merged.Some? {
        var w1 := Switched(w, INTEGRATION_BRANCH);
        var w2 := w1.(refs := w1.refs[INTEGRATION_BRANCH := merged.value]);
        CleanupReadsNoRecords(w2, records, u, snap, ws, merged.value);
        SameRecorded(w, w2, records, u, MergeCleanup(w2, u, snap, ws, merged.value).1);
      }
    }
    SameRecorded(w, w, records, u, Failed(Rejected));
    SameRecorded(w, w, records, u, Failed(Internal));
  }

  lemma SameRecorded(w: World, w': World, records: map<string, Record>, u: string, out: Outcome)
    requires w'.records == w.records
    ensures Recorded(w', u, out).records == Recorded(w, u, out).records
    ensures Recorded(w'.(records := records), u, out).records == Recorded(w.(records := records), u, out).records
    ensures out.Failed? ==> Recorded(w, u, out) == w && Recorded(w.(records := records), u, out).records == records
  {
  }

  lemma AbortReadsNoRecords(w: World, records: map<string, Record>, u: string, snap: Record)
    ensures var (w1, out) := AbortBody(w, u, snap);
            && w1.records == Recorded(w, u, out).records
            && AbortBody(w.(records := records), u, snap) ==
                 (w1.(records := Recorded(w.(records := records), u, out).records), out)
  {
  }

  lemma SyncReadsNoRecords(w: World, records: map<string, Record>, bundle: string)
    ensures var (w1, out) := SyncBody(w, bundle);
            SyncBody(w.(records := records), bundle) == (w1.(records := records), out)
  {
    var v := w.(records := records);
    assert bundle in w.inbound ==>
      CanSwitch(v.(human := Some(w.inbound[bundle])), INTEGRATION_BRANCH) ==
      CanSwitch(w.(human := Some(w.inbound[bundle])), INTEGRATION_BRANCH);
    hide CanSwitch;
  }

  /** Whatever the files of t look like, they decide a completion of t. */
  lemma CompletionFollowsFiles(w: World, v: World, t: string, snap: Record)
    requires CompletionReady(w, t, snap)
    requires (t in w.trees ==> SameTaskFiles(w, v, t)) && (t !in w.trees ==> t !in v.trees)
    ensures var out := CompleteBody(w, t, snap).1;
            CompleteBody(w, t, snap).0 == Recorded(w, t, out) && CompleteBody(v, t, snap) == (Recorded(v, t, out), out)
  {
    if t in w.trees {
      assert HeadAllowed(w.trees[t].head, BranchOf(t));
      CompletionReadsOwnFiles(w, v, t, snap);
    } else {
      CompletionNeedsTree(w, t, snap);
      CompletionNeedsTree(v, t, snap);
    }
    hide CompleteBody;
  }

  lemma MergeLeavesFiles(w: World, t: string, u: string, snap: Record, choice: Choice)
    requires RepoInv(w) && SnapOk(w, u, snap) && snap.mode == Parallel && snap.status == Completed && t != u
    ensures var v := MergeBody(w, u, snap, choice).0;
            (t in w.trees ==> SameTaskFiles(w, v, t)) && (t !in w.trees ==> t !in v.trees)
  {
    MergeEffect(w, u, snap, choice);
    OtherFiles(w, t, u);
    hide MergeBody;
    hide HeadsOk;
    hide Exclusive;
  }

  lemma OwnFiles(w: World, t: string)
    requires RepoInv(w)
    ensures t in w.trees ==> BranchOf(t) in w.refs && BranchOf(t) != INTEGRATION_BRANCH
  {
    OnlyIntegrationIsIntegrationBranch(t);
    assert t in w.trees ==> IsPending(w, t);
    hide HeadsOk;
    hide Exclusive;
    hide HistoryOk;
  }

  lemma OtherFiles(w: World, t: string, u: string)
    requires RepoInv(w) && t != u
    ensures BranchOf(t) != BranchOf(u)
    ensures t in w.trees ==> BranchOf(t) in w.refs && BranchOf(t) != INTEGRATION_BRANCH
  {
    OwnFiles(w, t);
    if BranchOf(t) == BranchOf(u) {
      BranchOfInjective(t, u);
    }
    hide RepoInv;
  }

  lemma CompletionCommutesWithMerge(w: World, t: string, snap: Record, u: string, other: Record, choice: Choice)
    requires CompletionReady(w, t, snap) && t != u
    requires SnapOk(w, u, other) && other.mode == Parallel && other.status == Completed
    ensures Commute(Completing(t, snap), Merging(u, other, choice), w)
  {
    var v := MergeBody(w, u, other, choice).0;
    MergeLeavesFiles(w, t, u, other, choice);
    CompletionFollowsFiles(w, v, t, snap);
    var w1 := CompleteBody(w, t, snap).0;
    MergeReadsNoRecords(w, w1.records, u, other, choice);
    assert w1 == w.(records := w1.records);
    RecordsCommute(w.records, t, CompleteBody(w, t, snap).1, u, MergeBody(w, u, other, choice).1);
    hide CompleteBody;
    hide MergeBody;
    hide RepoInv;
  }

  lemma RecordsCommute(records: map<string, Record>, t: string, out: Outcome, u: string, out': Outcome)
    requires t != u
    ensures out.Done? && out'.Done? ==>
              records[t := out.record][u := out'.record] == records[u := out'.record][t := out.record]
  {
  }

  lemma CompletionCommutesWithAbort(w: World, t: string, snap: Record, u: string, other: Record)
    requires CompletionReady(w, t, snap) && t != u
    requires SnapOk(w, u, other) && Pending(other)
    ensures Commute(Completing(t, snap), Aborting(u, other), w)
  {
    var v := AbortBody(w, u, other).0;
    AbortRuns(w, u, other);
    OtherFiles(w, t, u);
    CompletionFollowsFiles(w, v, t, snap);
    var w1 := CompleteBody(w, t, snap).0;
    AbortReadsNoRecords(w, w1.records, u, other);
    assert w1 == w.(records := w1.records);
    RecordsCommute(w.records, t, CompleteBody(w, t, snap).1, u, AbortBody(w, u, other).1);
    hide CompleteBody;
    hide AbortBody;
    hide RepoInv;
  }

  /** Another completion, of a parallel task or, holding the integration lock, of an integration task. */
  lemma CompletionCommutesWithCompletion(w: World, t: string, snap: Record, u: string, other: Record)
    requires CompletionReady(w, t, snap) && t != u
    requires SnapOk(w, u, other) && other.status == Active
    ensures Commute(Completing(t, snap), Completing(u, other), w)
  {
    CompletionFollowsFiles(w, w, t, snap);
    CompleteEvolves(w, u, other);
    var v, w1 := CompleteBody(w, u, other).0, CompleteBody(w, t, snap).0;
    assert t in w.trees ==> BranchOf(t) in w.refs by { OtherFiles(w, t, u); }
    CompletionFollowsFiles(w, v, t, snap);
    CompletionReadsNoRecords(w, w1.records, u, other);
    assert w1 == w.(records := w1.records);
    RecordsCommute(w.records, t, CompleteBody(w, t, snap).1, u, CompleteBody(w, u, other).1);
    hide CompleteBody;
    hide RepoInv;
  }

  lemma CompletionReadsNoRecords(w: World, records: map<string, Record>, u: string, snap: Record)
    ensures var (w1, out) := CompleteBody(w, u, snap);
            w1 == Recorded(w, u, out) && CompleteBody(w.(records := records), u, snap) == (Recorded(w.(records := records), u, out), out)
  {
  }

  lemma CompletionCommutesWithSync(w: World, t: string, snap: Record, bundle: string)
    requires CompletionReady(w, t, snap)
    ensures var (w1, out1) := CompleteBody(w, t, snap);
            var (v1, out2) := SyncBody(w, bundle);
            && SyncBody(w1, bundle).1 == out2 && CompleteBody(v1, t, snap).1 == out1
            && SyncBody(w1, bundle).0 == CompleteBody(v1, t, snap).0
  {
    var v := SyncBody(w, bundle).0;
    SyncRecords(w, bundle);
    SyncLeavesFiles(w, t, bundle);
    CompletionFollowsFiles(w, v, t, snap);
    var w1 := CompleteBody(w, t, snap).0;
    SyncReadsNoRecords(w, w1.records, bundle);
    assert w1 == w.(records := w1.records);
    hide CompleteBody;
    hide SyncBody;
    hide RepoInv;
  }

  lemma SyncLeavesFiles(w: World, t: string, bundle: string)
    requires RepoInv(w)
    ensures t in w.trees ==> SameTaskFiles(w, SyncBody(w, bundle).0, t)
  {
    OwnFiles(w, t);
    SyncRefs(w, bundle);
    SyncRecords(w, bundle);
    hide RepoInv;
    hide SyncBody;
  }

  lemma SyncRefs(w: World, bundle: string)
    ensures var refs := SyncBody(w, bundle).0.refs;
            refs == w.refs || (bundle in w.inbound && refs == w.refs[INTEGRATION_BRANCH := w.inbound[bundle]])
  {
    hide CanSwitch;
  }

  /******* Executors of parallel tasks *******/

  /** An executor of a parallel task holds only the lock of its task too, and may act at any moment of a
      body for another task. */
  ghost predicate ExecutorReady(w: World, t: string, act: Action)
  {
    RepoInv(w) && IsPending(w, t) && ActionAllowed(w, TaskTree(t), BranchOf(t), act)
  }

  /** The files of t replaced by a branch head and a checkout. */
  function Touched(w: World, t: string, c: Commit, k: Checkout): World
  {
    w.(refs := w.refs[BranchOf(t) := c], trees := w.trees[t := k])
  }

  /** A replacement that leaves everything a body for another task asks Git about as it is. */
  ghost predicate Local(w: World, t: string, k: Checkout)
  {
    && t in w.trees && BranchOf(t) in w.refs && BranchOf(t) != INTEGRATION_BRANCH
    && HeadAllowed(w.trees[t].head, BranchOf(t)) && HeadAllowed(k.head, BranchOf(t))
  }

  /** Any action of an executor of t is such a replacement, and the same one in any world with the same
      files of t. */
  lemma ActionIsLocal(w: World, w1: World, t: string, act: Action) returns (c: Commit, k: Checkout)
    requires ExecutorReady(w, t, act) && SameTaskFiles(w, w1, t)
    ensures Local(w, t, k)
    ensures Work(w, TaskTree(t), BranchOf(t), act) == Touched(w, t, c, k)
    ensures ActionAllowed(w1, TaskTree(t), BranchOf(t), act) && Work(w1, TaskTree(t), BranchOf(t), act) == Touched(w1, t, c, k)
  {
    OnlyIntegrationIsIntegrationBranch(t);
    assert HeadAllowed(w.trees[t].head, BranchOf(t));
    var v := Work(w, TaskTree(t), BranchOf(t), act);
    c, k := v.refs[BranchOf(t)], v.trees[t];
    var v1 := Work(w1, TaskTree(t), BranchOf(t), act);
    assert v.refs == w.refs[BranchOf(t) := c] && v.trees == w.trees[t := k];
    assert v1.refs == w1.refs[BranchOf(t) := c] && v1.trees == w1.trees[t := k];
  }

  lemma TouchedTrees(w: World, t: string, c: Commit, k: Checkout, b: string)
    requires Local(w, t, k) && b != BranchOf(t)
    ensures InSomeTree(Touched(w, t, c, k), b) == InSomeTree(w, b)
  {
    var v := Touched(w, t, c, k);
    if u :| u in w.trees && w.trees[u].head == OnBranch(b) {
      assert v.trees[u].head == OnBranch(b);
    }
    if u :| u in v.trees && v.trees[u].head == OnBranch(b) {
      assert w.trees[u].head == OnBranch(b);
    }
  }

  lemma TouchedSwitch(w: World, t: string, c: Commit, k: Checkout)
    requires Local(w, t, k)
    ensures CanSwitch(Touched(w, t, c, k), INTEGRATION_BRANCH) == CanSwitch(w, INTEGRATION_BRANCH)
    ensures Touched(w, t, c, k).refs.Keys == w.refs.Keys && Touched(w, t, c, k).trees.Keys == w.trees.Keys
  {
    TouchedTrees(w, t, c, k, INTEGRATION_BRANCH);
  }

  lemma TouchedStartParallel(w: World, t: string, c: Commit, k: Checkout, task: string, deps: seq<string>, base: Commit, choice: Choice)
    requires Local(w, t, k) && t != task && BranchOf(task) != BranchOf(t)
    ensures var (w1, out) := StartParallel(w, task, deps, base, choice);
            StartParallel(Touched(w, t, c, k), task, deps, base, choice) == (Touched(w1, t, c, k), out)
  {
    var tree := Checkout(OnBranch(BranchOf(task)), true);
    assert w.refs[BranchOf(t) := c][BranchOf(task) := base] == w.refs[BranchOf(task) := base][BranchOf(t) := c];
    assert w.trees[t := k][task := tree] == w.trees[task := tree][t := k];
  }

  lemma TouchedStart(w: World, t: string, c: Commit, k: Checkout, task: string, parallel: bool, deps: seq<string>, choice: Choice)
    requires Local(w, t, k) && t != task && BranchOf(task) != BranchOf(t)
    ensures var (w1, out) := StartBody(w, task, parallel, deps, choice);
            StartBody(Touched(w, t, c, k), task, parallel, deps, choice) == (Touched(w1, t, c, k), out)
  {
    TouchedSwitch(w, t, c, k);
    if CanSwitch(w, INTEGRATION_BRANCH) {
      TouchedStartParallel(Switched(w, INTEGRATION_BRANCH), t, c, k, task, deps, w.refs[INTEGRATION_BRANCH], choice);
    }
    hide CanSwitch;
    hide StartParallel;
    hide DependencyFault;
    hide AnyActiveSequential;
    hide AnyPending;
  }

  lemma TouchedCleanup(w: World, t: string, c: Commit, k: Checkout, u: string, snap: Record, merged: Commit)
    requires Local(w, t, k) && t != u && BranchOf(u) != BranchOf(t) && snap.branch == BranchOf(u)
    requires w.agent.head == OnBranch(INTEGRATION_BRANCH)
    ensures var (w1, out) := MergeCleanup(w, u, snap, TaskTree(u), merged);
            MergeCleanup(Touched(w, t, c, k), u, snap, TaskTree(u), merged) == (Touched(w1, t, c, k), out)
  {
    var w1 := w.(trees := w.trees - {u});
    var v := Touched(w, t, c, k);
    assert v.trees - {u} == w1.trees[t := k];
    assert v.refs - {BranchOf(u)} == (w.refs - {BranchOf(u)})[BranchOf(t) := c];
    assert v.(trees := v.trees - {u}) == Touched(w1, t, c, k);
    TouchedTrees(w1, t, c, k, BranchOf(u));
    hide InSomeTree;
  }

  lemma TouchedMerge(w: World, t: string, c: Commit, k: Checkout, u: string, snap: Record, choice: Choice)
    requires Local(w, t, k) && t != u && BranchOf(u) != BranchOf(t) && snap.branch == BranchOf(u)
    requires snap.mode == Parallel && snap.status == Completed
    requires u in w.trees ==> HeadAllowed(w.trees[u].head, BranchOf(u))
    ensures var (w1, out) := MergeBody(w, u, snap, choice);
            MergeBody(Touched(w, t, c, k), u, snap, choice) == (Touched(w1, t, c, k), out)
  {
    var v := Touched(w, t, c, k);
    TouchedSwitch(w, t, c, k);
    assert u in w.trees ==> HeadCommit(v, w.trees[u]) == HeadCommit(w, w.trees[u]);
    if CanSwitch(w, INTEGRATION_BRANCH) && snap.head.Some? {
      var merged := MergeHead(w.refs[INTEGRATION_BRANCH], snap.head.value, choice);
      if merged.Some? {
        var w1 := Switched(w, INTEGRATION_BRANCH);
        var w2 := w1.(refs := w1.refs[INTEGRATION_BRANCH := merged.value]);
        TouchedCleanup(w2, t, c, k, u, snap, merged.value);
        assert v.refs[INTEGRATION_BRANCH := merged.value] == w2.refs[BranchOf(t) := c];
        assert Switched(v, INTEGRATION_BRANCH).(refs := v.refs[INTEGRATION_BRANCH := merged.value]) == Touched(w2, t, c, k);
      }
    }
    hide MergeCleanup;
    hide CanSwitch;
    hide MergeHead;
    hide InSomeTree;
  }

  lemma TouchedAbort(w: World, t: string, c: Commit, k: Checkout, u: string, snap: Record)
    requires Local(w, t, k) && t != u && BranchOf(u) != BranchOf(t) && snap.branch == BranchOf(u) && Pending(snap)
    ensures var (w1, out) := AbortBody(w, u, snap);
            AbortBody(Touched(w, t, c, k), u, snap) == (Touched(w1, t, c, k), out)
  {
    var w1 := w.(trees := w.trees - {u});
    var v := Touched(w, t, c, k);
    assert v.trees - {u} == w1.trees[t := k];
    assert v.refs - {BranchOf(u)} == (w.refs - {BranchOf(u)})[BranchOf(t) := c];
    assert v.(trees := v.trees - {u}) == Touched(w1, t, c, k);
    TouchedTrees(w1, t, c, k, BranchOf(u));
    hide InSomeTree;
  }

  lemma TouchedSync(w: World, t: string, c: Commit, k: Checkout, bundle: string)
    requires Local(w, t, k)
    ensures var (w1, out) := SyncBody(w, bundle);
            SyncBody(Touched(w, t, c, k), bundle) == (Touched(w1, t, c, k), out)
  {
    if bundle in w.inbound {
      var theirs := w.inbound[bundle];
      TouchedSwitch(w.(human := Some(theirs)), t, c, k);
      assert w.refs[BranchOf(t) := c][INTEGRATION_BRANCH := theirs] == w.refs[INTEGRATION_BRANCH := theirs][BranchOf(t) := c];
    }
    hide CanSwitch;
  }

  lemma TouchedCompletion(w: World, t: string, c: Commit, k: Checkout, u: string, snap: Record)
    requires Local(w, t, k) && t != u && BranchOf(u) != BranchOf(t)
    requires WorkspaceOf(u, snap) == AgentTree ==> HeadAllowed(w.agent.head, INTEGRATION_BRANCH)
    requires WorkspaceOf(u, snap) == TaskTree(u) && u in w.trees ==> HeadAllowed(w.trees[u].head, BranchOf(u))
    ensures var (w1, out) := CompleteBody(w, u, snap);
            CompleteBody(Touched(w, t, c, k), u, snap) == (Touched(w1, t, c, k), out)
  {
  }

  /******* An action inside a body, before it or after it: the same world and the same outcome *******/

  ghost predicate ActionCommutes(w: World, w1: World, v1: World, t: string, act: Action)
  {
    && SameTaskFiles(w, w1, t) && ActionAllowed(w1, TaskTree(t), BranchOf(t), act)
    && v1 == Work(w1, TaskTree(t), BranchOf(t), act)
  }

  lemma ActionCommutesWithStart(w: World, t: string, act: Action, task: string, parallel: bool, deps: seq<string>, choice: Choice)
    requires ExecutorReady(w, t, act) && task !in w.records
    ensures var (w1, out) := StartBody(w, task, parallel, deps, choice);
            var (v1, out') := StartBody(Work(w, TaskTree(t), BranchOf(t), act), task, parallel, deps, choice);
            out' == out && ActionCommutes(w, w1, v1, t, act)
  {
    assert t in w.trees;
    StartLeavesFiles(w, t, task, parallel, deps, choice);
    OtherFiles(w, task, t);
    var c, k := ActionIsLocal(w, StartBody(w, task, parallel, deps, choice).0, t, act);
    TouchedStart(w, t, c, k, task, parallel, deps, choice);
    hide StartBody;
    hide Work;
    hide Touched;
  }

  lemma ActionCommutesWithMerge(w: World, t: string, act: Action, u: string, snap: Record, choice: Choice)
    requires ExecutorReady(w, t, act) && t != u
    requires SnapOk(w, u, snap) && snap.mode == Parallel && snap.status == Completed
    ensures var (w1, out) := MergeBody(w, u, snap, choice);
            var (v1, out') := MergeBody(Work(w, TaskTree(t), BranchOf(t), act), u, snap, choice);
            out' == out && ActionCommutes(w, w1, v1, t, act)
  {
    assert t in w.trees;
    MergeLeavesFiles(w, t, u, snap, choice);
    OtherFiles(w, u, t);
    var c, k := ActionIsLocal(w, MergeBody(w, u, snap, choice).0, t, act);
    TouchedMerge(w, t, c, k, u, snap, choice);
    hide MergeBody;
    hide Work;
    hide Touched;
  }

  lemma ActionCommutesWithAbort(w: World, t: string, act: Action, u: string, snap: Record)
    requires ExecutorReady(w, t, act) && t != u && SnapOk(w, u, snap) && Pending(snap)
    ensures var (w1, out) := AbortBody(w, u, snap);
            var (v1, out') := AbortBody(Work(w, TaskTree(t), BranchOf(t), act), u, snap);
            out' == out && ActionCommutes(w, w1, v1, t, act)
  {
    assert t in w.trees;
    AbortRuns(w, u, snap);
    OtherFiles(w, u, t);
    OtherFiles(w, t, u);
    var c, k := ActionIsLocal(w, AbortBody(w, u, snap).0, t, act);
    TouchedAbort(w, t, c, k, u, snap);
    hide AbortBody;
    hide Work;
    hide Touched;
  }

  lemma ActionCommutesWithSync(w: World, t: string, act: Action, bundle: string)
    requires ExecutorReady(w, t, act)
    ensures var (w1, out) := SyncBody(w, bundle);
            var (v1, out') := SyncBody(Work(w, TaskTree(t), BranchOf(t), act), bundle);
            out' == out && ActionCommutes(w, w1, v1, t, act)
  {
    assert t in w.trees;
    SyncLeavesFiles(w, t, bundle);
    var c, k := ActionIsLocal(w, SyncBody(w, bundle).0, t, act);
    TouchedSync(w, t, c, k, bundle);
    hide SyncBody;
    hide Work;
    hide Touched;
  }

  lemma ActionCommutesWithCompletion(w: World, t: string, act: Action, u: string, snap: Record)
    requires ExecutorReady(w, t, act) && t != u && SnapOk(w, u, snap) && snap.status == Active
    ensures var (w1, out) := CompleteBody(w, u, snap);
            var (v1, out') := CompleteBody(Work(w, TaskTree(t), BranchOf(t), act), u, snap);
            out' == out && ActionCommutes(w, w1, v1, t, act)
  {
    assert t in w.trees && BranchOf(t) in w.refs by { OtherFiles(w, t, u); }
    CompleteEvolves(w, u, snap);
    OtherFiles(w, u, t);
    var c, k := ActionIsLocal(w, CompleteBody(w, u, snap).0, t, act);
    TouchedCompletion(w, t, c, k, u, snap);
    hide CompleteBody;
    hide Work;
    hide Touched;
  }
}
