/** Concrete runs past checks that are made before the lock only: a merged task ends up aborted, and a
    synchronisation moves the integration branch under an active integration task. */
module BrokerWitness {
  import opened Wrappers
  import opened Commits
  import opened Lifecycle
  import opened LifecycleInvariant
  import opened Broker
  import opened BrokerInvariant
  import opened BrokerTheorems
  import opened BrokerProgress

  lemma OneStep(s: State, step: Step)
    requires Enabled(s, step)
    ensures Legal(s, [step]) && After(s, [step]) == Apply(s, step)
  {
    assert [step][1..] == [];
    assert After(s, [step]) == After(Apply(s, step), [step][1..]);
  }

  lemma Extended(root: Commit, steps: seq<Step>, s: State, more: seq<Step>) returns (steps': seq<Step>)
    requires Reachable(root, steps, s) && Legal(s, more)
    ensures Reachable(root, steps', After(s, more))
  {
    Concatenated(InitialState(root), steps, more);
    steps' := steps + more;
  }

  /******* The worlds of the run *******/

  function Fresh(root: Commit): Record
  {
    Record(Parallel, BranchOf("a"), root, None, Active, [], None)
  }

  function Finished(root: Commit): Record
  {
    Fresh(root).(head := Some(root), status := Completed)
  }

  function WorldWith(root: Commit, r: Record): World
  {
    InitialWorld(root).(refs := map[INTEGRATION_BRANCH := root, BranchOf("a") := root],
                        trees := map["a" := Checkout(OnBranch(BranchOf("a")), true)],
                        records := map["a" := r])
  }

  lemma StartGives(root: Commit)
    ensures StartBody(InitialWorld(root), "a", true, [], EXIT_CHOICE) == (WorldWith(root, Fresh(root)), Done(Fresh(root)))
  {
    OnlyIntegrationIsIntegrationBranch("a");
    var w := InitialWorld(root);
    assert Switched(w, INTEGRATION_BRANCH) == w;
    assert w.refs[BranchOf("a") := root] == map[INTEGRATION_BRANCH := root, BranchOf("a") := root];
    assert w.records["a" := Fresh(root)] == map["a" := Fresh(root)];
  }

  lemma CompleteGives(root: Commit)
    ensures CompleteBody(WorldWith(root, Fresh(root)), "a", Fresh(root)) == (WorldWith(root, Finished(root)), Done(Finished(root)))
  {
    var w := WorldWith(root, Fresh(root));
    assert w.records["a" := Finished(root)] == map["a" := Finished(root)];
  }

  lemma MergeGives(root: Commit)
    requires RepoInv(WorldWith(root, Finished(root)))
    ensures var (w', out) := MergeBody(WorldWith(root, Finished(root)), "a", Finished(root), EXIT_CHOICE);
            out.Done? && "a" in w'.records && w'.records["a"].status == Merged
  {
    var w := WorldWith(root, Finished(root));
    OnlyIntegrationIsIntegrationBranch("a");
    assert Ancestor(root, root);
    CleanupCannotBeRefused(w, "a", Finished(root), EXIT_CHOICE);
  }

  /** Start and complete the task. */
  lemma ReachFinished(root: Commit) returns (steps: seq<Step>, s: State)
    ensures Reachable(root, steps, s) && s.threads == map[] && s.world == WorldWith(root, Finished(root))
  {
    steps, s := ReachStarted(root);
    steps, s := Handled(root, steps, s, Complete("a"), Some(Fresh(root)));
    CompleteGives(root);
  }

  lemma ReachStarted(root: Commit) returns (steps: seq<Step>, s: State)
    ensures Reachable(root, steps, s) && s.threads == map[] && s.world == WorldWith(root, Fresh(root))
  {
    steps, s := Handled(root, [], InitialState(root), Start("a", true, []), None);
    StartGives(root);
  }

  /** One request from a quiet state, with its body. */
  lemma Handled(root: Commit, steps: seq<Step>, s: State, req: Request, snap: Option<Record>) returns (steps': seq<Step>, s': State)
    requires Reachable(root, steps, s) && s.threads == map[] && !IsExecutor(req) && Admit(s.world, req) == Success(snap)
    ensures Reachable(root, steps', s') && s'.threads == map[]
    ensures s' == ApplyBody(Apply(s, Begin(0, req)), 0, EXIT_CHOICE)
  {
    var s1 := Apply(s, Begin(0, req));
    OneStep(s, Begin(0, req));
    steps' := Extended(root, steps, s, [Begin(0, req)]);
    ReachableInv(root, steps', s1);
    var more := RunToEnd(s1, 0);
    steps' := Extended(root, steps', s1, more);
    s' := After(s1, more);
  }

  /** The merge and the abort have both read the completed record. */
  lemma BothAdmitted(root: Commit) returns (steps: seq<Step>, s: State)
    ensures Reachable(root, steps, s) && s.world == WorldWith(root, Finished(root))
    ensures s.threads == map[0 := Thread(Merge("a"), Some(Finished(root)), 0), 1 := Thread(Abort("a"), Some(Finished(root)), 0)]
  {
    steps, s := ReachFinished(root);
    OneStep(s, Begin(0, Merge("a")));
    steps := Extended(root, steps, s, [Begin(0, Merge("a"))]);
    s := Apply(s, Begin(0, Merge("a")));
    OneStep(s, Begin(1, Abort("a")));
    steps := Extended(root, steps, s, [Begin(1, Abort("a"))]);
    s := Apply(s, Begin(1, Abort("a")));
  }

  /** The merge runs first. */
  lemma MergedBeforeAbort(root: Commit) returns (steps: seq<Step>, s: State)
    ensures Reachable(root, steps, s)
    ensures "a" in s.world.records && s.world.records["a"].status == Merged
    ensures s.threads == map[1 := Thread(Abort("a"), Some(Finished(root)), 0)]
  {
    hide *;
    steps, s := BothAdmitted(root);
    ReachableInv(root, steps, s);
    FirstUnblocked(root, s);
    MergeApplied(root, s);
    var merge := RunToEnd(s, 0);
    steps := Extended(root, steps, s, merge);
    s := After(s, merge);
  }

  lemma FirstUnblocked(root: Commit, s: State)
    requires s.threads == map[0 := Thread(Merge("a"), Some(Finished(root)), 0), 1 := Thread(Abort("a"), Some(Finished(root)), 0)]
    ensures Unblocked(s, 0) && !IsExecutor(s.threads[0].req)
  {
    assert forall h :: !Holds(s.threads[1], h);
  }

  lemma MergeApplied(root: Commit, s: State)
    requires Inv(s) && s.world == WorldWith(root, Finished(root))
    requires s.threads == map[0 := Thread(Merge("a"), Some(Finished(root)), 0), 1 := Thread(Abort("a"), Some(Finished(root)), 0)]
    ensures var s' := ApplyBody(s, 0, EXIT_CHOICE);
            && "a" in s'.world.records && s'.world.records["a"].status == Merged
            && s'.threads == map[1 := Thread(Abort("a"), Some(Finished(root)), 0)]
  {
    MergeGives(root);
  }

  /** A task is started, completed and merged; an abort whose snapshot is older than the merge
      then turns the merged record into an aborted one. */
  lemma MergedCanBecomeAborted(root: Commit) returns (steps: seq<Step>, s: State, more: seq<Step>)
    ensures Reachable(root, steps, s) && Legal(s, more)
    ensures "a" in s.world.records && s.world.records["a"].status == Merged
    ensures "a" in After(s, more).world.records && After(s, more).world.records["a"].status == Aborted
  {
    steps, s := MergedBeforeAbort(root);
    ReachableInv(root, steps, s);
    assert ThreadOk(s.world, s.past.log, s.threads[1]);
    more := RunToEnd(s, 1);
    AbortRuns(s.world, "a", Finished(root));
  }

  /******* A synchronisation beside an active task *******/

  function Sequential(root: Commit): Record
  {
    Record(Integration, INTEGRATION_BRANCH, root, None, Active, [], None)
  }

  function WithBundle(root: Commit, main: Commit): World
  {
    InitialWorld(root).(inbound := map["b" := main])
  }

  lemma SequentialStartGives(root: Commit, main: Commit)
    ensures StartBody(WithBundle(root, main), "a", false, [], EXIT_CHOICE) ==
              (WithBundle(root, main).(records := map["a" := Sequential(root)]), Done(Sequential(root)))
  {
    var w := WithBundle(root, main);
    assert Switched(w, INTEGRATION_BRANCH) == w;
    assert w.records["a" := Sequential(root)] == map["a" := Sequential(root)];
  }

  /** The synchronisation and the start have both passed their checks. */
  lemma SyncAndStartAdmitted(root: Commit, main: Commit) returns (steps: seq<Step>, s: State)
    ensures Reachable(root, steps, s) && s.world == WithBundle(root, main)
    ensures s.threads == map[0 := Thread(Sync("b"), None, 0), 1 := Thread(Start("a", false, []), None, 0)]
  {
    s := InitialState(root);
    OneStep(s, Inbound("b", main));
    steps := Extended(root, [], s, [Inbound("b", main)]);
    s := Apply(s, Inbound("b", main));
    assert s.world.inbound == map["b" := main];
    OneStep(s, Begin(0, Sync("b")));
    steps := Extended(root, steps, s, [Begin(0, Sync("b"))]);
    s := Apply(s, Begin(0, Sync("b")));
    assert ValidStartRequest("a", []);
    OneStep(s, Begin(1, Start("a", false, [])));
    steps := Extended(root, steps, s, [Begin(1, Start("a", false, []))]);
    s := Apply(s, Begin(1, Start("a", false, [])));
  }

  lemma StartApplied(root: Commit, main: Commit, s: State)
    requires s.world == WithBundle(root, main)
    requires s.threads == map[0 := Thread(Sync("b"), None, 0), 1 := Thread(Start("a", false, []), None, 0)]
    ensures var s' := ApplyBody(s, 1, EXIT_CHOICE);
            && s'.threads == map[0 := Thread(Sync("b"), None, 0)]
            && s'.world == WithBundle(root, main).(records := map["a" := Sequential(root)])
  {
    SequentialStartGives(root, main);
    assert s.threads - {1} == map[0 := Thread(Sync("b"), None, 0)];
  }

  lemma SecondUnblocked(s: State)
    requires s.threads == map[0 := Thread(Sync("b"), None, 0), 1 := Thread(Start("a", false, []), None, 0)]
    ensures Unblocked(s, 1) && !IsExecutor(s.threads[1].req)
  {
    assert forall h :: !Holds(s.threads[0], h);
  }

  /** The start runs first. */
  lemma StartedBeforeSync(root: Commit, main: Commit) returns (steps: seq<Step>, s: State)
    ensures Reachable(root, steps, s) && s.threads == map[0 := Thread(Sync("b"), None, 0)]
    ensures s.world == WithBundle(root, main).(records := map["a" := Sequential(root)])
  {
    hide *;
    steps, s := SyncAndStartAdmitted(root, main);
    ReachableInv(root, steps, s);
    SecondUnblocked(s);
    StartApplied(root, main, s);
    var start := RunToEnd(s, 1);
    steps := Extended(root, steps, s, start);
    s := After(s, start);
  }

  /** "No synchronisation while a task is active" is checked before the lock only: in some run a
      synchronisation fast-forwards the integration branch while an integration task is active. */
  lemma SyncCanPassActiveTask(root: Commit, tree: nat) returns (steps: seq<Step>, s: State, more: seq<Step>)
    ensures Reachable(root, steps, s) && Legal(s, more)
    ensures AnyActiveSequential(s.world.records) && AnyActiveSequential(After(s, more).world.records)
    ensures INTEGRATION_BRANCH in s.world.refs && INTEGRATION_BRANCH in After(s, more).world.refs
    ensures After(s, more).world.refs[INTEGRATION_BRANCH] != s.world.refs[INTEGRATION_BRANCH]
  {
    var main := Commit(tree, [root]);
    steps, s := StartedBeforeSync(root, main);
    ReachableInv(root, steps, s);
    hide RepoInv;
    hide PastOk;
    hide LogOk;
    hide Reachable;
    hide Legal;
    assert ActiveSequential(s.world.records["a"]);
    more := RunToEnd(s, 0);
    SyncGives(root, main);
    assert After(s, more).world.records == s.world.records;
  }

  lemma SyncGives(root: Commit, main: Commit)
    requires exists tree: nat :: main == Commit(tree, [root])
    ensures var w := WithBundle(root, main).(records := map["a" := Sequential(root)]);
            && INTEGRATION_BRANCH in SyncBody(w, "b").0.refs
            && SyncBody(w, "b").0.refs[INTEGRATION_BRANCH] == main && main != root
            && SyncBody(w, "b").0.records == w.records
  {
    assert Ancestor(root, main.parents[0]);
    assert Ancestor(root, main);
    ProperAncestorIsLower(root, main);
  }
}
