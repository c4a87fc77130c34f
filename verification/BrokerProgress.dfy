/** No reachable state of the broker deadlocks: every in-flight request can still be brought to
    its end.  Executors are assumed to exit when asked to. */
module BrokerProgress {
  import opened Wrappers
  import opened Commits
  import opened Lifecycle
  import opened LifecycleInvariant
  import opened Broker
  import opened BrokerInvariant
  import opened BrokerTheorems

  const EXIT_CHOICE: Choice := Choice(true, true, 0)

  /** The step by which a thread that holds all its locks leaves. */
  function Exit(s: State, id: nat): Step
    requires id in s.threads
  {
    if IsExecutor(s.threads[id].req) then Finish(id) else Body(id, EXIT_CHOICE)
  }

  lemma ExitReleases(s: State, id: nat)
    requires id in s.threads && Inside(s.threads[id])
    ensures Enabled(s, Exit(s, id)) && Apply(s, Exit(s, id)).threads == s.threads - {id}
  {
  }

  lemma {:induction false} Concatenated(s: State, a: seq<Step>, b: seq<Step>)
    requires Legal(s, a) && Legal(After(s, a), b)
    ensures Legal(s, a + b) && After(s, a + b) == After(After(s, a), b)
    decreases |a|
  {
    if a == [] {
      assert a + b == b;
    } else {
      assert (a + b)[0] == a[0] && (a + b)[1..] == a[1..] + b;
      Concatenated(Apply(s, a[0]), a[1..], b);
    }
  }

  /** No other thread holds a lock this one still needs. */
  ghost predicate Unblocked(s: State, id: nat)
    requires id in s.threads
  {
    forall j, h, k :: j in s.threads && j != id && Holds(s.threads[j], h)
                      && s.threads[id].got <= k < |LockPlan(s.threads[id])| ==>
      Compatible(h, LockPlan(s.threads[id])[k])
  }

  lemma PlanShape(s: State, id: nat)
    requires Inv(s) && id in s.threads
    ensures var plan := LockPlan(s.threads[id]);
            1 <= |plan| <= 2 && (|plan| == 2 ==> plan[0].name == INTEGRATION_LOCK && plan[1].name != INTEGRATION_LOCK)
  {
    assert ThreadOk(s.world, s.past.log, s.threads[id]);
  }

  /** A thread outside its body holds at most the integration lock. */
  lemma WaitingHoldsOnlyIntegration(s: State, id: nat, h: LockRequest)
    requires Inv(s) && id in s.threads && !Inside(s.threads[id]) && Holds(s.threads[id], h)
    ensures h.name == INTEGRATION_LOCK && s.threads[id].got == 1 && |LockPlan(s.threads[id])| == 2
  {
    PlanShape(s, id);
    assert ThreadOk(s.world, s.past.log, s.threads[id]);
  }

  /** Steps of requests that are in flight already: nothing new is admitted. */
  predicate Winding(steps: seq<Step>)
  {
    forall step :: step in steps ==> step.Acquire? || step.Body? || step.Finish?
  }

  /** An unblocked thread takes its remaining locks and leaves. */
  lemma RunToEnd(s: State, id: nat) returns (steps: seq<Step>)
    requires Inv(s) && id in s.threads && Unblocked(s, id)
    ensures Legal(s, steps) && Winding(steps) && After(s, steps).threads == s.threads - {id}
    ensures !IsExecutor(s.threads[id].req) ==> After(s, steps) == ApplyBody(s, id, EXIT_CHOICE)
    decreases |LockPlan(s.threads[id])| - s.threads[id].got
  {
    assert ThreadOk(s.world, s.past.log, s.threads[id]);
    if Inside(s.threads[id]) {
      steps := ExitNow(s, id);
    } else {
      AcquireUnblocked(s, id);
      var s1 := Apply(s, Acquire(id));
      var rest := RunToEnd(s1, id);
      SameBody(s, s1, id);
      steps := [Acquire(id)] + rest;
      assert steps[1..] == rest;
    }
  }

  lemma ExitNow(s: State, id: nat) returns (steps: seq<Step>)
    requires id in s.threads && Inside(s.threads[id])
    ensures Legal(s, steps) && Winding(steps) && After(s, steps).threads == s.threads - {id}
    ensures !IsExecutor(s.threads[id].req) ==> After(s, steps) == ApplyBody(s, id, EXIT_CHOICE)
  {
    ExitReleases(s, id);
    steps := [Exit(s, id)];
    assert After(s, steps) == After(Apply(s, steps[0]), steps[1..]);
  }

  lemma NextLockIsFree(s: State, id: nat)
    requires Inv(s) && id in s.threads && Unblocked(s, id) && !Inside(s.threads[id])
    ensures Enabled(s, Acquire(id))
  {
    assert ThreadOk(s.world, s.past.log, s.threads[id]);
    PlanShape(s, id);
    var t := s.threads[id];
    var l := LockPlan(t)[t.got];
    forall j, h | j in s.threads && Holds(s.threads[j], h)
      ensures Compatible(h, l)
    {
      if j == id {
        assert h == LockPlan(t)[0];
      }
    }
  }

  lemma AcquiredThread(s: State, id: nat)
    requires Enabled(s, Acquire(id))
    ensures var s1 := Apply(s, Acquire(id));
            && LockPlan(s1.threads[id]) == LockPlan(s.threads[id]) && s1.threads[id].got == s.threads[id].got + 1
            && s1.threads[id].req == s.threads[id].req && s1.threads[id].snap == s.threads[id].snap
            && s1.threads - {id} == s.threads - {id}
            && forall j :: j in s1.threads && j != id ==> j in s.threads && s1.threads[j] == s.threads[j]
  {
  }

  lemma AcquireUnblocked(s: State, id: nat)
    requires Inv(s) && id in s.threads && Unblocked(s, id) && !Inside(s.threads[id])
    ensures Enabled(s, Acquire(id)) && Inv(Apply(s, Acquire(id))) && Unblocked(Apply(s, Acquire(id)), id)
    ensures var s1 := Apply(s, Acquire(id));
            && LockPlan(s1.threads[id]) == LockPlan(s.threads[id]) && s1.threads[id].got == s.threads[id].got + 1
            && s1.threads[id].req == s.threads[id].req && s1.threads[id].snap == s.threads[id].snap
            && s1.threads - {id} == s.threads - {id}
  {
    NextLockIsFree(s, id);
    AcquireKeeps(s, id);
    AcquiredThread(s, id);
  }

  /** What a body does depends on the world and the request, not on the locks counted so far. */
  lemma SameBody(s: State, s': State, id: nat)
    requires id in s.threads && id in s'.threads && s'.world == s.world && s'.past == s.past
    requires s'.threads[id].req == s.threads[id].req && s'.threads[id].snap == s.threads[id].snap
    requires s'.threads - {id} == s.threads - {id}
    ensures ApplyBody(s', id, EXIT_CHOICE) == ApplyBody(s, id, EXIT_CHOICE)
  {
    assert WithoutThread(s', id) == WithoutThread(s, id);
  }

  /** Some in-flight request is blocked by no other one. */
  lemma SomeUnblocked(s: State) returns (id: nat)
    requires Inv(s) && s.threads != map[]
    ensures id in s.threads && Unblocked(s, id)
  {
    hide RepoInv;
    hide PastOk;
    hide LogOk;
    if i :| i in s.threads && Inside(s.threads[i]) {
      id := i;
    } else if i, h :| i in s.threads && Holds(s.threads[i], h) {
      id := i;
      PlanShape(s, id);
      WaitingHoldsOnlyIntegration(s, id, h);
      forall j, g, k | j in s.threads && j != id && Holds(s.threads[j], g)
                       && s.threads[id].got <= k < |LockPlan(s.threads[id])|
        ensures Compatible(g, LockPlan(s.threads[id])[k])
      {
        WaitingHoldsOnlyIntegration(s, j, g);
      }
    } else {
      id :| id in s.threads;
    }
  }

  lemma {:induction false} Drain(s: State) returns (steps: seq<Step>)
    requires Inv(s)
    ensures Legal(s, steps) && Winding(steps) && After(s, steps).threads == map[]
    decreases |s.threads|
  {
    if s.threads == map[] {
      steps := [];
    } else {
      var id := SomeUnblocked(s);
      var first := RunToEnd(s, id);
      RunKeeps(s, first);
      var s1 := After(s, first);
      assert s1.threads.Keys == s.threads.Keys - {id};
      assert |s1.threads| == |s1.threads.Keys| && |s.threads| == |s.threads.Keys|;
      var rest := Drain(s1);
      Concatenated(s, first, rest);
      steps := first + rest;
    }
  }

  /** From every reachable state there is a run that ends every request in flight; in particular
      some step of an in-flight request is enabled whenever there is one. */
  lemma NoDeadlock(root: Commit, steps: seq<Step>, s: State) returns (more: seq<Step>)
    requires Reachable(root, steps, s)
    ensures Legal(s, more) && Winding(more) && After(s, more).threads == map[]
    ensures s.threads != map[] ==> more != [] && Enabled(s, more[0])
  {
    ReachableInv(root, steps, s);
    more := Drain(s);
  }
}
