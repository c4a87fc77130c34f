/** The invariant of the interleaved broker, and the proof that every step keeps it. */
module BrokerInvariant {
  import opened Wrappers
  import opened Commits
  import opened Lifecycle
  import opened LifecycleInvariant
  import opened Broker

  /******* The invariant *******/

  ghost predicate Logged(log: seq<Event>, task: string, r: Record)
  {
    r.mode == Parallel && r.head.Some? ==> CompletedAt(task, r.head.value) in log
  }

  ghost predicate ThreadOk(w: World, log: seq<Event>, t: Thread)
  {
    && t.got <= |LockPlan(t)|
    && (OnTask(t.req) <==> t.snap.Some?)
    && (t.req.Start? ==> t.req.task !in w.records && ValidStartRequest(t.req.task, t.req.deps))
    && (OnTask(t.req) ==>
          && SnapOk(w, t.req.task, t.snap.value) && RequestAllowed(t.req, t.snap.value)
          && Logged(log, t.req.task, t.snap.value))
  }

  ghost predicate ThreadsOk(s: State)
  {
    forall id :: id in s.threads ==> ThreadOk(s.world, s.past.log, s.threads[id])
  }

  ghost predicate StartsDistinct(s: State)
  {
    forall i, j :: i in s.threads && j in s.threads && i != j && s.threads[i].req.Start? && s.threads[j].req.Start? ==>
      s.threads[i].req.task != s.threads[j].req.task
  }

  /** Two threads hold conflicting locks at no time. */
  ghost predicate LocksOk(s: State)
  {
    forall i, j, a, b :: i in s.threads && j in s.threads && i != j && Holds(s.threads[i], a) && Holds(s.threads[j], b) ==>
      Compatible(a, b)
  }

  ghost predicate EventOk(w: World, log: seq<Event>, e: Event)
  {
    && INTEGRATION_BRANCH in w.refs
    && e.task in w.records
    && match e
       case CompletedAt(t, h) => w.records[t].mode == Integration ==> Ancestor(h, w.refs[INTEGRATION_BRANCH])
       case MergedInto(t, h, before, after) =>
         && w.records[t].mode == Parallel && Terminal(w.records[t])
         && CompletedAt(t, h) in log
         && Ancestor(h, after) && Ancestor(before, after) && Ancestor(after, w.refs[INTEGRATION_BRANCH])
  }

  ghost predicate LogOk(s: State)
  {
    && (forall e :: e in s.past.log ==> EventOk(s.world, s.past.log, e))
    && (forall t :: t in s.world.records ==> Logged(s.past.log, t, s.world.records[t]))
    && (forall i, j :: 0 <= i < j < |s.past.log| && s.past.log[i].MergedInto? && s.past.log[j].MergedInto? ==>
          s.past.log[i].task != s.past.log[j].task)
  }

  /** The commit accepted for a dependency lies between the bases of the two tasks. */
  ghost predicate DepOk(w: World, past: History, t: string, d: string)
  {
    && t in w.records && d in w.records
    && t in past.rank && d in past.rank && past.rank[d] < past.rank[t]
    && t in past.accepted && d in past.accepted[t]
    && Ancestor(w.records[d].base, past.accepted[t][d])
    && Ancestor(past.accepted[t][d], w.records[t].base)
    && AcceptedOk(w.records[d], past.accepted[t][d])
  }

  /** A parallel dependency is over, and while it is merged the accepted commit is its merge commit; an
      integration dependency is completed at the accepted commit or a later one. */
  ghost predicate AcceptedOk(r: Record, accepted: Commit)
  {
    match r.mode
    case Parallel => Terminal(r) && (r.status == Merged ==> r.mergeCommit == Some(accepted))
    case Integration => r.status == Completed && r.head.Some? && Ancestor(accepted, r.head.value)
  }

  ghost predicate PastOk(w: World, past: History)
  {
    && past.rank.Keys == w.records.Keys
    && (forall t :: t in past.rank ==> past.rank[t] < past.clock)
    && (forall t, d :: t in w.records && d in w.records[t].deps ==> DepOk(w, past, t, d))
  }

  ghost predicate Inv(s: State)
  {
    RepoInv(s.world) && ThreadsOk(s) && StartsDistinct(s) && LocksOk(s) && LogOk(s) && PastOk(s.world, s.past)
  }

  lemma InitialInv(root: Commit)
    ensures Inv(InitialState(root))
  {
    InitialKeeps(root);
  }

  /******* What carries over *******/

  lemma ThreadStaysOk(w: World, w': World, log: seq<Event>, log': seq<Event>, t: Thread)
    requires ThreadOk(w, log, t) && Evolves(w, w')
    requires forall e :: e in log ==> e in log'
    requires t.req.Start? ==> t.req.task !in w'.records
    ensures ThreadOk(w', log', t)
  {
    if OnTask(t.req) {
      SnapStaysOk(w, w', t.req.task, t.snap.value);
    }
  }

  lemma EventStaysOk(w: World, w': World, log: seq<Event>, log': seq<Event>, e: Event)
    requires EventOk(w, log, e) && Evolves(w, w') && Forward(w, w')
    requires forall x :: x in log ==> x in log'
    ensures EventOk(w', log', e)
  {
    assert RecordEvolves(w.records[e.task], w'.records[e.task]);
    var earlier, later := w.refs[INTEGRATION_BRANCH], w'.refs[INTEGRATION_BRANCH];
    match e
    case CompletedAt(t, h) =>
      if w.records[t].mode == Integration {
        AncestorTransitive(h, earlier, later);
      }
    case MergedInto(t, h, before, after) =>
      AncestorTransitive(after, earlier, later);
  }

  lemma PastStaysOk(w: World, w': World, past: History)
    requires PastOk(w, past) && Evolves(w, w') && w'.records.Keys == w.records.Keys
    ensures PastOk(w', past)
  {
    forall t, d | t in w'.records && d in w'.records[t].deps
      ensures DepOk(w', past, t, d)
    {
      assert t in w.records && RecordEvolves(w.records[t], w'.records[t]);
      assert DepOk(w, past, t, d);
      assert RecordEvolves(w.records[d], w'.records[d]);
      if w.records[d].mode == Integration {
        AncestorTransitive(past.accepted[t][d], w.records[d].head.value, w'.records[d].head.value);
      }
    }
  }

  /** Any step of one thread that evolves the records, moves integration forward and at most
      extends the log by completions keeps everything about the other threads. */
  lemma WorldStepKeeps(s: State, w': World, log': seq<Event>, threads': map<nat, Thread>)
    requires Inv(s) && RepoInv(w') && Evolves(s.world, w') && Forward(s.world, w')
    requires w'.records.Keys == s.world.records.Keys
    requires forall e :: e in s.past.log ==> e in log'
    requires forall id :: id in threads' ==> id in s.threads && threads'[id] == s.threads[id]
    requires forall e :: e in log' && e !in s.past.log ==> EventOk(w', log', e)
    requires forall t :: t in w'.records ==> Logged(log', t, w'.records[t])
    requires forall i, j :: 0 <= i < j < |log'| && log'[i].MergedInto? && log'[j].MergedInto? ==> log'[i].task != log'[j].task
    ensures Inv(State(w', threads', s.past.(log := log')))
  {
    forall id | id in threads'
      ensures ThreadOk(w', log', threads'[id])
    {
      ThreadStaysOk(s.world, w', s.past.log, log', s.threads[id]);
    }
    forall e | e in log'
      ensures EventOk(w', log', e)
    {
      if e in s.past.log {
        EventStaysOk(s.world, w', s.past.log, log', e);
      }
    }
    PastStaysOk(s.world, w', s.past.(log := log'));
  }

  lemma LoggedExtends(log: seq<Event>, e: Event, task: string, r: Record)
    requires Logged(log, task, r)
    ensures Logged(log + [e], task, r)
  {
  }

  lemma MergesStayDistinct(log: seq<Event>, e: Event)
    requires forall i, j :: 0 <= i < j < |log| && log[i].MergedInto? && log[j].MergedInto? ==> log[i].task != log[j].task
    requires e.MergedInto? ==> forall i :: 0 <= i < |log| && log[i].MergedInto? ==> log[i].task != e.task
    ensures var l := log + [e];
            forall i, j :: 0 <= i < j < |l| && l[i].MergedInto? && l[j].MergedInto? ==> l[i].task != l[j].task
  {
    var l := log + [e];
    forall i, j | 0 <= i < j < |l| && l[i].MergedInto? && l[j].MergedInto?
      ensures l[i].task != l[j].task
    {
      assert l[i] == log[i];
      assert j < |log| ==> l[j] == log[j];
    }
  }

  /** The same for a step that rewrites one record and logs one event. */
  lemma LoggedStepKeeps(s: State, w': World, task: string, r: Record, e: Event, threads': map<nat, Thread>)
    requires Inv(s) && RepoInv(w') && Evolves(s.world, w') && Forward(s.world, w')
    requires task in s.world.records && w'.records == s.world.records[task := r]
    requires forall id :: id in threads' ==> id in s.threads && threads'[id] == s.threads[id]
    requires EventOk(w', s.past.log + [e], e)
    requires Logged(s.past.log + [e], task, r)
    requires e.MergedInto? ==> forall i :: 0 <= i < |s.past.log| && s.past.log[i].MergedInto? ==> s.past.log[i].task != e.task
    ensures Inv(State(w', threads', s.past.(log := s.past.log + [e])))
  {
    MergesStayDistinct(s.past.log, e);
    forall t | t in w'.records
      ensures Logged(s.past.log + [e], t, w'.records[t])
    {
      if t != task {
        LoggedExtends(s.past.log, e, t, s.world.records[t]);
      }
    }
    WorldStepKeeps(s, w', s.past.log + [e], threads');
  }

  /** The special case of a step that leaves records and log alone. */
  lemma QuietStepKeeps(s: State, w': World, threads': map<nat, Thread>)
    requires Inv(s) && RepoInv(w') && Forward(s.world, w') && w'.records == s.world.records
    requires forall id :: id in threads' ==> id in s.threads && threads'[id] == s.threads[id]
    ensures Inv(State(w', threads', s.past))
  {
    EvolvesReflexive(s.world, w');
    WorldStepKeeps(s, w', s.past.log, threads');
    assert s.past.(log := s.past.log) == s.past;
  }

  /******* The steps *******/

  lemma BeginKeeps(s: State, id: nat, req: Request)
    requires Inv(s) && Enabled(s, Begin(id, req))
    ensures Inv(Apply(s, Begin(id, req)))
  {
    var s' := Apply(s, Begin(id, req));
    var t := s'.threads[id];
    AdmittedOk(s, id, req);
    hide PastOk;
    hide LogOk;
    hide RepoInv;
    hide ThreadOk;
    hide LocksOk;
    BegunLocks(s, id, t);
  }

  /** A thread that has no lock yet conflicts with none. */
  lemma BegunLocks(s: State, id: nat, t: Thread)
    requires LocksOk(s) && id !in s.threads && t.got == 0
    ensures LocksOk(s.(threads := s.threads[id := t]))
  {
    assert forall h :: !Holds(t, h);
  }

  lemma AdmittedOk(s: State, id: nat, req: Request)
    requires Inv(s) && Enabled(s, Begin(id, req))
    ensures ThreadOk(s.world, s.past.log, Thread(req, Admit(s.world, req).value, 0))
  {
    hide PastOk;
    hide LocksOk;
    hide Layout;
    hide Exclusive;
    hide HeadsOk;
    hide HistoryOk;
    if OnTask(req) {
      var r := Admit(s.world, req).value.value;
      assert r == s.world.records[req.task] && RecordOk(req.task, r);
      if r.mode == Parallel && r.status == Completed {
        assert Ancestor(r.head.value, r.head.value);
      }
    }
  }

  lemma AcquiredLocks(s: State, id: nat)
    requires LocksOk(s) && Enabled(s, Acquire(id))
    ensures LocksOk(Apply(s, Acquire(id)))
  {
    var s' := Apply(s, Acquire(id));
    var t, t' := s.threads[id], s'.threads[id];
    var l := LockPlan(t)[t.got];
    assert LockPlan(t') == LockPlan(t);
    forall h | Holds(t', h)
      ensures h == l || Holds(t, h)
    {
      var k :| 0 <= k < t'.got && k < |LockPlan(t')| && LockPlan(t')[k] == h;
      assert k < t.got ==> LockPlan(t)[k] == h;
    }
    forall i, j, a, b | i in s'.threads && j in s'.threads && i != j && Holds(s'.threads[i], a) && Holds(s'.threads[j], b)
      ensures Compatible(a, b)
    {
      if i == id && a == l {
        assert Holds(s.threads[j], b) && Compatible(b, l);
      } else if j == id && b == l {
        assert Holds(s.threads[i], a) && Compatible(a, l);
      } else {
        assert Holds(s.threads[i], a) && Holds(s.threads[j], b);
      }
    }
  }

  lemma AcquireKeeps(s: State, id: nat)
    requires Inv(s) && Enabled(s, Acquire(id))
    ensures Inv(Apply(s, Acquire(id)))
  {
    AcquiredLocks(s, id);
    assert ThreadOk(s.world, s.past.log, s.threads[id]);
    assert LockPlan(Apply(s, Acquire(id)).threads[id]) == LockPlan(s.threads[id]);
  }

  lemma {:induction false} DependenciesMet(records: map<string, Record>, deps: seq<string>, base: Commit)
    ensures DependencyFault(records, deps, base).None? <==> forall d :: d in deps ==> DependencyMet(records, d, base)
  {
    if deps != [] {
      DependenciesMet(records, deps[1..], base);
      assert deps == [deps[0]] + deps[1..];
    }
  }

  lemma StartedRecord(w: World, task: string, parallel: bool, deps: seq<string>, choice: Choice)
    requires INTEGRATION_BRANCH in w.refs
    ensures var (w', out) := StartBody(w, task, parallel, deps, choice);
            out.Done? ==>
              && out.record.deps == deps && out.record.base == w.refs[INTEGRATION_BRANCH] && out.record.head.None?
              && DependencyFault(w.records, deps, w.refs[INTEGRATION_BRANCH]).None?
  {
  }

  /** A successful start keeps the invariant, whatever else its body did to the repository. */
  lemma StartStepKeeps(s: State, id: nat, w': World, r: Record)
    requires Inv(s) && id in s.threads && s.threads[id].req.Start?
    requires RepoInv(w') && Evolves(s.world, w') && Forward(s.world, w')
    requires w'.records == s.world.records[s.threads[id].req.task := r] && r.head.None?
    requires PastOk(w', StartedPast(s, s.threads[id].req.task, s.threads[id].req.deps))
    ensures Inv(State(w', s.threads - {id}, StartedPast(s, s.threads[id].req.task, s.threads[id].req.deps)))
  {
    var threads' := s.threads - {id};
    forall j | j in threads'
      ensures ThreadOk(w', s.past.log, threads'[j])
    {
      ThreadStaysOk(s.world, w', s.past.log, s.past.log, s.threads[j]);
    }
    forall e | e in s.past.log
      ensures EventOk(w', s.past.log, e)
    {
      EventStaysOk(s.world, w', s.past.log, s.past.log, e);
    }
  }

  ghost function StartedPast(s: State, task: string, deps: seq<string>): History
  {
    s.past.(accepted := s.past.accepted[task := AcceptedFor(s.world.records, deps)],
            rank := s.past.rank[task := s.past.clock], clock := s.past.clock + 1)
  }

  lemma StartExtendsPast(s: State, w': World, task: string, r: Record)
    requires RepoInv(s.world) && PastOk(s.world, s.past) && task !in s.world.records && task !in r.deps
    requires w'.records == s.world.records[task := r] && r.base == s.world.refs[INTEGRATION_BRANCH]
    requires forall d :: d in r.deps ==> DependencyMet(s.world.records, d, r.base)
    ensures PastOk(w', StartedPast(s, task, r.deps))
  {
    var past' := StartedPast(s, task, r.deps);
    forall t, d | t in w'.records && d in w'.records[t].deps
      ensures DepOk(w', past', t, d)
    {
      if t == task {
        assert DependencyMet(s.world.records, d, r.base);
        assert HistoryOk(s.world.records[d], r.base);
      } else {
        assert DepOk(s.world, s.past, t, d);
      }
    }
  }

  lemma StartBodyKeeps(s: State, id: nat, choice: Choice)
    requires Inv(s) && Enabled(s, Body(id, choice)) && s.threads[id].req.Start?
    ensures Inv(ApplyBody(s, id, choice))
    ensures Evolves(s.world, ApplyBody(s, id, choice).world) && Forward(s.world, ApplyBody(s, id, choice).world)
  {
    assert ThreadOk(s.world, s.past.log, s.threads[id]);
    var Start(task, parallel, deps) := s.threads[id].req;
    StartKeeps(s.world, task, parallel, deps, choice);
    StartEvolves(s.world, task, parallel, deps, choice);
    var (w', out) := StartBody(s.world, task, parallel, deps, choice);
    if out.Failed? {
      QuietStepKeeps(s, w', s.threads - {id});
      assert ApplyBody(s, id, choice) == State(w', s.threads - {id}, s.past);
    } else {
      StartedRecord(s.world, task, parallel, deps, choice);
      DependenciesMet(s.world.records, deps, s.world.refs[INTEGRATION_BRANCH]);
      StartExtendsPast(s, w', task, out.record);
      StartStepKeeps(s, id, w', out.record);
      assert ApplyBody(s, id, choice) == State(w', s.threads - {id}, StartedPast(s, task, deps));
    }
  }

  /** A successful completion keeps the invariant and is logged. */
  lemma CompleteStepKeeps(s: State, id: nat, w': World, r: Record)
    requires Inv(s) && id in s.threads && s.threads[id].req.Complete?
    requires RepoInv(w') && Evolves(s.world, w') && Forward(s.world, w')
    requires s.threads[id].req.task in s.world.records
    requires w'.records == s.world.records[s.threads[id].req.task := r]
    requires r.head.Some? && (r.mode == Integration ==> r.head.value == w'.refs[INTEGRATION_BRANCH])
    ensures Inv(State(w', s.threads - {id}, s.past.(log := s.past.log + [CompletedAt(s.threads[id].req.task, r.head.value)])))
  {
    var e := CompletedAt(s.threads[id].req.task, r.head.value);
    assert EventOk(w', s.past.log + [e], e) by {
      assert Ancestor(e.head, e.head);
    }
    assert e in s.past.log + [e];
    LoggedStepKeeps(s, w', s.threads[id].req.task, r, e, s.threads - {id});
  }

  lemma CompleteBodyKeeps(s: State, id: nat, choice: Choice)
    requires Inv(s) && Enabled(s, Body(id, choice)) && s.threads[id].req.Complete?
    ensures Inv(ApplyBody(s, id, choice))
    ensures Evolves(s.world, ApplyBody(s, id, choice).world) && Forward(s.world, ApplyBody(s, id, choice).world)
  {
    var t := s.threads[id];
    assert ThreadOk(s.world, s.past.log, t);
    var task, snap := t.req.task, t.snap.value;
    CompleteKeeps(s.world, task, snap);
    CompleteEvolves(s.world, task, snap);
    var (w', out) := CompleteBody(s.world, task, snap);
    if out.Failed? {
      QuietStepKeeps(s, w', s.threads - {id});
      assert ApplyBody(s, id, choice) == State(w', s.threads - {id}, s.past);
    } else {
      CompleteStepKeeps(s, id, w', out.record);
    }
  }

  lemma MergeEventOk(w: World, log: seq<Event>, e: Event)
    requires INTEGRATION_BRANCH in w.refs && e.MergedInto? && e.after == w.refs[INTEGRATION_BRANCH]
    requires e.task in w.records && w.records[e.task].mode == Parallel && Terminal(w.records[e.task])
    requires CompletedAt(e.task, e.head) in log && Ancestor(e.head, e.after) && Ancestor(e.before, e.after)
    ensures EventOk(w, log + [e], e)
  {
    assert Ancestor(e.after, e.after);
  }

  /** While a task is pending no merge of it has been logged. */
  lemma NotMergedBefore(s: State, task: string)
    requires LogOk(s) && task in s.world.records && Pending(s.world.records[task])
    ensures forall i :: 0 <= i < |s.past.log| && s.past.log[i].MergedInto? ==> s.past.log[i].task != task
  {
    forall i | 0 <= i < |s.past.log| && s.past.log[i].MergedInto?
      ensures s.past.log[i].task != task
    {
      assert EventOk(s.world, s.past.log, s.past.log[i]);
    }
  }

  /** A successful merge keeps the invariant and is logged once per task. */
  lemma MergeStepKeeps(s: State, id: nat, w': World, r: Record, before: Commit)
    requires Inv(s) && id in s.threads && s.threads[id].req.Merge?
    requires RepoInv(w') && Evolves(s.world, w') && Forward(s.world, w')
    requires w'.records == s.world.records[s.threads[id].req.task := r]
    requires Pending(s.world.records[s.threads[id].req.task]) && r.mode == Parallel && r.status == Merged
    requires r.head.Some? && CompletedAt(s.threads[id].req.task, r.head.value) in s.past.log
    requires Ancestor(r.head.value, w'.refs[INTEGRATION_BRANCH]) && Ancestor(before, w'.refs[INTEGRATION_BRANCH])
    ensures var e := MergedInto(s.threads[id].req.task, r.head.value, before, w'.refs[INTEGRATION_BRANCH]);
            Inv(State(w', s.threads - {id}, s.past.(log := s.past.log + [e])))
  {
    var task := s.threads[id].req.task;
    var e := MergedInto(task, r.head.value, before, w'.refs[INTEGRATION_BRANCH]);
    MergeEventOk(w', s.past.log, e);
    NotMergedBefore(s, task);
    LoggedExtends(s.past.log, e, task, r);
    LoggedStepKeeps(s, w', task, r, e, s.threads - {id});
  }

  lemma MergeBodyKeeps(s: State, id: nat, choice: Choice)
    requires Inv(s) && Enabled(s, Body(id, choice)) && s.threads[id].req.Merge?
    ensures Inv(ApplyBody(s, id, choice))
    ensures Evolves(s.world, ApplyBody(s, id, choice).world) && Forward(s.world, ApplyBody(s, id, choice).world)
  {
    var t := s.threads[id];
    assert ThreadOk(s.world, s.past.log, t);
    var task, snap := t.req.task, t.snap.value;
    MergeKeeps(s.world, task, snap, choice);
    MergeEffect(s.world, task, snap, choice);
    var (w', out) := MergeBody(s.world, task, snap, choice);
    if out.Failed? {
      QuietStepKeeps(s, w', s.threads - {id});
      assert ApplyBody(s, id, choice) == State(w', s.threads - {id}, s.past);
    } else {
      MergeStepKeeps(s, id, w', out.record, s.world.refs[INTEGRATION_BRANCH]);
    }
  }

  lemma AbortBodyKeeps(s: State, id: nat, choice: Choice)
    requires Inv(s) && Enabled(s, Body(id, choice)) && s.threads[id].req.Abort?
    ensures Inv(ApplyBody(s, id, choice))
    ensures Evolves(s.world, ApplyBody(s, id, choice).world) && Forward(s.world, ApplyBody(s, id, choice).world)
  {
    var t := s.threads[id];
    assert ThreadOk(s.world, s.past.log, t);
    var task, snap := t.req.task, t.snap.value;
    AbortKeeps(s.world, task, snap);
    AbortRuns(s.world, task, snap);
    var w' := AbortBody(s.world, task, snap).0;
    var threads' := s.threads - {id};
    WorldStepKeeps(s, w', s.past.log, threads');
    assert ApplyBody(s, id, choice) == State(w', threads', s.past.(log := s.past.log));
  }

  lemma SyncBodyKeeps(s: State, id: nat, choice: Choice)
    requires Inv(s) && Enabled(s, Body(id, choice)) && s.threads[id].req.Sync?
    ensures Inv(ApplyBody(s, id, choice))
    ensures Evolves(s.world, ApplyBody(s, id, choice).world) && Forward(s.world, ApplyBody(s, id, choice).world)
  {
    var bundle := s.threads[id].req.bundle;
    SyncKeeps(s.world, bundle);
    SyncRecords(s.world, bundle);
    var w' := SyncBody(s.world, bundle).0;
    EvolvesReflexive(s.world, w');
    QuietStepKeeps(s, w', s.threads - {id});
    assert ApplyBody(s, id, choice) == State(w', s.threads - {id}, s.past);
  }

  lemma ReleaseKeeps(s: State, id: nat)
    requires Inv(s) && id in s.threads
    ensures Inv(WithoutThread(s, id))
  {
    QuietStepKeeps(s, s.world, s.threads - {id});
    assert WithoutThread(s, id) == State(s.world, s.threads - {id}, s.past);
  }

  lemma WorkStepKeeps(s: State, id: nat, act: Action)
    requires Inv(s) && Enabled(s, WorkStep(id, act))
    ensures Inv(Apply(s, WorkStep(id, act)))
    ensures Evolves(s.world, Apply(s, WorkStep(id, act)).world) && Forward(s.world, Apply(s, WorkStep(id, act)).world)
  {
    var t := s.threads[id];
    assert ThreadOk(s.world, s.past.log, t);
    WorkKeeps(s.world, t.req.task, t.snap.value, act);
    var w' := Apply(s, WorkStep(id, act)).world;
    EvolvesReflexive(s.world, w');
    QuietStepKeeps(s, w', s.threads);
  }

  lemma InboundKeeps(s: State, bundle: string, main: Commit)
    requires Inv(s)
    ensures Inv(Apply(s, Inbound(bundle, main)))
    ensures Evolves(s.world, Apply(s, Inbound(bundle, main)).world) && Forward(s.world, Apply(s, Inbound(bundle, main)).world)
  {
    var w' := Apply(s, Inbound(bundle, main)).world;
    assert RepoInv(w') by { assert forall t :: IsPending(w', t) == IsPending(s.world, t); }
    EvolvesReflexive(s.world, w');
    QuietStepKeeps(s, w', s.threads);
  }

  /** Every step keeps the invariant, evolves the records and moves integration only forward. */
  lemma StepKeeps(s: State, step: Step)
    requires Inv(s) && Enabled(s, step)
    ensures Inv(Apply(s, step))
    ensures Evolves(s.world, Apply(s, step).world) && Forward(s.world, Apply(s, step).world)
  {
    match step
    case Begin(id, req) => BeginKeeps(s, id, req); EvolvesReflexive(s.world, s.world);
    case Acquire(id) => AcquireKeeps(s, id); EvolvesReflexive(s.world, s.world);
    case Finish(id) => ReleaseKeeps(s, id); EvolvesReflexive(s.world, s.world);
    case WorkStep(id, act) => WorkStepKeeps(s, id, act);
    case Inbound(bundle, main) => InboundKeeps(s, bundle, main);
    case Body(id, choice) =>
      match s.threads[id].req
      case Start(_, _, _) => StartBodyKeeps(s, id, choice);
      case Complete(_) => CompleteBodyKeeps(s, id, choice);
      case Merge(_) => MergeBodyKeeps(s, id, choice);
      case Abort(_) => AbortBodyKeeps(s, id, choice);
      case Sync(_) => SyncBodyKeeps(s, id, choice);
      case _ => ReleaseKeeps(s, id); EvolvesReflexive(s.world, s.world);
  }

  /** Every reachable state satisfies the invariant, and every run evolves records and moves
      the integration branch forward. */
  lemma {:induction false} RunKeeps(s: State, steps: seq<Step>)
    requires Inv(s) && Legal(s, steps)
    ensures Inv(After(s, steps))
    ensures Evolves(s.world, After(s, steps).world) && Forward(s.world, After(s, steps).world)
    decreases |steps|
  {
    if steps == [] {
      EvolvesReflexive(s.world, s.world);
    } else {
      var s1 := Apply(s, steps[0]);
      StepKeeps(s, steps[0]);
      RunKeeps(s1, steps[1..]);
      var s2 := After(s1, steps[1..]);
      EvolvesTransitive(s.world, s1.world, s2.world);
      AncestorTransitive(s.world.refs[INTEGRATION_BRANCH], s1.world.refs[INTEGRATION_BRANCH], s2.world.refs[INTEGRATION_BRANCH]);
    }
  }
}
