/** The interactive executor loop: one child on a pseudo-terminal, one I/O object, one way out. */
module Interactive {
  import opened Wrappers

  type Bytes = seq<bv8>

  const CHUNK: nat := 4096

  /******* The child and its process group *******/

  datatype Signal = Interrupt | Terminate | Kill

  /** What a signal to the group leads to within the grace period; Gone is "no such process". */
  datatype Reaction = Dies | Survives | Gone

  /** Reactions to the two catchable signals, and the exit status the child ends with when stopped. */
  datatype Reactions = Reactions(toInterrupt: Reaction, toTerminate: Reaction, status: int)

  /** The child's exit status once it has ended, the terminal's unread output, the output read from it,
      the bytes handed to the I/O object, how often that was done, the signals sent, and what is left
      to release. */
  datatype Session = Session(
    child: Option<int>,
    pending: Bytes,
    taken: Bytes,
    forwarded: Bytes,
    writes: nat,
    signals: seq<Signal>,
    cleanups: nat,
    masterOpen: bool)

  function ReactionTo(r: Reactions, signal: Signal): Reaction
  {
    match signal
    case Interrupt => r.toInterrupt
    case Terminate => r.toTerminate
    case Kill => Dies
  }

  /** One signal to the group, and the grace period after it.  The child ends here only by its reaction. */
  function Deliver(s: Session, signal: Signal, r: Reactions): Session
  {
    s.(signals := s.signals + [signal], child := if ReactionTo(r, signal).Survives? then s.child else Some(r.status))
  }

  /** `terminate_process_group`: interrupt, then terminate, then kill, until the child has ended. */
  function TerminateGroup(s: Session, r: Reactions): Session
  {
    if s.child.Some? then s
    else
      var a := Deliver(s, Interrupt, r);
      if a.child.Some? then a
      else
        var b := Deliver(a, Terminate, r);
        if b.child.Some? then b else Deliver(b, Kill, r)
  }

  /******* The environment of one run *******/

  datatype Control = Nothing | Input(data: Bytes) | Resize(rows: int, cols: int) | Cancel | Fails

  /** One turn of the loop as the environment plays it: what the child wrote and whether it ended since
      the last turn, whether the deadline has passed, how much the terminal hands out, and the control
      message. */
  datatype Tick = Tick(produced: Bytes, exits: Option<int>, expired: bool, size: nat, control: Control)

  /** The I/O object raises at the given call of its output method; the cleanup may raise. */
  datatype Setting = Setting(notice: Bytes, failAt: Option<nat>, reactions: Reactions, cleanupRaises: bool)

  /******* The loop as a function *******/

  datatype End = Running | TimedOut | Cancelled | Exited(status: int) | IoFailed

  function Arrive(s: Session, t: Tick): Session
  {
    s.(pending := s.pending + t.produced, child := if s.child.Some? then s.child else t.exits)
  }

  /** Handing bytes to the I/O object; false when it raises. */
  function Write(s: Session, data: Bytes, e: Setting): (Session, bool)
  {
    if e.failAt == Some(s.writes) then (s.(writes := s.writes + 1), false)
    else (s.(writes := s.writes + 1, forwarded := s.forwarded + data), true)
  }

  function ReadSize(available: nat, size: nat): (n: nat)
    ensures n <= available && n <= CHUNK && (available > 0 ==> n > 0)
  {
    var wanted := if size == 0 then 1 else if size > CHUNK then CHUNK else size;
    if wanted < available then wanted else available
  }

  /** Read at most n bytes from the terminal. */
  function Take(s: Session, n: nat): Session
    requires n <= |s.pending|
  {
    s.(taken := s.taken + s.pending[..n], pending := s.pending[n..])
  }

  /** Read once, if there is anything to read, and forward it. */
  function Forward(s: Session, size: nat, e: Setting): (Session, bool)
  {
    if s.pending == [] then (s, true)
    else
      var n := ReadSize(|s.pending|, size);
      Write(Take(s, n), s.pending[..n], e)
  }

  /** Read everything left, chunk by chunk, forwarding each. */
  function Drain(s: Session, e: Setting): (Session, bool)
    decreases |s.pending|
  {
    if s.pending == [] then (s, true)
    else
      var w := Forward(s, CHUNK, e);
      if !w.1 then w else Drain(w.0, e)
  }

  function Step(s: Session, t: Tick, e: Setting): (Session, End)
  {
    var a := Arrive(s, t);
    if t.expired then
      var w := if e.notice == [] then (a, true) else Write(a, e.notice, e);
      if !w.1 then (w.0, IoFailed) else (TerminateGroup(w.0, e.reactions), TimedOut)
    else
      var w := Forward(a, t.size, e);
      if !w.1 then (w.0, IoFailed)
      else if t.control.Fails? then (w.0, IoFailed)
      else if t.control.Cancel? then (TerminateGroup(w.0, e.reactions), Cancelled)
      else if w.0.child.None? then (w.0, Running)
      else
        var d := Drain(w.0, e);
        (d.0, if d.1 then Exited(w.0.child.value) else IoFailed)
  }

  /** The loop up to its end: the session there, how it ended, and how many turns it took. */
  function Loop(s: Session, ticks: seq<Tick>, e: Setting): (Session, End, nat)
    decreases |ticks|
  {
    if ticks == [] then (s, Running, 0)
    else
      var next := Step(s, ticks[0], e);
      if next.1 != Running then (next.0, next.1, 1)
      else
        var rest := Loop(next.0, ticks[1..], e);
        (rest.0, rest.1, rest.2 + 1)
  }

  function Ends(s: Session, ticks: seq<Tick>, e: Setting): (Session, End)
  {
    var l := Loop(s, ticks, e);
    (l.0, l.1)
  }

  /** The way out: end the child if it still runs, clean up, close the terminal. */
  function Finally(s: Session, e: Setting): Session
  {
    var t := TerminateGroup(s, e.reactions);
    t.(cleanups := t.cleanups + 1, masterOpen := s.masterOpen && e.cleanupRaises)
  }

  datatype Outcome = StillRunning | Returned(code: int) | Raised

  function OutcomeOf(end: End, e: Setting): Outcome
  {
    match end
    case Running => StillRunning
    case IoFailed => Raised
    case TimedOut => if e.cleanupRaises then Raised else Returned(124)
    case Cancelled => if e.cleanupRaises then Raised else Returned(130)
    case Exited(status) => if e.cleanupRaises then Raised else Returned(status)
  }

  function Play(s: Session, ticks: seq<Tick>, e: Setting): (Session, Outcome)
  {
    var l := Loop(s, ticks, e);
    if l.1.Running? then (l.0, StillRunning) else (Finally(l.0, e), OutcomeOf(l.1, e))
  }

  /******* The loop as it runs *******/

  class Executor {
    var child: Option<int>
    var pending: Bytes
    var taken: Bytes
    var forwarded: Bytes
    var writes: nat
    var signals: seq<Signal>
    var cleanups: nat
    var masterOpen: bool

    function Now(): Session
      reads this
    {
      Session(child, pending, taken, forwarded, writes, signals, cleanups, masterOpen)
    }

    constructor ()
      ensures Now() == Session(None, [], [], [], 0, [], 0, true)
    {
      child, pending, taken, forwarded, writes, signals, cleanups, masterOpen := None, [], [], [], 0, [], 0, true;
    }

    method KillGroup(signal: Signal, r: Reactions) returns (ended: bool)
      requires child.None?
      modifies this
      ensures Now() == Deliver(old(Now()), signal, r) && ended == child.Some?
    {
      signals := signals + [signal];
      if !ReactionTo(r, signal).Survives? {
        child := Some(r.status);
      }
      ended := child.Some?;
    }

    method TerminateProcessGroup(r: Reactions)
      modifies this
      ensures Now() == TerminateGroup(old(Now()), r)
    {
      if child.Some? {
        return;
      }
      var catchable := [Interrupt, Terminate];
      for i := 0 to |catchable|
        invariant child.None? && TerminateGroup(old(Now()), r) ==
          if i == 0 then TerminateGroup(Now(), r)
          else if i == 1 then (var b := Deliver(Now(), Terminate, r); if b.child.Some? then b else Deliver(b, Kill, r))
          else Deliver(Now(), Kill, r)
      {
        var ended := KillGroup(catchable[i], r);
        if ended {
          return;
        }
      }
      var ended := KillGroup(Kill, r);
    }

    method WriteOutput(data: Bytes, e: Setting) returns (ok: bool)
      modifies this
      ensures (Now(), ok) == Write(old(Now()), data, e)
    {
      ok := e.failAt != Some(writes);
      writes := writes + 1;
      if ok {
        forwarded := forwarded + data;
      }
    }

    method ReadMaster(size: nat) returns (data: Bytes)
      modifies this
      ensures data == old(pending)[..ReadSize(|old(pending)|, size)]
      ensures Now() == Take(old(Now()), ReadSize(|old(pending)|, size))
    {
      var n := ReadSize(|pending|, size);
      data := pending[..n];
      taken := taken + data;
      pending := pending[n..];
    }

    method ForwardOnce(size: nat, e: Setting) returns (ok: bool)
      modifies this
      ensures (Now(), ok) == Forward(old(Now()), size, e)
    {
      ok := true;
      if pending != [] {
        var data := ReadMaster(size);
        ok := WriteOutput(data, e);
      }
    }

    method DrainMaster(e: Setting) returns (ok: bool)
      modifies this
      ensures (Now(), ok) == Drain(old(Now()), e)
    {
      ok := true;
      while pending != []
        invariant ok && Drain(old(Now()), e) == Drain(Now(), e)
        decreases |pending|
      {
        ok := ForwardOnce(CHUNK, e);
        if !ok {
          return;
        }
      }
    }

    method Turn(t: Tick, e: Setting) returns (end: End)
      modifies this
      ensures (Now(), end) == Step(old(Now()), t, e)
    {
      pending := pending + t.produced;
      if child.None? {
        child := t.exits;
      }
      if t.expired {
        if e.notice != [] {
          var ok := WriteOutput(e.notice, e);
          if !ok {
            return IoFailed;
          }
        }
        TerminateProcessGroup(e.reactions);
        return TimedOut;
      }
      var forwardedAll := ForwardOnce(t.size, e);
      if !forwardedAll {
        return IoFailed;
      }
      if t.control.Fails? {
        return IoFailed;
      } else if t.control.Cancel? {
        TerminateProcessGroup(e.reactions);
        return Cancelled;
      }
      if child.Some? {
        var status := child.value;
        var ok := DrainMaster(e);
        if !ok {
          return IoFailed;
        }
        return Exited(status);
      }
      end := Running;
    }

    /** `run_interactive_argv`, for as many turns as the environment plays. */
    method RunInteractive(ticks: seq<Tick>, e: Setting) returns (outcome: Outcome)
      modifies this
      ensures (Now(), outcome) == Play(old(Now()), ticks, e)
    {
      var end := Running;
      var i := 0;
      while i < |ticks| && end == Running
        invariant 0 <= i <= |ticks|
        invariant Ends(old(Now()), ticks, e) == if end.Running? then Ends(Now(), ticks[i..], e) else (Now(), end)
      {
        assert ticks[i..][0] == ticks[i] && ticks[i..][1..] == ticks[i + 1..];
        end := Turn(ticks[i], e);
        i := i + 1;
      }
      if end == Running {
        return StillRunning;
      }
      if child.None? {
        TerminateProcessGroup(e.reactions);
      }
      cleanups := cleanups + 1;
      if e.cleanupRaises {
        return Raised;
      }
      masterOpen := false;
      outcome := OutcomeOf(end, e);
    }
  }

  /******* Properties *******/

  /** A running child is interrupted; it is asked to terminate if and only if it survives that, and killed if and
      only if it survives both; nothing else is sent, an ended child gets nothing, and after all the child
      has ended.  Nothing but the child and the signals changes. */
  lemma TerminationEscalates(s: Session, r: Reactions)
    ensures TerminateGroup(s, r).child.Some?
    ensures s.child.Some? ==> TerminateGroup(s, r) == s
    ensures s.child.None? ==>
              exists sent :: TerminateGroup(s, r).signals == s.signals + sent && sent <= [Interrupt, Terminate, Kill]
                && Interrupt in sent
                && (Terminate in sent <==> r.toInterrupt.Survives?)
                && (Kill in sent <==> r.toInterrupt.Survives? && r.toTerminate.Survives?)
    ensures TerminateGroup(s, r).(child := s.child, signals := s.signals) == s
  {
    if s.child.None? {
      var sent := if !r.toInterrupt.Survives? then [Interrupt] else if !r.toTerminate.Survives? then [Interrupt, Terminate]
                  else [Interrupt, Terminate, Kill];
      assert TerminateGroup(s, r).signals == s.signals + sent;
    }
  }

  /** Unless the deadline has passed or something raises, a turn hands the I/O object at least the next piece of what
      there is to read, before it looks at a cancellation or at the child's end. */
  lemma EachTurnForwards(s: Session, t: Tick, e: Setting)
    requires !t.expired && Step(s, t, e).1 != IoFailed
    ensures var available := s.pending + t.produced;
            s.forwarded + available[..ReadSize(|available|, t.size)] <= Step(s, t, e).0.forwarded
  {
    var a := Arrive(s, t);
    var w := Forward(a, t.size, e);
    DrainExtends(w.0, e);
    if a.pending == [] {
      assert s.forwarded + a.pending[..0] == s.forwarded;
    }
    hide Drain;
  }

  /** A read takes all there is, up to 4096 bytes. */
  lemma ReadsFullChunks(available: nat)
    ensures ReadSize(available, CHUNK) == if available < 4096 then available else 4096
  {
  }

  lemma {:induction false} DrainExtends(s: Session, e: Setting)
    ensures s.forwarded <= Drain(s, e).0.forwarded
    decreases |s.pending|
  {
    if s.pending != [] {
      DrainExtends(Forward(s, CHUNK, e).0, e);
    }
  }

  /** Without the last signal a child that survives the first two would still be running. */
  lemma KillIsNeeded(s: Session, r: Reactions)
    requires s.child.None? && r.toInterrupt.Survives? && r.toTerminate.Survives?
    ensures Deliver(Deliver(s, Interrupt, r), Terminate, r).child.None?
    ensures Deliver(Deliver(Deliver(s, Interrupt, r), Terminate, r), Kill, r) == TerminateGroup(s, r)
  {
  }

  lemma {:induction false} DrainKeeps(s: Session, e: Setting)
    ensures var d := Drain(s, e).0;
            d.cleanups == s.cleanups && d.masterOpen == s.masterOpen && d.child == s.child && d.signals == s.signals
    decreases |s.pending|
  {
    if s.pending != [] {
      DrainKeeps(Forward(s, CHUNK, e).0, e);
    }
  }

  lemma {:induction false} LoopReleasesNothing(s: Session, ticks: seq<Tick>, e: Setting)
    ensures var l := Loop(s, ticks, e); l.0.cleanups == s.cleanups && l.0.masterOpen == s.masterOpen
    decreases |ticks|
  {
    if ticks != [] {
      StepReleasesNothing(s, ticks[0], e);
      LoopReleasesNothing(Step(s, ticks[0], e).0, ticks[1..], e);
    }
  }

  lemma StepReleasesNothing(s: Session, t: Tick, e: Setting)
    ensures Step(s, t, e).0.cleanups == s.cleanups && Step(s, t, e).0.masterOpen == s.masterOpen
  {
    DrainKeeps(Forward(Arrive(s, t), t.size, e).0, e);
    hide Drain;
  }

  lemma StepSignals(s: Session, t: Tick, e: Setting)
    ensures Step(s, t, e).1 !in {TimedOut, Cancelled} ==> Step(s, t, e).0.signals == s.signals
  {
    DrainKeeps(Forward(Arrive(s, t), t.size, e).0, e);
    hide Drain;
  }

  /** A child that ends by itself is never signalled. */
  lemma {:induction false} NoSignalWithoutCause(s: Session, ticks: seq<Tick>, e: Setting)
    ensures Loop(s, ticks, e).1 !in {TimedOut, Cancelled} ==> Loop(s, ticks, e).0.signals == s.signals
    ensures Loop(s, ticks, e).1.Exited? ==> Play(s, ticks, e).0.signals == s.signals
    decreases |ticks|
  {
    if ticks != [] {
      StepSignals(s, ticks[0], e);
      ExitedChild(s, ticks[0], e);
      if Step(s, ticks[0], e).1.Running? {
        NoSignalWithoutCause(Step(s, ticks[0], e).0, ticks[1..], e);
      }
      hide Step;
    }
  }

  lemma ExitedChild(s: Session, t: Tick, e: Setting)
    ensures Step(s, t, e).1.Exited? ==> Step(s, t, e).0.child == Some(Step(s, t, e).1.status)
  {
    DrainKeeps(Forward(Arrive(s, t), t.size, e).0, e);
    hide Drain;
  }

  /** On every way out, an exception of the I/O object included, the child has ended and the cleanup was
      called once; the terminal is closed exactly if the cleanup did not raise.  Before that nothing is released. */
  lemma EveryExitIsClean(s: Session, ticks: seq<Tick>, e: Setting)
    requires s.masterOpen
    ensures var r := Play(s, ticks, e);
            if r.1.StillRunning? then r.0.cleanups == s.cleanups && r.0.masterOpen
            else r.0.child.Some? && r.0.cleanups == s.cleanups + 1 && r.0.masterOpen == e.cleanupRaises
  {
    LoopReleasesNothing(s, ticks, e);
    hide Loop;
  }

  /** What the run comes to when nothing raises, told from the ticks alone: the first decisive turn, in
      which the deadline counts before a cancellation and that before the child's own end. */
  function Verdict(ticks: seq<Tick>, child: Option<int>): End
    decreases |ticks|
  {
    if ticks == [] then Running
    else
      var ended := if child.Some? then child else ticks[0].exits;
      if ticks[0].expired then TimedOut
      else if ticks[0].control.Cancel? then Cancelled
      else if ended.Some? then Exited(ended.value)
      else Verdict(ticks[1..], None)
  }

  /** Whatever fails elsewhere: unless an exception ends the loop, it ends as the verdict says. */
  lemma {:induction false} PriorityOfEnds(s: Session, ticks: seq<Tick>, e: Setting)
    requires Loop(s, ticks, e).1 != IoFailed
    ensures Loop(s, ticks, e).1 == Verdict(ticks, s.child)
    decreases |ticks|
  {
    if ticks != [] {
      var t := ticks[0];
      var a := Arrive(s, t);
      DrainKeeps(Forward(a, t.size, e).0, e);
      assert Step(s, t, e).1 ==
             if t.expired then TimedOut else if t.control.Cancel? then Cancelled
             else if a.child.Some? then Exited(a.child.value) else Running by { hide Drain; }
      if Step(s, t, e).1.Running? {
        assert Step(s, t, e).0.child == None by { hide Drain; }
        PriorityOfEnds(Step(s, t, e).0, ticks[1..], e);
      }
      hide Drain;
      hide Step;
    }
  }

  /** The exit code of a run that returns follows the verdict, for every setting: 124 after the deadline,
      130 after a cancellation, else the child's own.  A run raises exactly if an exception ended the loop
      or the cleanup of an ended loop raised. */
  lemma ExitCode(s: Session, ticks: seq<Tick>, e: Setting)
    ensures Play(s, ticks, e).1.Returned? ==>
              match Verdict(ticks, s.child)
              case TimedOut => Play(s, ticks, e).1.code == 124
              case Cancelled => Play(s, ticks, e).1.code == 130
              case Exited(status) => Play(s, ticks, e).1.code == status
              case _ => false
    ensures Play(s, ticks, e).1.StillRunning? ==> Verdict(ticks, s.child).Running?
    ensures Play(s, ticks, e).1.Raised? <==>
              Loop(s, ticks, e).1.IoFailed? || (e.cleanupRaises && !Loop(s, ticks, e).1.Running?)
  {
    if Loop(s, ticks, e).1 != IoFailed {
      PriorityOfEnds(s, ticks, e);
    }
    hide Loop;
    hide Verdict;
  }

  lemma {:induction false} DrainSucceeds(s: Session, e: Setting)
    requires e.failAt.None?
    ensures Drain(s, e).1
    decreases |s.pending|
  {
    if s.pending != [] {
      DrainSucceeds(Forward(s, CHUNK, e).0, e);
    }
  }

  /** An exception ends the loop only if the I/O object raises at some call. */
  lemma {:induction false} NoFailureWithoutCause(s: Session, ticks: seq<Tick>, e: Setting)
    requires e.failAt.None? && forall i :: 0 <= i < |ticks| ==> !ticks[i].control.Fails?
    ensures Loop(s, ticks, e).1 != IoFailed
    decreases |ticks|
  {
    if ticks != [] {
      var t := ticks[0];
      DrainSucceeds(Forward(Arrive(s, t), t.size, e).0, e);
      assert Step(s, t, e).1 != IoFailed by { hide Drain; }
      if Step(s, t, e).1.Running? {
        NoFailureWithoutCause(Step(s, t, e).0, ticks[1..], e);
      }
      hide Drain;
      hide Step;
    }
  }

  /** All the child wrote during the given turns. */
  function Produced(ticks: seq<Tick>): Bytes
  {
    if ticks == [] then [] else ticks[0].produced + Produced(ticks[1..])
  }

  /** No byte is lost, repeated or reordered: what was read, then what is still unread, is what the child
      wrote; and the I/O object got what was read. */
  ghost predicate InOrder(before: Session, after: Session, end: End, written: Bytes, e: Setting)
  {
    && after.taken + after.pending == before.taken + before.pending + written
    && match end
       case IoFailed => after.forwarded <= after.taken
       case TimedOut => after.forwarded == after.taken + e.notice
       case Exited(_) => after.forwarded == after.taken && after.pending == []
       case _ => after.forwarded == after.taken
  }

  lemma TakeMoves(s: Session, n: nat)
    requires n <= |s.pending|
    ensures Take(s, n).taken + Take(s, n).pending == s.taken + s.pending
  {
    assert s.pending == s.pending[..n] + s.pending[n..];
  }

  lemma ForwardInOrder(s: Session, size: nat, e: Setting)
    requires s.forwarded == s.taken
    ensures var f := Forward(s, size, e);
            && f.0.taken + f.0.pending == s.taken + s.pending
            && if f.1 then f.0.forwarded == f.0.taken else f.0.forwarded <= f.0.taken
  {
    if s.pending != [] {
      TakeMoves(s, ReadSize(|s.pending|, size));
    }
  }

  lemma {:induction false} DrainInOrder(s: Session, e: Setting)
    requires s.forwarded == s.taken
    ensures var d := Drain(s, e);
            && d.0.taken + d.0.pending == s.taken + s.pending
            && if d.1 then d.0.forwarded == d.0.taken && d.0.pending == [] else d.0.forwarded <= d.0.taken
    decreases |s.pending|
  {
    if s.pending != [] {
      ForwardInOrder(s, CHUNK, e);
      var w := Forward(s, CHUNK, e);
      if w.1 {
        DrainInOrder(w.0, e);
      }
    }
  }

  lemma ArriveInOrder(s: Session, t: Tick)
    ensures var a := Arrive(s, t); a.taken + a.pending == s.taken + s.pending + t.produced
  {
  }

  lemma StepInOrder(s: Session, t: Tick, e: Setting)
    requires s.forwarded == s.taken
    ensures InOrder(s, Step(s, t, e).0, Step(s, t, e).1, t.produced, e)
  {
    var a := Arrive(s, t);
    ArriveInOrder(s, t);
    hide Drain;
    hide Forward;
    if !t.expired {
      ForwardInOrder(a, t.size, e);
      var w := Forward(a, t.size, e);
      if w.1 {
        DrainInOrder(w.0, e);
      }
    }
  }

  /** The chunks of two stretches of turns, one after the other. */
  lemma InOrderThen(a: Session, b: Session, c: Session, end: End, first: Bytes, rest: Bytes, e: Setting)
    requires InOrder(a, b, Running, first, e) && InOrder(b, c, end, rest, e)
    ensures InOrder(a, c, end, first + rest, e)
  {
    assert a.taken + a.pending + (first + rest) == (a.taken + a.pending + first) + rest;
  }

  /** At the end of the loop, whatever the end, the bytes are in order; on the child's own end all of them
      have been forwarded. */
  lemma {:induction false} BytesInOrder(s: Session, ticks: seq<Tick>, e: Setting)
    requires s.forwarded == s.taken
    ensures var l := Loop(s, ticks, e);
            && l.2 <= |ticks|
            && InOrder(s, l.0, l.1, Produced(ticks[..l.2]), e)
    decreases |ticks|
  {
    if ticks != [] {
      var next := Step(s, ticks[0], e);
      StepInOrder(s, ticks[0], e);
      hide Step;
      if next.1.Running? {
        assert next.0.forwarded == next.0.taken;
        BytesInOrder(next.0, ticks[1..], e);
        var l := Loop(next.0, ticks[1..], e);
        ProducedSplit(ticks, l.2);
        InOrderThen(s, next.0, l.0, l.1, ticks[0].produced, Produced(ticks[1..][..l.2]), e);
      } else {
        ProducedSplit(ticks, 0);
      }
      hide InOrder;
    }
  }

  lemma ProducedSplit(ticks: seq<Tick>, n: nat)
    requires n < |ticks|
    ensures Produced(ticks[..n + 1]) == ticks[0].produced + Produced(ticks[1..][..n])
    ensures n == 0 ==> Produced(ticks[..1]) == ticks[0].produced
  {
    assert ticks[..n + 1][1..] == ticks[1..][..n] && ticks[..n + 1][0] == ticks[0];
  }
}
