/** One request over the broker socket: the server's frames, the client's reading of them, and the two composed. */
module Rpc {
  import opened Wrappers
  import opened Json

  type Bytes = seq<bv8>

  datatype Frame =
    | Result(result: Json, code: int)
    | Error(message: string, code: int)
    | Start(interactive: bool, security: Option<string>)
    | Output(data: Bytes)
    | Exit(code: int, security: Option<string>)
    | Other

  /******* The server *******/

  /** What the server reads first. */
  datatype Line = Closed | TooLong | NotJson | Undecodable | Value(v: Json)

  /** A RequestError, or any other exception. */
  datatype Thrown = Rejection(message: string) | Crash

  /** How an operation behaves: whether it throws before producing anything, its result, whether it talks
      to the user, the output it writes, and how it ends after that. */
  datatype Behaviour = Behaviour(
    refused: Option<Thrown>,
    result: Json,
    interactive: bool,
    outputs: seq<Bytes>,
    thrown: Option<Thrown>,
    code: int)

  const SECURITY_CLASS := "compatibility"
  const RESULT_OPS: set<string> :=
    {"project-init", "project-sync", "project-export", "project-status", "task-start", "task-complete",
     "task-merge", "task-abort", "task-list"}
  const STREAM_OPS: set<string> := {"build", "status", "versions", "smoke", "index"}

  function RequestFields(op: string): Option<set<string>>
  {
    if op in {"ping", "build", "status", "versions", "smoke"} then Some({"op"})
    else if op == "auth" then Some({"op", "provider"})
    else if op == "index" then Some({"op", "project", "task"})
    else if op == "run" then Some({"op", "provider", "project", "task", "readonly", "outer_only", "prompt"})
    else if op in {"project-init", "project-sync"} then Some({"op", "project", "bundle"})
    else if op in {"project-export", "project-status", "task-list"} then Some({"op", "project"})
    else if op == "task-start" then Some({"op", "project", "task", "parallel", "dependencies"})
    else if op in {"task-complete", "task-merge", "task-abort"} then Some({"op", "project", "task"})
    else None
  }

  /** `validate_request_shape`.  An operation that is a list or an object cannot be looked up in a set,
      which is not a RequestError. */
  function ShapeFault(req: map<string, Json>): Option<Thrown>
  {
    if "op" !in req then Some(Rejection("unsupported operation"))
    else if req["op"].Arr? || req["op"].Obj? then Some(Crash)
    else if !req["op"].Str? || RequestFields(req["op"].s).None? then Some(Rejection("unsupported operation"))
    else if !(req.Keys <= RequestFields(req["op"].s).value) then Some(Rejection("unexpected RPC fields"))
    else None
  }

  /** Every request that passes the shape check names an operation the dispatcher has a branch for. */
  lemma EveryOperationIsDispatched(req: map<string, Json>)
    requires ShapeFault(req).None?
    ensures var op := req["op"].s;
            op == "ping" || op in RESULT_OPS || op in STREAM_OPS || op == "auth" || op == "run"
  {
  }

  function OutputFrames(outputs: seq<Bytes>): seq<Frame>
  {
    if outputs == [] then []
    else (if outputs[0] == [] then [] else [Output(outputs[0])]) + OutputFrames(outputs[1..])
  }

  /** The frames of a dispatched request up to what it throws, if anything. */
  function Dispatched(op: string, b: Behaviour): (seq<Frame>, Option<Thrown>)
  {
    if op == "ping" then ([Result(b.result, 0)], None)
    else if op in RESULT_OPS then
      if b.refused.Some? then ([], b.refused) else ([Result(b.result, 0)], None)
    else if op in STREAM_OPS then
      var frames := [Start(false, None)] + OutputFrames(b.outputs);
      if b.thrown.Some? then (frames, b.thrown) else (frames + [Exit(b.code, None)], None)
    else if b.refused.Some? then ([], b.refused)
    else
      var security := if op == "run" then Some(SECURITY_CLASS) else None;
      var frames := [Start(b.interactive, security)] + OutputFrames(b.outputs);
      if b.thrown.Some? then (frames, b.thrown) else (frames + [Exit(b.code, security)], None)
  }

  function Handled(line: Line, b: Behaviour): (seq<Frame>, Option<Thrown>)
  {
    match line
    case Closed => ([], Some(Rejection("invalid request")))
    case TooLong => ([], Some(Rejection("RPC frame too large")))
    case NotJson => ([], Some(Rejection("invalid JSON request")))
    case Undecodable => ([], Some(Crash))
    case Value(v) =>
      if !v.Obj? then ([], Some(Rejection("invalid request")))
      else if ShapeFault(v.fields).Some? then ([], ShapeFault(v.fields))
      else Dispatched(v.fields["op"].s, b)
  }

  function ErrorFrame(t: Thrown): Frame
  {
    match t
    case Rejection(message) => Error(message, 2)
    case Crash => Error("internal broker error", 1)
  }

  /** All frames a request is answered with on a connection that stays up. */
  function Conversation(line: Line, b: Behaviour): seq<Frame>
  {
    var h := Handled(line, b);
    h.0 + if h.1.Some? then [ErrorFrame(h.1.value)] else []
  }

  /** What gets through a connection that breaks after the given number of frames. */
  function Delivered(frames: seq<Frame>, breaksAfter: Option<nat>): seq<Frame>
  {
    if breaksAfter.Some? && breaksAfter.value < |frames| then frames[..breaksAfter.value] else frames
  }

  class Connection {
    var sent: seq<Frame>
    const breaksAfter: Option<nat>

    constructor (breaksAfter: Option<nat>)
      ensures sent == [] && this.breaksAfter == breaksAfter
    {
      sent := [];
      this.breaksAfter := breaksAfter;
    }

    /** False when the connection is broken. */
    method Send(f: Frame) returns (ok: bool)
      modifies this
      ensures ok <==> breaksAfter.None? || |old(sent)| < breaksAfter.value
      ensures sent == if ok then old(sent) + [f] else old(sent)
    {
      ok := breaksAfter.None? || |sent| < breaksAfter.value;
      if ok {
        sent := sent + [f];
      }
    }

    ghost predicate Room()
      reads this
    {
      breaksAfter.Some? ==> |sent| <= breaksAfter.value
    }

    /** The output of an operation, piece by piece; empty pieces are not sent. */
    method SendOutputs(outputs: seq<Bytes>) returns (ok: bool)
      requires Room()
      modifies this
      ensures Room() && sent == Delivered(old(sent) + OutputFrames(outputs), breaksAfter)
      ensures ok <==> sent == old(sent) + OutputFrames(outputs)
    {
      ok := true;
      for i := 0 to |outputs|
        invariant Room() && ok && sent == old(sent) + OutputFrames(outputs[..i])
      {
        OutputFramesSplit(outputs, i);
        if outputs[i] != [] {
          ok := Send(Output(outputs[i]));
          if !ok {
            return;
          }
        }
      }
      assert outputs[..|outputs|] == outputs;
    }

    /** A start frame, output, and unless something is thrown an exit frame. */
    method Stream(start: Frame, b: Behaviour, exit: Frame) returns (thrown: Option<Thrown>)
      requires sent == []
      modifies this
      ensures var all := [start] + OutputFrames(b.outputs) + (if b.thrown.None? then [exit] else []);
              sent == Delivered(all, breaksAfter) && (if sent == all then thrown == b.thrown else thrown.Some?)
    {
      var ok := Send(start);
      if !ok {
        return Some(Crash);
      }
      ok := SendOutputs(b.outputs);
      if !ok {
        return Some(Crash);
      }
      if b.thrown.Some? {
        return b.thrown;
      }
      ok := Send(exit);
      thrown := if ok then None else Some(Crash);
    }

    /** The branch for one operation. */
    method Dispatch(op: string, b: Behaviour) returns (thrown: Option<Thrown>)
      requires sent == []
      modifies this
      ensures var d := Dispatched(op, b);
              sent == Delivered(d.0, breaksAfter) && (if sent == d.0 then thrown == d.1 else thrown.Some?)
    {
      thrown := None;
      if op == "ping" || op in RESULT_OPS {
        if op != "ping" && b.refused.Some? {
          return b.refused;
        }
        var ok := Send(Result(b.result, 0));
        thrown := if ok then None else Some(Crash);
      } else if op in STREAM_OPS {
        thrown := Stream(Start(false, None), b, Exit(b.code, None));
      } else if b.refused.Some? {
        thrown := b.refused;
      } else {
        var security := if op == "run" then Some(SECURITY_CLASS) else None;
        thrown := Stream(Start(b.interactive, security), b, Exit(b.code, security));
      }
    }

    /** `handle_request`: whatever is thrown on the way is answered with an error frame if that can be sent. */
    method HandleRequest(line: Line, b: Behaviour)
      requires sent == []
      modifies this
      ensures sent == Delivered(Conversation(line, b), breaksAfter)
    {
      var thrown: Option<Thrown> := None;
      match line {
        case Closed => thrown := Some(Rejection("invalid request"));
        case TooLong => thrown := Some(Rejection("RPC frame too large"));
        case NotJson => thrown := Some(Rejection("invalid JSON request"));
        case Undecodable => thrown := Some(Crash);
        case Value(v) =>
          if !v.Obj? {
            thrown := Some(Rejection("invalid request"));
          } else {
            thrown := ShapeFault(v.fields);
            if thrown.None? {
              thrown := Dispatch(v.fields["op"].s, b);
            }
          }
      }
      hide Dispatched;
      if thrown.Some? {
        var ok := Send(ErrorFrame(thrown.value));
      }
    }
  }

  lemma {:induction false} OutputFramesSplit(outputs: seq<Bytes>, i: nat)
    requires i < |outputs|
    ensures OutputFrames(outputs[..i + 1]) == OutputFrames(outputs[..i]) + (if outputs[i] == [] then [] else [Output(outputs[i])])
    ensures OutputFrames(outputs[..i + 1]) <= OutputFrames(outputs)
    decreases i
  {
    assert outputs[..i + 1][0] == outputs[0] && outputs[..i + 1][1..] == outputs[1..][..i];
    if i == 0 {
      assert outputs[..0] == [] && outputs[1..][..0] == [];
    } else {
      assert outputs[..i][0] == outputs[0] && outputs[..i][1..] == outputs[1..][..i - 1];
      OutputFramesSplit(outputs[1..], i - 1);
    }
  }

  /******* The client *******/

  datatype ClientEnd =
    | Returns(code: int)
    | UnexpectedResponse
    | MissingClass
    | ChangedClass
    | ClosedUnexpectedly
    | EndOfFile

  /** Does the client see the request as a run? */
  predicate IsRun(req: map<string, Json>)
  {
    "op" in req && req["op"] == Str("run")
  }

  /** After the start frame: output is written, other frames are skipped, an exit or an error ends it. */
  function Follow(frames: seq<Frame>, run: bool, security: Option<string>, cancelled: bool): (ClientEnd, Bytes)
  {
    if frames == [] then (if cancelled then Returns(130) else ClosedUnexpectedly, [])
    else match frames[0]
      case Output(data) =>
        var rest := Follow(frames[1..], run, security, cancelled);
        (rest.0, data + rest.1)
      case Exit(code, c) => (if run && c != security then ChangedClass else Returns(code), [])
      case Error(_, code) => (Returns(code), [])
      case _ => Follow(frames[1..], run, security, cancelled)
  }

  /** The client on the frames it receives before the connection ends, and the output it writes. */
  function Client(frames: seq<Frame>, run: bool, cancelled: bool): (ClientEnd, Bytes)
  {
    if frames == [] then (EndOfFile, [])
    else match frames[0]
      case Error(_, code) => (Returns(code), [])
      case Result(_, code) => (Returns(code), [])
      case Start(_, security) =>
        if run && security !in {Some("compatibility"), Some("hardened")} then (MissingClass, [])
        else Follow(frames[1..], run, security, cancelled)
      case _ => (UnexpectedResponse, [])
  }

  datatype Handler = Default | RequestCancel | SendResize

  /** The client's terminal and signal handlers, which a call borrows. */
  class Terminal {
    var raw: bool
    var interrupt: Handler
    var resize: Handler
    var written: Bytes
    var connected: bool

    constructor ()
      ensures !raw && interrupt.Default? && resize.Default? && written == [] && !connected
    {
      raw, interrupt, resize, written, connected := false, Default, Default, [], false;
    }

    /** The `rpc` loop: on every way out the terminal and the handlers are as before and the socket is closed. */
    method Rpc(frames: seq<Frame>, run: bool, isTty: bool, cancelled: bool) returns (end: ClientEnd)
      modifies this
      ensures end == Client(frames, run, cancelled).0
      ensures written == old(written) + Client(frames, run, cancelled).1
      ensures raw == old(raw) && interrupt == old(interrupt) && resize == old(resize) && !connected
    {
      connected := true;
      var oldRaw, oldInterrupt, oldResize := raw, interrupt, resize;
      if frames == [] {
        end := EndOfFile;
      } else if frames[0].Error? || frames[0].Result? {
        end := Returns(frames[0].code);
      } else if !frames[0].Start? {
        end := UnexpectedResponse;
      } else if run && frames[0].security !in {Some("compatibility"), Some("hardened")} {
        end := MissingClass;
      } else {
        if frames[0].interactive {
          interrupt := RequestCancel;
          if isTty {
            raw, resize := true, SendResize;
          }
        }
        end := ReadFrames(frames[1..], run, frames[0].security, cancelled);
      }
      resize, interrupt, raw := oldResize, oldInterrupt, oldRaw;
      connected := false;
    }

    method ReadFrames(frames: seq<Frame>, run: bool, security: Option<string>, cancelled: bool) returns (end: ClientEnd)
      modifies this`written
      ensures end == Follow(frames, run, security, cancelled).0
      ensures written == old(written) + Follow(frames, run, security, cancelled).1
    {
      ghost var all := Follow(frames, run, security, cancelled);
      var i := 0;
      while i < |frames|
        invariant 0 <= i <= |frames|
        invariant all.0 == Follow(frames[i..], run, security, cancelled).0
        invariant old(written) + all.1 == written + Follow(frames[i..], run, security, cancelled).1
      {
        var msg := frames[i];
        assert frames[i..][0] == msg && frames[i..][1..] == frames[i + 1..];
        if msg.Output? {
          ghost var rest := Follow(frames[i + 1..], run, security, cancelled).1;
          assert written + (msg.data + rest) == (written + msg.data) + rest;
          written := written + msg.data;
        } else if msg.Exit? {
          return if run && msg.security != security then ChangedClass else Returns(msg.code);
        } else if msg.Error? {
          return Returns(msg.code);
        }
        i := i + 1;
      }
      end := if cancelled then Returns(130) else ClosedUnexpectedly;
    }
  }

  /******* Server and client together *******/

  predicate AllOutput(frames: seq<Frame>)
  {
    forall i :: 0 <= i < |frames| ==> frames[i].Output? && frames[i].data != []
  }

  predicate Final(f: Frame)
  {
    f.Result? || f.Error? || f.Exit?
  }

  /** One result or error; or a start, then output, then exactly one exit or error.  The start of a run
      states a security class and its exit repeats it. */
  predicate Complete(frames: seq<Frame>, run: bool)
  {
    || (|frames| == 1 && (frames[0].Result? || frames[0].Error?))
    || (&& |frames| >= 2 && frames[0].Start? && AllOutput(frames[1..|frames| - 1])
        && (frames[|frames| - 1].Exit? || frames[|frames| - 1].Error?)
        && (run ==> frames[0].security in {Some("compatibility"), Some("hardened")})
        && (run && frames[|frames| - 1].Exit? ==> frames[|frames| - 1].security == frames[0].security))
  }

  lemma {:induction false} OutputFramesAreOutput(outputs: seq<Bytes>)
    ensures AllOutput(OutputFrames(outputs))
  {
    if outputs != [] {
      OutputFramesAreOutput(outputs[1..]);
    }
  }

  lemma StreamIsComplete(start: Frame, outputs: seq<Bytes>, last: Frame, run: bool)
    requires start.Start? && (last.Exit? || last.Error?)
    requires run ==> start.security == Some(SECURITY_CLASS) && (last.Exit? ==> last.security == start.security)
    ensures Complete([start] + OutputFrames(outputs) + [last], run)
  {
    OutputFramesAreOutput(outputs);
    var middle := OutputFrames(outputs);
    var all := [start] + middle + [last];
    assert all[1..|all| - 1] == middle && all[|all| - 1] == last;
  }

  lemma DispatchIsComplete(op: string, b: Behaviour)
    requires op == "ping" || op in RESULT_OPS || op in STREAM_OPS || op == "auth" || op == "run"
    ensures var d := Dispatched(op, b);
            Complete(d.0 + if d.1.Some? then [ErrorFrame(d.1.value)] else [], op == "run")
  {
    var security := if op == "run" then Some(SECURITY_CLASS) else None;
    var last := if b.thrown.Some? then ErrorFrame(b.thrown.value) else Exit(b.code, if op in STREAM_OPS then None else security);
    StreamIsComplete(Start(false, None), b.outputs, last, false);
    StreamIsComplete(Start(b.interactive, security), b.outputs, last, op == "run");
    hide OutputFrames;
    hide Complete;
    assert forall f: Frame :: (f.Result? || f.Error?) ==> Complete([f], op == "run") && Complete([] + [f], op == "run") by {
      OneFrame(op == "run");
    }
    assert forall s: seq<Frame> :: s + [] == s;
  }

  lemma OneFrame(run: bool)
    ensures forall f: Frame :: (f.Result? || f.Error?) ==> Complete([f], run) && Complete([] + [f], run)
  {
    assert forall f: Frame :: [] + [f] == [f];
  }

  /** Every request, well formed or not, is answered with a complete conversation. */
  lemma ConversationIsComplete(line: Line, b: Behaviour)
    ensures Complete(Conversation(line, b), line.Value? && line.v.Obj? && IsRun(line.v.fields))
  {
    if line.Value? && line.v.Obj? && ShapeFault(line.v.fields).None? {
      EveryOperationIsDispatched(line.v.fields);
      DispatchIsComplete(line.v.fields["op"].s, b);
      hide Dispatched;
      hide Complete;
    }
  }

  /** What a conversation's output frames hold, in order. */
  function OutputOf(frames: seq<Frame>): Bytes
  {
    if frames == [] then []
    else (if frames[0].Output? then frames[0].data else []) + OutputOf(frames[1..])
  }

  lemma NoOutput(f: Frame)
    requires !f.Output?
    ensures OutputOf([f]) == []
  {
    assert [f][1..] == [] && OutputOf([]) == [];
    assert OutputOf([f]) == [] + OutputOf([]);
  }

  lemma {:induction false} FollowComplete(frames: seq<Frame>, run: bool, security: Option<string>, cancelled: bool)
    requires |frames| >= 1 && AllOutput(frames[..|frames| - 1])
    requires var last := frames[|frames| - 1]; last.Error? || (last.Exit? && (run ==> last.security == security))
    ensures Follow(frames, run, security, cancelled) == (Returns(frames[|frames| - 1].code), OutputOf(frames))
    decreases |frames|
  {
    if |frames| > 1 {
      assert frames[..|frames| - 1][0] == frames[0];
      assert frames[1..][..|frames| - 2] == frames[..|frames| - 1][1..];
      FollowComplete(frames[1..], run, security, cancelled);
    } else {
      assert frames == [frames[0]];
      NoOutput(frames[0]);
    }
  }

  /** On a complete conversation the client writes the output and returns the code of the last frame. */
  lemma ClientOnComplete(frames: seq<Frame>, run: bool, cancelled: bool)
    requires Complete(frames, run)
    ensures Final(frames[|frames| - 1])
    ensures Client(frames, run, cancelled) == (Returns(frames[|frames| - 1].code), OutputOf(frames))
  {
    if frames[0].Start? {
      assert frames[1..][..|frames| - 2] == frames[1..|frames| - 1] && frames[1..][|frames| - 2] == frames[|frames| - 1];
      FollowComplete(frames[1..], run, frames[0].security, cancelled);
      assert OutputOf(frames) == [] + OutputOf(frames[1..]) == OutputOf(frames[1..]);
    } else {
      assert frames == [frames[0]];
      NoOutput(frames[0]);
    }
  }

  /** All bytes an operation wrote. */
  function Concatenated(outputs: seq<Bytes>): Bytes
  {
    if outputs == [] then [] else outputs[0] + Concatenated(outputs[1..])
  }

  lemma {:induction false} OutputOfAppend(a: seq<Frame>, b: seq<Frame>)
    ensures OutputOf(a + b) == OutputOf(a) + OutputOf(b)
  {
    if a == [] {
      assert a + b == b;
    } else {
      assert (a + b)[0] == a[0] && (a + b)[1..] == a[1..] + b;
      OutputOfAppend(a[1..], b);
    }
  }

  lemma {:induction false} OutputFramesHold(outputs: seq<Bytes>)
    ensures OutputOf(OutputFrames(outputs)) == Concatenated(outputs)
  {
    if outputs != [] {
      var first := if outputs[0] == [] then [] else [Output(outputs[0])];
      OutputOfAppend(first, OutputFrames(outputs[1..]));
      OutputFramesHold(outputs[1..]);
      assert first != [] ==> first[1..] == [] && OutputOf(first) == outputs[0] + OutputOf([]) == outputs[0];
    }
  }

  /** A live connection: the client returns the code of the last frame the server sent, never ending up in a
      branch for a protocol violation, and writes what the conversation's output frames hold. */
  lemma LiveConversation(req: map<string, Json>, b: Behaviour, cancelled: bool)
    ensures var frames := Conversation(Value(Obj(req)), b);
            && frames != [] && Final(frames[|frames| - 1])
            && Client(frames, IsRun(req), cancelled) == (Returns(frames[|frames| - 1].code), OutputOf(frames))
  {
    ConversationIsComplete(Value(Obj(req)), b);
    hide Conversation;
    hide Client;
    ClientOnComplete(Conversation(Value(Obj(req)), b), IsRun(req), cancelled);
  }

  /** A run that gets as far as its executor: the client returns the executor's code and has written
      exactly what it wrote. */
  lemma RunReportsExecutor(req: map<string, Json>, b: Behaviour, cancelled: bool)
    requires ShapeFault(req).None? && IsRun(req) && b.refused.None? && b.thrown.None?
    ensures Client(Conversation(Value(Obj(req)), b), true, cancelled) == (Returns(b.code), Concatenated(b.outputs))
  {
    LiveConversation(req, b, cancelled);
    var start, last := Start(b.interactive, Some(SECURITY_CLASS)), Exit(b.code, Some(SECURITY_CLASS));
    var frames := Conversation(Value(Obj(req)), b);
    RunFrames(req, b);
    OutputFramesHold(b.outputs);
    OutputOfAppend([start], OutputFrames(b.outputs));
    OutputOfAppend([start] + OutputFrames(b.outputs), [last]);
    NoOutput(start);
    NoOutput(last);
    assert [] + Concatenated(b.outputs) + [] == Concatenated(b.outputs);
    hide Conversation;
    hide OutputOf;
    hide Client;
    hide OutputFrames;
  }

  lemma RunFrames(req: map<string, Json>, b: Behaviour)
    requires ShapeFault(req).None? && IsRun(req) && b.refused.None? && b.thrown.None?
    ensures Conversation(Value(Obj(req)), b) ==
              [Start(b.interactive, Some(SECURITY_CLASS))] + OutputFrames(b.outputs) + [Exit(b.code, Some(SECURITY_CLASS))]
  {
    hide OutputFrames;
    hide RequestFields;
    assert "run" !in RESULT_OPS && "run" !in STREAM_OPS;
  }

  /** The request names an operation of the broker. */
  predicate NamesOperation(req: map<string, Json>)
  {
    "op" in req && req["op"].Str? && RequestFields(req["op"].s).Some?
  }

  /** A request that names no operation is rejected with code 2 if and only if its operation is neither a
      list nor an object; otherwise it is answered as a fault of the broker. */
  lemma UnknownOperation(req: map<string, Json>, b: Behaviour)
    requires !NamesOperation(req)
    ensures var frames := Conversation(Value(Obj(req)), b);
            var unhashable := "op" in req && (req["op"].Arr? || req["op"].Obj?);
            && |frames| == 1 && frames[0].Error?
            && (frames[0].code == 2 <==> !unhashable)
            && frames[0] == if unhashable then Error("internal broker error", 1) else Error("unsupported operation", 2)
  {
    hide RequestFields;
  }

  lemma ListIsNoOperation(b: Behaviour)
    ensures Conversation(Value(Obj(map["op" := Arr([])])), b) == [Error("internal broker error", 1)]
  {
    UnknownOperation(map["op" := Arr([])], b);
    hide Conversation;
  }

  /** The code of the error frame for what is thrown. */
  function ThrownCode(t: Thrown): int
  {
    if t.Rejection? then 2 else 1
  }

  /** The client's code for a request that passes the shape check, by the kind of operation: 0 for a result, the
      operation's own code for one that runs to its end, 2 for a rejection and 1 for any other exception. */
  lemma ClientCode(req: map<string, Json>, b: Behaviour, cancelled: bool)
    requires ShapeFault(req).None?
    ensures var op := req["op"].s;
            var end := Client(Conversation(Value(Obj(req)), b), IsRun(req), cancelled).0;
            && (op == "ping" ==> end == Returns(0))
            && (op in {"project-init", "project-sync", "project-export", "project-status", "task-start", "task-complete",
                       "task-merge", "task-abort", "task-list"} ==>
                  end == Returns(if b.refused.Some? then ThrownCode(b.refused.value) else 0))
            && (op in {"build", "status", "versions", "smoke", "index"} ==>
                  end == Returns(if b.thrown.Some? then ThrownCode(b.thrown.value) else b.code))
            && (op in {"auth", "run"} ==>
                  end == Returns(if b.refused.Some? then ThrownCode(b.refused.value)
                                 else if b.thrown.Some? then ThrownCode(b.thrown.value) else b.code))
  {
    LiveConversation(req, b, cancelled);
    LastFrame(req["op"].s, b);
    hide Client;
    hide OutputOf;
    hide RequestFields;
    hide Dispatched;
  }

  /** The last frame of a dispatched request. */
  lemma LastFrame(op: string, b: Behaviour)
    requires op == "ping" || op in RESULT_OPS || op in STREAM_OPS || op == "auth" || op == "run"
    ensures var d := Dispatched(op, b);
            var frames := d.0 + if d.1.Some? then [ErrorFrame(d.1.value)] else [];
            var last := frames[|frames| - 1];
            && |frames| >= 1 && Final(last)
            && last.code ==
                 if op == "ping" then 0
                 else if op in RESULT_OPS then (if b.refused.Some? then ThrownCode(b.refused.value) else 0)
                 else if op in {"auth", "run"} && b.refused.Some? then ThrownCode(b.refused.value)
                 else if b.thrown.Some? then ThrownCode(b.thrown.value) else b.code
  {
    hide OutputFrames;
  }

  /** What the server sends for a result operation, and what it starts an operation with: a stream is never
      interactive, only a run states a class. */
  lemma FirstFrame(op: string, b: Behaviour)
    requires op == "ping" || op in RESULT_OPS || op in STREAM_OPS || op == "auth" || op == "run"
    ensures var frames := Dispatched(op, b).0;
            && (op == "ping" ==> frames == [Result(b.result, 0)])
            && (op in RESULT_OPS && b.refused.None? ==> frames == [Result(b.result, 0)])
            && (op in STREAM_OPS ==> |frames| >= 1 && frames[0] == Start(false, None))
            && (op == "auth" && b.refused.None? ==> |frames| >= 1 && frames[0] == Start(b.interactive, None))
            && (op == "run" && b.refused.None? ==> |frames| >= 1 && frames[0] == Start(b.interactive, Some("compatibility")))
  {
    hide OutputFrames;
  }

  /** What cannot be read as a request is answered with one error: code 1 for bytes that are no text, else code 2. */
  lemma UnreadableRequest(line: Line, b: Behaviour)
    requires line.Value? ==> !line.v.Obj?
    ensures var frames := Conversation(line, b);
            |frames| == 1 && frames[0].Error? && frames[0].code == if line.Undecodable? then 1 else 2
  {
  }

  /** A field the operation does not take is answered with code 2. */
  lemma ForeignField(req: map<string, Json>, b: Behaviour, field: string)
    requires NamesOperation(req) && field in req && field !in RequestFields(req["op"].s).value
    ensures Conversation(Value(Obj(req)), b) == [Error("unexpected RPC fields", 2)]
  {
    hide RequestFields;
  }

  /** The client's own guards, against any server: a first frame that is no error, result or start, a run without a
      valid class, and an exit of another class than the start's are refused. */
  lemma ClientGuards(frames: seq<Frame>, run: bool, cancelled: bool)
    requires frames != []
    ensures frames[0].Output? || frames[0].Exit? || frames[0].Other? ==> Client(frames, run, cancelled) == (UnexpectedResponse, [])
    ensures frames[0].Start? && run && frames[0].security !in {Some("compatibility"), Some("hardened")} ==>
              Client(frames, run, cancelled) == (MissingClass, [])
    ensures frames[0].Start? && run && |frames| >= 2 && frames[0].security in {Some("compatibility"), Some("hardened")}
              && AllOutput(frames[1..|frames| - 1]) && frames[|frames| - 1].Exit? && frames[|frames| - 1].security != frames[0].security ==>
              Client(frames, run, cancelled) == (ChangedClass, OutputOf(frames[1..|frames| - 1]))
  {
    if frames[0].Start? && run && |frames| >= 2 && AllOutput(frames[1..|frames| - 1]) && frames[|frames| - 1].Exit?
       && frames[|frames| - 1].security != frames[0].security {
      var middle, last := frames[1..|frames| - 1], frames[|frames| - 1];
      assert frames[1..] == middle + [last];
      FollowChanged(middle, last, frames[0].security, cancelled);
    }
  }

  lemma {:induction false} FollowChanged(middle: seq<Frame>, last: Frame, security: Option<string>, cancelled: bool)
    requires AllOutput(middle) && last.Exit? && last.security != security
    ensures Follow(middle + [last], true, security, cancelled) == (ChangedClass, OutputOf(middle))
  {
    var all := middle + [last];
    if middle == [] {
      assert all == [last] && all[0] == last;
    } else {
      assert all[0] == middle[0] && all[1..] == middle[1..] + [last];
      FollowChanged(middle[1..], last, security, cancelled);
    }
  }

  /** Which operations take a field. */
  lemma FieldsMean(op: string)
    requires RequestFields(op).Some?
    ensures var fields := RequestFields(op).value;
            && "op" in fields
            && ("project" in fields <==> op !in {"ping", "build", "status", "versions", "smoke", "auth"})
            && ("task" in fields <==> op in {"index", "run", "task-start", "task-complete", "task-merge", "task-abort"})
            && ("bundle" in fields <==> op in {"project-init", "project-sync"})
            && ("provider" in fields <==> op in {"auth", "run"})
            && ("parallel" in fields <==> op == "task-start") && ("dependencies" in fields <==> op == "task-start")
            && ("readonly" in fields <==> op == "run") && ("outer_only" in fields <==> op == "run")
            && ("prompt" in fields <==> op == "run")
            && fields <= {"op", "project", "task", "bundle", "provider", "parallel", "dependencies", "readonly", "outer_only", "prompt"}
  {
  }

  lemma {:induction false} FollowCut(frames: seq<Frame>, run: bool, security: Option<string>, cancelled: bool)
    requires AllOutput(frames)
    ensures Follow(frames, run, security, cancelled) == (if cancelled then Returns(130) else ClosedUnexpectedly, OutputOf(frames))
  {
    if frames != [] {
      FollowCut(frames[1..], run, security, cancelled);
    }
  }

  lemma CutMiddle(frames: seq<Frame>, n: nat)
    requires 1 <= n < |frames|
    ensures frames[..n][0] == frames[0] && frames[..n][1..] == frames[1..|frames| - 1][..n - 1]
  {
  }

  /** A connection that breaks before the last frame: the client reports the end of the file, or 130 if it
      had cancelled, or an unexpected close; still never a protocol violation. */
  lemma BrokenConversation(req: map<string, Json>, b: Behaviour, n: nat, cancelled: bool)
    requires n < |Conversation(Value(Obj(req)), b)|
    ensures Client(Delivered(Conversation(Value(Obj(req)), b), Some(n)), IsRun(req), cancelled).0 ==
              if n == 0 then EndOfFile else if cancelled then Returns(130) else ClosedUnexpectedly
  {
    ConversationIsComplete(Value(Obj(req)), b);
    var frames := Conversation(Value(Obj(req)), b);
    hide Conversation;
    if n > 0 {
      var cut := frames[..n];
      CutMiddle(frames, n);
      FollowCut(cut[1..], IsRun(req), cut[0].security, cancelled);
      hide Follow;
    }
  }
}
