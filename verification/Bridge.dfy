/** The remote bridge (harnesswire/harnesswire.go): a harness in another process, driven over a stream.

The server side runs the harness on a sink that turns operations into frames; the client side turns
frames back into operations on the host's sink. Each side takes its steps when it likes; frames arrive
in the order they were sent. */
module Bridge {
  import opened Api
  import opened Approval
  import opened Sinks
  import opened Runs
  import Codec

  datatype Up =
    | UModel(id: nat, model: string, messages: seq<Codec.WireMessage>, params: map<string, string>)
    | UOutput(message: Codec.WireMessage)
    | UCall(call: Codec.WireCall)
    | UReport(result: Codec.WireResult)
    | UUsage(usage: Usage)
    | UEnd(finish: Finish)
    | UParked(ref: ApprovalRef)

  datatype Down =
    | DModel(id: nat, message: Codec.WireMessage, usage: Usage)
    | DApproval(decision: ApprovalResult)
    | DTool(result: Codec.WireResult)
    | DPark(ref: ApprovalRef)

  /** The host's sink: its answer to the last of these operations, after the ones before. */
  type HostSink = seq<Op> -> Answer

  /** What the serving process waits for. */
  datatype Wait = Idle | ForModel(id: nat) | ForCall(call: ToolCall) | ForReceipt(gated: ToolCall, decision: ApprovalResult)

  datatype Server = Server(seen: seq<Seen>, wait: Wait, parked: Option<ApprovalRef>, failed: bool, done: bool)

  datatype Outcome = Succeeded | RunFailed | RunParked(ref: ApprovalRef)

  datatype Client = Serving | Acknowledging(ref: ApprovalRef) | Closing(ref: ApprovalRef) | Done(outcome: Outcome)

  /** Both ends, what is on the way between them, and the operations the host's sink has been given. */
  datatype State = State(server: Server, client: Client, up: seq<Up>, down: seq<Down>, ops: seq<Op>)

  const BEGIN := State(Server([], Idle, None, false, false), Serving, [], [], [])

  /** Both ends know the execution and the session. The error of a parked harness either unwinds the
  park alone or holds a failure of its own. */
  datatype Ids = Ids(executionId: string, session: string, unwinds: bool)

  // ---- what crosses the wire ----

  function EncodeAll(ms: seq<Message>): (ws: seq<Codec.WireMessage>)
    ensures |ws| == |ms|
  {
    seq(|ms|, i requires 0 <= i < |ms| => Codec.EncodeMessage(ms[i]))
  }

  function DecodeAll(ws: seq<Codec.WireMessage>): (ms: seq<Message>)
    ensures |ms| == |ws|
  {
    seq(|ws|, i requires 0 <= i < |ws| => Codec.DecodeMessage(ws[i]))
  }

  /** A reply that the receipt rules of a gated call accept. */
  predicate ValidReceipt(id: string, decision: Option<ApprovalResult>, r: ToolResult)
  {
    && decision.Some? && id != "" && decision.value.toolCallId == id && decision.value.requestSeq > 0
    && r.id == id && r.requestSeq == decision.value.requestSeq && r.decisionSeq > 0
    && ReceiptFits(decision.value, r)
  }

  function FrameOf(k: nat, op: Op): Up
  {
    match op
    case Model(req) => UModel(k, req.model, EncodeAll(req.messages), req.params)
    case Output(delta) => UOutput(Codec.EncodeMessage(TextMessage("assistant", delta)))
    case Call(call) => UCall(Codec.EncodeCall(call))
    case Report(r) => UReport(Codec.EncodeResult(r))
    case Account(u) => UUsage(u)
  }

  /** The operation the host is asked for. */
  function CrossOp(op: Op): Op
  {
    match op
    case Model(req) => Model(req.(messages := DecodeAll(EncodeAll(req.messages))))
    case Output(delta) => op
    case Call(call) => Call(Codec.DecodeCall(Codec.EncodeCall(call)))
    case Report(r) => Report(Codec.DecodeResult(Codec.EncodeResult(r)))
    case Account(_) => op
  }

  /** The answer the harness gets. */
  function CrossAnswer(a: Answer): Answer
  {
    match a
    case Completion(resp) => Completion(resp.(message := Codec.DecodeMessage(Codec.EncodeMessage(resp.message))))
    case Returned(r) => Returned(Codec.DecodeResult(Codec.EncodeResult(r)).(approval := r.approval))
    case _ => a
  }

  function CrossAll(ops: seq<Op>): (out: seq<Op>)
    ensures |out| == |ops|
  {
    seq(|ops|, i requires 0 <= i < |ops| => CrossOp(ops[i]))
  }

  // ---- the serving process ----

  function Saw(s: State, seen: Seen): State
  {
    s.(server := s.server.(seen := s.server.seen + [seen], wait := Idle))
  }

  /** A protocol failure stays. */
  function Fail(s: State): State
  {
    var t := Saw(s, SawFailure);
    t.(server := t.server.(failed := true))
  }

  function Send(ids: Ids, s: State, op: Op): State
  {
    var k := |s.server.seen|;
    var sent := s.(up := s.up + [FrameOf(k, op)]);
    match op
    case Model(_) => sent.(server := s.server.(wait := ForModel(k)))
    case Call(call) =>
      if call.mediation.RequiresApproval? && (ids.session == "" || call.id == "") then Fail(s)
      else sent.(server := s.server.(wait := ForCall(call)))
    case Report(r) => if ClaimsReceipt(r) then Fail(s) else Saw(sent, SawAccepted)
    case _ => Saw(sent, SawAccepted)
  }

  function Receive(ids: Ids, s: State, frame: Down): State
  {
    match s.server.wait
    case Idle => s
    case ForModel(id) =>
      if frame.DModel? && frame.id == id
      then Saw(s, SawCompletion(ModelResponse(Codec.DecodeMessage(frame.message), frame.usage)))
      else Saw(s, SawFailure)
    case ForCall(call) =>
      if !call.mediation.RequiresApproval? then
        if frame.DTool? && frame.result.id == call.id && !ClaimsReceipt(Codec.DecodeResult(frame.result))
        then Saw(s, SawResult(Codec.DecodeResult(frame.result)))
        else Fail(s)
      else
        (match frame
         case DPark(ref) =>
           if ref.executionId == ids.executionId && ref.toolCallId == call.id && ref.requestSeq > 0
           then var t := Saw(s, SawFailure); t.(server := t.server.(parked := Some(ref)))
           else Fail(s)
         case DApproval(d) =>
           if d.toolCallId == call.id && d.requestSeq > 0 then s.(server := s.server.(wait := ForReceipt(call, d))) else Fail(s)
         case _ => Fail(s))
    case ForReceipt(call, d) =>
      if frame.DTool? && ValidReceipt(call.id, Some(d), Codec.DecodeResult(frame.result))
      then Saw(s, SawResult(Codec.DecodeResult(frame.result).(approval := Some(d))))
      else Fail(s)
  }

  /** The stream closed while the harness waits for a reply. */
  function Hangup(s: State): State
  {
    if s.server.wait.ForModel? then Saw(s, SawFailure) else Fail(s)
  }

  function ServerStep(har: Harness, ids: Ids, s: State): State
  {
    if s.server.done then s
    else if !s.server.wait.Idle? then
      if s.down != [] then Receive(ids, s.(down := s.down[1..]), s.down[0])
      else if s.client.Done? then Hangup(s)
      else s
    else
      match har(s.server.seen)
      case Emit(op) => if s.server.parked.Some? || s.server.failed then Saw(s, SawFailure) else Send(ids, s, op)
      case Return(f) =>
        var last :=
          if s.server.parked.Some? then (if f == HarnessFailed && !ids.unwinds then [] else [UParked(s.server.parked.value)])
          else [UEnd(if s.server.failed then HarnessFailed else f)];
        s.(up := s.up + last, server := s.server.(done := true))
  }

  // ---- the host ----

  function Finished(s: State, o: Outcome): State
  {
    s.(client := Done(o))
  }

  /** Gives the operation to the host's sink and sends what the harness waits for. */
  function Serve(sink: HostSink, ids: Ids, s: State, id: nat, op: Op): State
  {
    var a := sink(s.ops + [op]);
    var t := s.(ops := s.ops + [op]);
    match op
    case Model(_) =>
      if a.Completion? then t.(down := s.down + [DModel(id, Codec.EncodeMessage(a.response.message), a.response.usage)])
      else Finished(t, RunFailed)
    case Call(call) =>
      var gated := call.mediation.RequiresApproval?;
      (match a
       case Returned(r) =>
         if gated then
           if ValidReceipt(call.id, r.approval, r)
           then t.(down := s.down + [DApproval(r.approval.value), DTool(Codec.EncodeResult(r))])
           else Finished(t, RunFailed)
         else if ClaimsReceipt(r) then Finished(t, RunFailed)
         else t.(down := s.down + [DTool(Codec.EncodeResult(r))])
       case Failed(Parked(ref)) =>
         if gated && ids.session != "" && call.id != "" && ref.executionId == ids.executionId && ref.toolCallId == call.id &&
            ref.requestSeq > 0
         then t.(down := s.down + [DPark(ref)], client := Acknowledging(ref))
         else Finished(t, RunFailed)
       case _ => Finished(t, RunFailed))
    case _ => if a.Accepted? then t else Finished(t, RunFailed)
  }

  function ClientStep(sink: HostSink, ids: Ids, s: State): State
  {
    match s.client
    case Done(_) => s
    case Acknowledging(ref) =>
      if s.up == [] then (if s.server.done then Finished(s, RunFailed) else s)
      else if s.up[0] == UParked(ref) then s.(up := s.up[1..], client := Closing(ref))
      else Finished(s, RunFailed)
    case Closing(ref) =>
      if s.up != [] then Finished(s, RunFailed) else if s.server.done then Finished(s, RunParked(ref)) else s
    case Serving =>
      if s.up == [] then (if s.server.done then Finished(s, RunFailed) else s)
      else
        var t := s.(up := s.up[1..]);
        match s.up[0]
        case UModel(id, model, messages, params) => Serve(sink, ids, t, id, Model(ModelRequest(model, DecodeAll(messages), params)))
        case UOutput(m) => Serve(sink, ids, t, 0, Output(Text(Codec.DecodeMessage(m).parts)))
        case UCall(w) =>
          var call := Codec.DecodeCall(w);
          if call.mediation.RequiresApproval? && (ids.session == "" || call.id == "") then Finished(t, RunFailed)
          else Serve(sink, ids, t, 0, Call(call))
        case UReport(w) =>
          var r := Codec.DecodeResult(w);
          if ClaimsReceipt(r) then Finished(t, RunFailed) else Serve(sink, ids, t, 0, Report(r))
        case UUsage(u) => Serve(sink, ids, t, 0, Account(u))
        case UEnd(f) => Finished(t, if f == Completed then Succeeded else RunFailed)
        case UParked(_) => Finished(t, RunFailed)
  }

  /** The bridge after the ends took these steps: true for the serving process, false for the host. */
  function After(har: Harness, sink: HostSink, ids: Ids, run: seq<bool>): State
  {
    if run == [] then BEGIN
    else
      var s := After(har, sink, ids, run[..|run| - 1]);
      if run[|run| - 1] then ServerStep(har, ids, s) else ClientStep(sink, ids, s)
  }

  // ---- the same harness in the host's process ----

  /** The operations a harness makes and the answers it sees when it runs beside the sink. */
  datatype Local = Local(ops: seq<Op>, seen: seq<Seen>)

  /** The first n operations of the harness in process, with operations and answers in the form they
  have after crossing the wire. */
  function Direct(har: Harness, sink: HostSink, n: nat): (d: Local)
    ensures |d.ops| == |d.seen| <= n
  {
    if n == 0 then Local([], [])
    else
      var d := Direct(har, sink, n - 1);
      match har(d.seen)
      case Return(_) => d
      case Emit(op) => Local(d.ops + [op], d.seen + [See(CrossAnswer(sink(CrossAll(d.ops + [op]))))])
  }

  lemma {:induction false} DirectPrefix(har: Harness, sink: HostSink, n: nat, m: nat)
    requires n <= m
    ensures Direct(har, sink, n).ops <= Direct(har, sink, m).ops && Direct(har, sink, n).seen <= Direct(har, sink, m).seen
    ensures |Direct(har, sink, m).ops| == m ==> |Direct(har, sink, n).ops| == n
    decreases m - n
  {
    if n < m { DirectPrefix(har, sink, n, m - 1); }
  }

  lemma {:induction false} DirectNext(har: Harness, sink: HostSink, n: nat)
    requires har(Direct(har, sink, n).seen).Emit?
    ensures var d := Direct(har, sink, n);
      var op := har(d.seen).op;
      Direct(har, sink, n + 1) == Local(d.ops + [op], d.seen + [See(CrossAnswer(sink(CrossAll(d.ops + [op]))))])
  {
  }

  /** The answer is one the operation asks for, and keeps to the receipt rules. */
  predicate Succeeds(ids: Ids, op: Op, a: Answer)
  {
    match op
    case Model(_) => a.Completion?
    case Report(r) => !ClaimsReceipt(r) && a.Accepted?
    case Call(call) =>
      && a.Returned? && a.result.id == call.id
      && (if call.mediation.RequiresApproval? then ids.session != "" && ValidReceipt(call.id, a.result.approval, a.result)
          else !ClaimsReceipt(a.result))
    case _ => a.Accepted?
  }

  /** The n-th operation of the harness in process, if it makes one, succeeds. */
  ghost predicate SucceedsAt(har: Harness, sink: HostSink, ids: Ids, n: nat)
  {
    var d := Direct(har, sink, n);
    har(d.seen).Emit? && |d.ops| == n ==> Succeeds(ids, har(d.seen).op, sink(CrossAll(d.ops + [har(d.seen).op])))
  }

  /** What the host sends for an operation. */
  function Replies(k: nat, op: Op, a: Answer): seq<Down>
    requires (op.Model? ==> a.Completion?) && (op.Call? ==> a.Returned?)
  {
    match op
    case Model(_) => [DModel(k, Codec.EncodeMessage(a.response.message), a.response.usage)]
    case Call(call) =>
      (if call.mediation.RequiresApproval? && a.result.approval.Some? then [DApproval(a.result.approval.value)] else []) +
      [DTool(Codec.EncodeResult(a.result))]
    case _ => []
  }

  /** How many operations the serving process has sent. */
  function Emitted(s: State): nat
  {
    |s.server.seen| + if s.server.wait.Idle? then 0 else 1
  }

  ghost predicate Waits(s: State, last: Op)
    requires Emitted(s) > 0 || s.server.wait.Idle?
  {
    match s.server.wait
    case Idle => true
    case ForModel(id) => id == |s.server.seen| && last.Model?
    case ForCall(call) => last == Call(call)
    case ForReceipt(call, _) => last == Call(call) && call.mediation.RequiresApproval?
  }

  /** What is on the way to the serving process. */
  ghost predicate DownFlow(s: State, last: Op, a: Answer)
  {
    match s.server.wait
    case Idle => s.down == []
    case ForReceipt(call, d) =>
      a.Returned? && a.result.approval == Some(d) && s.down == [DTool(Codec.EncodeResult(a.result))]
    case _ => (last.Model? ==> a.Completion?) && (last.Call? ==> a.Returned?) && s.down == Replies(|s.server.seen|, last, a)
  }

  /** What is on the way to the host: the operations it has not been given yet, and the end. */
  ghost predicate UpFlow(har: Harness, s: State, ops: seq<Op>)
  {
    match s.client
    case Serving =>
      && |s.ops| <= |ops|
      && |s.up| == |ops| - |s.ops| + (if s.server.done then 1 else 0)
      && (forall j | 0 <= j < |ops| - |s.ops| :: s.up[j] == FrameOf(|s.ops| + j, ops[|s.ops| + j]))
      && (s.server.done ==> s.server.wait.Idle? && har(s.server.seen).Return? && s.up[|s.up| - 1] == UEnd(har(s.server.seen).finish))
    case Done(o) =>
      && s.server.done && s.up == [] && |s.ops| == |ops| && s.server.wait.Idle? && har(s.server.seen).Return?
      && o == (if har(s.server.seen).finish == Completed then Succeeded else RunFailed)
    case _ => false
  }

  /** Both ends have made the operations of the harness in process, as far as they got, and what the
  host has not been given yet asks for no reply. */
  ghost predicate Follows(har: Harness, sink: HostSink, s: State)
  {
    var ops := Direct(har, sink, Emitted(s)).ops;
    && |ops| == Emitted(s) && s.server.seen == Direct(har, sink, |s.server.seen|).seen
    && |s.ops| <= |ops| && s.ops == CrossAll(ops[..|s.ops|])
    && (forall j | |s.ops| <= j < |s.server.seen| :: !ops[j].Model? && !ops[j].Call?)
  }

  ghost predicate Awaits(sink: HostSink, s: State, ops: seq<Op>)
    requires |ops| == Emitted(s)
  {
    && s.server.parked.None? && !s.server.failed
    && (ops != [] ==> Waits(s, ops[|ops| - 1]))
    && (if ops == [] || |s.ops| < |ops| then s.down == [] && !s.server.wait.ForReceipt?
        else DownFlow(s, ops[|ops| - 1], sink(s.ops)))
  }

  /** The bridge is in step with the harness in process. */
  ghost predicate InStep(har: Harness, sink: HostSink, s: State)
  {
    && Follows(har, sink, s)
    && var ops := Direct(har, sink, Emitted(s)).ops;
    && UpFlow(har, s, ops)
    && Awaits(sink, s, ops)
  }

  lemma {:induction false} BeginInStep(har: Harness, sink: HostSink)
    ensures InStep(har, sink, BEGIN)
  {
  }

  // ---- what the crossing keeps ----

  lemma {:induction false} DeltaCrosses(delta: string)
    ensures Text(Codec.DecodeMessage(Codec.EncodeMessage(TextMessage("assistant", delta))).parts) == delta
  {
    var m := TextMessage("assistant", delta);
    assert Codec.DecodePart(Codec.EncodePart(m.parts[0])) == m.parts[0];
    assert Codec.DecodeMessage(Codec.EncodeMessage(m)) == m;
    TextOfTextMessage("assistant", delta);
  }

  /** Frames carry the operations. */
  lemma {:induction false} FrameCarries(k: nat, op: Op)
    ensures match FrameOf(k, op)
      case UModel(id, model, messages, params) => id == k && CrossOp(op) == Model(ModelRequest(model, DecodeAll(messages), params))
      case UOutput(m) => CrossOp(op) == Output(Text(Codec.DecodeMessage(m).parts))
      case UCall(w) => CrossOp(op) == Call(Codec.DecodeCall(w))
      case UReport(w) => CrossOp(op) == Report(Codec.DecodeResult(w))
      case UUsage(u) => CrossOp(op) == Account(u)
      case _ => false
  {
    if op.Output? { DeltaCrosses(op.delta); }
  }

  /** What the protocol checks about calls and results is the same on either side of the wire. */
  lemma {:induction false} ChecksCross(ids: Ids, call: ToolCall, r: ToolResult)
    ensures var c := Codec.DecodeCall(Codec.EncodeCall(call));
      c.id == call.id && (c.mediation.RequiresApproval? <==> call.mediation.RequiresApproval?)
    ensures var t := Codec.DecodeResult(Codec.EncodeResult(r));
      && t.id == r.id
      && (!ClaimsReceipt(r) ==> !ClaimsReceipt(t))
      && (forall d | ValidReceipt(call.id, Some(d), r) :: ValidReceipt(call.id, Some(d), t))
  {
  }

  // ---- steps keep the bridge in step ----

  /** What Direct says about one of its operations. */
  lemma {:induction false} DirectAt(har: Harness, sink: HostSink, m: nat, k: nat)
    requires |Direct(har, sink, m).ops| == m && k < m
    ensures var d := Direct(har, sink, m);
      && Direct(har, sink, k) == Local(d.ops[..k], d.seen[..k])
      && Direct(har, sink, k + 1) == Local(d.ops[..k + 1], d.seen[..k + 1])
      && har(d.seen[..k]) == Emit(d.ops[k])
      && d.seen[k] == See(CrossAnswer(sink(CrossAll(d.ops[..k + 1]))))
  {
    var d := Direct(har, sink, m);
    DirectPrefix(har, sink, k, m);
    DirectPrefix(har, sink, k + 1, m);
    var e := Direct(har, sink, k);
    assert |Direct(har, sink, k + 1).ops| == k + 1;
    assert har(e.seen).Emit?;
    assert e.ops + [har(e.seen).op] == d.ops[..k + 1];
    assert e.ops == d.ops[..k] && e.seen == d.seen[..k];
  }

  lemma {:induction false} SuccessAt(har: Harness, sink: HostSink, ids: Ids, m: nat, k: nat)
    requires |Direct(har, sink, m).ops| == m && k < m && SucceedsAt(har, sink, ids, k)
    ensures var ops := Direct(har, sink, m).ops; Succeeds(ids, ops[k], sink(CrossAll(ops[..k + 1])))
  {
    DirectAt(har, sink, m, k);
    var d := Direct(har, sink, m);
    assert d.ops[..k] + [d.ops[k]] == d.ops[..k + 1];
  }

  /** The harness's next operation parks: it is a gated call, and the host answers with its park. */
  ghost predicate ParksAt(har: Harness, sink: HostSink, ids: Ids, n: nat, ref: ApprovalRef)
  {
    var d := Direct(har, sink, n);
    && har(d.seen).Emit? && |d.ops| == n && har(d.seen).op.Call?
    && var call := har(d.seen).op.call;
    && call.mediation.RequiresApproval? && ids.session != "" && call.id != ""
    && sink(CrossAll(d.ops + [har(d.seen).op])) == Failed(Parked(ref))
    && ref.executionId == ids.executionId && ref.toolCallId == call.id && ref.requestSeq > 0
  }

  /** The state after an operation is sent. */
  function Sent(s: State, op: Op): State
  {
    var sent := s.(up := s.up + [FrameOf(|s.server.seen|, op)]);
    match op
    case Model(_) => sent.(server := s.server.(wait := ForModel(|s.server.seen|)))
    case Call(call) => sent.(server := s.server.(wait := ForCall(call)))
    case _ => sent.(server := s.server.(seen := s.server.seen + [SawAccepted]))
  }

  lemma {:induction false} SendsFrame(har: Harness, sink: HostSink, ids: Ids, s: State, ref: ApprovalRef)
    requires InStep(har, sink, s) && s.server.wait.Idle? && !s.server.done && har(s.server.seen).Emit?
    requires SucceedsAt(har, sink, ids, Emitted(s)) || ParksAt(har, sink, ids, Emitted(s), ref)
    ensures var op := har(s.server.seen).op;
      && ServerStep(har, ids, s) == Sent(s, op)
      && (!op.Model? && !op.Call? ==> sink(CrossAll(Direct(har, sink, |s.server.seen|).ops + [op])) == Accepted)
  {
    hide FrameOf, CrossAll, UpFlow, DownFlow;
  }

  lemma {:induction false} SentFlows(har: Harness, s: State, ops: seq<Op>, op: Op)
    requires UpFlow(har, s, ops) && !s.server.done && |s.server.seen| == |ops|
    ensures UpFlow(har, Sent(s, op), ops + [op])
  {
    hide FrameOf;
    var t := Sent(s, op);
    assert forall j | 0 <= j < |ops| - |s.ops| :: t.up[j] == s.up[j] && (ops + [op])[|s.ops| + j] == ops[|s.ops| + j];
  }

  lemma {:induction false} SentAwaits(sink: HostSink, s: State, ops: seq<Op>, op: Op)
    requires |ops| == Emitted(s) && Awaits(sink, s, ops) && s.server.wait.Idle? && |s.ops| <= |ops|
    ensures Emitted(Sent(s, op)) == |ops + [op]| && Awaits(sink, Sent(s, op), ops + [op])
  {
    hide FrameOf, Replies;
  }

  lemma {:induction false} SentSees(s: State, op: Op)
    requires s.server.wait.Idle?
    ensures var t := Sent(s, op); t.ops == s.ops && Emitted(t) == |s.server.seen| + 1
    ensures Sent(s, op).server.seen == s.server.seen + (if op.Model? || op.Call? then [] else [SawAccepted])
  {
  }

  /** The operation about to be sent is the next one of the harness in process. */
  lemma {:induction false} SentOps(har: Harness, sink: HostSink, s: State, op: Op)
    requires Follows(har, sink, s) && s.server.wait.Idle? && har(s.server.seen) == Emit(op)
    ensures var n := |s.server.seen|;
      var d, e := Direct(har, sink, n), Direct(har, sink, n + 1);
      && |d.ops| == n && e.ops == d.ops + [op]
      && d.seen == s.server.seen && e.seen == d.seen + [See(CrossAnswer(sink(CrossAll(e.ops))))]
      && |s.ops| <= n && s.ops == CrossAll(e.ops[..|s.ops|])
      && (forall j | |s.ops| <= j < n :: !e.ops[j].Model? && !e.ops[j].Call?)
  {
    hide CrossAll, CrossAnswer;
    var n := |s.server.seen|;
    DirectNext(har, sink, n);
    var d, e := Direct(har, sink, n), Direct(har, sink, n + 1);
    hide Direct;
    assert e.ops[..|s.ops|] == d.ops[..|s.ops|];
    forall j | |s.ops| <= j < n
      ensures !e.ops[j].Model? && !e.ops[j].Call?
    {
      assert e.ops[j] == d.ops[j];
    }
  }

  lemma {:induction false} SentFollows(har: Harness, sink: HostSink, s: State, op: Op)
    requires Follows(har, sink, s) && s.server.wait.Idle? && har(s.server.seen) == Emit(op)
    requires !op.Model? && !op.Call? ==> sink(CrossAll(Direct(har, sink, |s.server.seen|).ops + [op])) == Accepted
    ensures Follows(har, sink, Sent(s, op))
    ensures Direct(har, sink, |s.server.seen| + 1).ops == Direct(har, sink, |s.server.seen|).ops + [op]
  {
    hide Direct, FrameOf, CrossAll, Sent, Emitted, Replies;
    SentOps(har, sink, s, op);
    SentSees(s, op);
    FollowsIs(har, sink, Sent(s, op), |s.server.seen| + 1);
  }

  /** The parts of Follows, for the n operations the serving process has made. */
  lemma {:induction false} FollowsIs(har: Harness, sink: HostSink, s: State, n: nat)
    requires Emitted(s) == n == |Direct(har, sink, n).ops|
    requires |s.server.seen| <= n && s.server.seen == Direct(har, sink, |s.server.seen|).seen
    requires |s.ops| <= n && s.ops == CrossAll(Direct(har, sink, n).ops[..|s.ops|])
    requires forall j | |s.ops| <= j < |s.server.seen| :: !Direct(har, sink, n).ops[j].Model? && !Direct(har, sink, n).ops[j].Call?
    ensures Follows(har, sink, s)
  {
    hide Direct, CrossAll, Emitted;
  }

  /** The serving process sends the next operation. */
  lemma {:induction false} SendKeeps(har: Harness, sink: HostSink, ids: Ids, s: State, ref: ApprovalRef)
    requires InStep(har, sink, s) && s.server.wait.Idle? && !s.server.done && har(s.server.seen).Emit?
    requires SucceedsAt(har, sink, ids, Emitted(s)) || ParksAt(har, sink, ids, Emitted(s), ref)
    ensures InStep(har, sink, ServerStep(har, ids, s))
  {
    SendsFrame(har, sink, ids, s, ref);
    hide *;
    var op := har(s.server.seen).op;
    var ops := Direct(har, sink, |s.server.seen|).ops;
    assert Follows(har, sink, s) && UpFlow(har, s, ops) && |ops| == |s.server.seen| == Emitted(s) && Awaits(sink, s, ops) &&
      |s.ops| <= |ops|;
    SentFlows(har, s, ops, op);
    SentAwaits(sink, s, ops, op);
    SentFollows(har, sink, s, op);
    assert InStep(har, sink, Sent(s, op));
  }

  /** The state after a reply is taken: a decision announces a result, and a result is the answer. */
  function Received(s: State, op: Op, a: Answer): State
    requires s.down != [] && (op.Call? ==> a.Returned?)
  {
    var t := s.(down := s.down[1..]);
    if s.server.wait.ForCall? && s.server.wait.call.mediation.RequiresApproval? && a.Returned? && a.result.approval.Some?
    then t.(server := s.server.(wait := ForReceipt(s.server.wait.call, a.result.approval.value)))
    else Saw(t, See(CrossAnswer(a)))
  }

  lemma {:induction false} TakesReply(har: Harness, sink: HostSink, ids: Ids, s: State, op: Op, a: Answer)
    requires !s.server.wait.Idle? && !s.server.done && s.down != []
    requires Waits(s, op) && DownFlow(s, op, a) && Succeeds(ids, op, a)
    ensures ServerStep(har, ids, s) == Received(s, op, a)
    ensures DownFlow(Received(s, op, a), op, a) && Waits(Received(s, op, a), op)
  {
    if op.Call? { ChecksCross(ids, op.call, a.result); }
  }

  lemma {:induction false} ReceivedFollows(har: Harness, sink: HostSink, s: State, a: Answer)
    requires Follows(har, sink, s) && !s.server.wait.Idle? && s.down != [] && |s.ops| == Emitted(s)
    requires var op := Direct(har, sink, Emitted(s)).ops[|s.server.seen|];
      a == sink(s.ops) && (op.Call? ==> a.Returned?)
    ensures var t := Received(s, Direct(har, sink, Emitted(s)).ops[|s.server.seen|], a);
      Emitted(t) == Emitted(s) && t.ops == s.ops && Follows(har, sink, t)
  {
    var n := |s.server.seen|;
    var d := Direct(har, sink, n + 1);
    assert d.ops[..n + 1] == d.ops;
    DirectAt(har, sink, n + 1, n);
    assert d.seen == d.seen[..n] + [d.seen[n]];
    assert d.seen == s.server.seen + [See(CrossAnswer(a))];
    var t := Received(s, d.ops[n], a);
    assert |t.server.seen| == n || t.server.seen == d.seen;
    assert Emitted(t) == n + 1;
    hide Direct, CrossAll, Received;
  }

  /** The serving process takes a reply off the stream. */
  lemma {:induction false} ReceiveKeeps(har: Harness, sink: HostSink, ids: Ids, s: State)
    requires InStep(har, sink, s) && !s.server.wait.Idle? && !s.server.done && s.down != []
    requires SucceedsAt(har, sink, ids, |s.server.seen|)
    ensures InStep(har, sink, ServerStep(har, ids, s))
  {
    var n := |s.server.seen|;
    var ops := Direct(har, sink, n + 1).ops;
    assert |s.ops| == n + 1;
    assert ops[..n + 1] == ops;
    SuccessAt(har, sink, ids, n + 1, n);
    var a := sink(s.ops);
    TakesReply(har, sink, ids, s, ops[n], a);
    ReceivedFollows(har, sink, s, a);
    var t := Received(s, ops[n], a);
    assert UpFlow(har, t, ops) by { hide FrameOf, CrossAll, Direct; }
    assert t.server.parked.None? && !t.server.failed;
    hide Direct, ServerStep, Received, CrossAll, FrameOf, UpFlow, Waits, DownFlow, SucceedsAt;
    assert InStep(har, sink, t);
  }

  /** The serving process finishes. */
  lemma {:induction false} ReturnKeeps(har: Harness, sink: HostSink, ids: Ids, s: State)
    requires InStep(har, sink, s) && s.server.wait.Idle? && har(s.server.seen).Return?
    ensures InStep(har, sink, ServerStep(har, ids, s))
  {
    hide FrameOf, Direct, CrossAll;
    assert Emitted(ServerStep(har, ids, s)) == Emitted(s);
  }

  /** The state after the host's sink has answered an operation as it should. */
  function Served(s: State, op: Op, a: Answer): State
    requires (op.Model? ==> a.Completion?) && (op.Call? ==> a.Returned?) && s.up != []
  {
    s.(up := s.up[1..], ops := s.ops + [CrossOp(op)], down := s.down + Replies(|s.ops|, op, a))
  }

  lemma {:induction false} ServesFrame(sink: HostSink, ids: Ids, s: State, op: Op)
    requires s.client.Serving? && s.up != [] && s.up[0] == FrameOf(|s.ops|, op)
    requires Succeeds(ids, op, sink(s.ops + [CrossOp(op)]))
    ensures ClientStep(sink, ids, s) == Served(s, op, sink(s.ops + [CrossOp(op)]))
  {
    FrameCarries(|s.ops|, op);
    var a := sink(s.ops + [CrossOp(op)]);
    match op {
      case Call(call) => ChecksCross(ids, call, a.result);
      case Report(r) => ChecksCross(ids, ToolCall("", "", None, ControllerMediated, ""), r);
      case _ =>
    }
  }

  lemma {:induction false} ServedFlows(har: Harness, s: State, ops: seq<Op>, a: Answer)
    requires UpFlow(har, s, ops) && s.client.Serving? && |s.ops| < |ops|
    requires var op := ops[|s.ops|]; (op.Model? ==> a.Completion?) && (op.Call? ==> a.Returned?)
    ensures UpFlow(har, Served(s, ops[|s.ops|], a), ops)
  {
    hide FrameOf, CrossOp, Replies;
  }

  lemma {:induction false} ServedAwaits(sink: HostSink, s: State, ops: seq<Op>)
    requires |ops| == Emitted(s) && Awaits(sink, s, ops) && |s.ops| < |ops| && s.up != []
    requires forall j | |s.ops| <= j < |s.server.seen| :: !ops[j].Model? && !ops[j].Call?
    requires var op := ops[|s.ops|]; var a := sink(s.ops + [CrossOp(op)]);
      (op.Model? ==> a.Completion?) && (op.Call? ==> a.Returned?)
    ensures var op := ops[|s.ops|]; Awaits(sink, Served(s, op, sink(s.ops + [CrossOp(op)])), ops)
  {
    hide CrossOp;
  }

  /** The host takes a frame off the stream. */
  lemma {:induction false} ServeKeeps(har: Harness, sink: HostSink, ids: Ids, s: State)
    requires InStep(har, sink, s) && s.client.Serving? && |s.ops| < Emitted(s)
    requires SucceedsAt(har, sink, ids, |s.ops|)
    ensures InStep(har, sink, ClientStep(sink, ids, s))
  {
    var m, k := Emitted(s), |s.ops|;
    var ops := Direct(har, sink, m).ops;
    SuccessAt(har, sink, ids, m, k);
    assert s.ops + [CrossOp(ops[k])] == CrossAll(ops[..k + 1]);
    ServesFrame(sink, ids, s, ops[k]);
    var a := sink(CrossAll(ops[..k + 1]));
    assert Succeeds(ids, ops[k], a);
    ServedFlows(har, s, ops, a);
    ServedAwaits(sink, s, ops);
    hide FrameOf, Direct, ClientStep, CrossOp, UpFlow, Awaits, Replies;
    var t := Served(s, ops[k], a);
    assert t.ops == CrossAll(ops[..k + 1]);
    assert InStep(har, sink, t);
  }

  /** The host takes the end of a stream. */
  lemma {:induction false} EndKeeps(har: Harness, sink: HostSink, ids: Ids, s: State)
    requires InStep(har, sink, s) && !(s.client.Serving? && |s.ops| < Emitted(s))
    ensures InStep(har, sink, ClientStep(sink, ids, s))
    ensures s.client.Serving? && s.server.done ==> ClientStep(sink, ids, s).client.Done?
    ensures !(s.client.Serving? && s.server.done) ==> ClientStep(sink, ids, s) == s
  {
    hide FrameOf, Direct, CrossAll, Serve;
    assert Emitted(ClientStep(sink, ids, s)) == Emitted(s);
  }

  lemma {:induction false} ServerKeeps(har: Harness, sink: HostSink, ids: Ids, s: State, ref: ApprovalRef)
    requires InStep(har, sink, s)
    requires |s.ops| == Emitted(s) > 0 ==> SucceedsAt(har, sink, ids, Emitted(s) - 1)
    requires s.server.wait.Idle? ==> SucceedsAt(har, sink, ids, Emitted(s)) || ParksAt(har, sink, ids, Emitted(s), ref)
    ensures InStep(har, sink, ServerStep(har, ids, s))
  {
    if s.server.done {
    } else if !s.server.wait.Idle? {
      if s.down != [] { ReceiveKeeps(har, sink, ids, s); }
    } else if har(s.server.seen).Emit? {
      SendKeeps(har, sink, ids, s, ref);
    } else {
      ReturnKeeps(har, sink, ids, s);
    }
  }

  lemma {:induction false} ClientKeeps(har: Harness, sink: HostSink, ids: Ids, s: State)
    requires InStep(har, sink, s)
    requires |s.ops| < Emitted(s) ==> SucceedsAt(har, sink, ids, |s.ops|)
    ensures InStep(har, sink, ClientStep(sink, ids, s))
  {
    if s.client.Serving? && |s.ops| < Emitted(s) { ServeKeeps(har, sink, ids, s); } else { EndKeeps(har, sink, ids, s); }
  }

  /** When every operation of the harness in process succeeds, every schedule keeps the bridge in step. */
  lemma {:induction false} RunInStep(har: Harness, sink: HostSink, ids: Ids, run: seq<bool>)
    requires forall k: nat :: SucceedsAt(har, sink, ids, k)
    ensures InStep(har, sink, After(har, sink, ids, run))
  {
    if run == [] {
      BeginInStep(har, sink);
    } else {
      var s := After(har, sink, ids, run[..|run| - 1]);
      RunInStep(har, sink, ids, run[..|run| - 1]);
      hide ServerStep, ClientStep, InStep, SucceedsAt;
      ServerKeeps(har, sink, ids, s, ApprovalRef("", "", 0));
      ClientKeeps(har, sink, ids, s);
    }
  }

  /** The bridge cannot be told from the harness in process: whatever the schedule, the host's sink is
  given a prefix of the operations the harness makes there, with nothing added, dropped or reordered;
  the harness sees the answers it would see there; and once the host is done, the harness has
  returned, all its operations were served, and the host succeeds iff the harness did. */
  lemma {:induction false} BridgeIsTransparent(har: Harness, sink: HostSink, ids: Ids, run: seq<bool>)
    requires forall k: nat :: SucceedsAt(har, sink, ids, k)
    ensures var s := After(har, sink, ids, run);
      var local := Direct(har, sink, Emitted(s));
      && s.ops <= CrossAll(local.ops)
      && s.server.seen <= local.seen
      && (s.client.Done? ==>
            && har(local.seen).Return? && s.ops == CrossAll(local.ops) && s.server.seen == local.seen
            && s.client.outcome == (if har(local.seen).finish == Completed then Succeeded else RunFailed))
  {
    RunInStep(har, sink, ids, run);
    InStepMeans(har, sink, After(har, sink, ids, run));
  }

  lemma {:induction false} InStepMeans(har: Harness, sink: HostSink, s: State)
    requires InStep(har, sink, s)
    ensures var local := Direct(har, sink, Emitted(s));
      && |local.ops| == Emitted(s)
      && s.ops <= CrossAll(local.ops)
      && s.server.seen <= local.seen
      && (s.client.Done? ==>
            && har(local.seen).Return? && s.ops == CrossAll(local.ops) && s.server.seen == local.seen
            && s.client.outcome == (if har(local.seen).finish == Completed then Succeeded else RunFailed))
  {
    DirectPrefix(har, sink, |s.server.seen|, Emitted(s));
    hide FrameOf, Direct, Awaits, CrossOp;
    var ops := Direct(har, sink, Emitted(s)).ops;
    if s.client.Done? { assert ops[..|s.ops|] == ops; }
  }

  // ---- the bridge gets there ----

  /** How far the bridge has got: answers, the step within a call, operations served, and the two ends. */
  function Work(s: State): nat
  {
    3 * |s.server.seen| + |s.ops| + (if s.server.done then 1 else 0) + (if s.client.Done? then 1 else 0) +
    (match s.server.wait case Idle => 0 case ForReceipt(_, _) => 2 case _ => 1)
  }

  lemma {:induction false} ServerWorks(har: Harness, sink: HostSink, ids: Ids, s: State, ref: ApprovalRef)
    requires InStep(har, sink, s)
    requires s.server.wait.Idle? ==> SucceedsAt(har, sink, ids, Emitted(s)) || ParksAt(har, sink, ids, Emitted(s), ref)
    requires s.down != [] ==> SucceedsAt(har, sink, ids, |s.server.seen|)
    ensures Work(ServerStep(har, ids, s)) > Work(s) || (ServerStep(har, ids, s) == s && (s.server.done || !s.server.wait.Idle?))
    ensures s.down != [] ==> ServerStep(har, ids, s) != s
  {
    if s.server.done {
    } else if !s.server.wait.Idle? {
      if s.down != [] {
        var n := |s.server.seen|;
        var ops := Direct(har, sink, n + 1).ops;
        assert ops[..n + 1] == ops;
        SuccessAt(har, sink, ids, n + 1, n);
        TakesReply(har, sink, ids, s, ops[n], sink(s.ops));
        hide ServerStep, Direct, CrossAll, FrameOf;
      }
    } else if har(s.server.seen).Emit? {
      hide ServerStep, InStep, Direct, FrameOf, SucceedsAt;
      SendsFrame(har, sink, ids, s, ref);
    }
  }

  lemma {:induction false} ClientWorks(har: Harness, sink: HostSink, ids: Ids, s: State)
    requires InStep(har, sink, s) && (|s.ops| < Emitted(s) ==> SucceedsAt(har, sink, ids, |s.ops|))
    ensures Work(ClientStep(sink, ids, s)) > Work(s) || ClientStep(sink, ids, s) == s
    ensures s.client.Serving? && (s.server.done || |s.ops| < Emitted(s)) ==> ClientStep(sink, ids, s) != s
  {
    if s.client.Serving? && |s.ops| < Emitted(s) {
      var m, k := Emitted(s), |s.ops|;
      var ops := Direct(har, sink, m).ops;
      SuccessAt(har, sink, ids, m, k);
      assert s.ops + [CrossOp(ops[k])] == CrossAll(ops[..k + 1]);
      hide ClientStep, FrameOf, Direct, CrossOp, Awaits;
      ServesFrame(sink, ids, s, ops[k]);
    } else {
      hide ClientStep, Direct;
      EndKeeps(har, sink, ids, s);
    }
  }

  /** Until the host is done, one of the ends has something to do. */
  lemma {:induction false} NoDeadlock(har: Harness, sink: HostSink, ids: Ids, s: State)
    requires InStep(har, sink, s) && !s.client.Done? && (forall k: nat :: SucceedsAt(har, sink, ids, k))
    ensures ServerStep(har, ids, s) != s || ClientStep(sink, ids, s) != s
  {
    ServerWorks(har, sink, ids, s, ApprovalRef("", "", 0));
    ClientWorks(har, sink, ids, s);
    hide ServerStep, ClientStep, Follows, FrameOf, Work;
  }

  /** The two ends taking turns. */
  function Rounds(n: nat): seq<bool>
  {
    if n == 0 then [] else Rounds(n - 1) + [true, false]
  }

  lemma {:induction false} RoundWorks(har: Harness, sink: HostSink, ids: Ids, s: State)
    requires InStep(har, sink, s) && (forall k: nat :: SucceedsAt(har, sink, ids, k))
    ensures var t := ClientStep(sink, ids, ServerStep(har, ids, s));
      t.client.Done? || (!s.client.Done? && Work(t) > Work(s))
  {
    var t := ServerStep(har, ids, s);
    assert s.client.Done? ==> t.client.Done? && ClientStep(sink, ids, t).client.Done? by {
      hide InStep, FrameOf, SucceedsAt, Serve;
    }
    hide ServerStep, ClientStep, Work, InStep, SucceedsAt;
    ServerKeeps(har, sink, ids, s, ApprovalRef("", "", 0));
    ServerWorks(har, sink, ids, s, ApprovalRef("", "", 0));
    ClientWorks(har, sink, ids, t);
    if !s.client.Done? { NoDeadlock(har, sink, ids, s); }
  }

  lemma {:induction false} RoundsWork(har: Harness, sink: HostSink, ids: Ids, n: nat)
    requires forall k: nat :: SucceedsAt(har, sink, ids, k)
    ensures var s := After(har, sink, ids, Rounds(n)); s.client.Done? || Work(s) >= n
  {
    hide ServerStep, ClientStep, Work, InStep, SucceedsAt;
    if n > 0 {
      RoundsWork(har, sink, ids, n - 1);
      var before := Rounds(n - 1);
      var run := before + [true, false];
      assert run[..|run| - 1] == before + [true];
      assert (before + [true])[..|before|] == before;
      var s := After(har, sink, ids, before);
      assert After(har, sink, ids, before + [true]) == ServerStep(har, ids, s);
      RunInStep(har, sink, ids, before);
      RoundWorks(har, sink, ids, s);
    }
  }

  /** A harness that returns after n operations makes no more, and returns nowhere else. */
  lemma {:induction false} ReturnsOnce(har: Harness, sink: HostSink, n: nat, m: nat)
    requires |Direct(har, sink, n).ops| == n && har(Direct(har, sink, n).seen).Return?
    requires |Direct(har, sink, m).ops| == m
    ensures m <= n && (har(Direct(har, sink, m).seen).Return? ==> m == n)
  {
    if m > n {
      DirectAt(har, sink, m, n);
      assert false;
    } else if m < n {
      DirectAt(har, sink, n, m);
    }
  }

  lemma {:induction false} WorkBound(s: State)
    requires |s.ops| <= Emitted(s)
    ensures Work(s) <= 4 * Emitted(s) + 2
  {
  }

  /** When the harness in process returns after n operations, each of them succeeding, the bridge is
  done after boundedly many rounds. */
  lemma {:induction false} BridgeFinishes(har: Harness, sink: HostSink, ids: Ids, n: nat)
    requires forall k: nat :: SucceedsAt(har, sink, ids, k)
    requires |Direct(har, sink, n).ops| == n && har(Direct(har, sink, n).seen).Return?
    ensures var s := After(har, sink, ids, Rounds(4 * n + 3));
      && s.ops == CrossAll(Direct(har, sink, n).ops)
      && s.client == Done(if har(Direct(har, sink, n).seen).finish == Completed then Succeeded else RunFailed)
  {
    hide After, UpFlow, Awaits, FrameOf, Direct, CrossAll, Work, Emitted, Rounds, SucceedsAt;
    var run := Rounds(4 * n + 3);
    var s := After(har, sink, ids, run);
    RoundsWork(har, sink, ids, 4 * n + 3);
    RunInStep(har, sink, ids, run);
    BridgeIsTransparent(har, sink, ids, run);
    ReturnsOnce(har, sink, n, Emitted(s));
    WorkBound(s);
  }

  // ---- a park crosses the bridge ----

  /** The park is being handed over: the host sends it, the serving process unwinds without sending
  anything, and answers with the matching acknowledgement, or with nothing if its harness failed on its
  own. No END is ever on the way, and the host's sink is given nothing more. */
  ghost predicate HandsOver(ids: Ids, s: State, ref: ApprovalRef)
  {
    var waiting := s.server.wait.ForCall? && s.server.wait.call.mediation.RequiresApproval? && s.server.wait.call.id == ref.toolCallId;
    && ref.executionId == ids.executionId && ref.requestSeq > 0 && !s.server.failed
    && (if s.down != [] then
          s.down == [DPark(ref)] && waiting && s.server.parked.None? && !s.server.done && s.client == Acknowledging(ref) && s.up == []
        else
          && s.server.wait.Idle? && s.server.parked == Some(ref)
          && (match s.client
              case Acknowledging(r) => r == ref && (s.up == [] || (s.server.done && s.up == [UParked(ref)]))
              case Closing(r) => r == ref && s.server.done && s.up == []
              case Done(o) => s.server.done && s.up == [] && (o == RunParked(ref) || (o == RunFailed && !ids.unwinds))
              case Serving => false)
          && (ids.unwinds && s.server.done ==> !s.client.Acknowledging? || s.up == [UParked(ref)]))
  }

  lemma {:induction false} HandOverKeeps(har: Harness, sink: HostSink, ids: Ids, s: State, ref: ApprovalRef)
    requires HandsOver(ids, s, ref)
    ensures HandsOver(ids, ServerStep(har, ids, s), ref) && ServerStep(har, ids, s).ops == s.ops
    ensures HandsOver(ids, ClientStep(sink, ids, s), ref) && ClientStep(sink, ids, s).ops == s.ops
  {
  }

  /** The serving process has sent the gated call and the host's sink parks it. */
  lemma {:induction false} ParkIsSent(har: Harness, sink: HostSink, ids: Ids, s: State, p: nat, ref: ApprovalRef)
    requires InStep(har, sink, s) && |s.ops| == p < Emitted(s) && ParksAt(har, sink, ids, p, ref)
    ensures Emitted(s) == p + 1
    ensures HandsOver(ids, ClientStep(sink, ids, s), ref)
    ensures ClientStep(sink, ids, s).ops == CrossAll(Direct(har, sink, p + 1).ops)
  {
    var m := Emitted(s);
    var ops := Direct(har, sink, m).ops;
    DirectAt(har, sink, m, p);
    assert ops[p].Call?;
    assert |s.server.seen| == p && !s.server.wait.Idle?;
    assert ops[..p + 1] == ops == ops[..p] + [ops[p]];
    assert s.ops + [CrossOp(ops[p])] == CrossAll(ops);
    FrameCarries(p, ops[p]);
    ChecksCross(ids, ops[p].call, ToolResult("", None, "", "", false, "", [], 0, 0, 0, None));
    hide Direct, FrameOf, CrossAll, CrossOp;
  }

  /** A run whose harness comes to park at its p-th operation. */
  ghost predicate ParksFirst(har: Harness, sink: HostSink, ids: Ids, p: nat, ref: ApprovalRef)
  {
    (forall k: nat | k < p :: SucceedsAt(har, sink, ids, k)) && ParksAt(har, sink, ids, p, ref)
  }

  ghost predicate BeforePark(har: Harness, sink: HostSink, s: State, p: nat)
  {
    InStep(har, sink, s) && |s.ops| <= p && Emitted(s) <= p + 1
  }

  /** A serving process that waits for the gated call gets nothing before the host serves it. */
  lemma {:induction false} WaitsForPark(har: Harness, sink: HostSink, ids: Ids, s: State, p: nat, ref: ApprovalRef)
    requires InStep(har, sink, s) && |s.ops| <= p && Emitted(s) == p + 1 && ParksAt(har, sink, ids, p, ref)
    ensures ServerStep(har, ids, s) == s
  {
    DirectAt(har, sink, p + 1, p);
    assert Direct(har, sink, p + 1).ops[p].Call?;
    hide Direct, FrameOf, CrossAll, ParksAt;
    assert !s.server.wait.Idle? && s.down == [];
    assert !s.client.Done?;
  }

  lemma {:induction false} SendsOne(har: Harness, ids: Ids, s: State)
    ensures var t := ServerStep(har, ids, s); Emitted(t) <= Emitted(s) + 1 && t.ops == s.ops
  {
    hide FrameOf, ValidReceipt, ClaimsReceipt;
  }

  lemma {:induction false} ServesOne(sink: HostSink, ids: Ids, s: State)
    ensures var t := ClientStep(sink, ids, s); t.server == s.server && |s.ops| <= |t.ops| <= |s.ops| + 1
  {
    hide FrameOf, ValidReceipt, ClaimsReceipt;
  }

  lemma {:induction false} BeforeParkKeeps(har: Harness, sink: HostSink, ids: Ids, s: State, p: nat, ref: ApprovalRef)
    requires BeforePark(har, sink, s, p) && ParksFirst(har, sink, ids, p, ref)
    ensures BeforePark(har, sink, ServerStep(har, ids, s), p)
    ensures |s.ops| < p ==> BeforePark(har, sink, ClientStep(sink, ids, s), p)
    ensures |s.ops| == p == Emitted(s) ==> ClientStep(sink, ids, s).ops == s.ops && BeforePark(har, sink, ClientStep(sink, ids, s), p)
  {
    var m := Emitted(s);
    assert |s.ops| <= m && (!s.server.wait.Idle? ==> s.down == [] || |s.ops| == m) by { hide FrameOf, Direct, CrossAll, UpFlow; }
    SendsOne(har, ids, s);
    ServesOne(sink, ids, s);
    if m == p + 1 { WaitsForPark(har, sink, ids, s, p, ref); } else {
      hide ServerStep, ClientStep, InStep, SucceedsAt, ParksAt;
      ServerKeeps(har, sink, ids, s, ref);
    }
    if |s.ops| < p || m == p {
      if |s.ops| == m { EndKeeps(har, sink, ids, s); }
      hide ServerStep, ClientStep, InStep, SucceedsAt, ParksAt, Emitted;
      ClientKeeps(har, sink, ids, s);
    }
  }

  lemma {:induction false} RunParks(har: Harness, sink: HostSink, ids: Ids, run: seq<bool>, p: nat, ref: ApprovalRef)
    requires ParksFirst(har, sink, ids, p, ref)
    ensures var s := After(har, sink, ids, run);
      BeforePark(har, sink, s, p) || (HandsOver(ids, s, ref) && s.ops == CrossAll(Direct(har, sink, p + 1).ops))
  {
    if run == [] {
      BeginInStep(har, sink);
    } else {
      var s := After(har, sink, ids, run[..|run| - 1]);
      RunParks(har, sink, ids, run[..|run| - 1], p, ref);
      assert BeforePark(har, sink, s, p) && |s.ops| == p != Emitted(s) ==> p < Emitted(s) by { hide Direct, CrossAll, UpFlow, Awaits; }
      hide ServerStep, ClientStep, InStep, SucceedsAt, ParksAt, Emitted, HandsOver, CrossAll, Direct;
      if !BeforePark(har, sink, s, p) {
        HandOverKeeps(har, sink, ids, s, ref);
      } else {
        BeforeParkKeeps(har, sink, ids, s, p, ref);
        if |s.ops| == p != Emitted(s) { ParkIsSent(har, sink, ids, s, p, ref); }
      }
    }
  }

  /** What the serving process sent last before the harness parks. */
  lemma {:induction false} LastBeforePark(har: Harness, sink: HostSink, ids: Ids, p: nat, m: nat, ref: ApprovalRef)
    requires ParksAt(har, sink, ids, p, ref) && m <= p + 1 && |Direct(har, sink, m).ops| == m
    ensures m <= p ==> har(Direct(har, sink, m).seen).Emit?
    ensures m == p + 1 ==> Direct(har, sink, m).ops[p].Call?
  {
    DirectNext(har, sink, p);
    if m <= p { DirectAt(har, sink, p + 1, m); }
  }

  lemma {:induction false} OpenBeforePark(har: Harness, sink: HostSink, ids: Ids, s: State, p: nat, ref: ApprovalRef)
    requires BeforePark(har, sink, s, p) && ParksAt(har, sink, ids, p, ref)
    ensures !s.server.done && s.client.Serving?
  {
    var m := Emitted(s);
    LastBeforePark(har, sink, ids, p, m, ref);
    hide Direct, CrossAll, FrameOf, Replies, ParksAt, DownFlow;
    assert m == p + 1 ==> !s.server.wait.Idle?;
  }

  lemma {:induction false} SendsOnlyOps(har: Harness, sink: HostSink, s: State, p: nat)
    requires InStep(har, sink, s) && !s.server.done && s.client.Serving? && Emitted(s) <= p + 1
    ensures s.ops <= CrossAll(Direct(har, sink, p + 1).ops)
    ensures forall j | 0 <= j < |s.up| :: !s.up[j].UEnd? && !s.up[j].UParked?
  {
    DirectPrefix(har, sink, Emitted(s), p + 1);
    hide Direct, CrossOp, Replies, Awaits;
  }

  /** Whatever the schedule, a harness that parks makes the same operations as in process and no more; no
  END is ever on the way to the host, and a PARKED only for this park and after everything else; a host
  that is done has parked exactly this call, unless the harness ended with a failure of its own. */
  lemma {:induction false} ParkCrosses(har: Harness, sink: HostSink, ids: Ids, run: seq<bool>, p: nat, ref: ApprovalRef)
    requires ParksFirst(har, sink, ids, p, ref)
    ensures var s := After(har, sink, ids, run);
      && |s.ops| <= p + 1 && s.ops <= CrossAll(Direct(har, sink, p + 1).ops)
      && (forall j | 0 <= j < |s.up| :: !s.up[j].UEnd? && (s.up[j].UParked? ==> s.up == [UParked(ref)] && |s.ops| == p + 1))
      && (s.client.Done? ==> |s.ops| == p + 1 && (s.client.outcome == RunParked(ref) || (!ids.unwinds && s.client.outcome == RunFailed)))
  {
    var s := After(har, sink, ids, run);
    RunParks(har, sink, ids, run, p, ref);
    hide After, InStep, Direct, CrossAll, SucceedsAt;
    assert |Direct(har, sink, p + 1).ops| <= p + 1;
    if BeforePark(har, sink, s, p) {
      OpenBeforePark(har, sink, ids, s, p, ref);
      SendsOnlyOps(har, sink, s, p);
    } else {
      assert |Direct(har, sink, p + 1).ops| == p + 1 by { DirectNext(har, sink, p); }
    }
  }

  // ---- a parked bridge gets there ----

  /** What a harness sees that goes on asking after its park. */
  function Failures(n: nat): seq<Seen>
  {
    seq(n, _ => SawFailure)
  }

  /** After its park the harness makes q more operations, each refused, and returns. */
  ghost predicate ReturnsAfter(har: Harness, before: seq<Seen>, q: nat)
  {
    har(before + Failures(q + 1)).Return? && forall j | 1 <= j <= q :: har(before + Failures(j)).Emit?
  }

  /** A harness that returned so acknowledges the park: it did not fail on its own. */
  predicate Acknowledges(ids: Ids, f: Finish)
  {
    f == Completed || ids.unwinds
  }

  /** The park is being handed over to a harness that had seen this. */
  ghost predicate Unwinding(har: Harness, ids: Ids, s: State, ref: ApprovalRef, before: seq<Seen>)
  {
    && HandsOver(ids, s, ref)
    && |before| <= |s.server.seen| && s.server.seen == before + Failures(|s.server.seen| - |before|)
    && (s.down == [] <==> |before| < |s.server.seen|)
    && (s.server.done ==>
          && har(s.server.seen).Return?
          && var acknowledged := Acknowledges(ids, har(s.server.seen).finish);
             && (s.client.Acknowledging? ==> s.up == if acknowledged then [UParked(ref)] else [])
             && (s.client.Closing? ==> acknowledged)
             && (s.client.Done? ==> s.client.outcome == if acknowledged then RunParked(ref) else RunFailed))
  }

  /** How far the hand-over has got. */
  function Unwound(s: State, before: seq<Seen>): int
  {
    |s.server.seen| - |before| + (if s.server.done then 1 else 0) + (match s.client case Closing(_) => 1 case Done(_) => 2 case _ => 0)
  }

  lemma {:induction false} ServerUnwinds(har: Harness, ids: Ids, s: State, ref: ApprovalRef, before: seq<Seen>)
    requires Unwinding(har, ids, s, ref, before)
    ensures var t := ServerStep(har, ids, s);
      && Unwinding(har, ids, t, ref, before) && t.client == s.client
      && (if s.server.done then t == s else Unwound(t, before) == Unwound(s, before) + 1)
  {
    var n := |s.server.seen| - |before|;
    assert before + Failures(n) + [SawFailure] == before + Failures(n + 1);
  }

  lemma {:induction false} ClientUnwinds(har: Harness, sink: HostSink, ids: Ids, s: State, ref: ApprovalRef, before: seq<Seen>)
    requires Unwinding(har, ids, s, ref, before)
    ensures var t := ClientStep(sink, ids, s);
      && Unwinding(har, ids, t, ref, before)
      && (if s.server.done && !s.client.Done? then Unwound(t, before) > Unwound(s, before) else t == s)
  {
  }

  /** The harness is refused no more than q operations. */
  lemma {:induction false} UnwoundBound(har: Harness, ids: Ids, s: State, ref: ApprovalRef, before: seq<Seen>, q: nat)
    requires Unwinding(har, ids, s, ref, before) && ReturnsAfter(har, before, q)
    requires |s.server.seen| <= |before| + q + 1
    ensures !s.client.Done? ==> Unwound(s, before) <= q + 3
    ensures |ServerStep(har, ids, s).server.seen| <= |before| + q + 1
    ensures s.server.done ==> s.server.seen == before + Failures(q + 1)
  {
    var n := |s.server.seen| - |before|;
    if 1 <= n <= q { assert har(before + Failures(n)).Emit?; }
  }

  /** A round before the park brings the bridge on, or begins to hand the park over. */
  lemma {:induction false} ParkRoundWorks(har: Harness, sink: HostSink, ids: Ids, s: State, p: nat, ref: ApprovalRef)
    requires BeforePark(har, sink, s, p) && ParksFirst(har, sink, ids, p, ref)
    ensures var t := ClientStep(sink, ids, ServerStep(har, ids, s));
      || (BeforePark(har, sink, t, p) && Work(t) > Work(s))
      || (Unwinding(har, ids, t, ref, Direct(har, sink, p).seen) && |t.server.seen| == p)
  {
    hide InStep, Work, ServerStep, ClientStep, ParksAt, HandsOver, Unwinding, SucceedsAt;
    var t := ServerStep(har, ids, s);
    BeforeParkKeeps(har, sink, ids, s, p, ref);
    OpenBeforePark(har, sink, ids, s, p, ref);
    OpenBeforePark(har, sink, ids, t, p, ref);
    PendingBeforePark(har, sink, s, p);
    PendingBeforePark(har, sink, t, p);
    if Emitted(s) <= p { ServerWorks(har, sink, ids, s, ref); } else { WaitsForPark(har, sink, ids, s, p, ref); }
    if |t.ops| == p < Emitted(t) {
      ParkIsSent(har, sink, ids, t, p, ref);
      HandOverBegins(har, sink, ids, t, p, ref);
    } else {
      BeforeParkKeeps(har, sink, ids, t, p, ref);
      ClientWorks(har, sink, ids, t);
    }
  }

  /** Before the park an end that waits has an operation or a reply on the way. */
  lemma {:induction false} PendingBeforePark(har: Harness, sink: HostSink, s: State, p: nat)
    requires BeforePark(har, sink, s, p)
    ensures |s.ops| <= Emitted(s) <= p + 1
    ensures s.server.wait.Idle? ==> Emitted(s) == |s.server.seen|
    ensures s.down != [] ==> |s.ops| == Emitted(s) == |s.server.seen| + 1
    ensures !s.server.wait.Idle? && s.down == [] ==> |s.ops| < Emitted(s)
  {
    hide Direct, CrossAll, FrameOf, UpFlow;
  }

  lemma {:induction false} HandOverBegins(har: Harness, sink: HostSink, ids: Ids, s: State, p: nat, ref: ApprovalRef)
    requires InStep(har, sink, s) && |s.ops| == p < Emitted(s) && ParksAt(har, sink, ids, p, ref)
    requires HandsOver(ids, ClientStep(sink, ids, s), ref) && Emitted(s) == p + 1 && !s.server.done
    ensures Unwinding(har, ids, ClientStep(sink, ids, s), ref, Direct(har, sink, p).seen)
    ensures |ClientStep(sink, ids, s).server.seen| == p
  {
  }

  /** Each round brings the bridge on, until the host is done. */
  lemma {:induction false} ParkRounds(har: Harness, sink: HostSink, ids: Ids, n: nat, p: nat, ref: ApprovalRef, q: nat)
    requires ParksFirst(har, sink, ids, p, ref) && ReturnsAfter(har, Direct(har, sink, p).seen, q)
    ensures var s, before := After(har, sink, ids, Rounds(n)), Direct(har, sink, p).seen;
      || (BeforePark(har, sink, s, p) && Work(s) >= n)
      || (Unwinding(har, ids, s, ref, before) && |s.server.seen| <= p + q + 1 && (s.client.Done? || Unwound(s, before) + 4 * p + 7 >= n))
  {
    hide ServerStep, ClientStep, Work, InStep, Unwinding, ParksFirst, ReturnsAfter, Direct;
    if n == 0 {
      BeginInStep(har, sink);
      assert BeforePark(har, sink, BEGIN, p);
    } else {
      ParkRounds(har, sink, ids, n - 1, p, ref, q);
      AfterRound(har, sink, ids, n - 1);
      var s, before := After(har, sink, ids, Rounds(n - 1)), Direct(har, sink, p).seen;
      assert |before| == p by { ParksAfter(har, sink, ids, p, ref); }
      if BeforePark(har, sink, s, p) && Work(s) >= n - 1 {
        BeforeWork(har, sink, s, p);
        ParkRoundWorks(har, sink, ids, s, p, ref);
      } else {
        UnwindRound(har, sink, ids, s, ref, before, q);
      }
    }
  }

  lemma {:induction false} BeforeWork(har: Harness, sink: HostSink, s: State, p: nat)
    requires BeforePark(har, sink, s, p)
    ensures Work(s) <= 4 * p + 6
  {
    PendingBeforePark(har, sink, s, p);
    WorkBound(s);
  }

  lemma {:induction false} ParksAfter(har: Harness, sink: HostSink, ids: Ids, p: nat, ref: ApprovalRef)
    requires ParksFirst(har, sink, ids, p, ref)
    ensures |Direct(har, sink, p).seen| == p && |Direct(har, sink, p).ops| == p
  {
  }

  lemma {:induction false} AfterRound(har: Harness, sink: HostSink, ids: Ids, n: nat)
    ensures After(har, sink, ids, Rounds(n + 1)) == ClientStep(sink, ids, ServerStep(har, ids, After(har, sink, ids, Rounds(n))))
  {
    hide ServerStep, ClientStep;
    var before := Rounds(n);
    var run := before + [true, false];
    assert run[..|run| - 1] == before + [true];
    assert (before + [true])[..|before|] == before;
    assert After(har, sink, ids, before + [true]) == ServerStep(har, ids, After(har, sink, ids, before));
  }

  lemma {:induction false} NotBoth(har: Harness, sink: HostSink, ids: Ids, s: State, p: nat, ref: ApprovalRef)
    requires BeforePark(har, sink, s, p) && ParksFirst(har, sink, ids, p, ref)
    ensures !HandsOver(ids, s, ref)
  {
    OpenBeforePark(har, sink, ids, s, p, ref);
  }

  /** A round of the hand-over. */
  lemma {:induction false} UnwindRound(har: Harness, sink: HostSink, ids: Ids, s: State, ref: ApprovalRef, before: seq<Seen>, q: nat)
    requires Unwinding(har, ids, s, ref, before) && ReturnsAfter(har, before, q) && |s.server.seen| <= |before| + q + 1
    ensures var t := ClientStep(sink, ids, ServerStep(har, ids, s));
      && Unwinding(har, ids, t, ref, before) && |t.server.seen| <= |before| + q + 1
      && (t.client.Done? || (!s.client.Done? && Unwound(t, before) > Unwound(s, before)))
  {
    hide ServerStep, ClientStep, Unwinding, ReturnsAfter, Unwound;
    UnwoundBound(har, ids, s, ref, before, q);
    ServerUnwinds(har, ids, s, ref, before);
    ClientUnwinds(har, sink, ids, ServerStep(har, ids, s), ref, before);
    ServesOne(sink, ids, ServerStep(har, ids, s));
  }

  /** When the harness parks at its p-th operation and returns after q more, the bridge is done after
  boundedly many rounds: the host has been given everything up to the gated call and nothing after it, and
  its run is parked at this call, unless the harness failed on its own. */
  lemma {:induction false} ParkFinishes(har: Harness, sink: HostSink, ids: Ids, p: nat, ref: ApprovalRef, q: nat)
    requires ParksFirst(har, sink, ids, p, ref) && ReturnsAfter(har, Direct(har, sink, p).seen, q)
    ensures var s, before := After(har, sink, ids, Rounds(4 * p + q + 11)), Direct(har, sink, p).seen;
      && s.ops == CrossAll(Direct(har, sink, p + 1).ops)
      && s.server.seen == before + Failures(q + 1)
      && s.client == Done(if Acknowledges(ids, har(s.server.seen).finish) then RunParked(ref) else RunFailed)
  {
    hide After, InStep, FrameOf, Direct, CrossAll, Work, Emitted, Rounds, ParksFirst, ReturnsAfter;
    var run := Rounds(4 * p + q + 11);
    var s, before := After(har, sink, ids, run), Direct(har, sink, p).seen;
    ParkRounds(har, sink, ids, 4 * p + q + 11, p, ref, q);
    RunParks(har, sink, ids, run, p, ref);
    assert |before| == p by { ParksAfter(har, sink, ids, p, ref); }
    if BeforePark(har, sink, s, p) {
      BeforeWork(har, sink, s, p);
      NotBoth(har, sink, ids, s, p, ref);
      assert false;
    }
    UnwoundBound(har, ids, s, ref, before, q);
  }

  // ---- content that crosses unchanged ----

  predicate PlainOp(op: Op)
  {
    match op
    case Model(req) => forall i | 0 <= i < |req.messages| :: Codec.PlainParts(req.messages[i].parts)
    case Call(call) => Codec.PlainCall(call)
    case Report(r) => Codec.PlainResult(r)
    case _ => true
  }

  predicate PlainAnswer(a: Answer)
  {
    match a
    case Completion(resp) => Codec.PlainParts(resp.message.parts)
    case Returned(r) => Codec.PlainResult(r.(approval := None))
    case _ => true
  }

  /** The harness beside the sink, with no wire between them. */
  function Alone(har: Harness, sink: HostSink, n: nat): (d: Local)
  {
    if n == 0 then Local([], [])
    else
      var d := Alone(har, sink, n - 1);
      match har(d.seen)
      case Return(_) => d
      case Emit(op) => Local(d.ops + [op], d.seen + [See(sink(d.ops + [op]))])
  }

  lemma {:induction false} OpUnchanged(op: Op)
    ensures CrossOp(op) == op <==> PlainOp(op)
  {
    match op {
      case Model(req) =>
        var back := DecodeAll(EncodeAll(req.messages));
        forall i | 0 <= i < |req.messages| ensures back[i] == req.messages[i] <==> Codec.PlainParts(req.messages[i].parts) {
          Codec.PartsFixed(req.messages[i].parts);
        }
        if PlainOp(op) { assert back == req.messages; }
      case Call(call) => Codec.ContentFixed(call.args);
      case Report(r) => Codec.ResultFixed(r);
      case _ =>
    }
  }

  lemma {:induction false} AnswerUnchanged(a: Answer)
    ensures CrossAnswer(a) == a <==> PlainAnswer(a)
  {
    match a {
      case Completion(resp) => Codec.PartsFixed(resp.message.parts);
      case Returned(r) => Codec.ResultFixed(r.(approval := None));
      case _ =>
    }
  }

  /** Everything that crosses in these operations and their answers is plain. */
  ghost predicate PlainRun(sink: HostSink, ops: seq<Op>)
  {
    forall i | 0 <= i < |ops| :: PlainOp(ops[i]) && PlainAnswer(sink(ops[..i + 1]))
  }

  lemma {:induction false} PlainInit(sink: HostSink, ops: seq<Op>, op: Op)
    requires PlainRun(sink, ops + [op])
    ensures PlainRun(sink, ops) && PlainOp(op) && PlainAnswer(sink(ops + [op]))
  {
    hide PlainOp, PlainAnswer;
    var all := ops + [op];
    forall i | 0 <= i < |ops| ensures PlainOp(ops[i]) && PlainAnswer(sink(ops[..i + 1])) {
      assert all[i] == ops[i] && all[..i + 1] == ops[..i + 1];
    }
    assert all[..|ops| + 1] == all && all[|ops|] == op;
  }

  /** When everything that crosses is plain, the bridge is the harness beside its sink. */
  lemma {:induction false} PlainRunIsAlone(har: Harness, sink: HostSink, n: nat)
    requires PlainRun(sink, Alone(har, sink, n).ops)
    ensures Direct(har, sink, n) == Alone(har, sink, n) && CrossAll(Direct(har, sink, n).ops) == Direct(har, sink, n).ops
  {
    if n > 0 {
      var d := Alone(har, sink, n - 1);
      if har(d.seen).Return? {
        PlainRunIsAlone(har, sink, n - 1);
      } else {
        var op := har(d.seen).op;
        PlainInit(sink, d.ops, op);
        PlainRunIsAlone(har, sink, n - 1);
        OpUnchanged(op);
        AnswerUnchanged(sink(d.ops + [op]));
        hide PlainOp, PlainAnswer, CrossOp, CrossAnswer, PlainRun;
        assert CrossAll(d.ops + [op]) == CrossAll(d.ops) + [CrossOp(op)];
      }
    }
  }

  // ---- the controller's view ----

  function CrossSeen(seen: Seen): Seen
  {
    match seen
    case SawCompletion(resp) => See(CrossAnswer(Completion(resp)))
    case SawResult(r) => See(CrossAnswer(Returned(r)))
    case _ => seen
  }

  function CrossSeenAll(seen: seq<Seen>): (out: seq<Seen>)
    ensures |out| == |seen|
  {
    seq(|seen|, i requires 0 <= i < |seen| => CrossSeen(seen[i]))
  }

  /** The remote harness as the controller meets it: it sees what crossed, and its operations cross. */
  function Remote(har: Harness): Harness
  {
    seen =>
      match har(CrossSeenAll(seen))
      case Emit(op) => Emit(CrossOp(op))
      case Return(f) => Return(f)
  }

  /** A harness behind the bridge is, to the host's sink, one harness in process: the operations it is
  given and the answers it gives are those of the remote view run beside it. So what holds of every
  harness on a sink holds of remote ones. */
  lemma {:induction false} RemoteIsAHarness(har: Harness, sink: HostSink, n: nat)
    ensures Alone(Remote(har), sink, n).ops == CrossAll(Direct(har, sink, n).ops)
    ensures Direct(har, sink, n).seen == CrossSeenAll(Alone(Remote(har), sink, n).seen)
  {
    if n > 0 {
      RemoteIsAHarness(har, sink, n - 1);
      var d := Direct(har, sink, n - 1);
      var e := Alone(Remote(har), sink, n - 1);
      assert Remote(har)(e.seen) == (match har(d.seen) case Emit(op) => Emit(CrossOp(op)) case Return(f) => Return(f));
      if har(d.seen).Emit? {
        var op := har(d.seen).op;
        assert CrossAll(d.ops + [op]) == e.ops + [CrossOp(op)];
        hide CrossOp, CrossAll;
        var a := sink(e.ops + [CrossOp(op)]);
        assert CrossSeenAll(e.seen + [See(a)]) == CrossSeenAll(e.seen) + [CrossSeen(See(a))];
      }
    }
  }
}
