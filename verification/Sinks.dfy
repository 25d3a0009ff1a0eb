/** The host-mediated sinks a harness emits its effects through (controller/effects.go,
controller/resume.go, controller/approval_effects.go, controller/tool_identity.go).

The live sink invokes and records; the replay sink serves from the journal; the resume sink serves
a recorded prefix and then hands over to a live sink. What each operation does is given here as a
function of the sink's state, the operation and its environment: what the provider and the executor
answer, and how many appends the log still admits before another writer takes the fence. */
module Sinks {
  import opened Api
  import opened Approval
  import Codec

  datatype ModelRequest = ModelRequest(model: string, messages: seq<Message>, params: map<string, string>)

  datatype ModelResponse = ModelResponse(message: Message, usage: Usage)

  /** What the harness asks its sink for next. */
  datatype Op =
    | Model(request: ModelRequest)
    | Output(delta: string)
    | Call(call: ToolCall)
    | Report(result: ToolResult)
    | Account(usage: Usage)

  datatype Fault =
    | SinkClosed
    | Parked(ref: ApprovalRef)
    | Superseded
    | ProviderFailed
    | ExecutorFailed
    | NoExecutor
    | MissingKey
    | MissingSession
    | InvalidCall
    | Unmediated
    | ApprovalUnavailable
    | DescribeFailed
    | ReceiptReport
    | NoCompletion
    | NoResult
    | Divergence

  datatype Answer =
    | Completion(response: ModelResponse)
    | Returned(result: ToolResult)
    | Accepted
    | Failed(fault: Fault)

  /** Whether the connected harness can be asked to park. */
  datatype Capability = Stateless | Stateful | Undescribed

  /** What stays fixed over one invocation. */
  datatype Host = Host(
    hashInput: ModelRequest -> string,
    executionId: string,
    session: string,
    hasTool: bool,
    capability: Capability)

  datatype ToolReply = ToolReply(result: ToolResult, error: Option<string>)

  /** What one operation meets outside the host. */
  datatype Env = Env(room: nat, callId: string, model: Option<ModelResponse>, tool: ToolReply)

  datatype Guard = Guard(closed: bool, stop: Option<Fault>)

  function GuardFault(g: Guard): Option<Fault>
  {
    if g.stop.Some? then g.stop else if g.closed then Some(SinkClosed) else None
  }

  /** One run of the tool executor: the call, and how many records were durable when it began. */
  datatype Invocation = Invocation(call: ToolCall, at: nat)

  /** The live sink and what it acts on. */
  datatype Live = Live(
    journal: seq<Entry>,
    fenced: bool,
    guard: Guard,
    calls: map<string, bool>,
    invocations: seq<Invocation>,
    modelRuns: nat)

  // ---- shared checks ----

  /** The rejection of a call whose mediation the host does not execute ungated. */
  function MediationFault(m: Mediation): Option<Fault>
  {
    match m
    case ControllerMediated => None
    case RequiresApproval => Some(ApprovalUnavailable)
    case _ => Some(Unmediated)
  }

  /** A reply or a report that carries what only the host may write. */
  predicate ClaimsReceipt(r: ToolResult)
  {
    r.approval.Some? || r.requestSeq != 0 || r.decisionSeq != 0 ||
    (r.code != CODE_UNSPECIFIED && r.code != CODE_EXECUTOR_ERROR)
  }

  /** Arguments as the journal would give them back. */
  function WireArgs(c: ToolCall): Content
  {
    Codec.DecodeCall(Codec.EncodeCall(c)).args
  }

  /** The emitted call is the recorded one, and the record is one the host could have written. */
  predicate MatchesCall(emitted: ToolCall, recorded: ToolCall)
  {
    && (recorded.mediation.ControllerMediated? || (recorded.mediation.RequiresApproval? && recorded.id != ""))
    && recorded.key != ""
    && emitted.id == recorded.id
    && emitted.tool == recorded.tool
    && emitted.mediation == recorded.mediation
    && emitted.key == recorded.key
    && WireArgs(emitted) == WireArgs(recorded)
  }

  /** The usage a served completion carries: the USAGE recorded directly after it, if any. */
  function UsageAt(stream: seq<Event>, i: nat): Usage
  {
    if i < |stream| && stream[i].kind.KUsage? && stream[i].body.BUsage? then stream[i].body.usage else NO_USAGE
  }

  predicate NextIs(stream: seq<Event>, i: nat, kind: Kind)
  {
    i < |stream| && stream[i].kind == kind
  }

  predicate NextIsCall(stream: seq<Event>, i: nat)
  {
    NextIs(stream, i, KToolCall) && stream[i].body.BToolCall?
  }

  // ---- live ----

  /** Appends one event of this execution, unless the fence is or becomes stale. */
  function Put(s: Live, id: string, kind: Kind, body: Body, room: nat): (r: Live)
    ensures r.fenced || r.journal == s.journal + [Entry(Head(s.journal) + 1, Event(id, kind, body, NO_IDENTITY))]
  {
    if s.fenced || room == 0 then s.(fenced := true)
    else s.(journal := s.journal + [Entry(Head(s.journal) + 1, Event(id, kind, body, NO_IDENTITY))])
  }

  function LiveModel(h: Host, s: Live, req: ModelRequest, env: Env): (Live, Answer)
  {
    var called := Put(s, h.executionId, KModelCall, BModelCall(ModelCall(req.model, h.hashInput(req), env.callId)), env.room);
    if called.fenced then (called, Failed(Superseded))
    else CompleteModel(h, called, env.(room := env.room - 1))
  }

  /** Invokes the model for a call that is already recorded and records what it answers. */
  function CompleteModel(h: Host, s: Live, env: Env): (Live, Answer)
  {
    var ran := s.(modelRuns := s.modelRuns + 1);
    match env.model
    case None => (ran, Failed(ProviderFailed))
    case Some(resp) =>
      var done := Put(ran, h.executionId, KOutput, BMessage(resp.message), env.room);
      (done, if done.fenced then Failed(Superseded) else Completion(resp))
  }

  function LiveOutput(h: Host, s: Live, delta: string, env: Env): (Live, Answer)
  {
    var done := Put(s, h.executionId, KOutput, BMessage(TextMessage("assistant", delta)), env.room);
    (done, if done.fenced then Failed(Superseded) else Accepted)
  }

  function LiveCall(h: Host, s: Live, call: ToolCall, env: Env): (Live, Answer)
  {
    if call.mediation.RequiresApproval? then ParkCall(h, s, call, env)
    else if Gated(s.calls, call.id) then (s, Failed(InvalidCall))
    else if MediationFault(call.mediation).Some? then (s, Failed(MediationFault(call.mediation).value))
    else if call.key == "" then (s, Failed(MissingKey))
    else
      var called := Put(s, h.executionId, KToolCall, BToolCall(call), env.room);
      if called.fenced then (called, Failed(Superseded))
      else ExecCall(h, called.(calls := called.calls[call.id := false]), call, env.(room := env.room - 1))
  }

  /** Runs a tool whose call is already recorded and records its result. */
  function ExecCall(h: Host, s: Live, call: ToolCall, env: Env): (Live, Answer)
  {
    if !h.hasTool then (s, Failed(NoExecutor))
    else
      var ran := s.(invocations := s.invocations + [Invocation(call, |s.journal|)]);
      if env.tool.error.Some? then (ran, Failed(ExecutorFailed))
      else if ClaimsReceipt(env.tool.result) then (ran, Failed(ReceiptReport))
      else
        var result := env.tool.result.(id := call.id);
        var done := Put(ran, h.executionId, KToolResult, BResult(result), env.room);
        (done, if done.fenced then Failed(Superseded) else Returned(result))
  }

  function Stopped(s: Live, fault: Fault): Live
  {
    s.(guard := s.guard.(stop := Some(fault)))
  }

  function CapabilityFault(h: Host): Option<Fault>
  {
    match h.capability
    case Stateless => None
    case Stateful => Some(ApprovalUnavailable)
    case Undescribed => Some(DescribeFailed)
  }

  /** Records a gated call and its request, then stops the invocation. */
  function ParkCall(h: Host, s: Live, call: ToolCall, env: Env): (Live, Answer)
  {
    if CapabilityFault(h).Some? then (s, Failed(CapabilityFault(h).value))
    else if h.session == "" then (s, Failed(MissingSession))
    else if call.id == "" then (s, Failed(InvalidCall))
    else if call.key == "" then (s, Failed(MissingKey))
    else if call.id in s.calls then (s, Failed(InvalidCall))
    else
      var called := Put(s, h.executionId, KToolCall, BToolCall(call), env.room);
      if called.fenced then (called, Failed(Superseded))
      else
        var open := called.(calls := called.calls[call.id := true]);
        var asked := Put(open, h.executionId, KApprovalRequest, BApproval(ApprovalRequest(call.id, "")), env.room - 1);
        var fault := if asked.fenced then Superseded else Parked(ApprovalRef(h.executionId, call.id, Head(asked.journal)));
        (Stopped(asked, fault), Failed(fault))
  }

  const DENIAL := "Tool execution denied by approval decision."

  /** The outcome of a decided call before the host binds it to its gate. */
  function DecidedOutcome(decision: ApprovalResult, reply: ToolReply): ToolResult
  {
    if !decision.approved then
      ToolResult("", None, "", "", true, DENIAL, TextMessage("tool", DENIAL).parts, CODE_APPROVAL_DENIED, 0, 0, None)
    else
      var r := match reply.error
        case None => reply.result
        case Some(text) => reply.result.(isError := true, error := text);
      r.(code := if r.isError then CODE_EXECUTOR_ERROR else CODE_UNSPECIFIED)
  }

  /** The durable receipt of a decided gate. */
  function ReceiptOf(g: Gate, outcome: ToolResult): ToolResult
    requires g.request.Some? && g.decision.Some?
  {
    outcome.(id := g.call.id, requestSeq := g.request.value.num, decisionSeq := g.decision.value.num, approval := None)
  }

  /** Executes a committed decision and records its receipt; any failure stops the invocation. */
  function CompleteApproval(h: Host, s: Live, g: Gate, env: Env): (Live, Answer)
    requires g.request.Some? && HasDecision(g)
  {
    var decision := g.decision.value.event.body.decision;
    if CapabilityFault(h).Some? then (Stopped(s, CapabilityFault(h).value), Failed(CapabilityFault(h).value))
    else if h.session == "" then (Stopped(s, MissingSession), Failed(MissingSession))
    else if decision.approved && !h.hasTool then (Stopped(s, NoExecutor), Failed(NoExecutor))
    else
      var ran := if decision.approved then s.(invocations := s.invocations + [Invocation(g.call, |s.journal|)]) else s;
      var receipt := ReceiptOf(g, DecidedOutcome(decision, env.tool));
      var done := Put(ran, h.executionId, KToolResult, BResult(receipt), env.room);
      if done.fenced then (Stopped(done, Superseded), Failed(Superseded))
      else (done, Returned(receipt.(approval := Some(decision))))
  }

  function LiveReport(h: Host, s: Live, r: ToolResult, env: Env): (Live, Answer)
  {
    if Gated(s.calls, r.id) then (Stopped(s, ReceiptReport), Failed(ReceiptReport))
    else if ClaimsReceipt(r) then (s, Failed(ReceiptReport))
    else
      var done := Put(s, h.executionId, KToolResult, BResult(r), env.room);
      (done, if done.fenced then Failed(Superseded) else Accepted)
  }

  function LiveAccount(h: Host, s: Live, u: Usage, env: Env): (Live, Answer)
  {
    var done := Put(s, h.executionId, KUsage, BUsage(u), env.room);
    (done, if done.fenced then Failed(Superseded) else Accepted)
  }

  function LiveOp(h: Host, s: Live, op: Op, env: Env): (Live, Answer)
  {
    match op
    case Model(req) => LiveModel(h, s, req, env)
    case Output(delta) => LiveOutput(h, s, delta, env)
    case Call(call) => LiveCall(h, s, call, env)
    case Report(r) => LiveReport(h, s, r, env)
    case Account(u) => LiveAccount(h, s, u, env)
  }

  /** One operation on the live sink. */
  function LiveStep(h: Host, s: Live, op: Op, env: Env): (Live, Answer)
  {
    if GuardFault(s.guard).Some? then (s, Failed(GuardFault(s.guard).value)) else LiveOp(h, s, op, env)
  }

  // ---- serving a recorded stream ----

  /** What a recorded invocation is served from: its effects in order, and its gates by call. */
  datatype Recording = Recording(stream: seq<Event>, gates: map<string, Gate>)

  /** A call that is refused before its record is looked at: a mediated call without a key, unless the
  record at hand is a gated one of the same identity. */
  predicate KeylessRefused(rec: Recording, i: nat, call: ToolCall)
  {
    && call.mediation.ControllerMediated?
    && call.key == ""
    && !(NextIsCall(rec.stream, i) && rec.stream[i].body.toolCall.id == call.id &&
         rec.stream[i].body.toolCall.mediation.RequiresApproval?)
  }

  /** A call refused for its mediation, without consuming the distinct call recorded at hand. */
  predicate FallbackRefused(rec: Recording, i: nat, call: ToolCall)
  {
    && NextIsCall(rec.stream, i)
    && rec.stream[i].body.toolCall.id != call.id
    && !rec.stream[i].body.toolCall.mediation.RequiresApproval?
    && MediationFault(call.mediation).Some?
  }

  /** A gate whose request and decision are both recorded, and recorded next. */
  predicate DecidedNext(rec: Recording, i: nat, id: string)
  {
    && id in rec.gates
    && rec.gates[id].request.Some?
    && HasDecision(rec.gates[id])
    && NextIs(rec.stream, i, KApprovalRequest)
    && NextIs(rec.stream, i + 1, KApprovalResult)
  }

  /** How far a sink gets through the request and the decision of a gate that are not both there: past a
  request that a known decision does not follow. */
  function Consumed(rec: Recording, i: nat, id: string): nat
  {
    if id in rec.gates && rec.gates[id].request.Some? && HasDecision(rec.gates[id]) && NextIs(rec.stream, i, KApprovalRequest) then 1 else 0
  }

  /** The receipt recorded next answers the gate as its decision allows. */
  predicate ReceiptServes(g: Gate, event: Event)
    requires g.request.Some? && HasDecision(g)
  {
    && g.receipt.Some?
    && event.body.BResult?
    && event.body.result.id == g.call.id
    && event.body.result.requestSeq == g.request.value.num
    && event.body.result.decisionSeq == g.decision.value.num
    && ReceiptFits(g.decision.value.event.body.decision, event.body.result)
  }

  /** The replay sink. */
  datatype Served = Served(i: nat, outputs: seq<string>, failure: Option<Fault>, guard: Guard, calls: map<string, bool>)

  function Diverge(s: Served): (Served, Answer)
  {
    (s.(failure := Some(Divergence)), Failed(Divergence))
  }

  function ServeModel(h: Host, rec: Recording, s: Served, req: ModelRequest): (Served, Answer)
  {
    if !NextIs(rec.stream, s.i, KModelCall) then Diverge(s)
    else
      var call := rec.stream[s.i];
      var t := s.(i := s.i + 1);
      if !call.body.BModelCall? || call.body.modelCall.inputHash != h.hashInput(req) then Diverge(t)
      else if !NextIs(rec.stream, t.i, KOutput) then (t, Failed(NoCompletion))
      else
        var out := rec.stream[t.i];
        var u := t.(i := t.i + 1,
                    outputs := if out.body.BMessage? then t.outputs + [Text(out.body.message.parts)] else t.outputs);
        var message := if out.body.BMessage? then out.body.message else Message("", []);
        (u, Completion(ModelResponse(message, UsageAt(rec.stream, u.i))))
  }

  function RecordedText(e: Event): string
  {
    if e.body.BMessage? then Text(e.body.message.parts) else ""
  }

  function ServeOutput(rec: Recording, s: Served, delta: string): (Served, Answer)
  {
    if !NextIs(rec.stream, s.i, KOutput) then Diverge(s)
    else
      var t := s.(i := s.i + 1);
      if delta != RecordedText(rec.stream[s.i]) then Diverge(t)
      else (t.(outputs := t.outputs + [delta]), Accepted)
  }

  function ServeCall(rec: Recording, s: Served, call: ToolCall): (Served, Answer)
  {
    if KeylessRefused(rec, s.i, call) then (s, Failed(MissingKey))
    else if FallbackRefused(rec, s.i, call) then (s, Failed(MediationFault(call.mediation).value))
    else if !NextIs(rec.stream, s.i, KToolCall) then
      if MediationFault(call.mediation).Some? then (s, Failed(MediationFault(call.mediation).value)) else Diverge(s)
    else
      var event := rec.stream[s.i];
      var t := s.(i := s.i + 1);
      if !event.body.BToolCall? || !MatchesCall(call, event.body.toolCall) then Diverge(t)
      else if event.body.toolCall.mediation.RequiresApproval? then
        ServeGate(rec, t.(calls := t.calls[call.id := true]), call.id)
      else ServeResult(rec, t, call.id)
  }

  function ServeResult(rec: Recording, s: Served, id: string): (Served, Answer)
  {
    if !NextIs(rec.stream, s.i, KToolResult) then (s, Failed(NoResult))
    else
      var event := rec.stream[s.i];
      var t := s.(i := s.i + 1);
      if !event.body.BResult? || event.body.result.id != id then Diverge(t) else (t, Returned(event.body.result))
  }

  function ServeGate(rec: Recording, s: Served, id: string): (Served, Answer)
  {
    if !DecidedNext(rec, s.i, id) then Diverge(s.(i := s.i + Consumed(rec, s.i, id)))
    else
      var t := s.(i := s.i + 2);
      if !NextIs(rec.stream, t.i, KToolResult) then (t, Failed(NoResult))
      else
        var event := rec.stream[t.i];
        var u := t.(i := t.i + 1);
        if !ReceiptServes(rec.gates[id], event) then Diverge(u)
        else (u, Returned(event.body.result.(approval := Some(rec.gates[id].decision.value.event.body.decision))))
  }

  predicate NextClaimsReceipt(rec: Recording, i: nat)
  {
    i < |rec.stream| && rec.stream[i].body.BResult? && ClaimsReceipt(rec.stream[i].body.result)
  }

  function ServeReport(rec: Recording, s: Served, r: ToolResult): (Served, Answer)
  {
    if Gated(s.calls, r.id) then Diverge(s)
    else if ClaimsReceipt(r) then (s, Failed(ReceiptReport))
    else if NextClaimsReceipt(rec, s.i) then Diverge(s)
    else if !NextIs(rec.stream, s.i, KToolResult) then Diverge(s)
    else (s.(i := s.i + 1), Accepted)
  }

  function ServeAccount(rec: Recording, s: Served, usage: Usage): (Served, Answer)
  {
    if !NextIs(rec.stream, s.i, KUsage) then Diverge(s)
    else
      var event := rec.stream[s.i];
      var t := s.(i := s.i + 1);
      if !event.body.BUsage? || event.body.usage != usage then Diverge(t) else (t, Accepted)
  }

  function ServeOp(h: Host, rec: Recording, s: Served, op: Op): (Served, Answer)
  {
    match op
    case Model(req) => ServeModel(h, rec, s, req)
    case Output(delta) => ServeOutput(rec, s, delta)
    case Call(call) => ServeCall(rec, s, call)
    case Report(r) => ServeReport(rec, s, r)
    case Account(u) => ServeAccount(rec, s, u)
  }

  /** One operation on the replay sink. */
  function ServeStep(h: Host, rec: Recording, s: Served, op: Op): (Served, Answer)
  {
    if GuardFault(s.guard).Some? then (s, Failed(GuardFault(s.guard).value))
    else if s.failure.Some? then (s, Failed(s.failure.value))
    else ServeOp(h, rec, s, op)
  }

  // ---- resuming ----

  /** The resume sink: how far the recorded prefix is served, and the live sink behind it. */
  datatype Resuming = Resuming(live: Live, i: nat, failure: Option<Fault>)

  function Reject(s: Resuming): (Resuming, Answer)
  {
    (s.(failure := Some(Divergence)), Failed(Divergence))
  }

  function OnLive(s: Resuming, r: (Live, Answer)): (Resuming, Answer)
  {
    (s.(live := r.0), r.1)
  }

  function ResumeModel(h: Host, rec: Recording, s: Resuming, req: ModelRequest, env: Env): (Resuming, Answer)
  {
    if s.i >= |rec.stream| then OnLive(s, LiveModel(h, s.live, req, env))
    else if !NextIs(rec.stream, s.i, KModelCall) then Reject(s)
    else
      var call := rec.stream[s.i];
      var t := s.(i := s.i + 1);
      if !call.body.BModelCall? || call.body.modelCall.inputHash != h.hashInput(req) then Reject(t)
      else if !NextIs(rec.stream, t.i, KOutput) then
        if t.i != |rec.stream| then (t, Failed(NoCompletion))
        else OnLive(t, CompleteModel(h, t.live, env))
      else
        var out := rec.stream[t.i];
        var u := t.(i := t.i + 1);
        var message := if out.body.BMessage? then out.body.message else Message("", []);
        (u, Completion(ModelResponse(message, UsageAt(rec.stream, u.i))))
  }

  function ResumeOutput(h: Host, rec: Recording, s: Resuming, delta: string, env: Env): (Resuming, Answer)
  {
    if s.i >= |rec.stream| then OnLive(s, LiveOutput(h, s.live, delta, env))
    else if !NextIs(rec.stream, s.i, KOutput) then Reject(s)
    else
      var t := s.(i := s.i + 1);
      if delta != RecordedText(rec.stream[s.i]) then Reject(t) else (t, Accepted)
  }

  function ResumeCall(h: Host, rec: Recording, s: Resuming, call: ToolCall, env: Env): (Resuming, Answer)
  {
    if KeylessRefused(rec, s.i, call) then (s, Failed(MissingKey))
    else if s.i >= |rec.stream| then OnLive(s, LiveCall(h, s.live, call, env))
    else if FallbackRefused(rec, s.i, call) then (s, Failed(MediationFault(call.mediation).value))
    else if !NextIs(rec.stream, s.i, KToolCall) then
      if MediationFault(call.mediation).Some? then (s, Failed(MediationFault(call.mediation).value)) else Reject(s)
    else
      var event := rec.stream[s.i];
      var t := s.(i := s.i + 1);
      if !event.body.BToolCall? || !MatchesCall(call, event.body.toolCall) then Reject(t)
      else
        var recorded := event.body.toolCall;
        var gated := recorded.mediation.RequiresApproval?;
        var u := t.(live := t.live.(calls := t.live.calls[recorded.id := gated]));
        if gated then ResumeGate(h, rec, u, recorded.id, env)
        else ResumeResult(h, rec, u, recorded, env)
  }

  function ResumeResult(h: Host, rec: Recording, s: Resuming, recorded: ToolCall, env: Env): (Resuming, Answer)
  {
    if NextIs(rec.stream, s.i, KToolResult) then
      var event := rec.stream[s.i];
      var t := s.(i := s.i + 1);
      if !event.body.BResult? || event.body.result.id != recorded.id then Reject(t) else (t, Returned(event.body.result))
    else if s.i != |rec.stream| then (s, Failed(NoResult))
    else OnLive(s, ExecCall(h, s.live, recorded, env))
  }

  function ResumeGate(h: Host, rec: Recording, s: Resuming, id: string, env: Env): (Resuming, Answer)
  {
    if !DecidedNext(rec, s.i, id) then Reject(s.(i := s.i + Consumed(rec, s.i, id)))
    else
      var g := rec.gates[id];
      var t := s.(i := s.i + 2);
      if g.receipt.None? then OnLive(t, CompleteApproval(h, t.live, g, env))
      else if !NextIs(rec.stream, t.i, KToolResult) then Reject(t)
      else
        var event := rec.stream[t.i];
        var u := t.(i := t.i + 1);
        if !ReceiptServes(g, event) then Reject(u)
        else (u, Returned(event.body.result.(approval := Some(g.decision.value.event.body.decision))))
  }

  function ResumeReport(h: Host, rec: Recording, s: Resuming, r: ToolResult, env: Env): (Resuming, Answer)
  {
    if Gated(s.live.calls, r.id) then
      if s.i < |rec.stream| then Reject(s) else (s.(live := Stopped(s.live, ReceiptReport)), Failed(ReceiptReport))
    else if ClaimsReceipt(r) then (s, Failed(ReceiptReport))
    else if s.i >= |rec.stream| then OnLive(s, LiveReport(h, s.live, r, env))
    else if NextClaimsReceipt(rec, s.i) then Reject(s)
    else if !NextIs(rec.stream, s.i, KToolResult) then Reject(s)
    else (s.(i := s.i + 1), Accepted)
  }

  function ResumeAccount(h: Host, rec: Recording, s: Resuming, usage: Usage, env: Env): (Resuming, Answer)
  {
    if s.i >= |rec.stream| then OnLive(s, LiveAccount(h, s.live, usage, env))
    else if !NextIs(rec.stream, s.i, KUsage) then Reject(s)
    else
      var event := rec.stream[s.i];
      var t := s.(i := s.i + 1);
      if !event.body.BUsage? || event.body.usage != usage then Reject(t) else (t, Accepted)
  }

  function ResumeOp(h: Host, rec: Recording, s: Resuming, op: Op, env: Env): (Resuming, Answer)
  {
    match op
    case Model(req) => ResumeModel(h, rec, s, req, env)
    case Output(delta) => ResumeOutput(h, rec, s, delta, env)
    case Call(call) => ResumeCall(h, rec, s, call, env)
    case Report(r) => ResumeReport(h, rec, s, r, env)
    case Account(u) => ResumeAccount(h, rec, s, u, env)
  }

  /** One operation on the resume sink. */
  function ResumeStep(h: Host, rec: Recording, s: Resuming, op: Op, env: Env): (Resuming, Answer)
  {
    if GuardFault(s.live.guard).Some? then (s, Failed(GuardFault(s.live.guard).value))
    else if s.failure.Some? then (s, Failed(s.failure.value))
    else ResumeOp(h, rec, s, op, env)
  }
}
