/** The sinks as the objects the host holds (liveSink and replaySink in controller/effects.go, resumeSink
in controller/resume.go, and their approval parts in controller/approval_effects.go).

Each operation changes the sink's fields step by step; its contract says that the sink and the answer
are what the step function of module Sinks gives. */
module SinkObjects {
  import opened Api
  import opened Approval
  import opened Sinks
  import opened Matching
  import Outside

  class LiveSink {
    const host: Host
    var journal: seq<Entry>
    var fenced: bool
    var guard: Guard
    var calls: map<string, bool>
    var invocations: seq<Invocation>
    var modelRuns: nat

    function State(): Live
      reads this
    {
      Live(journal, fenced, guard, calls, invocations, modelRuns)
    }

    constructor (host: Host, journal: seq<Entry>)
      ensures this.host == host && State() == Live(journal, false, Guard(false, None), map[], [], 0)
    {
      this.host, this.journal, fenced, guard := host, journal, false, Guard(false, None);
      calls, invocations, modelRuns := map[], [], 0;
    }

    /** Appends one event of the execution at the head, unless the fence is or becomes stale. */
    method Append(kind: Kind, body: Body, room: nat) returns (ok: bool)
      modifies this
      ensures State() == Put(old(State()), host.executionId, kind, body, room) && ok == !fenced
    {
      if room == 0 {
        fenced := true;
      }
      if !fenced {
        journal := journal + [Entry(Head(journal) + 1, Event(host.executionId, kind, body, NO_IDENTITY))];
      }
      ok := !fenced;
    }

    /** Seals the sink: every later operation fails with the fault. */
    method Stop(fault: Fault)
      modifies this
      ensures State() == Stopped(old(State()), fault)
    {
      guard := guard.(stop := Some(fault));
    }

    method CompleteModel(env: Env) returns (a: Answer)
      modifies this
      ensures (State(), a) == Sinks.CompleteModel(host, old(State()), env)
    {
      modelRuns := modelRuns + 1;
      match env.model {
        case None =>
          return Failed(ProviderFailed);
        case Some(resp) =>
          var ok := Append(KOutput, BMessage(resp.message), env.room);
          if !ok {
            return Failed(Superseded);
          }
          return Completion(resp);
      }
    }

    method Model(req: ModelRequest, env: Env) returns (a: Answer)
      modifies this
      ensures (State(), a) == LiveModel(host, old(State()), req, env)
      ensures Outside.ModelDone(host, old(State()), State(), req, env, a)
    {
      hide Outside.ModelDone;
      Outside.ModelLive(host, State(), req, env);
      var ok := Append(KModelCall, BModelCall(ModelCall(req.model, host.hashInput(req), env.callId)), env.room);
      if !ok {
        return Failed(Superseded);
      }
      a := CompleteModel(env.(room := env.room - 1));
    }

    method Output(delta: string, env: Env) returns (a: Answer)
      modifies this
      ensures (State(), a) == LiveOutput(host, old(State()), delta, env)
    {
      var ok := Append(KOutput, BMessage(TextMessage("assistant", delta)), env.room);
      a := if ok then Accepted else Failed(Superseded);
    }

    /** Runs the executor for a call whose record is durable. */
    method ExecTool(call: ToolCall, env: Env) returns (a: Answer)
      modifies this
      ensures (State(), a) == ExecCall(host, old(State()), call, env)
      ensures Outside.Executed(host, old(State()), State(), call, [], env, Outside.Room(old(State()), env), a)
    {
      hide Outside.Executed;
      Outside.Executes(host, State(), call, env);
      if !host.hasTool {
        return Failed(NoExecutor);
      }
      invocations := invocations + [Invocation(call, |journal|)];
      if env.tool.error.Some? {
        return Failed(ExecutorFailed);
      }
      if ClaimsReceipt(env.tool.result) {
        return Failed(ReceiptReport);
      }
      var result := env.tool.result.(id := call.id);
      var ok := Append(KToolResult, BResult(result), env.room);
      a := if ok then Returned(result) else Failed(Superseded);
    }

    /** Records a gated call and its request, and seals the sink. */
    method ParkTool(call: ToolCall, env: Env) returns (a: Answer)
      modifies this
      ensures (State(), a) == ParkCall(host, old(State()), call, env)
    {
      if CapabilityFault(host).Some? {
        return Failed(CapabilityFault(host).value);
      }
      if host.session == "" {
        return Failed(MissingSession);
      }
      if call.id == "" {
        return Failed(InvalidCall);
      }
      if call.key == "" {
        return Failed(MissingKey);
      }
      if call.id in calls {
        return Failed(InvalidCall);
      }
      var ok := Append(KToolCall, BToolCall(call), env.room);
      if !ok {
        return Failed(Superseded);
      }
      calls := calls[call.id := true];
      var asked := Append(KApprovalRequest, BApproval(ApprovalRequest(call.id, "")), env.room - 1);
      var fault := if asked then Parked(ApprovalRef(host.executionId, call.id, Head(journal))) else Superseded;
      Stop(fault);
      return Failed(fault);
    }

    method ToolCall(call: ToolCall, env: Env) returns (a: Answer)
      modifies this
      ensures (State(), a) == LiveCall(host, old(State()), call, env)
    {
      if call.mediation.RequiresApproval? {
        a := ParkTool(call, env);
        return;
      }
      if call.id in calls && calls[call.id] {
        return Failed(InvalidCall);
      }
      if MediationFault(call.mediation).Some? {
        return Failed(MediationFault(call.mediation).value);
      }
      if call.key == "" {
        return Failed(MissingKey);
      }
      var ok := Append(KToolCall, BToolCall(call), env.room);
      if !ok {
        return Failed(Superseded);
      }
      calls := calls[call.id := false];
      a := ExecTool(call, env.(room := env.room - 1));
    }

    /** Carries out a recorded decision and records its receipt; any failure seals the sink. */
    method CompleteApproval(g: Gate, env: Env) returns (a: Answer)
      requires g.request.Some? && HasDecision(g)
      modifies this
      ensures (State(), a) == Sinks.CompleteApproval(host, old(State()), g, env)
      ensures Listening(old(guard), None) ==> Outside.GateCompleted(host, old(State()), State(), g, env, a)
    {
      hide Outside.GateCompleted;
      if Listening(guard, None) { Outside.GateCompletes(host, State(), g, env); }
      var decision := g.decision.value.event.body.decision;
      var fault := CapabilityFault(host);
      if fault.None? && host.session == "" {
        fault := Some(MissingSession);
      }
      if fault.None? && decision.approved && !host.hasTool {
        fault := Some(NoExecutor);
      }
      if fault.Some? {
        Stop(fault.value);
        return Failed(fault.value);
      }
      if decision.approved {
        invocations := invocations + [Invocation(g.call, |journal|)];
      }
      var receipt := ReceiptOf(g, DecidedOutcome(decision, env.tool));
      var ok := Append(KToolResult, BResult(receipt), env.room);
      if !ok {
        Stop(Superseded);
        return Failed(Superseded);
      }
      return Returned(receipt.(approval := Some(decision)));
    }

    method Report(r: ToolResult, env: Env) returns (a: Answer)
      modifies this
      ensures (State(), a) == LiveReport(host, old(State()), r, env)
    {
      if r.id in calls && calls[r.id] {
        Stop(ReceiptReport);
        return Failed(ReceiptReport);
      }
      if ClaimsReceipt(r) {
        return Failed(ReceiptReport);
      }
      var ok := Append(KToolResult, BResult(r), env.room);
      a := if ok then Accepted else Failed(Superseded);
    }

    method Usage(u: Usage, env: Env) returns (a: Answer)
      modifies this
      ensures (State(), a) == LiveAccount(host, old(State()), u, env)
    {
      var ok := Append(KUsage, BUsage(u), env.room);
      a := if ok then Accepted else Failed(Superseded);
    }

    /** One operation of a live turn. */
    method Do(op: Op, env: Env) returns (a: Answer)
      modifies this
      ensures (State(), a) == LiveStep(host, old(State()), op, env)
      ensures Listening(old(guard), None) ==> Outside.Done(host, old(State()), State(), op, env, a)
    {
      hide Outside.Done;
      if Listening(guard, None) { Outside.LiveDone(host, State(), op, env); }
      if GuardFault(guard).Some? {
        return Failed(GuardFault(guard).value);
      }
      match op {
        case Model(req) => a := Model(req, env);
        case Output(delta) => a := Output(delta, env);
        case Call(call) => a := ToolCall(call, env);
        case Report(r) => a := Report(r, env);
        case Account(u) => a := Usage(u, env);
      }
    }
  }

  class ReplaySink {
    const host: Host
    const rec: Recording
    var i: nat
    var outputs: seq<string>
    var failure: Option<Fault>
    var guard: Guard
    var calls: map<string, bool>

    function State(): Served
      reads this
    {
      Served(i, outputs, failure, guard, calls)
    }

    constructor (host: Host, rec: Recording)
      ensures this.host == host && this.rec == rec && State() == Served(0, [], None, Guard(false, None), map[])
    {
      this.host, this.rec := host, rec;
      i, outputs, failure, guard, calls := 0, [], None, Guard(false, None), map[];
    }

    /** Consumes the next record if it is of this kind. */
    method Next(kind: Kind) returns (e: Option<Event>)
      modifies this`i
      ensures e == if NextIs(rec.stream, old(i), kind) then Some(rec.stream[old(i)]) else None
      ensures i == old(i) + if e.Some? then 1 else 0
    {
      if i >= |rec.stream| || rec.stream[i].kind != kind {
        return None;
      }
      e := Some(rec.stream[i]);
      i := i + 1;
    }

    method Diverged() returns (a: Answer)
      modifies this`failure
      ensures failure == Some(Divergence) && a == Failed(Divergence)
    {
      failure := Some(Divergence);
      a := Failed(Divergence);
    }

    method Model(req: ModelRequest) returns (a: Answer)
      modifies this
      ensures (State(), a) == ServeModel(host, rec, old(State()), req)
    {
      var call := Next(KModelCall);
      if call.None? || !call.value.body.BModelCall? || call.value.body.modelCall.inputHash != host.hashInput(req) {
        a := Diverged();
        return;
      }
      var out := Next(KOutput);
      if out.None? {
        return Failed(NoCompletion);
      }
      var message := Message("", []);
      if out.value.body.BMessage? {
        message := out.value.body.message;
        outputs := outputs + [Text(message.parts)];
      }
      return Completion(ModelResponse(message, UsageAt(rec.stream, i)));
    }

    method Output(delta: string) returns (a: Answer)
      modifies this
      ensures (State(), a) == ServeOutput(rec, old(State()), delta)
    {
      var out := Next(KOutput);
      if out.None? || delta != RecordedText(out.value) {
        a := Diverged();
        return;
      }
      outputs := outputs + [delta];
      return Accepted;
    }

    method ToolCall(call: ToolCall) returns (a: Answer)
      modifies this
      ensures (State(), a) == ServeCall(rec, old(State()), call)
    {
      hide ServeGate, KeylessRefused, MatchesCall;
      if KeylessRefused(rec, i, call) {
        return Failed(MissingKey);
      }
      if FallbackRefused(rec, i, call) {
        return Failed(MediationFault(call.mediation).value);
      }
      var event := Next(KToolCall);
      if event.None? {
        if MediationFault(call.mediation).Some? {
          return Failed(MediationFault(call.mediation).value);
        }
        a := Diverged();
        return;
      }
      if !event.value.body.BToolCall? || !MatchesCall(call, event.value.body.toolCall) {
        a := Diverged();
        return;
      }
      if event.value.body.toolCall.mediation.RequiresApproval? {
        calls := calls[call.id := true];
        a := Approval(call.id);
        return;
      }
      var result := Next(KToolResult);
      if result.None? {
        return Failed(NoResult);
      }
      if !result.value.body.BResult? || result.value.body.result.id != call.id {
        a := Diverged();
        return;
      }
      return Returned(result.value.body.result);
    }

    /** Serves the rest of a recorded gate. */
    method Approval(id: string) returns (a: Answer)
      modifies this
      ensures (State(), a) == ServeGate(rec, old(State()), id)
    {
      if id !in rec.gates || rec.gates[id].request.None? || !HasDecision(rec.gates[id]) {
        a := Diverged();
        return;
      }
      var request := Next(KApprovalRequest);
      if request.None? {
        a := Diverged();
        return;
      }
      var decision := Next(KApprovalResult);
      if decision.None? {
        a := Diverged();
        return;
      }
      var receipt := Next(KToolResult);
      if receipt.None? {
        return Failed(NoResult);
      }
      if !ReceiptServes(rec.gates[id], receipt.value) {
        a := Diverged();
        return;
      }
      return Returned(receipt.value.body.result.(approval := Some(rec.gates[id].decision.value.event.body.decision)));
    }

    method Report(r: ToolResult) returns (a: Answer)
      modifies this
      ensures (State(), a) == ServeReport(rec, old(State()), r)
    {
      if r.id in calls && calls[r.id] {
        a := Diverged();
        return;
      }
      if ClaimsReceipt(r) {
        return Failed(ReceiptReport);
      }
      if NextClaimsReceipt(rec, i) {
        a := Diverged();
        return;
      }
      var result := Next(KToolResult);
      if result.None? {
        a := Diverged();
        return;
      }
      return Accepted;
    }

    method Usage(u: Usage) returns (a: Answer)
      modifies this
      ensures (State(), a) == ServeAccount(rec, old(State()), u)
    {
      var event := Next(KUsage);
      if event.None? || !event.value.body.BUsage? || event.value.body.usage != u {
        a := Diverged();
        return;
      }
      return Accepted;
    }

    /** One operation of a replayed turn; a divergence is final. */
    method Do(op: Op) returns (a: Answer)
      modifies this
      ensures (State(), a) == ServeStep(host, rec, old(State()), op)
      ensures op.Call? && Listening(old(guard), old(failure)) ==> CallTreated(rec.stream, old(i), op.call, i, failure, a)
    {
      hide CallTreated, ServeModel, ServeOutput, ServeCall, ServeReport, ServeAccount;
      if op.Call? && Listening(guard, failure) { ReplayedCall(host, rec, State(), op.call); }
      if GuardFault(guard).Some? {
        return Failed(GuardFault(guard).value);
      }
      if failure.Some? {
        return Failed(failure.value);
      }
      match op {
        case Model(req) => a := Model(req);
        case Output(delta) => a := Output(delta);
        case Call(call) => a := ToolCall(call);
        case Report(r) => a := Report(r);
        case Account(u) => a := Usage(u);
      }
    }
  }

  class ResumeSink {
    const live: LiveSink
    const rec: Recording
    var i: nat
    var failure: Option<Fault>

    function State(): Resuming
      reads this, live
    {
      Resuming(live.State(), i, failure)
    }

    constructor (host: Host, journal: seq<Entry>, rec: Recording)
      ensures this.rec == rec && fresh(live) && live.host == host
      ensures State() == Resuming(Live(journal, false, Guard(false, None), map[], [], 0), 0, None)
    {
      live := new LiveSink(host, journal);
      this.rec, i, failure := rec, 0, None;
    }

    method Next(kind: Kind) returns (e: Option<Event>)
      modifies this`i
      ensures e == if NextIs(rec.stream, old(i), kind) then Some(rec.stream[old(i)]) else None
      ensures i == old(i) + if e.Some? then 1 else 0
    {
      if i >= |rec.stream| || rec.stream[i].kind != kind {
        return None;
      }
      e := Some(rec.stream[i]);
      i := i + 1;
    }

    method Diverged() returns (a: Answer)
      modifies this`failure
      ensures failure == Some(Divergence) && a == Failed(Divergence)
    {
      failure := Some(Divergence);
      a := Failed(Divergence);
    }

    method Model(req: ModelRequest, env: Env) returns (a: Answer)
      modifies this, live
      ensures (State(), a) == ResumeModel(live.host, rec, old(State()), req, env)
    {
      if i >= |rec.stream| {
        a := live.Model(req, env);
        return;
      }
      var call := Next(KModelCall);
      if call.None? || !call.value.body.BModelCall? || call.value.body.modelCall.inputHash != live.host.hashInput(req) {
        a := Diverged();
        return;
      }
      var out := Next(KOutput);
      if out.None? {
        if i != |rec.stream| {
          return Failed(NoCompletion);
        }
        a := live.CompleteModel(env);
        return;
      }
      var message := if out.value.body.BMessage? then out.value.body.message else Message("", []);
      return Completion(ModelResponse(message, UsageAt(rec.stream, i)));
    }

    method Output(delta: string, env: Env) returns (a: Answer)
      modifies this, live
      ensures (State(), a) == ResumeOutput(live.host, rec, old(State()), delta, env)
    {
      if i >= |rec.stream| {
        a := live.Output(delta, env);
        return;
      }
      var out := Next(KOutput);
      if out.None? || delta != RecordedText(out.value) {
        a := Diverged();
        return;
      }
      return Accepted;
    }

    method ToolCall(call: ToolCall, env: Env) returns (a: Answer)
      modifies this, live
      ensures (State(), a) == ResumeCall(live.host, rec, old(State()), call, env)
    {
      hide LiveCall, ExecCall, Sinks.CompleteApproval;
      if KeylessRefused(rec, i, call) {
        return Failed(MissingKey);
      }
      if i >= |rec.stream| {
        a := live.ToolCall(call, env);
        return;
      }
      if FallbackRefused(rec, i, call) {
        return Failed(MediationFault(call.mediation).value);
      }
      var event := Next(KToolCall);
      if event.None? {
        if MediationFault(call.mediation).Some? {
          return Failed(MediationFault(call.mediation).value);
        }
        a := Diverged();
        return;
      }
      if !event.value.body.BToolCall? || !MatchesCall(call, event.value.body.toolCall) {
        a := Diverged();
        return;
      }
      var recorded := event.value.body.toolCall;
      live.calls := live.calls[recorded.id := recorded.mediation.RequiresApproval?];
      if recorded.mediation.RequiresApproval? {
        a := Approval(recorded.id, env);
      } else {
        a := Result(recorded, env);
      }
    }

    /** Serves the result of a recorded call, or runs the call when its record is the last one. */
    method Result(recorded: ToolCall, env: Env) returns (a: Answer)
      modifies this, live
      ensures (State(), a) == ResumeResult(live.host, rec, old(State()), recorded, env)
    {
      var result := Next(KToolResult);
      if result.Some? {
        if !result.value.body.BResult? || result.value.body.result.id != recorded.id {
          a := Diverged();
          return;
        }
        return Returned(result.value.body.result);
      }
      if i != |rec.stream| {
        return Failed(NoResult);
      }
      a := live.ExecTool(recorded, env);
    }

    /** Serves the rest of a recorded gate, or carries out its decision when the receipt is missing. */
    method Approval(id: string, env: Env) returns (a: Answer)
      modifies this, live
      ensures (State(), a) == ResumeGate(live.host, rec, old(State()), id, env)
    {
      if id !in rec.gates || rec.gates[id].request.None? || !HasDecision(rec.gates[id]) {
        a := Diverged();
        return;
      }
      var request := Next(KApprovalRequest);
      if request.None? {
        a := Diverged();
        return;
      }
      var decision := Next(KApprovalResult);
      if decision.None? {
        a := Diverged();
        return;
      }
      var g := rec.gates[id];
      if g.receipt.None? {
        a := live.CompleteApproval(g, env);
        return;
      }
      var receipt := Next(KToolResult);
      if receipt.None? || !ReceiptServes(g, receipt.value) {
        a := Diverged();
        return;
      }
      return Returned(receipt.value.body.result.(approval := Some(g.decision.value.event.body.decision)));
    }

    method Report(r: ToolResult, env: Env) returns (a: Answer)
      modifies this, live
      ensures (State(), a) == ResumeReport(live.host, rec, old(State()), r, env)
    {
      if r.id in live.calls && live.calls[r.id] {
        if i < |rec.stream| {
          a := Diverged();
        } else {
          live.Stop(ReceiptReport);
          a := Failed(ReceiptReport);
        }
        return;
      }
      if ClaimsReceipt(r) {
        return Failed(ReceiptReport);
      }
      if i >= |rec.stream| {
        a := live.Report(r, env);
        return;
      }
      if NextClaimsReceipt(rec, i) {
        a := Diverged();
        return;
      }
      var result := Next(KToolResult);
      if result.None? {
        a := Diverged();
        return;
      }
      return Accepted;
    }

    method Usage(u: Usage, env: Env) returns (a: Answer)
      modifies this, live
      ensures (State(), a) == ResumeAccount(live.host, rec, old(State()), u, env)
    {
      if i >= |rec.stream| {
        a := live.Usage(u, env);
        return;
      }
      var event := Next(KUsage);
      if event.None? || !event.value.body.BUsage? || event.value.body.usage != u {
        a := Diverged();
        return;
      }
      return Accepted;
    }

    /** One operation of a recovered turn. */
    method Do(op: Op, env: Env) returns (a: Answer)
      modifies this, live
      ensures (State(), a) == ResumeStep(live.host, rec, old(State()), op, env)
      ensures op.Call? && old(i) < |rec.stream| && Listening(old(live.guard), old(failure)) ==>
        CallTreated(rec.stream, old(i), op.call, i, failure, a)
    {
      if op.Call? && i < |rec.stream| && Listening(live.guard, failure) { ResumedCall(live.host, rec, State(), op.call, env); }
      hide CallTreated, ResumeModel, ResumeOutput, ResumeCall, ResumeReport, ResumeAccount;
      if GuardFault(live.guard).Some? {
        return Failed(GuardFault(live.guard).value);
      }
      if failure.Some? {
        return Failed(failure.value);
      }
      match op {
        case Model(req) => a := Model(req, env);
        case Output(delta) => a := Output(delta, env);
        case Call(call) => a := ToolCall(call, env);
        case Report(r) => a := Report(r, env);
        case Account(u) => a := Usage(u, env);
      }
    }
  }
}
