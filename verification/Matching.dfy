/** What a served operation requires of the records it stands at (controller/tool_identity.go,
controller/effects.go, controller/resume.go).

Said of the steps of the replay and resume sinks in terms of the records themselves: which operation is
served by which records and with which answer, which is refused without consuming any, and that everything
else diverges. */
module Matching {
  import opened Api
  import opened Approval
  import opened Sinks
  import Alike
  import Codec

  // ---- calls ----

  /** The same request: identity, tool, mediation and key are equal, the arguments are the same value, and the
  record is one the host could have executed. */
  predicate SameRequest(emitted: ToolCall, recorded: ToolCall)
  {
    && emitted.id == recorded.id && emitted.tool == recorded.tool
    && emitted.mediation == recorded.mediation && emitted.key == recorded.key
    && Alike.LikeContent(emitted.args, recorded.args)
    && recorded.key != ""
    && (recorded.mediation == ControllerMediated || (recorded.mediation == RequiresApproval && recorded.id != ""))
  }

  /** Arguments are compared as they come back from the wire, which compares them as values. */
  lemma {:induction false} MatchIsSameRequest(emitted: ToolCall, recorded: ToolCall)
    ensures MatchesCall(emitted, recorded) <==> SameRequest(emitted, recorded)
  {
    var a, b := Codec.ToStruct(emitted.args), Codec.ToStruct(recorded.args);
    Codec.StructRoundTrip(a);
    Codec.StructRoundTrip(b);
    Alike.OneContent(emitted.args, recorded.args);
    hide Codec.ToStruct, Codec.FromStruct, Alike.LikeContent;
    assert WireArgs(emitted) == Codec.FromStruct(a) && WireArgs(recorded) == Codec.FromStruct(b);
  }

  /** The receipt rules of the API, on the fields of a result. */
  predicate Claims(r: ToolResult)
  {
    r.approval.Some? || r.requestSeq != 0 || r.decisionSeq != 0 || !(r.code == CODE_UNSPECIFIED || r.code == CODE_EXECUTOR_ERROR)
  }

  /** The status of a receipt is one its decision allows. */
  predicate StatusFits(approved: bool, r: ToolResult)
  {
    if !approved then r.isError && r.code == CODE_APPROVAL_DENIED
    else r.code == if r.isError then CODE_EXECUTOR_ERROR else CODE_UNSPECIFIED
  }

  predicate KindAt(stream: seq<Event>, i: nat, kind: Kind)
  {
    i < |stream| && stream[i].kind == kind
  }

  /** The fault of a call that the host does not execute at once. */
  function UnexecutedFault(m: Mediation): Fault
  {
    if m == RequiresApproval then ApprovalUnavailable else Unmediated
  }

  /** What a sink that stands at record i has done with a call, when it is at record i' after it. */
  ghost predicate CallTreated(stream: seq<Event>, i: nat, call: ToolCall, i': nat, failure: Option<Fault>, a: Answer)
  {
    var atCall := KindAt(stream, i, KToolCall);
    var known := atCall && stream[i].body.BToolCall?;
    if call.mediation == ControllerMediated && call.key == "" &&
       !(known && stream[i].body.toolCall.id == call.id && stream[i].body.toolCall.mediation == RequiresApproval)
    then i' == i && failure.None? && a == Failed(MissingKey)
    else if call.mediation != ControllerMediated &&
            (!atCall || (known && stream[i].body.toolCall.id != call.id && stream[i].body.toolCall.mediation != RequiresApproval))
    then i' == i && failure.None? && a == Failed(UnexecutedFault(call.mediation))
    else if !atCall then i' == i && failure == Some(Divergence)
    else if known && SameRequest(call, stream[i].body.toolCall) then i' > i
    else i' == i + 1 && failure == Some(Divergence)
  }

  /** A served ordinary result is the record right after the call's, and answers that call. */
  ghost predicate ResultServed(stream: seq<Event>, i: nat, id: string, i': nat, failure: Option<Fault>, a: Answer)
  {
    if !KindAt(stream, i + 1, KToolResult) then i' == i + 1 && failure.None? && a == Failed(NoResult)
    else if stream[i + 1].body.BResult? && stream[i + 1].body.result.id == id
    then i' == i + 2 && failure.None? && a == Returned(stream[i + 1].body.result)
    else failure == Some(Divergence)
  }

  /** The gate's request and decision are known, and recorded right after the call. */
  ghost predicate DecisionRecorded(rec: Recording, i: nat, id: string)
  {
    && id in rec.gates && rec.gates[id].request.Some? && rec.gates[id].decision.Some?
    && rec.gates[id].decision.value.event.body.BApprovalResult?
    && KindAt(rec.stream, i + 1, KApprovalRequest) && KindAt(rec.stream, i + 2, KApprovalResult)
  }

  /** The receipt recorded right after them answers the call, names both, and has a status the decision allows. */
  ghost predicate ReceiptRecorded(rec: Recording, i: nat, id: string)
    requires DecisionRecorded(rec, i, id)
  {
    var g := rec.gates[id];
    && g.receipt.Some? && KindAt(rec.stream, i + 3, KToolResult) && rec.stream[i + 3].body.BResult?
    && var r := rec.stream[i + 3].body.result;
       && r.id == g.call.id && r.requestSeq == g.request.value.num && r.decisionSeq == g.decision.value.num
       && StatusFits(g.decision.value.event.body.decision.approved, r)
  }

  /** What the harness is given of a recorded gate: the receipt with the decision. */
  function ReceiptAnswer(rec: Recording, i: nat, id: string): ToolResult
    requires DecisionRecorded(rec, i, id) && ReceiptRecorded(rec, i, id)
  {
    rec.stream[i + 3].body.result.(approval := Some(rec.gates[id].decision.value.event.body.decision))
  }

  lemma {:induction false} ClaimsIs(r: ToolResult)
    ensures ClaimsReceipt(r) == Claims(r)
  {
  }

  lemma {:induction false} StatusIs(decision: ApprovalResult, r: ToolResult)
    ensures ReceiptFits(decision, r) == StatusFits(decision.approved, r)
  {
  }

  predicate Listening(guard: Guard, failure: Option<Fault>)
  {
    !guard.closed && guard.stop.None? && failure.None?
  }

  // ---- the replay sink ----

  /** Which calls the replay sink serves, refuses or rejects. */
  lemma {:induction false} ReplayedCall(h: Host, rec: Recording, s: Served, call: ToolCall)
    requires Listening(s.guard, s.failure)
    ensures var (t, a) := ServeStep(h, rec, s, Call(call));
      CallTreated(rec.stream, s.i, call, t.i, t.failure, a)
  {
    hide MatchesCall, SameRequest, ReceiptServes;
    if NextIsCall(rec.stream, s.i) { MatchIsSameRequest(call, rec.stream[s.i].body.toolCall); }
  }

  /** And with which answer. */
  lemma {:induction false} ReplayedCallAnswer(h: Host, rec: Recording, s: Served, call: ToolCall)
    requires Listening(s.guard, s.failure)
    requires KindAt(rec.stream, s.i, KToolCall) && rec.stream[s.i].body.BToolCall? && SameRequest(call, rec.stream[s.i].body.toolCall)
    ensures var (t, a) := ServeStep(h, rec, s, Call(call));
      if call.mediation != RequiresApproval then ResultServed(rec.stream, s.i, call.id, t.i, t.failure, a)
      else if !DecisionRecorded(rec, s.i, call.id) then t.failure == Some(Divergence)
      else if !KindAt(rec.stream, s.i + 3, KToolResult) then t.i == s.i + 3 && t.failure.None? && a == Failed(NoResult)
      else if ReceiptRecorded(rec, s.i, call.id) then t.i == s.i + 4 && t.failure.None? && a == Returned(ReceiptAnswer(rec, s.i, call.id))
      else t.failure == Some(Divergence)
  {
    hide MatchesCall, SameRequest;
    MatchIsSameRequest(call, rec.stream[s.i].body.toolCall);
    assert call.id == rec.stream[s.i].body.toolCall.id && call.mediation == rec.stream[s.i].body.toolCall.mediation && call.key != "" by { RequestFields(call, rec.stream[s.i].body.toolCall); }
    if DecisionRecorded(rec, s.i, call.id) && KindAt(rec.stream, s.i + 3, KToolResult) && rec.stream[s.i + 3].body.BResult? {
      StatusIs(rec.gates[call.id].decision.value.event.body.decision, rec.stream[s.i + 3].body.result);
    }
    hide ReceiptFits, StatusFits;
  }

  lemma {:induction false} RequestFields(call: ToolCall, recorded: ToolCall)
    requires SameRequest(call, recorded)
    ensures call.id == recorded.id && call.mediation == recorded.mediation && call.key == recorded.key != ""
  {
  }

  /** A model call is served iff the record at hand is a MODEL_CALL of the same input; the completion is the
  OUTPUT after it, with the usage recorded after that, if any. */
  lemma {:induction false} ReplayedModel(h: Host, rec: Recording, s: Served, req: ModelRequest)
    requires Listening(s.guard, s.failure)
    ensures var (t, a) := ServeStep(h, rec, s, Model(req));
      var i, stream := s.i, rec.stream;
      if !(KindAt(stream, i, KModelCall) && stream[i].body.BModelCall? && stream[i].body.modelCall.inputHash == h.hashInput(req))
      then t.failure == Some(Divergence)
      else if !KindAt(stream, i + 1, KOutput) then t.i == i + 1 && t.failure.None? && a == Failed(NoCompletion)
      else
        && t.i == i + 2 && t.failure.None? && a.Completion?
        && (stream[i + 1].body.BMessage? ==>
              a.response.message == stream[i + 1].body.message && t.outputs == s.outputs + [Text(stream[i + 1].body.message.parts)])
        && (!stream[i + 1].body.BMessage? ==> a.response.message == Message("", []) && t.outputs == s.outputs)
        && a.response.usage == if KindAt(stream, i + 2, KUsage) && stream[i + 2].body.BUsage? then stream[i + 2].body.usage else NO_USAGE
  {
  }

  /** The record at hand is one that serves an output, a usage report or a reported result: an OUTPUT of the
  same text, the same USAGE, any TOOL_RESULT that is no receipt. */
  predicate ServedBy(op: Op, e: Event)
  {
    match op
    case Output(delta) => e.kind == KOutput && delta == (if e.body.BMessage? then Text(e.body.message.parts) else "")
    case Account(usage) => e.kind == KUsage && e.body == BUsage(usage)
    case Report(r) => e.kind == KToolResult && !(e.body.BResult? && Claims(e.body.result))
    case _ => false
  }

  /** Such an operation is served iff the record at hand serves it; but reporting for a gated call diverges, and
  a report that claims to be a receipt is refused. */
  lemma {:induction false} ReplayedOther(h: Host, rec: Recording, s: Served, op: Op)
    requires Listening(s.guard, s.failure) && !op.Call? && !op.Model?
    ensures var (t, a) := ServeStep(h, rec, s, op);
      if op.Report? && op.result.id in s.calls && s.calls[op.result.id] then t.failure == Some(Divergence)
      else if op.Report? && Claims(op.result) then t == s && a == Failed(ReceiptReport)
      else if s.i < |rec.stream| && ServedBy(op, rec.stream[s.i]) then
        t == s.(i := s.i + 1, outputs := if op.Output? then s.outputs + [op.delta] else s.outputs) && a == Accepted
      else t.failure == Some(Divergence)
  {
    if op.Report? { ClaimsIs(op.result); }
    if s.i < |rec.stream| && rec.stream[s.i].body.BResult? { ClaimsIs(rec.stream[s.i].body.result); }
    hide ClaimsReceipt, Claims;
  }

  // ---- the resume sink, before the end of the record ----

  /** Resume treats a call as replay does while there is a record at hand. */
  lemma {:induction false} ResumedCall(h: Host, rec: Recording, s: Resuming, call: ToolCall, env: Env)
    requires Listening(s.live.guard, s.failure) && s.i < |rec.stream|
    ensures var (t, a) := ResumeStep(h, rec, s, Call(call), env);
      CallTreated(rec.stream, s.i, call, t.i, t.failure, a)
  {
    hide MatchesCall, SameRequest, ReceiptServes, LiveCall, ExecCall, CompleteApproval;
    if NextIsCall(rec.stream, s.i) { MatchIsSameRequest(call, rec.stream[s.i].body.toolCall); }
  }

  /** An ordinary call with its result is served without running anything; a result that is missing in the
  middle of the record is a fault. A gate with its receipt is served; without its decision it diverges. */
  lemma {:induction false} ResumedCallAnswer(h: Host, rec: Recording, s: Resuming, call: ToolCall, env: Env)
    requires Listening(s.live.guard, s.failure)
    requires KindAt(rec.stream, s.i, KToolCall) && rec.stream[s.i].body.BToolCall? && SameRequest(call, rec.stream[s.i].body.toolCall)
    ensures var (t, a) := ResumeStep(h, rec, s, Call(call), env);
      var quiet := t.live.journal == s.live.journal && t.live.invocations == s.live.invocations;
      if call.mediation != RequiresApproval then
        (s.i + 1 < |rec.stream| ==> quiet && ResultServed(rec.stream, s.i, call.id, t.i, t.failure, a))
      else if !DecisionRecorded(rec, s.i, call.id) then quiet && t.failure == Some(Divergence)
      else if rec.gates[call.id].receipt.None? then t.i == s.i + 3 && t.failure.None?
      else if ReceiptRecorded(rec, s.i, call.id) then
        quiet && t.i == s.i + 4 && t.failure.None? && a == Returned(ReceiptAnswer(rec, s.i, call.id))
      else quiet && t.failure == Some(Divergence)
  {
    hide MatchesCall, SameRequest, LiveCall, ExecCall, CompleteApproval;
    MatchIsSameRequest(call, rec.stream[s.i].body.toolCall);
    assert call.id == rec.stream[s.i].body.toolCall.id && call.mediation == rec.stream[s.i].body.toolCall.mediation && call.key != "" by { RequestFields(call, rec.stream[s.i].body.toolCall); }
    if DecisionRecorded(rec, s.i, call.id) && KindAt(rec.stream, s.i + 3, KToolResult) && rec.stream[s.i + 3].body.BResult? {
      StatusIs(rec.gates[call.id].decision.value.event.body.decision, rec.stream[s.i + 3].body.result);
    }
    hide ReceiptFits, StatusFits;
  }

  lemma {:induction false} ResumedModel(h: Host, rec: Recording, s: Resuming, req: ModelRequest, env: Env)
    requires Listening(s.live.guard, s.failure) && s.i < |rec.stream|
    ensures var (t, a) := ResumeStep(h, rec, s, Model(req), env);
      var i, stream := s.i, rec.stream;
      if !(KindAt(stream, i, KModelCall) && stream[i].body.BModelCall? && stream[i].body.modelCall.inputHash == h.hashInput(req))
      then t.failure == Some(Divergence) && t.live == s.live
      else if i + 1 == |stream| then t.i == i + 1 && t.failure.None? && t.live.modelRuns == s.live.modelRuns + 1
      else if !KindAt(stream, i + 1, KOutput) then t.i == i + 1 && t.failure.None? && a == Failed(NoCompletion) && t.live == s.live
      else
        && t.i == i + 2 && t.failure.None? && a.Completion? && t.live == s.live
        && a.response.message == (if stream[i + 1].body.BMessage? then stream[i + 1].body.message else Message("", []))
        && a.response.usage == if KindAt(stream, i + 2, KUsage) && stream[i + 2].body.BUsage? then stream[i + 2].body.usage else NO_USAGE
  {
  }

  lemma {:induction false} ResumedOther(h: Host, rec: Recording, s: Resuming, op: Op, env: Env)
    requires Listening(s.live.guard, s.failure) && s.i < |rec.stream| && !op.Call? && !op.Model?
    ensures var (t, a) := ResumeStep(h, rec, s, op, env);
      t.live == s.live &&
      if op.Report? && op.result.id in s.live.calls && s.live.calls[op.result.id] then t.failure == Some(Divergence)
      else if op.Report? && Claims(op.result) then t == s && a == Failed(ReceiptReport)
      else if ServedBy(op, rec.stream[s.i]) then t == s.(i := s.i + 1) && a == Accepted
      else t.failure == Some(Divergence)
  {
    if op.Report? { ClaimsIs(op.result); }
    if rec.stream[s.i].body.BResult? { ClaimsIs(rec.stream[s.i].body.result); }
    hide ClaimsReceipt, Claims;
  }

  // ---- sinks that no longer listen ----

  /** Why: what stopped the sink, else that it is closed, else what diverged. */
  function SilentFault(guard: Guard, failure: Option<Fault>): Fault
    requires !Listening(guard, failure)
  {
    if guard.stop.Some? then guard.stop.value else if guard.closed then SinkClosed else failure.value
  }

  /** A sink that was stopped or closed, or has diverged, refuses every operation for that reason, records nothing
  and runs nothing, and stays as it is. */
  lemma {:induction false} SilentSinks(h: Host, rec: Recording, live: Live, served: Served, resuming: Resuming, op: Op, env: Env)
    ensures !Listening(live.guard, None) ==> LiveStep(h, live, op, env) == (live, Failed(SilentFault(live.guard, None)))
    ensures !Listening(served.guard, served.failure) ==>
      ServeStep(h, rec, served, op) == (served, Failed(SilentFault(served.guard, served.failure)))
    ensures !Listening(resuming.live.guard, resuming.failure) ==>
      ResumeStep(h, rec, resuming, op, env) == (resuming, Failed(SilentFault(resuming.live.guard, resuming.failure)))
  {
    hide LiveOp, ServeOp, ResumeOp;
  }
}
