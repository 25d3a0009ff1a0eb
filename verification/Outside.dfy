/** What the host does outside the journal, and what of it reaches the harness and the journal
(controller/effects.go, controller/approval_effects.go, controller/resume.go).

Said of the steps of the live and resume sinks in terms of what the provider and the executor replied: what
is recorded and in which order, what is run, and that the harness is given the reply itself, or what was
recorded. */
module Outside {
  import opened Api
  import opened Approval
  import opened Sinks
  import opened Matching
  import opened Evidence
  import opened Runs
  import opened Upkeep
  import opened Recovery

  /** The step recorded these events, numbered on, and nothing else. */
  ghost predicate Wrote(s: Live, t: Live, events: seq<Event>)
  {
    && |t.journal| == |s.journal| + |events| && s.journal <= t.journal
    && forall k | 0 <= k < |events| :: t.journal[|s.journal| + k] == Entry(Head(s.journal) + 1 + k, events[k])
  }

  /** How many records the log still admits from this sink. */
  function Room(s: Live, env: Env): nat
  {
    if s.fenced then 0 else env.room
  }

  /** The same sink, but for what it recorded and whether its fence is lost. */
  predicate SameBut(s: Live, t: Live)
  {
    t.guard == s.guard && t.calls == s.calls && t.invocations == s.invocations && t.modelRuns == s.modelRuns
  }

  // ---- live ----

  /** A model call is recorded, then the model is run, then its message is recorded, and only then is its answer
  given, as it is. */
  ghost predicate ModelDone(h: Host, s: Live, t: Live, req: ModelRequest, env: Env, a: Answer)
  {
    var call := Own(h, KModelCall, BModelCall(ModelCall(req.model, h.hashInput(req), env.callId)));
    SameBut(s.(modelRuns := t.modelRuns), t) &&
    if Room(s, env) == 0 then Wrote(s, t, []) && t.fenced && t.modelRuns == s.modelRuns && a == Failed(Superseded)
    else
      && t.modelRuns == s.modelRuns + 1
      && if env.model.None? then Wrote(s, t, [call]) && !t.fenced && a == Failed(ProviderFailed)
         else if env.room == 1 then Wrote(s, t, [call]) && t.fenced && a == Failed(Superseded)
         else Wrote(s, t, [call, Own(h, KOutput, BMessage(env.model.value.message))]) && !t.fenced && a == Completion(env.model.value)
  }

  /** The record of an operation that asks for no reply. */
  function RecordOf(h: Host, op: Op): Event
    requires op.Output? || op.Account? || op.Report?
  {
    match op
    case Output(delta) => Own(h, KOutput, BMessage(Message("assistant", [Part(Some(delta), None, None, None, None, None)])))
    case Account(usage) => Own(h, KUsage, BUsage(usage))
    case Report(r) => Own(h, KToolResult, BResult(r))
  }

  /** Output, usage and a reported result are recorded as they are; a report for a gated call seals the sink, and
  one that claims to be a receipt is refused. */
  ghost predicate PlainDone(h: Host, s: Live, t: Live, op: Op, env: Env, a: Answer)
    requires op.Output? || op.Account? || op.Report?
  {
    if op.Report? && op.result.id in s.calls && s.calls[op.result.id] then
      t == s.(guard := Guard(false, Some(ReceiptReport))) && a == Failed(ReceiptReport)
    else if op.Report? && Claims(op.result) then t == s && a == Failed(ReceiptReport)
    else
      && SameBut(s, t)
      && if Room(s, env) == 0 then Wrote(s, t, []) && t.fenced && a == Failed(Superseded)
         else Wrote(s, t, [RecordOf(h, op)]) && !t.fenced && a == Accepted
  }

  /** What becomes of a call whose record is durable: the executor is run for it once, and its reply is recorded
  and given with every field as it is but the identity, which is the call's. */
  ghost predicate Executed(h: Host, s: Live, t: Live, call: ToolCall, recorded: seq<Event>, env: Env, room: nat, a: Answer)
  {
    && t.guard == s.guard && t.modelRuns == s.modelRuns
    && if !h.hasTool then Wrote(s, t, recorded) && t.invocations == s.invocations && t.fenced == s.fenced && a == Failed(NoExecutor)
       else
         && t.invocations == s.invocations + [Invocation(call, |s.journal| + |recorded|)]
         && if env.tool.error.Some? then Wrote(s, t, recorded) && a == Failed(ExecutorFailed)
            else if Claims(env.tool.result) then Wrote(s, t, recorded) && a == Failed(ReceiptReport)
            else if room == 0 then Wrote(s, t, recorded) && t.fenced && a == Failed(Superseded)
            else
              && a.Returned? && a.result.id == call.id && a.result.(id := env.tool.result.id) == env.tool.result
              && Wrote(s, t, recorded + [Own(h, KToolResult, BResult(a.result))])
  }

  /** An ordinary call: refused in this order, else recorded, and only then executed. */
  ghost predicate CallDone(h: Host, s: Live, t: Live, call: ToolCall, env: Env, a: Answer)
  {
    if call.id in s.calls && s.calls[call.id] then t == s && a == Failed(InvalidCall)
    else if call.mediation != ControllerMediated then t == s && a == Failed(Unmediated)
    else if call.key == "" then t == s && a == Failed(MissingKey)
    else if Room(s, env) == 0 then Wrote(s, t, []) && t.fenced && SameBut(s, t) && a == Failed(Superseded)
    else
      && t.calls == s.calls[call.id := false]
      && Executed(h, s, t, call, [Own(h, KToolCall, BToolCall(call))], env, env.room - 1, a)
  }

  function CannotParkFault(h: Host): Fault
  {
    if h.capability.Stateful? then ApprovalUnavailable else DescribeFailed
  }

  /** A gated call: refused in this order with nothing recorded, else recorded with its request, and the sink is
  stopped by the park that names both. */
  ghost predicate GateDone(h: Host, s: Live, t: Live, call: ToolCall, env: Env, a: Answer)
  {
    var called, request := Own(h, KToolCall, BToolCall(call)), Own(h, KApprovalRequest, BApproval(ApprovalRequest(call.id, "")));
    && t.invocations == s.invocations && t.modelRuns == s.modelRuns
    && if !h.capability.Stateless? then t == s && a == Failed(CannotParkFault(h))
       else if h.session == "" then t == s && a == Failed(MissingSession)
       else if call.id == "" then t == s && a == Failed(InvalidCall)
       else if call.key == "" then t == s && a == Failed(MissingKey)
       else if call.id in s.calls then t == s && a == Failed(InvalidCall)
       else if Room(s, env) == 0 then Wrote(s, t, []) && t.fenced && SameBut(s, t) && a == Failed(Superseded)
       else
         && t.calls == s.calls[call.id := true] && !t.guard.closed
         && if env.room == 1 then
              Wrote(s, t, [called]) && t.fenced && t.guard.stop == Some(Superseded) && a == Failed(Superseded)
            else
              && Wrote(s, t, [called, request]) && !t.fenced
              && t.guard.stop == Some(Parked(ApprovalRef(h.executionId, call.id, Head(s.journal) + 2)))
              && a == Failed(t.guard.stop.value)
  }

  lemma {:induction false} ModelLive(h: Host, s: Live, req: ModelRequest, env: Env)
    ensures var (t, a) := LiveModel(h, s, req, env); ModelDone(h, s, t, req, env, a)
  {
  }

  lemma {:induction false} PlainLive(h: Host, s: Live, op: Op, env: Env)
    requires Listening(s.guard, None) && (op.Output? || op.Account? || op.Report?)
    ensures var (t, a) := LiveStep(h, s, op, env); PlainDone(h, s, t, op, env, a)
  {
  }

  lemma {:induction false} Executes(h: Host, s: Live, call: ToolCall, env: Env)
    ensures var (t, a) := ExecCall(h, s, call, env);
      t.calls == s.calls && Executed(h, s, t, call, [], env, Room(s, env), a)
  {
    ClaimsIs(env.tool.result);
  }

  lemma {:induction false} CallLive(h: Host, s: Live, call: ToolCall, env: Env)
    requires call.mediation != RequiresApproval
    ensures var (t, a) := LiveCall(h, s, call, env); CallDone(h, s, t, call, env, a)
  {
    ClaimsIs(env.tool.result);
  }

  lemma {:induction false} GateLive(h: Host, s: Live, call: ToolCall, env: Env)
    requires Listening(s.guard, None) && call.mediation == RequiresApproval
    ensures var (t, a) := LiveCall(h, s, call, env); GateDone(h, s, t, call, env, a)
  {
  }

  /** What one operation on the live sink does. */
  ghost predicate Done(h: Host, s: Live, t: Live, op: Op, env: Env, a: Answer)
  {
    match op
    case Model(req) => ModelDone(h, s, t, req, env, a)
    case Call(call) => if call.mediation == RequiresApproval then GateDone(h, s, t, call, env, a) else CallDone(h, s, t, call, env, a)
    case _ => PlainDone(h, s, t, op, env, a)
  }

  /** Of every operation on a live sink that listens. */
  lemma {:induction false} LiveDone(h: Host, s: Live, op: Op, env: Env)
    requires Listening(s.guard, None)
    ensures var (t, a) := LiveStep(h, s, op, env); Done(h, s, t, op, env, a)
  {
    hide ModelDone, PlainDone, CallDone, GateDone, LiveModel, LiveCall;
    match op
    case Model(req) => ModelLive(h, s, req, env);
    case Call(call) => if call.mediation == RequiresApproval { GateLive(h, s, call, env); } else { CallLive(h, s, call, env); }
    case _ => PlainLive(h, s, op, env);
  }

  // ---- past or at the end of the record ----

  /** Past the record the resume sink is the live one. */
  lemma {:induction false} ResumedLive(h: Host, rec: Recording, s: Resuming, op: Op, env: Env)
    requires Listening(s.live.guard, s.failure) && s.i >= |rec.stream|
    requires op.Call? ==> !(op.call.mediation == ControllerMediated && op.call.key == "")
    ensures var (t, a) := ResumeStep(h, rec, s, op, env);
      var (live, b) := LiveStep(h, s.live, op, env);
      t.live == live && a == b && t.i == s.i && t.failure.None?
  {
    hide LiveModel, LiveOutput, LiveAccount, ExecCall, ParkCall;
  }

  /** A model call that is the last record is run again, and its answer recorded and given. */
  lemma {:induction false} TrailingModel(h: Host, rec: Recording, s: Resuming, req: ModelRequest, env: Env)
    requires Listening(s.live.guard, s.failure) && s.i + 1 == |rec.stream|
    requires var e := rec.stream[s.i]; e.kind == KModelCall && e.body.BModelCall? && e.body.modelCall.inputHash == h.hashInput(req)
    ensures var (r, a) := ResumeStep(h, rec, s, Model(req), env);
      var t := r.live;
      && r.i == |rec.stream| && r.failure.None? && SameBut(s.live.(modelRuns := s.live.modelRuns + 1), t)
      && if env.model.None? then Wrote(s.live, t, []) && a == Failed(ProviderFailed)
         else if Room(s.live, env) == 0 then Wrote(s.live, t, []) && t.fenced && a == Failed(Superseded)
         else Wrote(s.live, t, [Own(h, KOutput, BMessage(env.model.value.message))]) && a == Completion(env.model.value)
  {
  }

  /** An ordinary call that is the last record is executed, once. */
  lemma {:induction false} TrailingCall(h: Host, rec: Recording, s: Resuming, call: ToolCall, env: Env)
    requires Listening(s.live.guard, s.failure) && s.i + 1 == |rec.stream| && call.mediation != RequiresApproval
    requires var e := rec.stream[s.i]; e.kind == KToolCall && e.body.BToolCall? && SameRequest(call, e.body.toolCall)
    ensures var (r, a) := ResumeStep(h, rec, s, Call(call), env);
      var recorded := rec.stream[s.i].body.toolCall;
      && r.i == |rec.stream| && r.failure.None? && r.live.calls == s.live.calls[call.id := false]
      && Executed(h, s.live, r.live, recorded, [], env, Room(s.live, env), a)
  {
    var recorded := rec.stream[s.i].body.toolCall;
    MatchIsSameRequest(call, recorded);
    RequestFields(call, recorded);
    ClaimsIs(env.tool.result);
    hide MatchesCall, SameRequest, ClaimsReceipt, Claims;
  }

  /** What a decided call yields: a denial runs nothing and says so; an approval yields the executor's reply, its
  failure as an error, with the status its outcome has. */
  predicate Outcome(approved: bool, reply: ToolReply, r: ToolResult)
  {
    if !approved then
      && r.isError && r.code == CODE_APPROVAL_DENIED
      && r.error == "Tool execution denied by approval decision."
      && r.content == [Part(Some("Tool execution denied by approval decision."), None, None, None, None, None)]
      && r.output.None? && r.outputUri == "" && r.outputDigest == ""
    else
      && r.output == reply.result.output && r.outputUri == reply.result.outputUri && r.outputDigest == reply.result.outputDigest
      && r.content == reply.result.content
      && r.isError == (reply.error.Some? || reply.result.isError)
      && r.error == (if reply.error.Some? then reply.error.value else reply.result.error)
      && r.code == if r.isError then CODE_EXECUTOR_ERROR else CODE_UNSPECIFIED
  }

  /** What becomes of a decided gate: the executor is run for an approval alone; the receipt that is recorded names
  the call, its request and its decision, and the harness is given it with the decision. Whatever goes wrong
  seals the sink. */
  ghost predicate GateCompleted(h: Host, s: Live, t: Live, g: Gate, env: Env, a: Answer)
    requires g.request.Some? && g.decision.Some? && g.decision.value.event.body.BApprovalResult?
  {
    var decision := g.decision.value.event.body.decision;
    && t.modelRuns == s.modelRuns && t.calls == s.calls && t.guard.closed == s.guard.closed
    && if !h.capability.Stateless? || h.session == "" || (decision.approved && !h.hasTool) then
         && Wrote(s, t, []) && t.invocations == s.invocations && t.fenced == s.fenced
         && t.guard.stop == Some(if !h.capability.Stateless? then CannotParkFault(h) else if h.session == "" then MissingSession else NoExecutor)
         && a == Failed(t.guard.stop.value)
       else
         && t.invocations == s.invocations + (if decision.approved then [Invocation(g.call, |s.journal|)] else [])
         && if Room(s, env) == 0 then
              Wrote(s, t, []) && t.fenced && t.guard.stop == Some(Superseded) && a == Failed(Superseded)
            else
              && t.guard == s.guard && a.Returned? && Outcome(decision.approved, env.tool, a.result)
              && a.result.id == g.call.id && a.result.requestSeq == g.request.value.num && a.result.decisionSeq == g.decision.value.num
              && a.result.approval == Some(decision)
              && Wrote(s, t, [Own(h, KToolResult, BResult(a.result.(approval := None)))])
  }

  lemma {:induction false} OutcomeIs(g: Gate, decision: ApprovalResult, reply: ToolReply)
    requires g.request.Some? && g.decision.Some?
    ensures var r := ReceiptOf(g, DecidedOutcome(decision, reply));
      && Outcome(decision.approved, reply, r.(approval := Some(decision)))
      && r.id == g.call.id && r.requestSeq == g.request.value.num && r.decisionSeq == g.decision.value.num && r.approval.None?
  {
  }

  lemma {:induction false} GateCompletes(h: Host, s: Live, g: Gate, env: Env)
    requires Listening(s.guard, None)
    requires g.request.Some? && g.decision.Some? && g.decision.value.event.body.BApprovalResult?
    ensures var (t, a) := CompleteApproval(h, s, g, env); GateCompleted(h, s, t, g, env, a)
  {
    var decision := g.decision.value.event.body.decision;
    OutcomeIs(g, decision, env.tool);
    hide Outcome, DecidedOutcome, ReceiptOf;
    var receipt := ReceiptOf(g, DecidedOutcome(decision, env.tool));
    assert receipt.(approval := Some(decision)).(approval := None) == receipt;
  }

  /** A decided gate without its receipt is completed by the call it belongs to. */
  lemma {:induction false} DecidedGate(h: Host, rec: Recording, s: Resuming, call: ToolCall, env: Env)
    requires Listening(s.live.guard, s.failure) && s.i < |rec.stream| && call.mediation == RequiresApproval
    requires var e := rec.stream[s.i]; e.kind == KToolCall && e.body.BToolCall? && SameRequest(call, e.body.toolCall)
    requires DecisionRecorded(rec, s.i, call.id) && rec.gates[call.id].receipt.None?
    ensures var (r, a) := ResumeStep(h, rec, s, Call(call), env);
      && r.i == s.i + 3 && r.failure.None?
      && GateCompleted(h, s.live.(calls := s.live.calls[call.id := true]), r.live, rec.gates[call.id], env, a)
  {
    MatchIsSameRequest(call, rec.stream[s.i].body.toolCall);
    RequestFields(call, rec.stream[s.i].body.toolCall);
    hide MatchesCall, SameRequest, CompleteApproval, GateCompleted, ReceiptServes, KindAt;
    GateCompletes(h, s.live.(calls := s.live.calls[call.id := true]), rec.gates[call.id], env);
  }

  // ---- whole runs ----

  /** One of the records written from here to there is this event. */
  ghost predicate Written(journal: seq<Entry>, longer: seq<Entry>, e: Event)
  {
    exists k :: |journal| <= k < |longer| && longer[k].event == e
  }

  /** The completion was served: it is a recorded OUTPUT that follows a MODEL_CALL of the same input. */
  ghost predicate CompletionServed(h: Host, stream: seq<Event>, req: ModelRequest, resp: ModelResponse)
  {
    exists p ::
      && 0 <= p && p + 1 < |stream| && stream[p].kind == KModelCall && stream[p].body.BModelCall?
      && stream[p].body.modelCall.inputHash == h.hashInput(req) && stream[p + 1].kind == KOutput
      && resp.message == (if stream[p + 1].body.BMessage? then stream[p + 1].body.message else Message("", []))
  }

  /** The decision is recorded two records after a call that is the same request. */
  ghost predicate DecidedIn(stream: seq<Event>, p: nat, call: ToolCall, d: ApprovalResult)
  {
    && p + 2 < |stream| && stream[p].kind == KToolCall && stream[p].body.BToolCall?
    && SameRequest(call, stream[p].body.toolCall)
    && stream[p + 2].kind == KApprovalResult && stream[p + 2].body == BApprovalResult(d)
  }

  /** The result was served: a recorded call that is the same request has it as its recorded result, or as its
  recorded receipt, given with the recorded decision. */
  ghost predicate ServedFromAt(stream: seq<Event>, p: nat, call: ToolCall, r: ToolResult)
  {
    if call.mediation == RequiresApproval then
      && p + 3 < |stream| && r.approval.Some? && DecidedIn(stream, p, call, r.approval.value)
      && stream[p + 3].kind == KToolResult && stream[p + 3].body.BResult?
      && stream[p + 3].body.result == r.(approval := stream[p + 3].body.result.approval)
    else
      && p + 1 < |stream| && stream[p].kind == KToolCall && stream[p].body.BToolCall? && SameRequest(call, stream[p].body.toolCall)
      && stream[p + 1].kind == KToolResult && stream[p + 1].body == BResult(r)
  }

  ghost predicate ResultWasServed(stream: seq<Event>, call: ToolCall, r: ToolResult)
  {
    exists p: nat :: ServedFromAt(stream, p, call, r)
  }

  ghost predicate WasDecided(stream: seq<Event>, call: ToolCall, d: ApprovalResult)
  {
    exists p: nat :: DecidedIn(stream, p, call, d)
  }

  /** What the harness was given for an operation is genuine: the reply of this operation's own environment, which
  was recorded, or what was recorded before. */
  ghost predicate Genuine(h: Host, rec: Recording, op: Op, env: Env, seen: Seen, from: seq<Entry>, to: seq<Entry>)
  {
    match seen
    case SawCompletion(resp) =>
      && op.Model?
      && (|| CompletionServed(h, rec.stream, op.request, resp)
          || (env.model == Some(resp) && Written(from, to, Own(h, KOutput, BMessage(resp.message)))))
    case SawResult(r) =>
      && op.Call?
      && (|| ResultWasServed(rec.stream, op.call, r)
          || (&& Written(from, to, Own(h, KToolResult, BResult(r.(approval := None))))
              && if op.call.mediation == RequiresApproval then
                   r.approval.Some? && WasDecided(rec.stream, op.call, r.approval.value) && Outcome(r.approval.value.approved, env.tool, r)
                 else env.tool.error.None? && r.id == op.call.id && r.(id := env.tool.result.id) == env.tool.result))
    case SawAccepted =>
      && (op.Output? || op.Account? || op.Report?)
      && ((exists p :: 0 <= p < |rec.stream| && ServedBy(op, rec.stream[p])) || Written(from, to, RecordOf(h, op)))
    case SawFailure => true
  }

  lemma {:induction false} WroteWritten(s: Live, t: Live, events: seq<Event>, k: nat)
    requires Wrote(s, t, events) && k < |events|
    ensures Written(s.journal, t.journal, events[k])
  {
    assert t.journal[|s.journal| + k].event == events[k];
  }

  /** Genuine from this step to the next is genuine over more of the journal. */
  lemma {:induction false} GenuineLonger(h: Host, rec: Recording, op: Op, env: Env, seen: Seen,
                                         from: seq<Entry>, a: seq<Entry>, b: seq<Entry>, to: seq<Entry>)
    requires from <= a <= b <= to && Genuine(h, rec, op, env, seen, a, b)
    ensures Genuine(h, rec, op, env, seen, from, to)
  {
    forall e | Written(a, b, e)
      ensures Written(from, to, e)
    {
      var k :| |a| <= k < |b| && b[k].event == e;
      assert to[k].event == e;
    }
    hide CompletionServed, ResultWasServed, WasDecided, Written, ServedBy, SameRequest, Outcome;
  }

  lemma {:induction false} ModelGenuine(h: Host, rec: Recording, s: Resuming, req: ModelRequest, env: Env)
    requires Listening(s.live.guard, s.failure)
    ensures var (t, a) := ResumeStep(h, rec, s, Model(req), env);
      Genuine(h, rec, Model(req), env, See(a), s.live.journal, t.live.journal)
  {
    var (t, a) := ResumeStep(h, rec, s, Model(req), env);
    if s.i < |rec.stream| {
      ResumedModel(h, rec, s, req, env);
      if a.Completion? && s.i + 1 == |rec.stream| {
        TrailingModel(h, rec, s, req, env);
        WroteWritten(s.live, t.live, [Own(h, KOutput, BMessage(env.model.value.message))], 0);
      }
    } else {
      ResumedLive(h, rec, s, Model(req), env);
      LiveDone(h, s.live, Model(req), env);
      var call := Own(h, KModelCall, BModelCall(ModelCall(req.model, h.hashInput(req), env.callId)));
      if a.Completion? { WroteWritten(s.live, t.live, [call, Own(h, KOutput, BMessage(env.model.value.message))], 1); }
    }
    hide ResumeStep, LiveStep;
  }

  lemma {:induction false} PlainGenuine(h: Host, rec: Recording, s: Resuming, op: Op, env: Env)
    requires Listening(s.live.guard, s.failure) && (op.Output? || op.Account? || op.Report?)
    ensures var (t, a) := ResumeStep(h, rec, s, op, env);
      Genuine(h, rec, op, env, See(a), s.live.journal, t.live.journal)
  {
    var (t, a) := ResumeStep(h, rec, s, op, env);
    if s.i < |rec.stream| {
      ResumedOther(h, rec, s, op, env);
    } else {
      ResumedLive(h, rec, s, op, env);
      LiveDone(h, s.live, op, env);
      if a.Accepted? { WroteWritten(s.live, t.live, [RecordOf(h, op)], 0); }
    }
    hide ResumeStep, LiveStep, ServedBy, Claims, RecordOf;
  }

  lemma {:induction false} ExecutedGenuine(h: Host, rec: Recording, s: Live, t: Live, call: ToolCall, recorded: seq<Event>, env: Env, room: nat, a: Answer,
                                           asked: ToolCall)
    requires Executed(h, s, t, call, recorded, env, room, a)
    requires asked.mediation != RequiresApproval && asked.id == call.id
    ensures Genuine(h, rec, Call(asked), env, See(a), s.journal, t.journal)
  {
    if a.Returned? {
      WroteWritten(s, t, recorded + [Own(h, KToolResult, BResult(a.result))], |recorded|);
      assert env.tool.result.approval == None && a.result.(approval := None) == a.result;
    }
  }

  /** A gated call that is recorded and decided, in a record whose gates are the recorded ones. */
  lemma {:induction false} RecordedDecision(rec: Recording, i: nat, call: ToolCall)
    requires GatesAgree(rec.stream, rec.gates) && i < |rec.stream| && call.mediation == RequiresApproval
    requires rec.stream[i].kind == KToolCall && rec.stream[i].body.BToolCall? && SameRequest(call, rec.stream[i].body.toolCall)
    requires DecisionRecorded(rec, i, call.id)
    ensures DecidedIn(rec.stream, i, call, rec.gates[call.id].decision.value.event.body.decision)
  {
    RequestFields(call, rec.stream[i].body.toolCall);
    hide SameRequest;
    assert IsGatedCall(rec.stream[i]);
    assert GateAt(rec.stream, rec.gates, i);
  }

  lemma {:induction false} RecordedCallGenuine(h: Host, rec: Recording, s: Resuming, call: ToolCall, env: Env)
    requires Listening(s.live.guard, s.failure) && GatesAgree(rec.stream, rec.gates)
    requires KindAt(rec.stream, s.i, KToolCall) && rec.stream[s.i].body.BToolCall? && SameRequest(call, rec.stream[s.i].body.toolCall)
    ensures var (t, a) := ResumeStep(h, rec, s, Call(call), env);
      Genuine(h, rec, Call(call), env, See(a), s.live.journal, t.live.journal) || t.failure.Some?
  {
    var (t, a) := ResumeStep(h, rec, s, Call(call), env);
    ResumedCallAnswer(h, rec, s, call, env);
    RequestFields(call, rec.stream[s.i].body.toolCall);
    hide ResumeStep, SameRequest, GatesAgree;
    if call.mediation != RequiresApproval {
      if s.i + 1 == |rec.stream| {
        TrailingCall(h, rec, s, call, env);
        ExecutedGenuine(h, rec, s.live, t.live, rec.stream[s.i].body.toolCall, [], env, Room(s.live, env), a, call);
      } else if a.Returned? && t.failure.None? {
        assert ServedFromAt(rec.stream, s.i, call, a.result);
      }
    } else if DecisionRecorded(rec, s.i, call.id) {
      RecordedDecision(rec, s.i, call);
      var d := rec.gates[call.id].decision.value.event.body.decision;
      assert WasDecided(rec.stream, call, d);
      if rec.gates[call.id].receipt.None? {
        DecidedGate(h, rec, s, call, env);
        CompletedGenuine(h, rec, s.live.(calls := s.live.calls[call.id := true]), t.live, rec.gates[call.id], env, a, call);
      } else if ReceiptRecorded(rec, s.i, call.id) {
        assert ServedFromAt(rec.stream, s.i, call, ReceiptAnswer(rec, s.i, call.id));
      }
    }
  }

  lemma {:induction false} CompletedGenuine(h: Host, rec: Recording, s: Live, t: Live, g: Gate, env: Env, a: Answer, call: ToolCall)
    requires g.request.Some? && g.decision.Some? && g.decision.value.event.body.BApprovalResult?
    requires GateCompleted(h, s, t, g, env, a) && call.mediation == RequiresApproval
    requires WasDecided(rec.stream, call, g.decision.value.event.body.decision)
    ensures Genuine(h, rec, Call(call), env, See(a), s.journal, t.journal)
  {
    hide Outcome, WasDecided;
    if a.Returned? { WroteWritten(s, t, [Own(h, KToolResult, BResult(a.result.(approval := None)))], 0); }
  }

  lemma {:induction false} CallGenuine(h: Host, rec: Recording, s: Resuming, call: ToolCall, env: Env)
    requires Listening(s.live.guard, s.failure) && GatesAgree(rec.stream, rec.gates)
    ensures var (t, a) := ResumeStep(h, rec, s, Call(call), env);
      Genuine(h, rec, Call(call), env, See(a), s.live.journal, t.live.journal)
  {
    var (t, a) := ResumeStep(h, rec, s, Call(call), env);
    if t.failure.Some? {
      DivergedFails(h, rec, s, call, env);
    } else if s.i < |rec.stream| {
      ResumedCall(h, rec, s, call, env);
      if KindAt(rec.stream, s.i, KToolCall) && rec.stream[s.i].body.BToolCall? && SameRequest(call, rec.stream[s.i].body.toolCall) {
        RecordedCallGenuine(h, rec, s, call, env);
      }
    } else if call.mediation == ControllerMediated && call.key == "" {
    } else {
      ResumedLive(h, rec, s, Call(call), env);
      LiveDone(h, s.live, Call(call), env);
      if call.mediation != RequiresApproval {
        if a.Returned? {
          ExecutedGenuine(h, rec, s.live, t.live, call, [Own(h, KToolCall, BToolCall(call))], env, env.room - 1, a, call);
        }
      }
    }
    hide ResumeStep, LiveStep, SameRequest, GatesAgree, Executed;
  }

  lemma {:induction false} DivergedFails(h: Host, rec: Recording, s: Resuming, call: ToolCall, env: Env)
    requires Listening(s.live.guard, s.failure) && ResumeStep(h, rec, s, Call(call), env).0.failure.Some?
    ensures ResumeStep(h, rec, s, Call(call), env).1 == Failed(Divergence)
  {
    hide LiveCall, ExecCall, CompleteApproval, MatchesCall;
  }

  /** Whatever a step gives the harness is genuine. */
  lemma {:induction false} StepGenuine(h: Host, rec: Recording, s: Resuming, op: Op, env: Env)
    requires GatesAgree(rec.stream, rec.gates)
    ensures var (t, a) := ResumeStep(h, rec, s, op, env);
      Genuine(h, rec, op, env, See(a), s.live.journal, t.live.journal)
  {
    if Listening(s.live.guard, s.failure) {
      match op
      case Model(req) => ModelGenuine(h, rec, s, req, env);
      case Call(call) => CallGenuine(h, rec, s, call, env);
      case _ => PlainGenuine(h, rec, s, op, env);
    }
    hide ResumeOp, Genuine, GatesAgree;
  }

  /** Every answer of a run is what was recorded before it, or what the provider or the executor replied to that
  very operation, which is recorded. */
  ghost predicate AllGenuine(h: Host, rec: Recording, har: Harness, envs: nat -> Env, seen: seq<Seen>, n: nat, from: seq<Entry>, to: seq<Entry>)
  {
    forall k | n <= k < |seen| :: har(seen[..k]).Emit? && Genuine(h, rec, har(seen[..k]).op, envs(k), seen[k], from, to)
  }

  lemma {:induction false} RunGenuine(h: Host, rec: Recording, har: Harness, envs: nat -> Env, s: Resuming, seen: seq<Seen>, budget: nat)
    requires GatesAgree(rec.stream, rec.gates)
    ensures var e := ResumeRun(h, rec, har, envs, s, seen, budget);
      seen <= e.seen && s.live.journal <= e.sink.live.journal && AllGenuine(h, rec, har, envs, e.seen, |seen|, s.live.journal, e.sink.live.journal)
    decreases budget
  {
    hide ResumeStep, Genuine, GatesAgree;
    match har(seen)
    case Return(_) =>
    case Emit(op) =>
      if budget > 0 {
        var r := ResumeStep(h, rec, s, op, envs(|seen|));
        var more := seen + [See(r.1)];
        StepGenuine(h, rec, s, op, envs(|seen|));
        StepGrows(h, rec, s, op, envs(|seen|));
        RunGenuine(h, rec, har, envs, r.0, more, budget - 1);
        var e := ResumeRun(h, rec, har, envs, r.0, more, budget - 1);
        assert e.seen[|seen|] == more[|seen|] && e.seen[..|seen|] == more[..|seen|] == seen;
        GenuineLonger(h, rec, op, envs(|seen|), See(r.1), s.live.journal, s.live.journal, r.0.live.journal, e.sink.live.journal);
        forall k | |more| <= k < |e.seen|
          ensures Genuine(h, rec, har(e.seen[..k]).op, envs(k), e.seen[k], s.live.journal, e.sink.live.journal)
        {
          GenuineLonger(h, rec, har(e.seen[..k]).op, envs(k), e.seen[k], s.live.journal, r.0.live.journal, e.sink.live.journal, e.sink.live.journal);
        }
      }
  }

  /** Of every turn, first or recovered, whatever its harness, its environment and its end: what the harness was
  given for each of its operations is genuine. */
  lemma {:induction false} AnswersAreGenuine(h: Host, journal: seq<Entry>, har: Harness, envs: nat -> Env, budget: nat)
    requires Sound(h, journal)
    ensures var e := RunOn(h, journal, har, envs, budget);
      && journal <= e.sink.live.journal
      && AllGenuine(h, RecordingOf(journal, h.executionId), har, envs, e.seen, 0, journal, e.sink.live.journal)
  {
    hide Fold, EntriesOf, Stream, ResumeRun, GatesAgree, CallsDistinct, Genuine;
    Agreed(h, journal);
    RunGenuine(h, RecordingOf(journal, h.executionId), har, envs, Begin(journal), [], budget);
  }
}
