/** Runs of a deterministic harness over the sinks, and what makes a replay repeat a live run.

A harness is a function from the answers it has seen to its next move. It sees that an operation
failed, not the text of the error. A run is bounded by a budget of operations; a harness that has
not returned by then has no finished run. */
module Runs {
  import opened Api
  import opened Approval
  import opened Sinks
  import opened Evidence

  datatype Seen = SawCompletion(response: ModelResponse) | SawResult(result: ToolResult) | SawAccepted | SawFailure

  function See(a: Answer): Seen
  {
    match a
    case Completion(resp) => SawCompletion(resp)
    case Returned(result) => SawResult(result)
    case Accepted => SawAccepted
    case Failed(_) => SawFailure
  }

  datatype Finish = Completed | HarnessFailed

  datatype Move = Emit(op: Op) | Return(finish: Finish)

  type Harness = seq<Seen> -> Move

  /** How far a run got: what the harness saw, its sink, and how it returned, if it did. */
  datatype Ending = Ending(seen: seq<Seen>, sink: Resuming, finish: Option<Finish>)

  function ResumeRun(h: Host, rec: Recording, har: Harness, envs: nat -> Env, s: Resuming, seen: seq<Seen>, budget: nat)
    : Ending
    decreases budget
  {
    match har(seen)
    case Return(f) => Ending(seen, s, Some(f))
    case Emit(op) =>
      if budget == 0 then Ending(seen, s, None)
      else
        var r := ResumeStep(h, rec, s, op, envs(|seen|));
        ResumeRun(h, rec, har, envs, r.0, seen + [See(r.1)], budget - 1)
  }

  datatype ReplayEnding = ReplayEnding(seen: seq<Seen>, sink: Served, finish: Option<Finish>)

  function ReplayRun(h: Host, rec: Recording, har: Harness, s: Served, seen: seq<Seen>, budget: nat): ReplayEnding
    decreases budget
  {
    match har(seen)
    case Return(f) => ReplayEnding(seen, s, Some(f))
    case Emit(op) =>
      if budget == 0 then ReplayEnding(seen, s, None)
      else
        var r := ServeStep(h, rec, s, op);
        ReplayRun(h, rec, har, r.0, seen + [See(r.1)], budget - 1)
  }

  // ---- where a resumed run stands in the effects of its execution ----

  function Effects(h: Host, s: Resuming): seq<Event>
  {
    EffectsOf(s.live.journal, h.executionId)
  }

  ghost predicate NoGatesAfter(stream: seq<Event>, n: nat)
  {
    forall q | n <= q < |stream| :: !IsGatedCall(stream[q])
  }

  /** The recorded prefix is served first; what is added comes after all of it. The calls known are
  those of the effects the harness has gone through. */
  ghost predicate TracksAt(recorded: seq<Event>, i: nat, calls: map<string, bool>, all: seq<Event>)
  {
    && i <= |recorded|
    && recorded <= all
    && (i < |recorded| ==> all == recorded)
    && calls == CallsIn(all[..i + |all| - |recorded|])
    && NoGatesAfter(all, |recorded|)
  }

  ghost predicate Tracks(h: Host, rec: Recording, s: Resuming)
  {
    TracksAt(rec.stream, s.i, s.live.calls, Effects(h, s))
  }

  /** How many effects of the execution the harness has gone through. */
  function Pos(h: Host, rec: Recording, s: Resuming): nat
  {
    var n := s.i + |Effects(h, s)| - |rec.stream|;
    if n < 0 then 0 else n
  }

  ghost predicate Clean(s: Resuming)
  {
    s.failure.None? && s.live.guard.stop.None? && !s.live.guard.closed && !s.live.fenced
  }

  /** The events a step added to the journal. */
  function Added(s: Live, t: Live): seq<Event>
    requires |s.journal| <= |t.journal|
  {
    seq(|t.journal| - |s.journal|, k requires 0 <= k < |t.journal| - |s.journal| => t.journal[|s.journal| + k].event)
  }

  ghost predicate OwnEffects(h: Host, events: seq<Event>)
  {
    forall k | 0 <= k < |events| :: events[k].executionId == h.executionId && IsEffect(events[k].kind)
  }

  lemma {:induction false} EffectsSnoc(journal: seq<Entry>, e: Entry, id: string)
    ensures EffectsOf(journal + [e], id) ==
      if Of(e, id) && IsEffect(e.event.kind) then EffectsOf(journal, id) + [e.event] else EffectsOf(journal, id)
  {
    assert (journal + [e])[..|journal|] == journal;
    var es := EntriesOf(journal, id);
    assert (es + [e])[..|es|] == es;
  }

  lemma {:induction false} EffectsPrefix(journal: seq<Entry>, m: nat, id: string)
    requires m <= |journal|
    ensures EffectsOf(journal[..m], id) <= EffectsOf(journal, id)
  {
    if m < |journal| {
      var n := |journal| - 1;
      assert journal[..n][..m] == journal[..m];
      EffectsPrefix(journal[..n], m, id);
      assert journal == journal[..n] + [journal[n]];
      EffectsSnoc(journal[..n], journal[n], id);
    } else {
      assert journal[..m] == journal;
    }
  }

  /** Effects of the execution added to the journal extend its effects. */
  lemma {:induction false} EffectsExtend(h: Host, s: seq<Entry>, t: seq<Entry>, events: seq<Event>)
    requires |t| == |s| + |events| && t[..|s|] == s
    requires forall k | 0 <= k < |events| :: t[|s| + k].event == events[k]
    requires OwnEffects(h, events)
    ensures EffectsOf(t, h.executionId) == EffectsOf(s, h.executionId) + events
  {
    hide EffectsOf;
    if events == [] {
      assert t == s;
    } else {
      var n := |t| - 1;
      assert t[..n][..|s|] == s;
      EffectsExtend(h, s, t[..n], events[..|events| - 1]);
      EffectsSnoc(t[..n], t[n], h.executionId);
      assert t == t[..n] + [t[n]];
      assert t[n].event == events[|events| - 1];
      assert events == events[..|events| - 1] + [events[|events| - 1]];
    }
  }

  // ---- the records an operation goes through ----

  predicate IsModelCall(e: Event, hash: string)
  {
    e.kind.KModelCall? && e.body.BModelCall? && e.body.modelCall.inputHash == hash
  }

  function RecordedMessage(e: Event): Message
  {
    if e.body.BMessage? then e.body.message else Message("", [])
  }

  /** The four records of an answered gate, and the answer a harness gets from them. */
  ghost predicate AnsweredGate(stream: seq<Event>, p: nat, result: ToolResult)
  {
    && p + 3 < |stream|
    && stream[p + 1].kind.KApprovalRequest?
    && stream[p + 2].kind.KApprovalResult? && stream[p + 2].body.BApprovalResult?
    && stream[p + 3].kind.KToolResult? && stream[p + 3].body.BResult?
    && result == stream[p + 3].body.result.(approval := Some(stream[p + 2].body.decision))
  }

  /** What a call went through: nothing, its record alone, its record and result, or a whole gate. */
  ghost predicate CallWent(stream: seq<Event>, call: ToolCall, a: Answer, p: nat, q: nat)
  {
    match a
    case Returned(result) =>
      && p + 1 < |stream| && IsCall(stream[p]) && MatchesCall(call, stream[p].body.toolCall)
      && if call.mediation.RequiresApproval? then q == p + 4 && AnsweredGate(stream, p, result)
         else q == p + 2 && stream[p + 1].kind.KToolResult? && stream[p + 1].body == BResult(result) && result.id == call.id
    case Failed(_) =>
      || q == p
      || (q == p + 1 && p < |stream| && IsCall(stream[p]) && MatchesCall(call, stream[p].body.toolCall) &&
          !call.mediation.RequiresApproval?)
    case _ => false
  }

  /** The records from p up to q are the ones this operation makes when it is answered by a. A report
  is matched by the kind of its record only. */
  ghost predicate Went(h: Host, stream: seq<Event>, op: Op, a: Answer, p: nat, q: nat)
  {
    && q <= |stream|
    && match op
       case Model(req) =>
         && p < q && IsModelCall(stream[p], h.hashInput(req))
         && if a.Completion? then q == p + 2 && stream[p + 1].kind.KOutput? && a.response.message == RecordedMessage(stream[p + 1])
            else a.Failed? && q == p + 1
       case Output(delta) => a.Accepted? && q == p + 1 && stream[p].kind.KOutput? && RecordedText(stream[p]) == delta
       case Account(usage) => a.Accepted? && q == p + 1 && stream[p].kind.KUsage? && stream[p].body == BUsage(usage)
       case Report(result) =>
         if a.Accepted? then
           q == p + 1 && stream[p].kind.KToolResult? && !(stream[p].body.BResult? && ClaimsReceipt(stream[p].body.result)) &&
           !ClaimsReceipt(result) && !Gated(CallsIn(stream[..p]), result.id)
         else a.Failed? && q == p && ClaimsReceipt(result) && !Gated(CallsIn(stream[..p]), result.id)
       case Call(call) => CallWent(stream, call, a, p, q)
  }

  lemma {:induction false} CallsAfter(stream: seq<Event>, p: nat, e: Event)
    requires p < |stream| && stream[p] == e
    ensures CallsIn(stream[..p + 1]) ==
      if IsCall(e) then CallsIn(stream[..p])[e.body.toolCall.id := e.body.toolCall.mediation.RequiresApproval?]
      else CallsIn(stream[..p])
  {
    assert stream[..p + 1] == stream[..p] + [e];
    CallsInSnoc(stream[..p], e);
  }

  /** The calls known after an operation. */
  lemma {:induction false} CallsAcross(stream: seq<Event>, p: nat, q: nat)
    requires p <= q <= |stream| && q <= p + 4
    requires forall k | p < k < q :: !IsCall(stream[k])
    ensures CallsIn(stream[..q]) ==
      if p < q && IsCall(stream[p])
      then CallsIn(stream[..p])[stream[p].body.toolCall.id := stream[p].body.toolCall.mediation.RequiresApproval?]
      else CallsIn(stream[..p])
  {
    if p < q { CallsAfter(stream, p, stream[p]); }
    if p + 1 < q { CallsAfter(stream, p + 1, stream[p + 1]); }
    if p + 2 < q { CallsAfter(stream, p + 2, stream[p + 2]); }
    if p + 3 < q { CallsAfter(stream, p + 3, stream[p + 3]); }
  }

  // ---- a resumed run goes through the effects of its execution in order ----

  /** The calls a run knows after going through the records from p up to q. */
  ghost predicate CallsMove(all: seq<Event>, p: nat, q: nat, before: map<string, bool>, after: map<string, bool>)
  {
    && p <= q <= |all| && q <= p + 4
    && (forall k | p < k < q :: !IsCall(all[k]))
    && after ==
       if p < q && IsCall(all[p])
       then before[all[p].body.toolCall.id := all[p].body.toolCall.mediation.RequiresApproval?]
       else before
  }

  /** Going through records, recorded or new, keeps the run on track. */
  lemma {:induction false} Advance(recorded: seq<Event>, i: nat, calls: map<string, bool>, all: seq<Event>,
                j: nat, calls': map<string, bool>, all': seq<Event>)
    requires TracksAt(recorded, i, calls, all)
    requires i <= j <= |recorded| && all <= all' && (j < |recorded| ==> all' == recorded)
    requires NoGatesAfter(all', |all|)
    requires CallsMove(all', i + |all| - |recorded|, j + |all'| - |recorded|, calls, calls')
    ensures TracksAt(recorded, j, calls', all')
  {
    var p, q := i + |all| - |recorded|, j + |all'| - |recorded|;
    assert all[..p] == all'[..p];
    CallsAcross(all', p, q);
  }

  /** What one clean step does, given the effects recorded before it: it extends the journal with
  effects of the execution, stays on track, and goes through the records its operation makes. */
  ghost predicate Moves(h: Host, rec: Recording, s: Resuming, all: seq<Event>, op: Op, r: (Resuming, Answer))
  {
    && TracksAt(rec.stream, s.i, s.live.calls, all)
    && s.live.journal <= r.0.live.journal
    && s.i <= r.0.i
    && var added := Added(s.live, r.0.live);
    && OwnEffects(h, added)
    && TracksAt(rec.stream, r.0.i, r.0.live.calls, all + added)
    && Went(h, all + added, op, r.1, s.i + |all| - |rec.stream|, r.0.i + |all + added| - |rec.stream|)
  }

  /** A step that adds these effects, goes on to these calls, and went through what it should. */
  lemma {:induction false} MovesBy(h: Host, rec: Recording, s: Resuming, all: seq<Event>, op: Op, r: (Resuming, Answer), added: seq<Event>)
    requires TracksAt(rec.stream, s.i, s.live.calls, all)
    requires s.live.journal <= r.0.live.journal && added == Added(s.live, r.0.live) && OwnEffects(h, added)
    requires s.i <= r.0.i <= |rec.stream| && (added != [] ==> r.0.i == |rec.stream|)
    requires NoGatesAfter(added, 0)
    requires CallsMove(all + added, s.i + |all| - |rec.stream|, r.0.i + |all| + |added| - |rec.stream|, s.live.calls, r.0.live.calls)
    requires Went(h, all + added, op, r.1, s.i + |all| - |rec.stream|, r.0.i + |all| + |added| - |rec.stream|)
    ensures Moves(h, rec, s, all, op, r)
  {
    if added == [] { assert all + added == all; }
    Advance(rec.stream, s.i, s.live.calls, all, r.0.i, r.0.live.calls, all + added);
  }

  function Own(h: Host, kind: Kind, body: Body): Event
  {
    Event(h.executionId, kind, body, NO_IDENTITY)
  }

  lemma {:induction false} LiveModelMoves(h: Host, rec: Recording, s: Resuming, all: seq<Event>, req: ModelRequest, env: Env)
    requires TracksAt(rec.stream, s.i, s.live.calls, all) && Clean(s) && s.i == |rec.stream|
    requires Clean(OnLive(s, LiveModel(h, s.live, req, env)).0)
    ensures Moves(h, rec, s, all, Model(req), OnLive(s, LiveModel(h, s.live, req, env)))
  {
    var r := OnLive(s, LiveModel(h, s.live, req, env));
    var call := Own(h, KModelCall, BModelCall(ModelCall(req.model, h.hashInput(req), env.callId)));
    var added := [call] + match env.model case None => [] case Some(resp) => [Own(h, KOutput, BMessage(resp.message))];
    assert added == Added(s.live, r.0.live);
    MovesBy(h, rec, s, all, Model(req), r, added);
  }

  lemma {:induction false} ServedModelMoves(h: Host, rec: Recording, s: Resuming, all: seq<Event>, req: ModelRequest, env: Env)
    requires TracksAt(rec.stream, s.i, s.live.calls, all) && Clean(s) && s.i < |rec.stream|
    requires Clean(ResumeModel(h, rec, s, req, env).0)
    ensures Moves(h, rec, s, all, Model(req), ResumeModel(h, rec, s, req, env))
  {
    var r := ResumeModel(h, rec, s, req, env);
    var added := if s.i + 1 == |rec.stream| && env.model.Some? then [Own(h, KOutput, BMessage(env.model.value.message))] else [];
    assert added == Added(s.live, r.0.live);
    MovesBy(h, rec, s, all, Model(req), r, added);
  }

  lemma {:induction false} OutputMoves(h: Host, rec: Recording, s: Resuming, all: seq<Event>, delta: string, env: Env)
    requires TracksAt(rec.stream, s.i, s.live.calls, all) && Clean(s) && Clean(ResumeOutput(h, rec, s, delta, env).0)
    ensures Moves(h, rec, s, all, Output(delta), ResumeOutput(h, rec, s, delta, env))
  {
    TextOfTextMessage("assistant", delta);
    var r := ResumeOutput(h, rec, s, delta, env);
    var added := if s.i >= |rec.stream| then [Own(h, KOutput, BMessage(TextMessage("assistant", delta)))] else [];
    assert added == Added(s.live, r.0.live);
    MovesBy(h, rec, s, all, Output(delta), r, added);
  }

  lemma {:induction false} ReportMoves(h: Host, rec: Recording, s: Resuming, all: seq<Event>, result: ToolResult, env: Env)
    requires TracksAt(rec.stream, s.i, s.live.calls, all) && Clean(s) && Clean(ResumeReport(h, rec, s, result, env).0)
    ensures Moves(h, rec, s, all, Report(result), ResumeReport(h, rec, s, result, env))
  {
    var r := ResumeReport(h, rec, s, result, env);
    var added := if r.1.Accepted? && s.i >= |rec.stream| then [Own(h, KToolResult, BResult(result))] else [];
    assert added == Added(s.live, r.0.live);
    var p := s.i + |all| - |rec.stream|;
    assert (all + added)[..p] == all[..p];
    MovesBy(h, rec, s, all, Report(result), r, added);
  }

  lemma {:induction false} AccountMoves(h: Host, rec: Recording, s: Resuming, all: seq<Event>, usage: Usage, env: Env)
    requires TracksAt(rec.stream, s.i, s.live.calls, all) && Clean(s) && Clean(ResumeAccount(h, rec, s, usage, env).0)
    ensures Moves(h, rec, s, all, Account(usage), ResumeAccount(h, rec, s, usage, env))
  {
    var r := ResumeAccount(h, rec, s, usage, env);
    var added := if s.i >= |rec.stream| then [Own(h, KUsage, BUsage(usage))] else [];
    assert added == Added(s.live, r.0.live);
    MovesBy(h, rec, s, all, Account(usage), r, added);
  }

  lemma {:induction false} MatchesItself(call: ToolCall)
    requires call.key != ""
    requires call.mediation.ControllerMediated? || (call.mediation.RequiresApproval? && call.id != "")
    ensures MatchesCall(call, call)
  {
  }

  /** What running a recorded tool adds. */
  lemma {:induction false} ExecAdds(h: Host, s: Live, call: ToolCall, env: Env)
    requires !ExecCall(h, s, call, env).0.fenced
    ensures var (t, a) := ExecCall(h, s, call, env);
      && t.calls == s.calls
      && s.journal <= t.journal
      && match a
         case Returned(result) => result.id == call.id && Added(s, t) == [Own(h, KToolResult, BResult(result))]
         case Failed(_) => t.journal == s.journal
         case _ => false
  {
  }

  /** What a live call that leaves a record and does not park does. */
  lemma {:induction false} LiveCallAdds(h: Host, s: Live, call: ToolCall, env: Env)
    requires var t := LiveCall(h, s, call, env).0; t != s && !t.fenced && t.guard.stop.None?
    ensures var (t, a) := LiveCall(h, s, call, env);
      && !call.mediation.RequiresApproval?
      && MatchesCall(call, call)
      && t.calls == s.calls[call.id := false]
      && s.journal <= t.journal
      && match a
         case Returned(result) =>
           result.id == call.id &&
           Added(s, t) == [Own(h, KToolCall, BToolCall(call)), Own(h, KToolResult, BResult(result))]
         case Failed(_) => Added(s, t) == [Own(h, KToolCall, BToolCall(call))]
         case _ => false
  {
    MatchesItself(call);
    var called := Put(s, h.executionId, KToolCall, BToolCall(call), env.room);
    ExecAdds(h, called.(calls := called.calls[call.id := false]), call, env.(room := env.room - 1));
  }

  /** A call past the recorded prefix that leaves a record. */
  lemma {:induction false} LiveCallMoves(h: Host, rec: Recording, s: Resuming, all: seq<Event>, call: ToolCall, env: Env)
    requires TracksAt(rec.stream, s.i, s.live.calls, all) && Clean(s) && s.i == |rec.stream|
    requires Clean(OnLive(s, LiveCall(h, s.live, call, env)).0)
    requires LiveCall(h, s.live, call, env).0 != s.live
    ensures Moves(h, rec, s, all, Call(call), OnLive(s, LiveCall(h, s.live, call, env)))
  {
    LiveCallAdds(h, s.live, call, env);
    var r := OnLive(s, LiveCall(h, s.live, call, env));
    LiveCallMovesBy(h, rec, s, all, call, r, Added(s.live, r.0.live));
  }

  lemma {:induction false} LiveCallMovesBy(h: Host, rec: Recording, s: Resuming, all: seq<Event>, call: ToolCall, r: (Resuming, Answer), added: seq<Event>)
    requires TracksAt(rec.stream, s.i, s.live.calls, all) && s.i == r.0.i == |rec.stream|
    requires s.live.journal <= r.0.live.journal && added == Added(s.live, r.0.live)
    requires MatchesCall(call, call) && !call.mediation.RequiresApproval?
    requires r.0.live.calls == s.live.calls[call.id := false]
    requires
      || (r.1.Failed? && added == [Own(h, KToolCall, BToolCall(call))])
      || (r.1.Returned? && r.1.result.id == call.id &&
          added == [Own(h, KToolCall, BToolCall(call)), Own(h, KToolResult, BResult(r.1.result))])
    ensures Moves(h, rec, s, all, Call(call), r)
  {
    MovesBy(h, rec, s, all, Call(call), r, added);
  }

  /** What completing a decided gate adds. */
  lemma {:induction false} CompleteAdds(h: Host, s: Live, g: Gate, env: Env)
    requires g.request.Some? && HasDecision(g)
    requires var t := CompleteApproval(h, s, g, env).0; !t.fenced && t.guard.stop.None?
    ensures var (t, a) := CompleteApproval(h, s, g, env);
      && t.calls == s.calls
      && s.journal <= t.journal
      && a.Returned?
      && Added(s, t) == [Own(h, KToolResult, BResult(a.result.(approval := None)))]
      && a.result.approval == Some(g.decision.value.event.body.decision)
  {
  }

  /** What a served gate does: it gives back the recorded receipt, or completes the decision it finds last. */
  lemma {:induction false} GateServes(h: Host, rec: Recording, s: Resuming, call: ToolCall, env: Env)
    requires Clean(s) && s.i < |rec.stream|
    requires IsGatedCall(rec.stream[s.i]) && GateAt(rec.stream, rec.gates, s.i)
    requires ResumeCall(h, rec, s, call, env).0.i > s.i && Clean(ResumeCall(h, rec, s, call, env).0)
    ensures var (t, a) := ResumeCall(h, rec, s, call, env);
      var recorded := rec.stream[s.i].body.toolCall;
      && MatchesCall(call, recorded)
      && t.live.calls == s.live.calls[recorded.id := true]
      && a.Returned?
      && s.i + 2 < |rec.stream|
      && s.live.journal <= t.live.journal
      && if s.i + 3 < |rec.stream| then t.i == s.i + 4 && t.live.journal == s.live.journal && AnsweredGate(rec.stream, s.i, a.result)
         else t.i == s.i + 3 && Added(s.live, t.live) == [Own(h, KToolResult, BResult(a.result.(approval := None)))] &&
              rec.stream[s.i + 2].body.BApprovalResult? && a.result.approval == Some(rec.stream[s.i + 2].body.decision)
  {
    var recorded := rec.stream[s.i].body.toolCall;
    var g := rec.gates[recorded.id];
    var u := s.(i := s.i + 1, live := s.live.(calls := s.live.calls[recorded.id := true]));
    assert ResumeCall(h, rec, s, call, env) == ResumeGate(h, rec, u, recorded.id, env);
    if DecidedNext(rec, u.i, recorded.id) && g.receipt.None? {
      CompleteAdds(h, u.live, g, env);
    }
  }

  lemma {:induction false} ServedGateMoves(h: Host, rec: Recording, s: Resuming, all: seq<Event>, call: ToolCall, env: Env)
    requires TracksAt(rec.stream, s.i, s.live.calls, all) && Clean(s) && s.i < |rec.stream|
    requires IsGatedCall(rec.stream[s.i]) && GateAt(rec.stream, rec.gates, s.i)
    requires ResumeCall(h, rec, s, call, env).0.i > s.i && Clean(ResumeCall(h, rec, s, call, env).0)
    ensures Moves(h, rec, s, all, Call(call), ResumeCall(h, rec, s, call, env))
  {
    GateServes(h, rec, s, call, env);
    var r := ResumeCall(h, rec, s, call, env);
    var added := if s.i + 3 < |rec.stream| then [] else [Own(h, KToolResult, BResult(r.1.result.(approval := None)))];
    GateMovesBy(h, rec, s, all, call, r, added);
  }

  lemma {:induction false} GateMovesBy(h: Host, rec: Recording, s: Resuming, all: seq<Event>, call: ToolCall, r: (Resuming, Answer), added: seq<Event>)
    requires TracksAt(rec.stream, s.i, s.live.calls, all) && s.i + 2 < |rec.stream|
    requires s.live.journal <= r.0.live.journal && added == Added(s.live, r.0.live) && r.1.Returned?
    requires IsGatedCall(rec.stream[s.i]) && MatchesCall(call, rec.stream[s.i].body.toolCall)
    requires rec.stream[s.i + 1].kind.KApprovalRequest? && rec.stream[s.i + 2].kind.KApprovalResult?
    requires r.0.live.calls == s.live.calls[call.id := true]
    requires
      if added == [] then r.0.i == s.i + 4 && AnsweredGate(rec.stream, s.i, r.1.result)
      else
        && r.0.i == s.i + 3 == |rec.stream|
        && added == [Own(h, KToolResult, BResult(r.1.result.(approval := None)))]
        && rec.stream[s.i + 2].body.BApprovalResult?
        && r.1.result.approval == Some(rec.stream[s.i + 2].body.decision)
    ensures Moves(h, rec, s, all, Call(call), r)
  {
    assert all == rec.stream;
    assert AnsweredGate(all + added, s.i, r.1.result);
    MovesBy(h, rec, s, all, Call(call), r, added);
  }

  lemma {:induction false} ServedOrdinaryMoves(h: Host, rec: Recording, s: Resuming, all: seq<Event>, call: ToolCall, env: Env)
    requires TracksAt(rec.stream, s.i, s.live.calls, all) && Clean(s) && s.i < |rec.stream|
    requires !IsGatedCall(rec.stream[s.i])
    requires ResumeCall(h, rec, s, call, env).0.i > s.i && Clean(ResumeCall(h, rec, s, call, env).0)
    ensures Moves(h, rec, s, all, Call(call), ResumeCall(h, rec, s, call, env))
  {
    var r := ResumeCall(h, rec, s, call, env);
    var recorded := rec.stream[s.i].body.toolCall;
    var added := if s.i + 1 == |rec.stream| && r.1.Returned? then [Own(h, KToolResult, BResult(r.1.result))] else [];
    if s.i + 1 == |rec.stream| {
      ExecAdds(h, s.live.(calls := s.live.calls[recorded.id := false]), recorded, env);
    }
    assert added == Added(s.live, r.0.live);
    MovesBy(h, rec, s, all, Call(call), r, added);
  }

  /** A refused call moves nothing. */
  lemma {:induction false} RefusedMoves(h: Host, rec: Recording, s: Resuming, all: seq<Event>, call: ToolCall, r: (Resuming, Answer))
    requires TracksAt(rec.stream, s.i, s.live.calls, all)
    requires r.0 == s && r.1.Failed?
    ensures Moves(h, rec, s, all, Call(call), r)
  {
    MovesBy(h, rec, s, all, Call(call), r, []);
  }

  lemma {:induction false} CallMoves(h: Host, rec: Recording, s: Resuming, all: seq<Event>, call: ToolCall, env: Env)
    requires TracksAt(rec.stream, s.i, s.live.calls, all) && Clean(s) && GatesAgree(rec.stream, rec.gates)
    requires Clean(ResumeCall(h, rec, s, call, env).0)
    ensures Moves(h, rec, s, all, Call(call), ResumeCall(h, rec, s, call, env))
  {
    var r := ResumeCall(h, rec, s, call, env);
    if r.0 == s {
      RefusedMoves(h, rec, s, all, call, r);
    } else if s.i == |rec.stream| {
      LiveCallMoves(h, rec, s, all, call, env);
    } else if IsGatedCall(rec.stream[s.i]) {
      ServedGateMoves(h, rec, s, all, call, env);
    } else {
      ServedOrdinaryMoves(h, rec, s, all, call, env);
    }
  }

  /** Every clean step goes through the records its operation makes. */
  lemma {:induction false} StepMoves(h: Host, rec: Recording, s: Resuming, all: seq<Event>, op: Op, env: Env)
    requires TracksAt(rec.stream, s.i, s.live.calls, all) && Clean(s) && GatesAgree(rec.stream, rec.gates)
    requires Clean(ResumeStep(h, rec, s, op, env).0)
    ensures Moves(h, rec, s, all, op, ResumeStep(h, rec, s, op, env))
  {
    match op
    case Model(req) =>
      if s.i < |rec.stream| { ServedModelMoves(h, rec, s, all, req, env); } else { LiveModelMoves(h, rec, s, all, req, env); }
    case Output(delta) => OutputMoves(h, rec, s, all, delta, env);
    case Report(result) => ReportMoves(h, rec, s, all, result, env);
    case Account(usage) => AccountMoves(h, rec, s, all, usage, env);
    case Call(call) => CallMoves(h, rec, s, all, call, env);
  }

  // ---- whole runs ----

  lemma {:induction false} LiveGrows(h: Host, s: Live, call: ToolCall, env: Env)
    ensures s.journal <= ExecCall(h, s, call, env).0.journal
    ensures s.journal <= LiveCall(h, s, call, env).0.journal
  {
  }

  lemma {:induction false} CompleteGrows(h: Host, s: Live, g: Gate, env: Env)
    requires g.request.Some? && HasDecision(g)
    ensures s.journal <= CompleteApproval(h, s, g, env).0.journal
  {
  }

  lemma {:induction false} CallGrows(h: Host, rec: Recording, s: Resuming, call: ToolCall, env: Env)
    ensures s.live.journal <= ResumeCall(h, rec, s, call, env).0.live.journal
  {
    hide ExecCall, LiveCall, CompleteApproval;
    LiveGrows(h, s.live, call, env);
    if NextIsCall(rec.stream, s.i) {
      var recorded := rec.stream[s.i].body.toolCall;
      var live := s.live.(calls := s.live.calls[recorded.id := recorded.mediation.RequiresApproval?]);
      LiveGrows(h, live, recorded, env);
      if DecidedNext(rec, s.i + 1, recorded.id) { CompleteGrows(h, live, rec.gates[recorded.id], env); }
    }
  }

  /** A journal only grows. */
  lemma {:induction false} StepGrows(h: Host, rec: Recording, s: Resuming, op: Op, env: Env)
    ensures s.live.journal <= ResumeStep(h, rec, s, op, env).0.live.journal
  {
    hide ResumeCall;
    if op.Call? { CallGrows(h, rec, s, op.call, env); }
  }

  /** A fault, a stop and a lost fence stay. */
  lemma {:induction false} CleanBefore(h: Host, rec: Recording, s: Resuming, op: Op, env: Env)
    requires Clean(ResumeStep(h, rec, s, op, env).0)
    ensures Clean(s)
  {
  }

  lemma {:induction false} MovesTracks(h: Host, rec: Recording, s: Resuming, op: Op, r: (Resuming, Answer))
    requires Moves(h, rec, s, Effects(h, s), op, r)
    ensures Tracks(h, rec, r.0)
    ensures Effects(h, s) <= Effects(h, r.0)
    ensures Went(h, Effects(h, r.0), op, r.1, Pos(h, rec, s), Pos(h, rec, r.0))
    ensures Pos(h, rec, r.0) == Pos(h, rec, s) ==> r.0.i == s.i
    ensures Effects(h, r.0) == Effects(h, s) ==> r.0.live.journal == s.live.journal
  {
    hide Went;
    EffectsExtend(h, s.live.journal, r.0.live.journal, Added(s.live, r.0.live));
  }

  /** A clean step stays on track and goes through the records its operation makes. */
  lemma {:induction false} StepTracks(h: Host, rec: Recording, s: Resuming, op: Op, env: Env)
    requires Tracks(h, rec, s) && GatesAgree(rec.stream, rec.gates)
    requires Clean(ResumeStep(h, rec, s, op, env).0)
    ensures var (t, a) := ResumeStep(h, rec, s, op, env);
      && Tracks(h, rec, t)
      && Effects(h, s) <= Effects(h, t)
      && s.i <= t.i
      && Went(h, Effects(h, t), op, a, Pos(h, rec, s), Pos(h, rec, t))
      && (Pos(h, rec, t) == Pos(h, rec, s) ==> t.i == s.i && Effects(h, t) == Effects(h, s))
      && (Effects(h, t) == Effects(h, s) ==> t.live.journal == s.live.journal)
  {
    hide ResumeOp;
    CleanBefore(h, rec, s, op, env);
    StepMoves(h, rec, s, Effects(h, s), op, env);
    MovesTracks(h, rec, s, op, ResumeStep(h, rec, s, op, env));
  }

  /** A run that ends clean was clean and on track throughout. */
  lemma {:induction false} RunTracks(h: Host, rec: Recording, har: Harness, envs: nat -> Env, s: Resuming, seen: seq<Seen>, budget: nat)
    requires Tracks(h, rec, s) && GatesAgree(rec.stream, rec.gates)
    requires Clean(ResumeRun(h, rec, har, envs, s, seen, budget).sink)
    ensures var t := ResumeRun(h, rec, har, envs, s, seen, budget).sink;
      Clean(s) && Tracks(h, rec, t) && Effects(h, s) <= Effects(h, t) && s.i <= t.i
    decreases budget
  {
    hide ResumeStep;
    match har(seen)
    case Return(_) =>
    case Emit(op) =>
      if budget > 0 {
        var r := ResumeStep(h, rec, s, op, envs(|seen|));
        if Clean(r.0) { StepTracks(h, rec, s, op, envs(|seen|)); } else { RunStaysUnclean(h, rec, har, envs, r.0, seen + [See(r.1)], budget - 1); }
        RunTracks(h, rec, har, envs, r.0, seen + [See(r.1)], budget - 1);
        CleanBefore(h, rec, s, op, envs(|seen|));
      }
  }

  lemma {:induction false} RunStaysUnclean(h: Host, rec: Recording, har: Harness, envs: nat -> Env, s: Resuming, seen: seq<Seen>, budget: nat)
    requires !Clean(s)
    ensures !Clean(ResumeRun(h, rec, har, envs, s, seen, budget).sink)
    decreases budget
  {
    hide ResumeStep;
    match har(seen)
    case Return(_) =>
    case Emit(op) =>
      if budget > 0 {
        var r := ResumeStep(h, rec, s, op, envs(|seen|));
        if Clean(r.0) { CleanBefore(h, rec, s, op, envs(|seen|)); }
        RunStaysUnclean(h, rec, har, envs, r.0, seen + [See(r.1)], budget - 1);
      }
  }

  lemma {:induction false} RunKeepsSeen(h: Host, rec: Recording, har: Harness, envs: nat -> Env, s: Resuming, seen: seq<Seen>, budget: nat)
    ensures seen <= ResumeRun(h, rec, har, envs, s, seen, budget).seen
    decreases budget
  {
    hide ResumeStep;
    match har(seen)
    case Return(_) =>
    case Emit(op) =>
      if budget > 0 {
        var r := ResumeStep(h, rec, s, op, envs(|seen|));
        RunKeepsSeen(h, rec, har, envs, r.0, seen + [See(r.1)], budget - 1);
      }
  }

  lemma {:induction false} RunGrows(h: Host, rec: Recording, har: Harness, envs: nat -> Env, s: Resuming, seen: seq<Seen>, budget: nat)
    ensures s.live.journal <= ResumeRun(h, rec, har, envs, s, seen, budget).sink.live.journal
    decreases budget
  {
    hide ResumeStep;
    match har(seen)
    case Return(_) =>
    case Emit(op) =>
      if budget > 0 {
        var r := ResumeStep(h, rec, s, op, envs(|seen|));
        StepGrows(h, rec, s, op, envs(|seen|));
        RunGrows(h, rec, har, envs, r.0, seen + [See(r.1)], budget - 1);
      }
  }

  lemma {:induction false} LiveLeavesOpen(h: Host, s: Live, op: Op, env: Env)
    ensures LiveOp(h, s, op, env).0.guard.closed == s.guard.closed
  {
  }

  lemma {:induction false} CompletingLeavesOpen(h: Host, s: Live, env: Env)
    ensures CompleteModel(h, s, env).0.guard.closed == s.guard.closed
    ensures forall call: ToolCall :: ExecCall(h, s, call, env).0.guard.closed == s.guard.closed
    ensures forall g: Gate | g.request.Some? && HasDecision(g) :: CompleteApproval(h, s, g, env).0.guard.closed == s.guard.closed
  {
  }

  lemma {:induction false} StepLeavesOpen(h: Host, rec: Recording, s: Resuming, op: Op, env: Env)
    ensures ResumeStep(h, rec, s, op, env).0.live.guard.closed == s.live.guard.closed
  {
    hide LiveModel, LiveOutput, LiveCall, LiveReport, LiveAccount, CompleteModel, ExecCall, CompleteApproval, MatchesCall, KeylessRefused, FallbackRefused,
         UsageAt, ReceiptServes;
    LiveLeavesOpen(h, s.live, op, env);
    CompletingLeavesOpen(h, s.live, env);
    if op.Call? && NextIsCall(rec.stream, s.i) {
      var recorded := rec.stream[s.i].body.toolCall;
      CompletingLeavesOpen(h, s.live.(calls := s.live.calls[recorded.id := recorded.mediation.RequiresApproval?]), env);
    }
  }

  /** Only the controller closes a sink, after the run. */
  lemma {:induction false} RunLeavesOpen(h: Host, rec: Recording, har: Harness, envs: nat -> Env, s: Resuming, seen: seq<Seen>, budget: nat)
    ensures ResumeRun(h, rec, har, envs, s, seen, budget).sink.live.guard.closed == s.live.guard.closed
    decreases budget
  {
    hide ResumeStep;
    match har(seen)
    case Return(_) =>
    case Emit(op) =>
      if budget > 0 {
        var r := ResumeStep(h, rec, s, op, envs(|seen|));
        StepLeavesOpen(h, rec, s, op, envs(|seen|));
        RunLeavesOpen(h, rec, har, envs, r.0, seen + [See(r.1)], budget - 1);
      }
  }
}
