/** What the sinks write, a scan accepts.

A sink that starts on a journal whose execution a scan accepts leaves one it accepts, wherever it is
stopped: between two records, with the fence lost, or parked. */
module Upkeep {
  import opened Api
  import opened Approval
  import opened Sinks
  import opened Evidence
  import opened Runs

  /** What an invocation of an execution is served from. */
  function RecordingOf(journal: seq<Entry>, id: string): Recording
    requires Fold(EntriesOf(journal, id)).Ok?
  {
    Recording(EffectsOf(journal, id), GateMap(Fold(EntriesOf(journal, id)).value.gates))
  }

  /** The scanned evidence of an execution. */
  function Scanned(journal: seq<Entry>, id: string): Execution
    requires Fold(EntriesOf(journal, id)).Ok?
  {
    Fold(EntriesOf(journal, id)).value
  }

  /** One more record is one more step of the scan. */
  lemma {:induction false} ScanSnoc(journal: seq<Entry>, e: Entry, id: string)
    requires Fold(EntriesOf(journal, id)).Ok?
    ensures Fold(EntriesOf(journal + [e], id)) ==
      if Of(e, id) then Step(Scanned(journal, id), EntriesOf(journal, id) == [], e) else Fold(EntriesOf(journal, id))
  {
    assert (journal + [e])[..|journal|] == journal;
    var es := EntriesOf(journal, id);
    assert (es + [e])[..|es|] == es;
  }

  /** The scan still accepts, and found these calls and these gates; the execution is not over. */
  ghost predicate Shows(h: Host, journal: seq<Entry>, x: Execution)
  {
    Fold(EntriesOf(journal, h.executionId)) == Ok(x) && !x.completed
  }

  /** Writing one effect when no gate is open. */
  lemma {:induction false} PutShows(h: Host, s: Live, kind: Kind, body: Body, room: nat, x: Execution, y: Execution)
    requires Shows(h, s.journal, x) && IsEffect(kind)
    requires Step(x, false, Entry(Head(s.journal) + 1, Event(h.executionId, kind, body, NO_IDENTITY))) == Ok(y)
    ensures var t := Put(s, h.executionId, kind, body, room);
      if t.fenced then t.journal == s.journal else Shows(h, t.journal, y)
  {
    var e := Entry(Head(s.journal) + 1, Event(h.executionId, kind, body, NO_IDENTITY));
    hide EntriesOf, Fold;
    ScanSnoc(s.journal, e, h.executionId);
    StepCompleted(x, e);
  }

  lemma {:induction false} StepCompleted(x: Execution, e: Entry)
    requires IsEffect(e.event.kind) && Step(x, false, e).Ok?
    ensures Step(x, false, e).value.completed == x.completed
    ensures forall first :: Step(x, first, e) == Step(x, false, e)
  {
  }

  /** The scan accepts the journal, and the execution is not over. */
  ghost predicate Sound(h: Host, journal: seq<Entry>)
  {
    Fold(EntriesOf(journal, h.executionId)).Ok? && !Scanned(journal, h.executionId).completed
  }

  // ---- live operations ----

  /** Operations whose records the scan passes over when no gate is open. */
  lemma {:induction false} PlainKeeps(h: Host, s: Live, op: Op, env: Env, x: Execution)
    requires Shows(h, s.journal, x) && !IsOpen(x) && s.calls == x.calls && !op.Call?
    ensures Shows(h, LiveOp(h, s, op, env).0.journal, x)
  {
    hide EntriesOf, Fold, Shows;
    match op
    case Model(req) =>
      var body := BModelCall(ModelCall(req.model, h.hashInput(req), env.callId));
      PutShows(h, s, KModelCall, body, env.room, x, x);
      var called := Put(s, h.executionId, KModelCall, body, env.room);
      if !called.fenced { CompleteKeeps(h, called, env.(room := env.room - 1), x); }
    case Output(delta) => PutShows(h, s, KOutput, BMessage(TextMessage("assistant", delta)), env.room, x, x);
    case Report(r) =>
      if !Gated(s.calls, r.id) && !ClaimsReceipt(r) { PutShows(h, s, KToolResult, BResult(r), env.room, x, x); }
    case Account(u) => PutShows(h, s, KUsage, BUsage(u), env.room, x, x);
  }

  lemma {:induction false} CompleteKeeps(h: Host, s: Live, env: Env, x: Execution)
    requires Shows(h, s.journal, x) && !IsOpen(x)
    ensures Shows(h, CompleteModel(h, s, env).0.journal, x)
  {
    hide EntriesOf, Fold, Shows;
    if env.model.Some? {
      PutShows(h, s.(modelRuns := s.modelRuns + 1), KOutput, BMessage(env.model.value.message), env.room, x, x);
    }
  }

  lemma {:induction false} ExecKeeps(h: Host, s: Live, call: ToolCall, env: Env, x: Execution)
    requires Shows(h, s.journal, x) && !IsOpen(x) && !Gated(x.calls, call.id)
    ensures Shows(h, ExecCall(h, s, call, env).0.journal, x)
  {
    hide EntriesOf, Fold, Shows;
    var ran := s.(invocations := s.invocations + [Invocation(call, |s.journal|)]);
    if !ClaimsReceipt(env.tool.result) {
      PutShows(h, ran, KToolResult, BResult(env.tool.result.(id := call.id)), env.room, x, x);
    }
  }

  /** The gate a parking call opens. */
  function Opened(x: Execution, call: ToolCall, num: int): Execution
  {
    x.(calls := x.calls[call.id := true], gates := x.gates + [Gate(call, num, None, None, None)])
  }

  lemma {:induction false} ParkKeeps(h: Host, s: Live, call: ToolCall, env: Env, x: Execution)
    requires Shows(h, s.journal, x) && !IsOpen(x) && s.calls == x.calls && call.mediation.RequiresApproval?
    ensures Sound(h, ParkCall(h, s, call, env).0.journal)
  {
    hide EntriesOf, Fold;
    var e := Entry(Head(s.journal) + 1, Event(h.executionId, KToolCall, BToolCall(call), NO_IDENTITY));
    if call.id != "" && call.key != "" && call.id !in s.calls {
      var y := Opened(x, call, e.num);
      assert StepCall(x, e) == Ok(y);
      PutShows(h, s, KToolCall, BToolCall(call), env.room, x, y);
      var called := Put(s, h.executionId, KToolCall, BToolCall(call), env.room);
      if !called.fenced {
        var ask := Entry(Head(called.journal) + 1, Event(h.executionId, KApprovalRequest, BApproval(ApprovalRequest(call.id, "")), NO_IDENTITY));
        PutShows(h, called.(calls := called.calls[call.id := true]), KApprovalRequest, ask.event.body, env.room - 1,
                 y, WithLast(y, LastGate(y).(request := Some(ask))));
      }
    }
  }

  lemma {:induction false} LiveCallKeeps(h: Host, s: Live, call: ToolCall, env: Env, x: Execution)
    requires Shows(h, s.journal, x) && !IsOpen(x) && s.calls == x.calls
    ensures Sound(h, LiveCall(h, s, call, env).0.journal)
  {
    hide EntriesOf, Fold, ExecCall, ParkCall;
    if call.mediation.RequiresApproval? {
      ParkKeeps(h, s, call, env, x);
    } else if !Gated(s.calls, call.id) {
      var y := x.(calls := x.calls[call.id := false]);
      assert StepCall(x, Entry(Head(s.journal) + 1, Event(h.executionId, KToolCall, BToolCall(call), NO_IDENTITY))) == Ok(y);
      PutShows(h, s, KToolCall, BToolCall(call), env.room, x, y);
      var called := Put(s, h.executionId, KToolCall, BToolCall(call), env.room);
      if !called.fenced {
        ExecKeeps(h, called.(calls := called.calls[call.id := false]), call, env.(room := env.room - 1), y);
      }
    }
  }

  lemma {:induction false} ReceiptFitsDecision(decision: ApprovalResult, reply: ToolReply)
    ensures ReceiptFits(decision, DecidedOutcome(decision, reply))
  {
  }

  lemma {:induction false} ApprovalKeeps(h: Host, s: Live, g: Gate, env: Env, x: Execution)
    requires Shows(h, s.journal, x) && IsOpen(x) && g == LastGate(x) && g.request.Some? && HasDecision(g)
    ensures Sound(h, CompleteApproval(h, s, g, env).0.journal)
  {
    hide EntriesOf, Fold, DecidedOutcome;
    var decision := g.decision.value.event.body.decision;
    ReceiptFitsDecision(decision, env.tool);
    var receipt := ReceiptOf(g, DecidedOutcome(decision, env.tool));
    var ran := if decision.approved then s.(invocations := s.invocations + [Invocation(g.call, |s.journal|)]) else s;
    var e := Entry(Head(s.journal) + 1, Event(h.executionId, KToolResult, BResult(receipt), NO_IDENTITY));
    assert StepResult(x, e) == Ok(WithLast(x, g.(receipt := Some(e))));
    PutShows(h, ran, KToolResult, BResult(receipt), env.room, x, WithLast(x, g.(receipt := Some(e))));
  }

  // ---- a resumed run ----

  /** The harness has not reached the open gate yet. */
  ghost predicate Ahead(x: Execution, all: seq<Event>, p: nat)
  {
    IsOpen(x) ==> p + OpenLength(LastGate(x)) <= |all|
  }

  /** What a run resumed from journal keeps: it serves what the journal recorded, writes nothing until
  that is all served, and leaves a journal the scan accepts. */
  ghost predicate Upheld(h: Host, journal: seq<Entry>, rec: Recording, s: Resuming)
  {
    && Fold(EntriesOf(journal, h.executionId)).Ok? && rec == RecordingOf(journal, h.executionId)
    && Tracks(h, rec, s)
    && (s.i < |rec.stream| ==> s.live.journal == journal)
    && Sound(h, s.live.journal)
    && Ahead(Scanned(s.live.journal, h.executionId), Effects(h, s), Pos(h, rec, s))
  }

  /** The two views of the execution agree. */
  lemma {:induction false} Agreed(h: Host, journal: seq<Entry>)
    requires Fold(EntriesOf(journal, h.executionId)).Ok?
    ensures Agrees(EffectsOf(journal, h.executionId), Scanned(journal, h.executionId))
  {
    FoldAgrees(EntriesOf(journal, h.executionId));
  }

  /** Going live means that no gate is open. */
  lemma {:induction false} LiveIsClosed(h: Host, journal: seq<Entry>, rec: Recording, s: Resuming)
    requires Upheld(h, journal, rec, s) && s.i == |rec.stream|
    ensures var x := Scanned(s.live.journal, h.executionId);
      Shows(h, s.live.journal, x) && !IsOpen(x) && s.live.calls == x.calls
  {
    hide Fold, EntriesOf;
    Agreed(h, s.live.journal);
    assert Effects(h, s)[..|Effects(h, s)|] == Effects(h, s);
  }

  /** A trailing record that is no part of a gate: no gate is open. */
  lemma {:induction false} TrailingIsClosed(h: Host, journal: seq<Entry>, rec: Recording, s: Resuming)
    requires Upheld(h, journal, rec, s) && s.i + 1 == |rec.stream| && !IsGatedCall(rec.stream[s.i])
    ensures var x := Scanned(s.live.journal, h.executionId);
      && Shows(h, s.live.journal, x) && !IsOpen(x)
      && (IsCall(rec.stream[s.i]) ==> !Gated(x.calls, rec.stream[s.i].body.toolCall.id))
  {
    hide Fold, EntriesOf, Tracks;
    Agreed(h, s.live.journal);
    var all := Effects(h, s);
    assert all == rec.stream;
    if IsCall(all[s.i]) {
      assert all == all[..s.i] + [all[s.i]];
      CallsInSnoc(all[..s.i], all[s.i]);
    }
  }

  /** A decided gate without a receipt is the open one. */
  lemma {:induction false} DecidedIsLast(h: Host, journal: seq<Entry>, rec: Recording, s: Resuming)
    requires Upheld(h, journal, rec, s) && s.i < |rec.stream| && IsGatedCall(rec.stream[s.i])
    requires var id := rec.stream[s.i].body.toolCall.id; DecidedNext(rec, s.i + 1, id) && rec.gates[id].receipt.None?
    ensures var x := Scanned(s.live.journal, h.executionId);
      Shows(h, s.live.journal, x) && IsOpen(x) && LastGate(x) == rec.gates[rec.stream[s.i].body.toolCall.id]
  {
    hide Fold, EntriesOf;
    Agreed(h, s.live.journal);
    var x := Scanned(s.live.journal, h.executionId);
    assert GateAt(rec.stream, rec.gates, s.i);
    if IsOpen(x) {
      GateMapLast(x.gates, LastGate(x));
      if s.i != |rec.stream| - OpenLength(LastGate(x)) { OpenIsLast(rec.stream, x, s.i); }
    }
  }

  /** A clean step never ends inside the records of the open gate. */
  lemma {:induction false} AheadStays(h: Host, all: seq<Event>, x: Execution, op: Op, a: Answer, p: nat, q: nat)
    requires Agrees(all, x) && Ahead(x, all, p) && Went(h, all, op, a, p, q)
    ensures Ahead(x, all, q)
  {
    if IsOpen(x) {
      var g := |all| - OpenLength(LastGate(x));
      assert IsGatedCall(all[g]);
    }
  }

  lemma {:induction false} PlainSound(h: Host, journal: seq<Entry>, rec: Recording, s: Resuming, op: Op, env: Env)
    requires Upheld(h, journal, rec, s) && !op.Call?
    ensures Sound(h, ResumeOp(h, rec, s, op, env).0.live.journal)
  {
    hide Fold, EntriesOf, LiveModel, CompleteModel, LiveOutput, LiveReport, LiveAccount;
    if s.i == |rec.stream| {
      LiveIsClosed(h, journal, rec, s);
      PlainKeeps(h, s.live, op, env, Scanned(s.live.journal, h.executionId));
    } else if s.i + 1 == |rec.stream| && op.Model? && rec.stream[s.i].kind.KModelCall? {
      TrailingIsClosed(h, journal, rec, s);
      CompleteKeeps(h, s.live, env, Scanned(s.live.journal, h.executionId));
    }
  }

  lemma {:induction false} CallSound(h: Host, journal: seq<Entry>, rec: Recording, s: Resuming, call: ToolCall, env: Env)
    requires Upheld(h, journal, rec, s)
    ensures Sound(h, ResumeCall(h, rec, s, call, env).0.live.journal)
  {
    hide Fold, EntriesOf, LiveCall, ExecCall, CompleteApproval;
    var x := Scanned(s.live.journal, h.executionId);
    if s.i == |rec.stream| {
      LiveIsClosed(h, journal, rec, s);
      LiveCallKeeps(h, s.live, call, env, x);
    } else if IsCall(rec.stream[s.i]) {
      var recorded := rec.stream[s.i].body.toolCall;
      var live := s.live.(calls := s.live.calls[recorded.id := recorded.mediation.RequiresApproval?]);
      if IsGatedCall(rec.stream[s.i]) {
        if DecidedNext(rec, s.i + 1, recorded.id) && rec.gates[recorded.id].receipt.None? {
          DecidedIsLast(h, journal, rec, s);
          ApprovalKeeps(h, live, rec.gates[recorded.id], env, x);
        }
      } else if s.i + 1 == |rec.stream| {
        TrailingIsClosed(h, journal, rec, s);
        ExecKeeps(h, live, recorded, env, x);
      }
    }
  }

  /** Whatever a step does, the scan accepts what it leaves. */
  lemma {:induction false} StepSound(h: Host, journal: seq<Entry>, rec: Recording, s: Resuming, op: Op, env: Env)
    requires Upheld(h, journal, rec, s)
    ensures Sound(h, ResumeStep(h, rec, s, op, env).0.live.journal)
  {
    hide Upheld, ResumeOp;
    assert Sound(h, s.live.journal) by { UpheldIsSound(h, journal, rec, s); }
    match op
    case Call(call) => CallSound(h, journal, rec, s, call, env); CallOp(h, rec, s, call, env);
    case _ => PlainSound(h, journal, rec, s, op, env);
  }

  lemma {:induction false} UpheldIsSound(h: Host, journal: seq<Entry>, rec: Recording, s: Resuming)
    requires Upheld(h, journal, rec, s)
    ensures Sound(h, s.live.journal)
  {
  }

  lemma {:induction false} CallOp(h: Host, rec: Recording, s: Resuming, call: ToolCall, env: Env)
    ensures ResumeOp(h, rec, s, Call(call), env) == ResumeCall(h, rec, s, call, env)
  {
    hide ResumeCall;
  }

  /** A clean step keeps everything. */
  lemma {:induction false} StepUpheld(h: Host, journal: seq<Entry>, rec: Recording, s: Resuming, op: Op, env: Env)
    requires Upheld(h, journal, rec, s) && Clean(ResumeStep(h, rec, s, op, env).0)
    ensures Upheld(h, journal, rec, ResumeStep(h, rec, s, op, env).0)
  {
    hide Fold, EntriesOf, ResumeStep;
    StepSound(h, journal, rec, s, op, env);
    Agreed(h, journal);
    StepTracks(h, rec, s, op, env);
    var (t, a) := ResumeStep(h, rec, s, op, env);
    Agreed(h, s.live.journal);
    Agreed(h, t.live.journal);
    StepAhead(h, rec, s, t, op, a);
  }

  lemma {:induction false} StepAhead(h: Host, rec: Recording, s: Resuming, t: Resuming, op: Op, a: Answer)
    requires Sound(h, s.live.journal) && Sound(h, t.live.journal)
    requires Tracks(h, rec, s) && Effects(h, s) <= Effects(h, t)
    requires Went(h, Effects(h, t), op, a, Pos(h, rec, s), Pos(h, rec, t))
    requires Agrees(Effects(h, s), Scanned(s.live.journal, h.executionId))
    requires Agrees(Effects(h, t), Scanned(t.live.journal, h.executionId))
    requires Ahead(Scanned(s.live.journal, h.executionId), Effects(h, s), Pos(h, rec, s))
    ensures Ahead(Scanned(t.live.journal, h.executionId), Effects(h, t), Pos(h, rec, t))
  {
    hide Fold, EntriesOf, Went, Agrees, Ahead;
    var x, y := Scanned(s.live.journal, h.executionId), Scanned(t.live.journal, h.executionId);
    StillAhead(Effects(h, s), x, Effects(h, t), y, Pos(h, rec, s));
    AheadStays(h, Effects(h, t), y, op, a, Pos(h, rec, s), Pos(h, rec, t));
  }

  /** Records added after the harness's position do not put an open gate behind it. */
  lemma {:induction false} StillAhead(all: seq<Event>, x: Execution, longer: seq<Event>, y: Execution, p: nat)
    requires Agrees(all, x) && Agrees(longer, y) && all <= longer && p <= |all| && Ahead(x, all, p)
    ensures Ahead(y, longer, p)
  {
    if IsOpen(y) {
      var g := |longer| - OpenLength(LastGate(y));
      if g < |all| {
        assert all[g] == longer[g];
        if IsOpen(x) && g != |all| - OpenLength(LastGate(x)) { OpenIsLast(all, x, g); }
      }
    }
  }

  // ---- whole runs ----

  /** A sink that has failed, was stopped or lost the fence writes nothing more. */
  lemma {:induction false} UncleanCallWritesNothing(h: Host, rec: Recording, s: Resuming, call: ToolCall, env: Env)
    requires s.live.fenced
    ensures ResumeCall(h, rec, s, call, env).0.live.journal == s.live.journal
  {
  }

  lemma {:induction false} UncleanWritesNothing(h: Host, rec: Recording, s: Resuming, op: Op, env: Env)
    requires !Clean(s)
    ensures ResumeStep(h, rec, s, op, env).0.live.journal == s.live.journal
  {
    hide ResumeCall;
    if op.Call? && s.live.fenced { UncleanCallWritesNothing(h, rec, s, op.call, env); }
  }

  lemma {:induction false} UncleanRunWritesNothing(h: Host, rec: Recording, har: Harness, envs: nat -> Env, s: Resuming, seen: seq<Seen>, budget: nat)
    requires !Clean(s)
    ensures ResumeRun(h, rec, har, envs, s, seen, budget).sink.live.journal == s.live.journal
    decreases budget
  {
    hide ResumeStep;
    match har(seen)
    case Return(_) =>
    case Emit(op) =>
      if budget > 0 {
        var r := ResumeStep(h, rec, s, op, envs(|seen|));
        UncleanWritesNothing(h, rec, s, op, envs(|seen|));
        if Clean(r.0) { CleanBefore(h, rec, s, op, envs(|seen|)); }
        UncleanRunWritesNothing(h, rec, har, envs, r.0, seen + [See(r.1)], budget - 1);
      }
  }

  /** However a run ends, a scan accepts what it leaves; if it ends clean, no gate is behind it. */
  lemma {:induction false} RunUpheld(h: Host, journal: seq<Entry>, rec: Recording, har: Harness, envs: nat -> Env, s: Resuming, seen: seq<Seen>, budget: nat)
    requires Upheld(h, journal, rec, s)
    ensures var e := ResumeRun(h, rec, har, envs, s, seen, budget);
      Sound(h, e.sink.live.journal) && (Clean(e.sink) ==> Upheld(h, journal, rec, e.sink))
    decreases budget
  {
    hide ResumeStep, Upheld, Sound;
    match har(seen)
    case Return(_) => UpheldIsSound(h, journal, rec, s);
    case Emit(op) =>
      if budget == 0 {
        UpheldIsSound(h, journal, rec, s);
      } else {
        var env := envs(|seen|);
        var (s', a) := ResumeStep(h, rec, s, op, env);
        var seen' := seen + [See(a)];
        StepSound(h, journal, rec, s, op, env);
        if Clean(s') {
          StepUpheld(h, journal, rec, s, op, env);
          RunUpheld(h, journal, rec, har, envs, s', seen', budget - 1);
        } else {
          UncleanRunWritesNothing(h, rec, har, envs, s', seen', budget - 1);
          RunStaysUnclean(h, rec, har, envs, s', seen', budget - 1);
        }
      }
  }

  /** The sink a run of an execution starts with. */
  function Begin(journal: seq<Entry>): Resuming
  {
    Resuming(Live(journal, false, Guard(false, None), map[], [], 0), 0, None)
  }

  lemma {:induction false} BeginUpheld(h: Host, journal: seq<Entry>)
    requires Sound(h, journal)
    ensures Upheld(h, journal, RecordingOf(journal, h.executionId), Begin(journal))
  {
    hide Fold, EntriesOf, Stream;
    Agreed(h, journal);
    var x, all := Scanned(journal, h.executionId), EffectsOf(journal, h.executionId);
    assert all[..0] == [];
    assert TracksAt(all, 0, map[], all);
  }

  /** A run that ends clean and has served its whole prefix leaves only whole gates. */
  lemma {:induction false} EndsSettled(h: Host, journal: seq<Entry>, rec: Recording, s: Resuming)
    requires Upheld(h, journal, rec, s) && s.i == |rec.stream|
    ensures Fold(EntriesOf(s.live.journal, h.executionId)).Ok?
    ensures var final := RecordingOf(s.live.journal, h.executionId);
      CallsDistinct(final.stream) && GatesAgree(final.stream, final.gates) && AllAnswered(final.stream)
  {
    hide Fold, EntriesOf;
    LiveIsClosed(h, journal, rec, s);
    Agreed(h, s.live.journal);
  }
}
