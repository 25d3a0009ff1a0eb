/** Park, approve, resume (controller/approval_effects.go, controller.Approve, controller.Resume).

A gated call stops its run. Once its decision is recorded, a resumed run is served everything up to
the decision, completes the call, and goes on. */
module Parking {
  import opened Api
  import opened Approval
  import opened Sinks
  import opened Evidence
  import opened Runs
  import opened Traces
  import opened Replays
  import opened Upkeep
  import opened Recovery
  import opened Matching
  import opened Outside
  import ApprovalScan

  /** The steps of a run up to the one that stopped it, lost the fence or diverged, if any. */
  ghost function CleanTrace(h: Host, rec: Recording, har: Harness, envs: nat -> Env, s: Resuming, seen: seq<Seen>, budget: nat): seq<Taken>
    decreases budget
  {
    match har(seen)
    case Return(_) => []
    case Emit(op) =>
      if budget == 0 then []
      else
        var r := ResumeStep(h, rec, s, op, envs(|seen|));
        if !Clean(r.0) then []
        else
          [Taken(op, r.1, Pos(h, rec, s), Pos(h, rec, r.0))] +
          CleanTrace(h, rec, har, envs, r.0, seen + [See(r.1)], budget - 1)
  }

  predicate LiveParked(s: Live)
  {
    s.guard.stop.Some? && s.guard.stop.value.Parked?
  }

  predicate IsParked(s: Resuming)
  {
    LiveParked(s.live)
  }

  /** A step that parks recorded a gated call and its request, past everything recorded before. */
  ghost predicate Parks(h: Host, s: Resuming, op: Op, t: Resuming)
  {
    && op.Call? && op.call.mediation.RequiresApproval? && MatchesCall(op.call, op.call)
    && Effects(h, t) == Effects(h, s) + [Own(h, KToolCall, BToolCall(op.call)), Own(h, KApprovalRequest, BApproval(ApprovalRequest(op.call.id, "")))]
    && !CannotPark(h)
  }

  lemma {:induction false} StepParks(h: Host, rec: Recording, s: Resuming, op: Op, env: Env)
    requires Clean(s) && Tracks(h, rec, s) && IsParked(ResumeStep(h, rec, s, op, env).0)
    ensures s.i == |rec.stream| && Parks(h, s, op, ResumeStep(h, rec, s, op, env).0)
  {
    hide EffectsOf;
    var t := ResumeStep(h, rec, s, op, env).0;
    ParksAdds(h, rec, s, op, env);
    EffectsExtend(h, s.live.journal, t.live.journal, Added(s.live, t.live));
  }

  /** Finishing a recorded operation does not park. */
  lemma {:induction false} CompletingNeverParks(h: Host, s: Live, env: Env)
    requires !LiveParked(s)
    ensures !LiveParked(CompleteModel(h, s, env).0)
    ensures forall call: ToolCall :: !LiveParked(ExecCall(h, s, call, env).0)
    ensures forall g: Gate | g.request.Some? && HasDecision(g) :: !LiveParked(CompleteApproval(h, s, g, env).0)
  {
  }

  lemma {:induction false} LiveParks(h: Host, s: Live, op: Op, env: Env)
    requires !s.fenced && !LiveParked(s) && LiveParked(LiveOp(h, s, op, env).0)
    ensures var t := LiveOp(h, s, op, env).0;
      && op.Call? && op.call.mediation.RequiresApproval? && MatchesCall(op.call, op.call) && !CannotPark(h)
      && s.journal <= t.journal
      && Added(s, t) == [Own(h, KToolCall, BToolCall(op.call)), Own(h, KApprovalRequest, BApproval(ApprovalRequest(op.call.id, "")))]
  {
    if op.Call? && op.call.mediation.RequiresApproval? && op.call.key != "" && op.call.id != "" { MatchesItself(op.call); }
  }

  lemma {:induction false} ParksAdds(h: Host, rec: Recording, s: Resuming, op: Op, env: Env)
    requires Clean(s) && s.i <= |rec.stream| && IsParked(ResumeStep(h, rec, s, op, env).0)
    ensures var t := ResumeStep(h, rec, s, op, env).0;
      && s.i == |rec.stream|
      && op.Call? && op.call.mediation.RequiresApproval? && MatchesCall(op.call, op.call) && !CannotPark(h)
      && s.live.journal <= t.live.journal
      && Added(s.live, t.live) == [Own(h, KToolCall, BToolCall(op.call)), Own(h, KApprovalRequest, BApproval(ApprovalRequest(op.call.id, "")))]
  {
    hide LiveModel, LiveOutput, LiveCall, LiveReport, LiveAccount, CompleteModel, ExecCall, CompleteApproval, MatchesCall, KeylessRefused, FallbackRefused,
         UsageAt, ReceiptServes, Added;
    CompletingNeverParks(h, s.live, env);
    if op.Call? && NextIsCall(rec.stream, s.i) {
      var recorded := rec.stream[s.i].body.toolCall;
      CompletingNeverParks(h, s.live.(calls := s.live.calls[recorded.id := recorded.mediation.RequiresApproval?]), env);
    }
    if LiveParked(LiveOp(h, s.live, op, env).0) { LiveParks(h, s.live, op, env); }
  }

  /** A sink that has lost its fence does not park. */
  lemma {:induction false} FencedNeverParks(h: Host, s: Live, op: Op, env: Env)
    requires s.fenced && !LiveParked(s)
    ensures !LiveParked(LiveOp(h, s, op, env).0)
  {
  }

  lemma {:induction false} StopStays(h: Host, rec: Recording, s: Resuming, op: Op, env: Env)
    requires !Clean(s)
    ensures IsParked(ResumeStep(h, rec, s, op, env).0) <==> IsParked(s)
    ensures s.live.guard.stop.Some? ==> ResumeStep(h, rec, s, op, env).0 == s
  {
    hide LiveModel, LiveOutput, LiveCall, LiveReport, LiveAccount, CompleteModel, ExecCall, CompleteApproval, MatchesCall, KeylessRefused, FallbackRefused,
         UsageAt, ReceiptServes;
    if s.live.fenced && !LiveParked(s.live) {
      FencedNeverParks(h, s.live, op, env);
      CompletingNeverParks(h, s.live, env);
      if op.Call? && NextIsCall(rec.stream, s.i) {
        var recorded := rec.stream[s.i].body.toolCall;
        CompletingNeverParks(h, s.live.(calls := s.live.calls[recorded.id := recorded.mediation.RequiresApproval?]), env);
      }
    }
  }

  // ---- what a park names ----

  /** The journal ends in a gated call of the execution and its request, and the park names both. */
  ghost predicate ParkNames(h: Host, journal: seq<Entry>, ref: ApprovalRef)
  {
    && |journal| >= 2
    && var called, request := journal[|journal| - 2], journal[|journal| - 1];
       && called.event.executionId == h.executionId && IsGatedCall(called.event)
       && called.event.body.toolCall.id == ref.toolCallId != "" && called.event.body.toolCall.key != ""
       && request.event.executionId == h.executionId && request.event.kind == KApprovalRequest
       && request.event.body == BApproval(ApprovalRequest(ref.toolCallId, ""))
       && ref.executionId == h.executionId && ref.requestSeq == request.num
  }

  ghost predicate ParksRecorded(h: Host, rec: Recording, s: Resuming)
  {
    s.i <= |rec.stream| && (IsParked(s) ==> ParkNames(h, s.live.journal, s.live.guard.stop.value.ref))
  }

  lemma {:induction false} IndexWithin(h: Host, rec: Recording, s: Resuming, op: Op, env: Env)
    requires s.i <= |rec.stream|
    ensures ResumeStep(h, rec, s, op, env).0.i <= |rec.stream|
  {
    hide LiveModel, LiveOutput, LiveCall, LiveReport, LiveAccount, CompleteModel, ExecCall, CompleteApproval, MatchesCall, UsageAt, ReceiptServes;
  }

  lemma {:induction false} StepParksRecorded(h: Host, rec: Recording, s: Resuming, op: Op, env: Env)
    requires ParksRecorded(h, rec, s)
    ensures ParksRecorded(h, rec, ResumeStep(h, rec, s, op, env).0)
  {
    var t := ResumeStep(h, rec, s, op, env).0;
    IndexWithin(h, rec, s, op, env);
    if !Clean(s) {
      StopStays(h, rec, s, op, env);
    } else if IsParked(t) {
      ParksAdds(h, rec, s, op, env);
      assert op.call.key != "" && op.call.id != "" by { MatchIsSameRequest(op.call, op.call); }
      ResumedLive(h, rec, s, op, env);
      LiveDone(h, s.live, op, env);
    }
    hide ResumeStep, LiveStep;
  }

  /** However a run parks, the two last records are the gated call and its request, and the park names them. */
  lemma {:induction false} RunParksRecorded(h: Host, rec: Recording, har: Harness, envs: nat -> Env, s: Resuming, seen: seq<Seen>, budget: nat)
    requires ParksRecorded(h, rec, s)
    ensures ParksRecorded(h, rec, ResumeRun(h, rec, har, envs, s, seen, budget).sink)
    decreases budget
  {
    hide ResumeStep, ParksRecorded;
    match har(seen)
    case Return(_) =>
    case Emit(op) =>
      if budget > 0 {
        var r := ResumeStep(h, rec, s, op, envs(|seen|));
        StepParksRecorded(h, rec, s, op, envs(|seen|));
        RunParksRecorded(h, rec, har, envs, r.0, seen + [See(r.1)], budget - 1);
      }
  }

  lemma {:induction false} RunStopStays(h: Host, rec: Recording, har: Harness, envs: nat -> Env, s: Resuming, seen: seq<Seen>, budget: nat)
    requires !Clean(s)
    ensures var t := ResumeRun(h, rec, har, envs, s, seen, budget).sink;
      (IsParked(t) <==> IsParked(s)) && (s.live.guard.stop.Some? ==> t == s)
    decreases budget
  {
    hide ResumeStep;
    match har(seen)
    case Return(_) =>
    case Emit(op) =>
      if budget > 0 {
        var r := ResumeStep(h, rec, s, op, envs(|seen|));
        StopStays(h, rec, s, op, envs(|seen|));
        if Clean(r.0) { CleanBefore(h, rec, s, op, envs(|seen|)); }
        RunStopStays(h, rec, har, envs, r.0, seen + [See(r.1)], budget - 1);
      }
  }

  /** The answer a parked call gets once it is decided and completed. */
  ghost predicate Completes(decision: Event, receipt: Event, result: ToolResult)
  {
    && decision.kind.KApprovalResult? && decision.body.BApprovalResult?
    && receipt.kind.KToolResult? && receipt.body.BResult?
    && result == receipt.body.result.(approval := Some(decision.body.decision))
  }

  /** The stream that a parked call, its request, its decision and its receipt leave, as one step. */
  lemma {:induction false} ParkRecorded(h: Host, s: Resuming, t: Resuming, call: ToolCall, decision: Event, receipt: Event, result: ToolResult)
    requires Parks(h, s, Call(call), t) && Completes(decision, receipt, result)
    ensures var p := |Effects(h, s)|;
      Recorded(h, Effects(h, t) + [decision, receipt], Taken(Call(call), Returned(result), p, p + 4))
  {
    hide EffectsOf;
  }

  lemma {:induction false} FirstParked(h: Host, rec: Recording, har: Harness, envs: nat -> Env, s: Resuming, seen: seq<Seen>, budget: nat, op: Op)
    requires Tracks(h, rec, s) && Clean(s) && GatesAgree(rec.stream, rec.gates) && har(seen) == Emit(op) && budget > 0
    requires IsParked(ResumeRun(h, rec, har, envs, s, seen, budget).sink)
    ensures var e := ResumeRun(h, rec, har, envs, s, seen, budget);
      var (t, a) := ResumeStep(h, rec, s, op, envs(|seen|));
      && e == ResumeRun(h, rec, har, envs, t, seen + [See(a)], budget - 1)
      && if t.live.guard.stop.Some? then e.sink == t && s.i == |rec.stream| && Parks(h, s, op, t)
         else Clean(t) && Tracks(h, rec, t)
  {
    hide ResumeStep, Parks, Tracks;
    var (t, a) := ResumeStep(h, rec, s, op, envs(|seen|));
    if Clean(t) {
      StepTracks(h, rec, s, op, envs(|seen|));
    } else {
      RunStopStays(h, rec, har, envs, t, seen + [See(a)], budget - 1);
      StepParks(h, rec, s, op, envs(|seen|));
    }
  }

  /** A run that parked ends in a gated call and its request, past everything recorded before. */
  lemma {:induction false} RunParks(h: Host, rec: Recording, har: Harness, envs: nat -> Env, s: Resuming, seen: seq<Seen>, budget: nat)
    requires Tracks(h, rec, s) && Clean(s) && GatesAgree(rec.stream, rec.gates)
    requires IsParked(ResumeRun(h, rec, har, envs, s, seen, budget).sink)
    ensures var all := Effects(h, ResumeRun(h, rec, har, envs, s, seen, budget).sink);
      && Effects(h, s) <= all && |all| >= |rec.stream| + 2
      && IsGatedCall(all[|all| - 2]) && all[|all| - 1].kind.KApprovalRequest? && !CannotPark(h)
    decreases budget
  {
    hide ResumeStep, EffectsOf, ResumeRun;
    match har(seen)
    case Return(_) => RunDone(h, rec, har, envs, s, seen, budget);
    case Emit(op) =>
      if budget == 0 {
        RunDone(h, rec, har, envs, s, seen, budget);
      } else {
        FirstParked(h, rec, har, envs, s, seen, budget, op);
        var (t, a) := ResumeStep(h, rec, s, op, envs(|seen|));
        if Clean(t) {
          StepTracks(h, rec, s, op, envs(|seen|));
          RunParks(h, rec, har, envs, t, seen + [See(a)], budget - 1);
        }
      }
  }

  lemma {:induction false} RunDone(h: Host, rec: Recording, har: Harness, envs: nat -> Env, s: Resuming, seen: seq<Seen>, budget: nat)
    requires har(seen).Return? || budget == 0
    ensures ResumeRun(h, rec, har, envs, s, seen, budget).sink == s
  {
  }

  /** The trace of a parked run, with its last call completed: it lies in what the run recorded,
  continued by the decision and the receipt. */
  lemma {:induction false} ParkedFollows(h: Host, rec: Recording, har: Harness, envs: nat -> Env, s: Resuming, seen: seq<Seen>, budget: nat,
                                         decision: Event, receipt: Event, result: ToolResult) returns (call: ToolCall)
    requires Tracks(h, rec, s) && Clean(s) && GatesAgree(rec.stream, rec.gates)
    requires var e := ResumeRun(h, rec, har, envs, s, seen, budget); IsParked(e.sink) && CallsDistinct(Effects(h, e.sink))
    requires Completes(decision, receipt, result)
    ensures var all := Effects(h, ResumeRun(h, rec, har, envs, s, seen, budget).sink);
      && |all| >= 2
      && Follows(h, har, all + [decision, receipt], seen,
                 CleanTrace(h, rec, har, envs, s, seen, budget) + [Taken(Call(call), Returned(result), |all| - 2, |all| + 2)], Pos(h, rec, s))
    decreases budget
  {
    hide ResumeStep, EffectsOf, ResumeRun, Recorded, CallsDistinct, NoGatesAfter, Completes;
    RunParks(h, rec, har, envs, s, seen, budget);
    match har(seen)
    case Return(_) => RunDone(h, rec, har, envs, s, seen, budget);
    case Emit(op) =>
      if budget == 0 {
        RunDone(h, rec, har, envs, s, seen, budget);
      } else {
        FirstParked(h, rec, har, envs, s, seen, budget, op);
        var all := Effects(h, ResumeRun(h, rec, har, envs, s, seen, budget).sink);
        var final := all + [decision, receipt];
        var (t, a) := ResumeStep(h, rec, s, op, envs(|seen|));
        if Clean(t) {
          call := ParkedFollows(h, rec, har, envs, t, seen + [See(a)], budget - 1, decision, receipt, result);
          RunParks(h, rec, har, envs, t, seen + [See(a)], budget - 1);
          DistinctExtends(all, decision, receipt, result);
          StepRecorded(h, rec, s, op, envs(|seen|), final);
          var first := Taken(op, a, Pos(h, rec, s), Pos(h, rec, t));
          var rest := CleanTrace(h, rec, har, envs, t, seen + [See(a)], budget - 1);
          var last := [Taken(Call(call), Returned(result), |all| - 2, |all| + 2)];
          FollowsCons(h, har, final, seen, first, rest + last);
          assert [first] + (rest + last) == [first] + rest + last;
        } else {
          call := op.call;
          ParkRecorded(h, s, t, call, decision, receipt, result);
          LoneFollows(h, har, final, seen, Taken(op, Returned(result), |all| - 2, |all| + 2));
        }
      }
  }

  lemma {:induction false} LoneFollows(h: Host, har: Harness, stream: seq<Event>, seen: seq<Seen>, t: Taken)
    requires har(seen) == Emit(t.op) && Recorded(h, stream, t)
    ensures Follows(h, har, stream, seen, [] + [t], t.from)
  {
    assert [] + [t] == [t];
  }

  lemma {:induction false} DistinctExtends(all: seq<Event>, decision: Event, receipt: Event, result: ToolResult)
    requires CallsDistinct(all) && Completes(decision, receipt, result)
    ensures CallsDistinct(all + [decision, receipt])
  {
  }

  lemma {:induction false} DecisionDecides(h: Host, journal: seq<Entry>)
    requires Sound(h, journal)
    requires var all := EffectsOf(journal, h.executionId);
      |all| >= 2 && all[|all| - 1].kind.KApprovalResult? && all[|all| - 2].kind.KApprovalRequest?
    ensures Decided(h, journal)
  {
    hide Fold, EntriesOf, Stream;
    Agreed(h, journal);
  }

  lemma {:induction false} FaithfulAgain(all: seq<Event>, longer: seq<Event>, ts: seq<Taken>, last: Taken, n: nat)
    requires Faithful(all, ts) && all <= longer && |all| < n <= last.to
    requires forall k | 0 <= k < |ts| :: ts[k].from <= ts[k].to <= |all| - 2
    ensures FaithfulBefore(longer, ts + [last], n)
  {
    forall k | 0 <= k < |ts + [last]| && (ts + [last])[k].to < n
      ensures var t := (ts + [last])[k]; Repeatable(longer, t.op, t.answer, t.from, t.to)
    {
      assert k < |ts| && (ts + [last])[k] == ts[k];
      var t := ts[k];
      assert longer[t.to] == all[t.to] && longer[t.from] == all[t.from];
    }
  }

  lemma {:induction false} FollowsBelow(h: Host, har: Harness, all: seq<Event>, seen: seq<Seen>, ts: seq<Taken>, last: Taken, p: nat)
    requires Follows(h, har, all, seen, ts + [last], p)
    ensures forall k | 0 <= k < |ts| :: ts[k].from <= ts[k].to <= last.from
    ensures p <= last.from
    decreases |ts|
  {
    hide Went;
    if ts == [] {
      assert (ts + [last])[0] == last;
    } else {
      var t, rest := ts[0], ts[1..];
      assert (ts + [last])[0] == t && (ts + [last])[1..] == rest + [last];
      WentForward(h, all, t.op, t.answer, t.from, t.to);
      FollowsBelow(h, har, all, seen + [See(t.answer)], rest, last, t.to);
      forall k | 0 <= k < |ts|
        ensures ts[k].from <= ts[k].to <= last.from
      {
        if k > 0 { assert ts[k] == rest[k - 1]; }
      }
    }
  }

  ghost function CleanTraceOn(h: Host, journal: seq<Entry>, har: Harness, envs: nat -> Env, budget: nat): seq<Taken>
    requires Sound(h, journal)
  {
    CleanTrace(h, RecordingOf(journal, h.executionId), har, envs, Begin(journal), [], budget)
  }

  /** What the effects of a parked execution look like once it is decided. */
  lemma {:induction false} ParkedShape(h: Host, journal: seq<Entry>, har: Harness, envs: nat -> Env, budget: nat, decision: Entry)
    requires Sound(h, journal)
    requires var e := RunOn(h, journal, har, envs, budget);
      && IsParked(e.sink)
      && decision.event.kind.KApprovalResult? && Of(decision, h.executionId)
      && Sound(h, e.sink.live.journal + [decision])
    ensures var parked := RunOn(h, journal, har, envs, budget).sink.live.journal;
      var all := EffectsOf(parked, h.executionId);
      && Sound(h, parked) && CallsDistinct(all)
      && |all| >= 2
      && EffectsOf(parked + [decision], h.executionId) == all + [decision.event]
      && decision.event.body.BApprovalResult?
      && Decided(h, parked + [decision])
  {
    hide Fold, EntriesOf, Stream, ResumeRun, GatesAgree, Sound;
    AgreedSound(h, journal);
    var rec := RecordingOf(journal, h.executionId);
    var parked := RunOn(h, journal, har, envs, budget).sink.live.journal;
    BeginUpheld(h, journal);
    RunUpheld(h, journal, rec, har, envs, Begin(journal), [], budget);
    AgreedSound(h, parked);
    RunParks(h, rec, har, envs, Begin(journal), [], budget);
    EffectsSnoc(parked, decision, h.executionId);
    DecisionHasBody(h, parked, decision);
    DecisionDecides(h, parked + [decision]);
  }

  /** The trace a decided execution is served: the steps before the gated call, and the call itself. */
  lemma {:induction false} ParkedTrace(h: Host, journal: seq<Entry>, har: Harness, envs: nat -> Env, budget: nat, decision: Entry)
    returns (final: seq<Event>, last: Taken)
    requires Sound(h, journal)
    requires var e := RunOn(h, journal, har, envs, budget);
      && IsParked(e.sink)
      && decision.event.kind.KApprovalResult? && Of(decision, h.executionId)
      && Sound(h, e.sink.live.journal + [decision])
      && Faithful(EffectsOf(e.sink.live.journal, h.executionId), CleanTraceOn(h, journal, har, envs, budget))
    ensures var decided := EffectsOf(RunOn(h, journal, har, envs, budget).sink.live.journal + [decision], h.executionId);
      var ts := CleanTraceOn(h, journal, har, envs, budget) + [last];
      decided <= final && Follows(h, har, final, [], ts, 0) && EndOf(ts, 0) >= |decided| && FaithfulBefore(final, ts, |decided|)
  {
    hide Fold, EntriesOf, Stream, ResumeRun, CleanTrace, Follows, GatesAgree, Faithful, FaithfulBefore, Sound, DecidedOutcome;
    ParkedShape(h, journal, har, envs, budget, decision);
    AgreedSound(h, journal);
    BeginUpheld(h, journal);
    var ts := CleanTraceOn(h, journal, har, envs, budget);
    var all := EffectsOf(RunOn(h, journal, har, envs, budget).sink.live.journal, h.executionId);
    var outcome := DecidedOutcome(decision.event.body.decision, envs(0).tool);
    var receipt := Own(h, KToolResult, BResult(outcome));
    var result := outcome.(approval := Some(decision.event.body.decision));
    var call := ParkedFollows(h, RecordingOf(journal, h.executionId), har, envs, Begin(journal), [], budget, decision.event, receipt, result);
    last := Taken(Call(call), Returned(result), |all| - 2, |all| + 2);
    final := all + [decision.event, receipt];
    FollowsBelow(h, har, final, [], ts, last, 0);
    FaithfulAgain(all, final, ts, last, |all| + 1);
    assert final[..|all| + 1] == all + [decision.event];
  }

  /** A run parked on a gated call; a decision was recorded that the scan accepts. If the steps before
  the call are repeatable, resuming with the same harness never diverges, sees again what it saw, loses
  nothing, and has been served the decision by the time the harness returns. */
  lemma {:induction false} ParkApproveResume(h: Host, journal: seq<Entry>, har: Harness, envs: nat -> Env, budget: nat, decision: Entry, envs': nat -> Env, budget': nat)
    requires Sound(h, journal)
    requires var e := RunOn(h, journal, har, envs, budget);
      && IsParked(e.sink)
      && decision.event.kind.KApprovalResult? && Of(decision, h.executionId)
      && Sound(h, e.sink.live.journal + [decision])
      && Faithful(EffectsOf(e.sink.live.journal, h.executionId), CleanTraceOn(h, journal, har, envs, budget))
    ensures var decided := RunOn(h, journal, har, envs, budget).sink.live.journal + [decision];
      var n := |EffectsOf(decided, h.executionId)|;
      var e := RunOn(h, decided, har, envs', budget');
      && e.sink.failure.None?
      && decided <= e.sink.live.journal
      && Sound(h, e.sink.live.journal)
      && SawAgain([], e, CleanTraceOn(h, journal, har, envs, budget), n)
      && (e.finish.Some? ==> e.sink.i == n)
  {
    hide Fold, EntriesOf, EffectsOf, ResumeRun, CleanTraceOn, Follows, Faithful, FaithfulBefore, Sound, Decided;
    ParkedShape(h, journal, har, envs, budget, decision);
    var ts := CleanTraceOn(h, journal, har, envs, budget);
    var final, last := ParkedTrace(h, journal, har, envs, budget, decision);
    var decided := RunOn(h, journal, har, envs, budget).sink.live.journal + [decision];
    RecoveryNeverDiverges(h, decided, har, final, ts + [last], envs', budget');
    SawAgainFront([], RunOn(h, decided, har, envs', budget'), ts, last, |EffectsOf(decided, h.executionId)|);
  }

  lemma {:induction false} SawAgainFront(seen: seq<Seen>, e: Ending, ts: seq<Taken>, last: Taken, n: nat)
    requires SawAgain(seen, e, ts + [last], n)
    ensures SawAgain(seen, e, ts, n)
  {
    forall k | 0 <= k < |ts| && ts[k].to < n && |seen| + k < |e.seen|
      ensures e.seen[|seen| + k] == See(ts[k].answer)
    {
      assert (ts + [last])[k] == ts[k];
    }
  }

  lemma {:induction false} AgreedSound(h: Host, journal: seq<Entry>)
    requires Sound(h, journal)
    ensures Fold(EntriesOf(journal, h.executionId)).Ok?
    ensures Agrees(EffectsOf(journal, h.executionId), Scanned(journal, h.executionId))
  {
    hide Fold, EntriesOf, Stream;
    Agreed(h, journal);
  }

  lemma {:induction false} DecisionHasBody(h: Host, journal: seq<Entry>, decision: Entry)
    requires Sound(h, journal) && Sound(h, journal + [decision])
    requires decision.event.kind.KApprovalResult? && Of(decision, h.executionId)
    ensures decision.event.body.BApprovalResult?
  {
    hide Fold, EntriesOf;
    ScanSnoc(journal, decision, h.executionId);
  }

  // ---- a run that parks ----

  function AskGate(call: ToolCall): Harness
  {
    (seen: seq<Seen>) => if seen == [] then Emit(Call(call)) else Return(Completed)
  }

  function Decision(h: Host, call: ToolCall, approved: bool): Entry
  {
    Entry(3, Event(h.executionId, KApprovalResult, BApprovalResult(ApprovalResult(call.id, approved, "", 2)), NO_IDENTITY))
  }

  lemma {:induction false} GateSteps(h: Host, call: ToolCall, approved: bool)
    requires call.mediation.RequiresApproval? && call.id != "" && call.key != ""
    ensures var c := Entry(1, Own(h, KToolCall, BToolCall(call)));
      var q := Entry(2, Own(h, KApprovalRequest, BApproval(ApprovalRequest(call.id, ""))));
      var x := FRESH.(calls := map[call.id := true], gates := [Gate(call, 1, None, None, None)]);
      var y := x.(gates := [Gate(call, 1, Some(q), None, None)]);
      && Step(FRESH, true, c) == Ok(x) && Step(x, false, q) == Ok(y)
      && Step(y, false, Decision(h, call, approved)).Ok? && !Step(y, false, Decision(h, call, approved)).value.completed
  {
    var g := Gate(call, 1, None, None, None);
    assert FRESH.calls[call.id := true] == map[call.id := true];
    assert FRESH.gates + [g] == [g];
    var x := FRESH.(calls := map[call.id := true], gates := [g]);
    var q := Entry(2, Own(h, KApprovalRequest, BApproval(ApprovalRequest(call.id, ""))));
    assert WithLast(x, g.(request := Some(q))).gates == [g.(request := Some(q))];
  }

  lemma {:induction false} GateScans(h: Host, call: ToolCall, approved: bool)
    requires call.mediation.RequiresApproval? && call.id != "" && call.key != ""
    ensures var c := Entry(1, Own(h, KToolCall, BToolCall(call)));
      var q := Entry(2, Own(h, KApprovalRequest, BApproval(ApprovalRequest(call.id, ""))));
      Sound(h, []) && Sound(h, [c, q, Decision(h, call, approved)])
  {
    var c := Entry(1, Own(h, KToolCall, BToolCall(call)));
    var q := Entry(2, Own(h, KApprovalRequest, BApproval(ApprovalRequest(call.id, ""))));
    var d := Decision(h, call, approved);
    EmptySound(h);
    GateSteps(h, call, approved);
    var none: seq<Entry> := [];
    assert Fold(EntriesOf(none, h.executionId)) == Ok(FRESH) && EntriesOf(none, h.executionId) == [];
    assert EntriesOf([] + [c], h.executionId) != [] && EntriesOf([c] + [q], h.executionId) != [] by {
      ApprovalScan.EntriesNext([], c, h.executionId);
      ApprovalScan.EntriesNext([c], q, h.executionId);
    }
    hide Step, EntriesOf, Fold;
    assert [] + [c] == [c] && [c] + [q] == [c, q] && [c, q] + [d] == [c, q, d];
    ScanSnoc([], c, h.executionId);
    ScanSnoc([c], q, h.executionId);
    ScanSnoc([c, q], d, h.executionId);
  }

  /** Every gated call that names itself and its key, of a harness that asks for nothing else, parks; and
  whichever way it is decided, the result above applies to its run. */
  lemma {:induction false} GateParks(h: Host, call: ToolCall, approved: bool, env: Env)
    requires call.mediation.RequiresApproval? && call.id != "" && call.key != ""
    requires h.session != "" && h.capability.Stateless? && env.room >= 2
    ensures Sound(h, [])
    ensures var e := RunOn(h, [], AskGate(call), _ => env, 1);
      && IsParked(e.sink) && e.sink.live.guard.stop == Some(Parked(ApprovalRef(h.executionId, call.id, 2)))
      && Sound(h, e.sink.live.journal + [Decision(h, call, approved)])
      && CleanTraceOn(h, [], AskGate(call), _ => env, 1) == []
  {
    hide Fold, EntriesOf, Stream;
    GateScans(h, call, approved);
    EmptySound(h);
    var har, envs := AskGate(call), _ => env;
    var rec, s := RecordingOf([], h.executionId), Begin([]);
    var r := ResumeStep(h, rec, s, Call(call), env);
    assert r.0.live.guard.stop.Some?;
    assert ResumeRun(h, rec, har, envs, r.0, [] + [See(r.1)], 0) == Ending([] + [See(r.1)], r.0, Some(Completed));
    assert RunOn(h, [], har, envs, 1).sink == r.0;
    var c := Entry(1, Own(h, KToolCall, BToolCall(call)));
    var q := Entry(2, Own(h, KApprovalRequest, BApproval(ApprovalRequest(call.id, ""))));
    assert r.0.live.journal == [c, q];
    assert [c, q] + [Decision(h, call, approved)] == [c, q, Decision(h, call, approved)];
  }
}
