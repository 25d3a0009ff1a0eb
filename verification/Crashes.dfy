/** A crash anywhere in a turn (controller.Resume after any end of Exec or Resume).

However a run ended, cleanly or not, its records are those of the operations its harness made, the last of
them perhaps in part. So whatever is left of them after a crash is served back, and the recovery never
diverges. */
module Crashes {
  import opened Api
  import opened Approval
  import opened Sinks
  import opened Evidence
  import opened Runs
  import opened Traces
  import opened Replays
  import opened Upkeep
  import opened Recovery
  import opened Parking

  // ---- the operation a run ended in ----

  /** The operation that stopped the sink or lost the fence: it left nothing, or it left a part of the
  records from p on that these events complete. */
  ghost predicate Partial(h: Host, all: seq<Event>, pad: seq<Event>, op: Op, last: seq<Taken>, p: nat)
  {
    && (forall k | 0 <= k < |pad| :: !IsCall(pad[k]))
    && if last == [] then pad == [] && |all| == p
       else |last| == 1 && last[0].op == op && last[0].from == p < |all| && last[0].to == |all + pad| && Recorded(h, all + pad, last[0])
  }

  const LATER_DECISION := Event("", KApprovalResult, BApprovalResult(ApprovalResult("", false, "", 0)), NO_IDENTITY)
  const LATER_RESULT := ToolResult("", None, "", "", false, "", [], 0, 0, 0, None)
  const LATER_RECEIPT := Event("", KToolResult, BResult(LATER_RESULT), NO_IDENTITY)
  const LATER_REQUEST := Event("", KApprovalRequest, NoBody, NO_IDENTITY)

  /** What a gate of which the first n records are there still lacks. */
  function RestOfGate(n: nat): seq<Event>
    requires 1 <= n <= 3
  {
    if n == 3 then [LATER_RECEIPT] else if n == 2 then [LATER_DECISION, LATER_RECEIPT] else [LATER_REQUEST, LATER_DECISION, LATER_RECEIPT]
  }

  /** A gate that is there in part, completed. */
  lemma {:induction false} GatePartial(h: Host, all: seq<Event>, call: ToolCall, p: nat) returns (last: seq<Taken>)
    requires p + 1 <= |all| <= p + 3
    requires IsCall(all[p]) && MatchesCall(call, all[p].body.toolCall) && call.mediation.RequiresApproval?
    requires p + 1 < |all| ==> all[p + 1].kind.KApprovalRequest?
    requires p + 2 < |all| ==> all[p + 2].kind.KApprovalResult? && all[p + 2].body.BApprovalResult?
    ensures Partial(h, all, RestOfGate(|all| - p), Call(call), last, p)
  {
    var whole := all + RestOfGate(|all| - p);
    var result := LATER_RESULT.(approval := Some(whole[p + 2].body.decision));
    last := [Taken(Call(call), Returned(result), p, p + 4)];
    assert AnsweredGate(whole, p, result);
  }

  lemma {:induction false} NothingPartial(h: Host, all: seq<Event>, op: Op)
    ensures Partial(h, all, [], op, [], |all|)
  {
  }

  /** An operation that left its own first record only. */
  lemma {:induction false} FirstPartial(h: Host, all: seq<Event>, op: Op, a: Answer, p: nat) returns (last: seq<Taken>)
    requires |all| == p + 1 && a.Failed? && Went(h, all, op, a, p, p + 1)
    ensures Partial(h, all, [], op, last, p)
  {
    last := [Taken(op, a, p, p + 1)];
    assert all + [] == all;
  }

  /** What a step adds to the journal, and where it gets to, when it stops the sink or loses the fence. */
  ghost predicate Breaks(h: Host, rec: Recording, s: Resuming, t: Resuming, added: seq<Event>)
  {
    && s.live.journal <= t.live.journal && added == Added(s.live, t.live) && OwnEffects(h, added)
    && t.i == |rec.stream|
    && (CannotPark(h) ==> NoGatesAfter(added, 0))
  }

  lemma {:induction false} LiveModelBreaks(h: Host, rec: Recording, s: Resuming, all: seq<Event>, req: ModelRequest, env: Env)
    returns (added: seq<Event>, last: seq<Taken>)
    requires TracksAt(rec.stream, s.i, s.live.calls, all) && Clean(s) && s.i == |rec.stream|
    requires !Clean(OnLive(s, LiveModel(h, s.live, req, env)).0)
    ensures Breaks(h, rec, s, OnLive(s, LiveModel(h, s.live, req, env)).0, added)
    ensures Partial(h, all + added, [], Model(req), last, |all|)
  {
    var t := LiveModel(h, s.live, req, env).0;
    var call := Own(h, KModelCall, BModelCall(ModelCall(req.model, h.hashInput(req), env.callId)));
    if t.journal == s.live.journal {
      added, last := [], [];
      assert all + added == all;
    } else {
      added := [call];
      last := FirstPartial(h, all + [call], Model(req), Failed(Superseded), |all|);
    }
    assert added == Added(s.live, t);
  }

  lemma {:induction false} TrailingModelBreaks(h: Host, rec: Recording, s: Resuming, all: seq<Event>, req: ModelRequest, env: Env)
    returns (last: seq<Taken>)
    requires TracksAt(rec.stream, s.i, s.live.calls, all) && Clean(s) && s.i < |rec.stream|
    requires var t := ResumeModel(h, rec, s, req, env).0; !Clean(t) && t.failure.None?
    ensures Breaks(h, rec, s, ResumeModel(h, rec, s, req, env).0, [])
    ensures Partial(h, all, [], Model(req), last, s.i)
  {
    assert all == rec.stream;
    assert Added(s.live, ResumeModel(h, rec, s, req, env).0.live) == [];
    last := FirstPartial(h, all, Model(req), Failed(Superseded), s.i);
  }

  /** What a live call has recorded when it stops the sink or loses the fence. */
  lemma {:induction false} LiveCallLeft(h: Host, s: Live, call: ToolCall, env: Env) returns (added: seq<Event>)
    requires !s.fenced && s.guard == Guard(false, None)
    requires var t := LiveCall(h, s, call, env).0; t.fenced || t.guard != s.guard
    ensures var t := LiveCall(h, s, call, env).0; s.journal <= t.journal && added == Added(s, t)
    ensures added != [] ==> MatchesCall(call, call) && added[0] == Own(h, KToolCall, BToolCall(call))
    ensures added == [] || |added| == 1 ||
      (|added| == 2 && call.mediation.RequiresApproval? && added[1] == Own(h, KApprovalRequest, BApproval(ApprovalRequest(call.id, ""))))
    ensures added != [] && call.mediation.RequiresApproval? ==> !CannotPark(h)
  {
    var t := LiveCall(h, s, call, env).0;
    added := Added(s, t);
    if t.journal != s.journal { MatchesItself(call); }
  }

  /** The records a live call left, as a part of what it would have recorded. */
  lemma {:induction false} CallLeft(h: Host, all: seq<Event>, call: ToolCall, added: seq<Event>) returns (pad: seq<Event>, last: seq<Taken>)
    requires added != [] ==> MatchesCall(call, call) && added[0] == Own(h, KToolCall, BToolCall(call))
    requires added == [] || |added| == 1 ||
      (|added| == 2 && call.mediation.RequiresApproval? && added[1] == Own(h, KApprovalRequest, BApproval(ApprovalRequest(call.id, ""))))
    ensures Partial(h, all + added, pad, Call(call), last, |all|)
  {
    hide MatchesCall, Went;
    pad, last := [], [];
    if added == [] {
      assert all + added == all;
    } else if call.mediation.RequiresApproval? {
      pad := RestOfGate(|added|);
      last := GatePartial(h, all + added, call, |all|);
    } else {
      last := CallPartial(h, all + added, call, |all|);
    }
  }

  /** An ordinary call that left its record only. */
  lemma {:induction false} CallPartial(h: Host, all: seq<Event>, call: ToolCall, p: nat) returns (last: seq<Taken>)
    requires |all| == p + 1 && IsCall(all[p]) && MatchesCall(call, all[p].body.toolCall) && !call.mediation.RequiresApproval?
    ensures Partial(h, all, [], Call(call), last, p)
  {
    last := FirstPartial(h, all, Call(call), Failed(Superseded), p);
  }

  lemma {:induction false} LiveCallBreaks(h: Host, rec: Recording, s: Resuming, all: seq<Event>, call: ToolCall, env: Env)
    returns (added: seq<Event>, pad: seq<Event>, last: seq<Taken>)
    requires TracksAt(rec.stream, s.i, s.live.calls, all) && Clean(s) && s.i == |rec.stream|
    requires !Clean(OnLive(s, LiveCall(h, s.live, call, env)).0)
    ensures Breaks(h, rec, s, OnLive(s, LiveCall(h, s.live, call, env)).0, added)
    ensures Partial(h, all + added, pad, Call(call), last, |all|)
  {
    added := LiveCallLeft(h, s.live, call, env);
    hide LiveCall, MatchesCall, TracksAt, Partial;
    pad, last := CallLeft(h, all, call, added);
  }

  /** A call that the prefix ends in, when it stops the sink or loses the fence. */
  lemma {:induction false} TrailingCallLeft(h: Host, rec: Recording, s: Resuming, call: ToolCall, env: Env)
    requires Clean(s) && s.i < |rec.stream| && GatesAgree(rec.stream, rec.gates)
    requires var t := ResumeCall(h, rec, s, call, env).0; !Clean(t) && t.failure.None?
    ensures Breaks(h, rec, s, ResumeCall(h, rec, s, call, env).0, [])
    ensures IsCall(rec.stream[s.i]) && MatchesCall(call, rec.stream[s.i].body.toolCall)
    ensures |rec.stream| == s.i + if IsGatedCall(rec.stream[s.i]) then 3 else 1
  {
    hide MatchesCall, ReceiptOf, DecidedOutcome, ReceiptServes;
    if IsGatedCall(rec.stream[s.i]) { assert GateAt(rec.stream, rec.gates, s.i); }
    assert Added(s.live, ResumeCall(h, rec, s, call, env).0.live) == [];
  }

  lemma {:induction false} TrailingCallBreaks(h: Host, rec: Recording, s: Resuming, all: seq<Event>, call: ToolCall, env: Env)
    returns (pad: seq<Event>, last: seq<Taken>)
    requires TracksAt(rec.stream, s.i, s.live.calls, all) && Clean(s) && s.i < |rec.stream| && GatesAgree(rec.stream, rec.gates)
    requires var t := ResumeCall(h, rec, s, call, env).0; !Clean(t) && t.failure.None?
    ensures Breaks(h, rec, s, ResumeCall(h, rec, s, call, env).0, [])
    ensures Partial(h, all, pad, Call(call), last, s.i)
  {
    assert all == rec.stream;
    TrailingCallLeft(h, rec, s, call, env);
    hide ResumeCall, Breaks, Partial, MatchesCall;
    SameMediation(call, all[s.i].body.toolCall);
    if IsGatedCall(all[s.i]) {
      assert GateAt(rec.stream, rec.gates, s.i);
      pad := RestOfGate(3);
      last := GatePartial(h, all, call, s.i);
    } else {
      pad := [];
      last := CallPartial(h, all, call, s.i);
    }
  }

  lemma {:induction false} SameMediation(call: ToolCall, recorded: ToolCall)
    requires MatchesCall(call, recorded)
    ensures call.mediation.RequiresApproval? == recorded.mediation.RequiresApproval?
  {
  }

  lemma {:induction false} PlainBreaks(h: Host, rec: Recording, s: Resuming, all: seq<Event>, op: Op, env: Env)
    requires TracksAt(rec.stream, s.i, s.live.calls, all) && Clean(s) && (op.Output? || op.Report? || op.Account?)
    requires var t := ResumeStep(h, rec, s, op, env).0; !Clean(t) && t.failure.None?
    ensures s.i == |rec.stream| && Breaks(h, rec, s, ResumeStep(h, rec, s, op, env).0, [])
  {
    assert Added(s.live, s.live) == [];
  }

  /** The operation a run breaks on, whatever it is. */
  lemma {:induction false} StepBreaks(h: Host, rec: Recording, s: Resuming, all: seq<Event>, op: Op, env: Env)
    returns (added: seq<Event>, pad: seq<Event>, last: seq<Taken>)
    requires TracksAt(rec.stream, s.i, s.live.calls, all) && Clean(s) && GatesAgree(rec.stream, rec.gates)
    requires var t := ResumeStep(h, rec, s, op, env).0; !Clean(t) && t.failure.None?
    ensures Breaks(h, rec, s, ResumeStep(h, rec, s, op, env).0, added)
    ensures Partial(h, all + added, pad, op, last, s.i + |all| - |rec.stream|)
  {
    hide Breaks, Partial, CompleteModel, LiveModel, LiveCall, ExecCall, CompleteApproval, ResumeOutput, ResumeReport, ResumeAccount;
    match op
    case Model(req) =>
      pad := [];
      if s.i == |rec.stream| {
        added, last := LiveModelBreaks(h, rec, s, all, req, env);
      } else {
        added := [];
        last := TrailingModelBreaks(h, rec, s, all, req, env);
        assert all + added == all;
      }
    case Call(call) =>
      if s.i == |rec.stream| {
        CallIsLive(h, rec, s, call, env);
        added, pad, last := LiveCallBreaks(h, rec, s, all, call, env);
      } else {
        added := [];
        pad, last := TrailingCallBreaks(h, rec, s, all, call, env);
        assert all + added == all;
      }
    case _ =>
      PlainBreaks(h, rec, s, all, op, env);
      added, pad, last := [], [], [];
      assert all + added == all;
      NothingPartial(h, all, op);
  }

  lemma {:induction false} CallIsLive(h: Host, rec: Recording, s: Resuming, call: ToolCall, env: Env)
    requires Clean(s) && s.i == |rec.stream| && !Clean(ResumeCall(h, rec, s, call, env).0)
    ensures ResumeCall(h, rec, s, call, env) == OnLive(s, LiveCall(h, s.live, call, env))
  {
    hide LiveCall;
  }

  // ---- the records of any run ----

  lemma {:induction false} FailureStays(h: Host, rec: Recording, har: Harness, envs: nat -> Env, s: Resuming, seen: seq<Seen>, budget: nat)
    requires s.failure.Some?
    ensures ResumeRun(h, rec, har, envs, s, seen, budget).sink.failure.Some?
    decreases budget
  {
    hide ResumeOp;
    match har(seen)
    case Return(_) =>
    case Emit(op) =>
      if budget > 0 {
        var r := ResumeStep(h, rec, s, op, envs(|seen|));
        FailureStays(h, rec, har, envs, r.0, seen + [See(r.1)], budget - 1);
      }
  }

  lemma {:induction false} EffectsGrow(h: Host, rec: Recording, har: Harness, envs: nat -> Env, s: Resuming, seen: seq<Seen>, budget: nat)
    ensures Effects(h, s) <= Effects(h, ResumeRun(h, rec, har, envs, s, seen, budget).sink)
  {
    hide ResumeRun, EffectsOf;
    RunGrows(h, rec, har, envs, s, seen, budget);
    var final := ResumeRun(h, rec, har, envs, s, seen, budget).sink.live.journal;
    assert final[..|s.live.journal|] == s.live.journal;
    EffectsPrefix(final, |s.live.journal|, h.executionId);
  }

  /** The trace of a run up to its end, the operation it broke on included, lies in its records and what
  completes the last of them. */
  ghost predicate Lies(h: Host, rec: Recording, har: Harness, s: Resuming, seen: seq<Seen>, all: seq<Event>, ts: seq<Taken>, pad: seq<Event>, last: seq<Taken>)
  {
    && Follows(h, har, all + pad, seen, ts + last, Pos(h, rec, s)) && EndOf(ts + last, Pos(h, rec, s)) == |all + pad|
    && |last| <= 1 && (last == [] ==> pad == []) && (last != [] ==> last[0].to >= |all|)
    && (forall k | 0 <= k < |pad| :: !IsCall(pad[k]))
    && (CannotPark(h) ==> NoGatesAfter(all + pad, |rec.stream|))
  }

  lemma {:induction false} BrokenLies(h: Host, rec: Recording, har: Harness, s: Resuming, seen: seq<Seen>, t: Resuming, op: Op,
                                      added: seq<Event>, pad: seq<Event>, last: seq<Taken>)
    requires Tracks(h, rec, s) && har(seen) == Emit(op) && Breaks(h, rec, s, t, added)
    requires Partial(h, Effects(h, s) + added, pad, op, last, s.i + |Effects(h, s)| - |rec.stream|)
    ensures Effects(h, t) == Effects(h, s) + added
    ensures Lies(h, rec, har, s, seen, Effects(h, t), [], pad, last)
  {
    hide EffectsOf, Recorded;
    EffectsExtend(h, s.live.journal, t.live.journal, added);
    var all := Effects(h, t);
    assert [] + last == last && all + [] == all;
    if last != [] { LoneFollows(h, har, all + pad, seen, last[0]); assert [] + [last[0]] == last; }
  }

  /** However a run that did not diverge ends, once it has served its prefix: its records are those of the
  clean steps of its harness, and of the one it broke on, the last of them in part. */
  lemma {:induction false} RunLies(h: Host, rec: Recording, har: Harness, envs: nat -> Env, s: Resuming, seen: seq<Seen>, budget: nat)
    returns (pad: seq<Event>, last: seq<Taken>)
    requires Tracks(h, rec, s) && Clean(s) && GatesAgree(rec.stream, rec.gates)
    requires var t := ResumeRun(h, rec, har, envs, s, seen, budget).sink;
      t.failure.None? && t.i == |rec.stream| && CallsDistinct(Effects(h, t))
    ensures Lies(h, rec, har, s, seen, Effects(h, ResumeRun(h, rec, har, envs, s, seen, budget).sink),
                 CleanTrace(h, rec, har, envs, s, seen, budget), pad, last)
    decreases budget
  {
    hide ResumeStep, EffectsOf, Recorded, CallsDistinct, Lies, Partial, Breaks;
    var e := ResumeRun(h, rec, har, envs, s, seen, budget);
    var all := Effects(h, e.sink);
    if har(seen).Return? || budget == 0 {
      pad, last := [], [];
      EndLies(h, rec, har, s, seen);
    } else {
      var op := har(seen).op;
      var (t, a) := ResumeStep(h, rec, s, op, envs(|seen|));
      if t.failure.Some? { FailureStays(h, rec, har, envs, t, seen + [See(a)], budget - 1); }
      if Clean(t) {
        StepTracks(h, rec, s, op, envs(|seen|));
        pad, last := RunLies(h, rec, har, envs, t, seen + [See(a)], budget - 1);
        EffectsGrow(h, rec, har, envs, t, seen + [See(a)], budget - 1);
        StepLies(h, rec, har, s, seen, op, envs(|seen|), all, CleanTrace(h, rec, har, envs, t, seen + [See(a)], budget - 1), pad, last);
      } else {
        var added;
        added, pad, last := StepBreaks(h, rec, s, Effects(h, s), op, envs(|seen|));
        BrokenLies(h, rec, har, s, seen, t, op, added, pad, last);
        UncleanRunWritesNothing(h, rec, har, envs, t, seen + [See(a)], budget - 1);
      }
    }
  }

  lemma {:induction false} EndLies(h: Host, rec: Recording, har: Harness, s: Resuming, seen: seq<Seen>)
    requires Tracks(h, rec, s) && s.i == |rec.stream|
    ensures Lies(h, rec, har, s, seen, Effects(h, s), [], [], [])
  {
    hide EffectsOf;
    assert Effects(h, s) + [] == Effects(h, s);
  }

  lemma {:induction false} DistinctPadded(all: seq<Event>, pad: seq<Event>)
    requires CallsDistinct(all) && forall k | 0 <= k < |pad| :: !IsCall(pad[k])
    ensures CallsDistinct(all + pad)
  {
  }

  lemma {:induction false} StepLies(h: Host, rec: Recording, har: Harness, s: Resuming, seen: seq<Seen>, op: Op, env: Env,
                                    all: seq<Event>, ts: seq<Taken>, pad: seq<Event>, last: seq<Taken>)
    requires Tracks(h, rec, s) && GatesAgree(rec.stream, rec.gates) && har(seen) == Emit(op) && CallsDistinct(all)
    requires Clean(ResumeStep(h, rec, s, op, env).0) && Effects(h, ResumeStep(h, rec, s, op, env).0) <= all
    requires var (t, a) := ResumeStep(h, rec, s, op, env); Lies(h, rec, har, t, seen + [See(a)], all, ts, pad, last)
    ensures var (t, a) := ResumeStep(h, rec, s, op, env);
      Lies(h, rec, har, s, seen, all, [Taken(op, a, Pos(h, rec, s), Pos(h, rec, t))] + ts, pad, last)
  {
    hide ResumeStep, EffectsOf, Recorded, CallsDistinct;
    var (t, a) := ResumeStep(h, rec, s, op, env);
    DistinctPadded(all, pad);
    StepRecorded(h, rec, s, op, env, all + pad);
    var first := Taken(op, a, Pos(h, rec, s), Pos(h, rec, t));
    FollowsCons(h, har, all + pad, seen, first, ts + last);
    assert [first] + (ts + last) == [first] + ts + last;
  }

  // ---- cutting what a run left ----

  /** The run did not diverge, and has served all that was recorded before it. How it ended is open: its
  harness returned or not, it parked, was stopped, or lost its fence in the middle of an operation. */
  ghost predicate PrefixServed(h: Host, journal: seq<Entry>, e: Ending)
  {
    e.sink.failure.None? && e.sink.i == |EffectsOf(journal, h.executionId)|
  }

  /** The steps before n are those of a longer stream as well. */
  lemma {:induction false} FaithfulLonger(all: seq<Event>, longer: seq<Event>, ts: seq<Taken>, last: seq<Taken>, n: nat)
    requires FaithfulBefore(all, ts, n) && all <= longer && n <= |all| && |last| <= 1 && (last != [] ==> last[0].to >= n)
    requires forall k | 0 <= k < |ts| :: ts[k].from <= ts[k].to
    ensures FaithfulBefore(longer, ts + last, n)
  {
    forall k | 0 <= k < |ts + last| && (ts + last)[k].to < n
      ensures var t := (ts + last)[k]; Repeatable(longer, t.op, t.answer, t.from, t.to)
    {
      assert k < |ts| && (ts + last)[k] == ts[k];
      var t := ts[k];
      assert longer[t.to] == all[t.to] && longer[t.from] == all[t.from];
    }
  }

  lemma {:induction false} FollowsOrdered(h: Host, har: Harness, all: seq<Event>, seen: seq<Seen>, ts: seq<Taken>, p: nat)
    requires Follows(h, har, all, seen, ts, p)
    ensures forall k | 0 <= k < |ts| :: ts[k].from <= ts[k].to
    decreases |ts|
  {
    hide Went;
    if ts != [] {
      WentForward(h, all, ts[0].op, ts[0].answer, ts[0].from, ts[0].to);
      FollowsOrdered(h, har, all, seen + [See(ts[0].answer)], ts[1..], ts[0].to);
      assert forall k | 0 < k < |ts| :: ts[k] == ts[1..][k - 1];
    }
  }

  /** What is left of an execution is what its harness did, as far as it goes: the steps of a trace, of which
  those that end before the cut are repeatable. */
  ghost predicate Traced(h: Host, har: Harness, stream: seq<Event>, all: seq<Event>, ts: seq<Taken>)
  {
    && stream <= all && Follows(h, har, all, [], ts, 0) && EndOf(ts, 0) >= |stream|
    && FaithfulBefore(all, ts, |stream|)
  }

  /** What a run left, cut anywhere, is traced. */
  lemma {:induction false} RunTraced(h: Host, journal: seq<Entry>, har: Harness, envs: nat -> Env, budget: nat, m: nat)
    returns (all: seq<Event>, last: seq<Taken>)
    requires Sound(h, journal) && PrefixServed(h, journal, RunOn(h, journal, har, envs, budget))
    requires var final := RunOn(h, journal, har, envs, budget).sink.live.journal;
      && m <= |final|
      && FaithfulBefore(EffectsOf(final, h.executionId), CleanTraceOn(h, journal, har, envs, budget), |EffectsOf(final[..m], h.executionId)|)
    ensures var final := RunOn(h, journal, har, envs, budget).sink.live.journal;
      && journal <= final && Sound(h, final) && Sound(h, final[..m])
      && Traced(h, har, EffectsOf(final[..m], h.executionId), all, CleanTraceOn(h, journal, har, envs, budget) + last)
      && |last| <= 1
  {
    hide Fold, EntriesOf, Stream, ResumeRun, Follows, GatesAgree, CallsDistinct, CleanTrace, FaithfulBefore, Sound;
    AgreedSound(h, journal);
    var rec, s := RecordingOf(journal, h.executionId), Begin(journal);
    BeginUpheld(h, journal);
    RunUpheld(h, journal, rec, har, envs, s, [], budget);
    RunGrows(h, rec, har, envs, s, [], budget);
    var final := RunOn(h, journal, har, envs, budget).sink.live.journal;
    AgreedSound(h, final);
    CutSound(h, final, m);
    var pad;
    pad, last := RunLies(h, rec, har, envs, s, [], budget);
    var ts := CleanTraceOn(h, journal, har, envs, budget);
    all := EffectsOf(final, h.executionId) + pad;
    FollowsOrdered(h, har, all, [], ts + last, 0);
    assert forall k | 0 <= k < |ts| :: (ts + last)[k] == ts[k];
    FaithfulLonger(EffectsOf(final, h.executionId), all, ts, last, |EffectsOf(final[..m], h.executionId)|);
  }

  /** Crash, resume, replay. A run that did not diverge, however it ended, may be cut after any record it
  wrote. If no gate is left undecided and the steps before the cut are repeatable, resuming from there with
  the same harness, in any environment, never diverges; it sees again what it saw before the cut, loses
  nothing, and has served all that was left when it returns. If the resumed run finishes, a later replay
  repeats it iff each of its own steps is repeatable. */
  lemma {:induction false} CrashResumeReplay(h: Host, journal: seq<Entry>, har: Harness, envs: nat -> Env, budget: nat, m: nat,
                                             envs': nat -> Env, budget': nat)
    requires Sound(h, journal) && PrefixServed(h, journal, RunOn(h, journal, har, envs, budget))
    requires var final := RunOn(h, journal, har, envs, budget).sink.live.journal;
      && |journal| <= m <= |final|
      && Decided(h, final[..m])
      && FaithfulBefore(EffectsOf(final, h.executionId), CleanTraceOn(h, journal, har, envs, budget), |EffectsOf(final[..m], h.executionId)|)
    ensures var cut := RunOn(h, journal, har, envs, budget).sink.live.journal[..m];
      && journal <= cut && Sound(h, cut)
      && var n := |EffectsOf(cut, h.executionId)|;
      var e := RunOn(h, cut, har, envs', budget');
      && e.sink.failure.None? && cut <= e.sink.live.journal && Sound(h, e.sink.live.journal)
      && SawAgain([], e, CleanTraceOn(h, journal, har, envs, budget), n)
      && (e.finish.Some? ==> PrefixServed(h, cut, e))
      && (Finished(h, cut, e) <==> Clean(e.sink) && e.finish.Some?)
      && (Finished(h, cut, e) ==>
            (Saw(ReplayOn(h, e.sink.live.journal, har, budget'), e.seen) <==>
             Faithful(EffectsOf(e.sink.live.journal, h.executionId), TraceOn(h, cut, har, envs', budget'))))
  {
    hide Fold, EntriesOf, EffectsOf, ResumeRun, CleanTraceOn, Trace, ReplayRun, Follows, Sound, Settled, FaithfulBefore, Decided, SawAgain;
    var all, last := RunTraced(h, journal, har, envs, budget, m);
    var cut := RunOn(h, journal, har, envs, budget).sink.live.journal[..m];
    var ts := CleanTraceOn(h, journal, har, envs, budget);
    RecoveryNeverDiverges(h, cut, har, all, ts + last, envs', budget');
    var e := RunOn(h, cut, har, envs', budget');
    SawAgainPart([], e, ts, last, |EffectsOf(cut, h.executionId)|);
    if Finished(h, cut, e) { ReplayRepeatsRun(h, cut, har, envs', budget'); }
  }

  lemma {:induction false} SawAgainPart(seen: seq<Seen>, e: Ending, ts: seq<Taken>, last: seq<Taken>, n: nat)
    requires SawAgain(seen, e, ts + last, n)
    ensures SawAgain(seen, e, ts, n)
  {
    forall k | 0 <= k < |ts| && ts[k].to < n && |seen| + k < |e.seen|
      ensures e.seen[|seen| + k] == See(ts[k].answer)
    {
      assert (ts + last)[k] == ts[k];
    }
  }

  /** A run that ends clean took no other steps: its trace is the whole of it. */
  lemma {:induction false} CleanTraceIsTrace(h: Host, rec: Recording, har: Harness, envs: nat -> Env, s: Resuming, seen: seq<Seen>, budget: nat)
    requires Clean(ResumeRun(h, rec, har, envs, s, seen, budget).sink)
    ensures CleanTrace(h, rec, har, envs, s, seen, budget) == Trace(h, rec, har, envs, s, seen, budget)
    decreases budget
  {
    hide ResumeStep;
    if har(seen).Emit? && budget > 0 {
      var r := ResumeStep(h, rec, s, har(seen).op, envs(|seen|));
      if !Clean(r.0) { RunStaysUnclean(h, rec, har, envs, r.0, seen + [See(r.1)], budget - 1); }
      CleanTraceIsTrace(h, rec, har, envs, r.0, seen + [See(r.1)], budget - 1);
    }
  }
}
