/** The trace of a run: its operations, how they were answered, and the records they went through.

The records a clean run leaves lie one step after the other, in the order of its operations. That is
what replay and recovery serve, so both are stated over traces. */
module Traces {
  import opened Api
  import opened Approval
  import opened Sinks
  import opened Evidence
  import opened Runs

  /** One step: the operation, its answer, and the records from .. to it went through. */
  datatype Taken = Taken(op: Op, answer: Answer, from: nat, to: nat)

  function Trace(h: Host, rec: Recording, har: Harness, envs: nat -> Env, s: Resuming, seen: seq<Seen>, budget: nat): seq<Taken>
    decreases budget
  {
    match har(seen)
    case Return(_) => []
    case Emit(op) =>
      if budget == 0 then []
      else
        var r := ResumeStep(h, rec, s, op, envs(|seen|));
        [Taken(op, r.1, Pos(h, rec, s), Pos(h, rec, r.0))] +
        Trace(h, rec, har, envs, r.0, seen + [See(r.1)], budget - 1)
  }

  /** What the harness saw over a trace. */
  function Sees(ts: seq<Taken>): (out: seq<Seen>)
    ensures |out| == |ts|
  {
    seq(|ts|, k requires 0 <= k < |ts| => See(ts[k].answer))
  }

  /** Where a trace that starts at p ends. */
  function EndOf(ts: seq<Taken>, p: nat): nat
  {
    if ts == [] then p else ts[|ts| - 1].to
  }

  predicate NotHere(stream: seq<Event>, p: nat, call: ToolCall)
  {
    p < |stream| && IsCall(stream[p]) ==> !MatchesCall(call, stream[p].body.toolCall)
  }

  /** One step as the stream records it. */
  ghost predicate Recorded(h: Host, stream: seq<Event>, t: Taken)
  {
    && Went(h, stream, t.op, t.answer, t.from, t.to)
    && (t.op.Call? && t.answer.Failed? && t.to == t.from ==> NotHere(stream, t.from, t.op.call))
  }

  /** The harness makes the operations of the trace, and the stream records them in order from p on. */
  ghost predicate Follows(h: Host, har: Harness, stream: seq<Event>, seen: seq<Seen>, ts: seq<Taken>, p: nat)
    decreases |ts|
  {
    ts != [] ==>
      && ts[0].from == p && har(seen) == Emit(ts[0].op) && Recorded(h, stream, ts[0])
      && Follows(h, har, stream, seen + [See(ts[0].answer)], ts[1..], ts[0].to)
  }

  /** A recorded step in front of a trace that goes on from there. */
  lemma {:induction false} FollowsCons(h: Host, har: Harness, stream: seq<Event>, seen: seq<Seen>, t: Taken, ts: seq<Taken>)
    requires har(seen) == Emit(t.op) && Recorded(h, stream, t)
    requires Follows(h, har, stream, seen + [See(t.answer)], ts, t.to)
    ensures Follows(h, har, stream, seen, [t] + ts, t.from)
    ensures seen + Sees([t] + ts) == seen + [See(t.answer)] + Sees(ts)
    ensures EndOf([t] + ts, t.from) == EndOf(ts, t.to)
  {
    assert ([t] + ts)[1..] == ts;
  }

  // ---- what a refused call says about the next record ----

  lemma {:induction false} GatedCameFrom(stream: seq<Event>, id: string) returns (p: nat)
    requires Gated(CallsIn(stream), id)
    ensures p < |stream| && IsGatedCall(stream[p]) && stream[p].body.toolCall.id == id
  {
    var n := |stream| - 1;
    if IsCall(stream[n]) && stream[n].body.toolCall.id == id {
      p := n;
    } else {
      p := GatedCameFrom(stream[..n], id);
    }
  }

  /** An identity that was gated is not recorded again. */
  lemma {:induction false} GatedNotAgain(stream: seq<Event>, p: nat)
    requires CallsDistinct(stream) && p < |stream| && IsCall(stream[p])
    ensures !Gated(CallsIn(stream[..p]), stream[p].body.toolCall.id)
  {
    var id := stream[p].body.toolCall.id;
    if Gated(CallsIn(stream[..p]), id) {
      var k := GatedCameFrom(stream[..p], id);
    }
  }

  lemma {:induction false} KnownCameFrom(stream: seq<Event>, id: string) returns (p: nat)
    requires id in CallsIn(stream)
    ensures p < |stream| && IsCall(stream[p]) && stream[p].body.toolCall.id == id
  {
    var n := |stream| - 1;
    if IsCall(stream[n]) && stream[n].body.toolCall.id == id {
      p := n;
    } else {
      p := KnownCameFrom(stream[..n], id);
    }
  }

  /** An identity that is known is not gated later. */
  lemma {:induction false} KnownNotGated(stream: seq<Event>, p: nat)
    requires CallsDistinct(stream) && p < |stream| && IsGatedCall(stream[p])
    ensures stream[p].body.toolCall.id !in CallsIn(stream[..p])
  {
    var id := stream[p].body.toolCall.id;
    if id in CallsIn(stream[..p]) {
      var k := KnownCameFrom(stream[..p], id);
    }
  }

  /** The host can gate no call at all. */
  predicate CannotPark(h: Host)
  {
    CapabilityFault(h).Some? || h.session == ""
  }

  /** The call cannot match the next record, or it was refused as a gated call would be. */
  predicate Refusal(h: Host, recorded: seq<Event>, i: nat, calls: map<string, bool>, call: ToolCall)
  {
    || call.key == ""
    || !(call.mediation.ControllerMediated? || (call.mediation.RequiresApproval? && call.id != ""))
    || Gated(calls, call.id)
    || if i < |recorded| then NotHere(recorded, i, call)
       else call.mediation.RequiresApproval? && (CannotPark(h) || call.id in calls)
  }

  /** Why a call is refused without a record. */
  lemma {:induction false} RefusalReason(h: Host, rec: Recording, s: Resuming, call: ToolCall, env: Env)
    requires Clean(s) && s.i <= |rec.stream|
    requires var (t, a) := ResumeStep(h, rec, s, Call(call), env);
      Clean(t) && a.Failed? && t.i == s.i && t.live.journal == s.live.journal
    ensures Refusal(h, rec.stream, s.i, s.live.calls, call)
  {
  }

  /** A call that was refused without a record is not the one recorded next. */
  lemma {:induction false} RefusedIsNotHere(h: Host, rec: Recording, s: Resuming, call: ToolCall, env: Env, final: seq<Event>)
    requires Tracks(h, rec, s) && Clean(s) && Effects(h, s) <= final
    requires var (t, a) := ResumeStep(h, rec, s, Call(call), env);
      Clean(t) && a.Failed? && t.i == s.i && t.live.journal == s.live.journal
    requires (CannotPark(h) ==> NoGatesAfter(final, |rec.stream|)) && CallsDistinct(final)
    ensures NotHere(final, Pos(h, rec, s), call)
  {
    RefusalReason(h, rec, s, call, env);
    RefusalHolds(h, rec.stream, s.i, s.live.calls, Effects(h, s), call, final);
  }

  lemma {:induction false} RefusalHolds(h: Host, recorded: seq<Event>, i: nat, calls: map<string, bool>, all: seq<Event>, call: ToolCall, final: seq<Event>)
    requires TracksAt(recorded, i, calls, all) && all <= final
    requires (CannotPark(h) ==> NoGatesAfter(final, |recorded|)) && CallsDistinct(final)
    requires Refusal(h, recorded, i, calls, call)
    ensures NotHere(final, i + |all| - |recorded|, call)
  {
    var p := i + |all| - |recorded|;
    if p < |final| && IsCall(final[p]) && MatchesCall(call, final[p].body.toolCall) {
      assert final[..p] == all[..p];
      GatedNotAgain(final, p);
      if IsGatedCall(final[p]) { KnownNotGated(final, p); }
    }
  }

  // ---- a run leaves its trace ----

  /** The records a step went through are those of any longer stream. */
  lemma {:induction false} WentExtends(h: Host, stream: seq<Event>, longer: seq<Event>, op: Op, a: Answer, p: nat, q: nat)
    requires Went(h, stream, op, a, p, q) && stream <= longer
    ensures Went(h, longer, op, a, p, q)
  {
    assert p <= |stream| ==> longer[..p] == stream[..p];
  }

  /** The first step of a run that ends clean. */
  lemma {:induction false} FirstStep(h: Host, rec: Recording, har: Harness, envs: nat -> Env, s: Resuming, seen: seq<Seen>, budget: nat, op: Op)
    requires Tracks(h, rec, s) && GatesAgree(rec.stream, rec.gates)
    requires har(seen) == Emit(op) && budget > 0
    requires Clean(ResumeRun(h, rec, har, envs, s, seen, budget).sink)
    ensures var e := ResumeRun(h, rec, har, envs, s, seen, budget);
      var (s', a) := ResumeStep(h, rec, s, op, envs(|seen|));
      && e == ResumeRun(h, rec, har, envs, s', seen + [See(a)], budget - 1)
      && Clean(s') && Tracks(h, rec, s')
      && Effects(h, s') <= Effects(h, e.sink) && NoGatesAfter(Effects(h, e.sink), |rec.stream|)
  {
    hide ResumeStep;
    var (s', a) := ResumeStep(h, rec, s, op, envs(|seen|));
    var seen' := seen + [See(a)];
    if !Clean(s') { RunStaysUnclean(h, rec, har, envs, s', seen', budget - 1); }
    StepTracks(h, rec, s, op, envs(|seen|));
    RunTracks(h, rec, har, envs, s', seen', budget - 1);
  }

  /** A step of a clean run is recorded as it went. */
  lemma {:induction false} StepRecorded(h: Host, rec: Recording, s: Resuming, op: Op, env: Env, final: seq<Event>)
    requires Tracks(h, rec, s) && GatesAgree(rec.stream, rec.gates) && Clean(ResumeStep(h, rec, s, op, env).0)
    requires Effects(h, ResumeStep(h, rec, s, op, env).0) <= final && CallsDistinct(final)
    requires CannotPark(h) ==> NoGatesAfter(final, |rec.stream|)
    ensures var (s', a) := ResumeStep(h, rec, s, op, env); Recorded(h, final, Taken(op, a, Pos(h, rec, s), Pos(h, rec, s')))
  {
    StepTracks(h, rec, s, op, env);
    CleanBefore(h, rec, s, op, env);
    var (s', a) := ResumeStep(h, rec, s, op, env);
    var p, q := Pos(h, rec, s), Pos(h, rec, s');
    WentExtends(h, Effects(h, s'), final, op, a, p, q);
    if op.Call? && a.Failed? && q == p { RefusedIsNotHere(h, rec, s, op.call, env, final); }
  }

  /** The first step of a run that ends clean is recorded in what the run leaves. */
  lemma {:induction false} FirstRecorded(h: Host, rec: Recording, har: Harness, envs: nat -> Env, s: Resuming, seen: seq<Seen>, budget: nat, op: Op)
    requires Tracks(h, rec, s) && GatesAgree(rec.stream, rec.gates)
    requires har(seen) == Emit(op) && budget > 0
    requires var e := ResumeRun(h, rec, har, envs, s, seen, budget);
      Clean(e.sink) && CallsDistinct(Effects(h, e.sink))
    ensures var e := ResumeRun(h, rec, har, envs, s, seen, budget);
      var (s', a) := ResumeStep(h, rec, s, op, envs(|seen|));
      && e == ResumeRun(h, rec, har, envs, s', seen + [See(a)], budget - 1)
      && Tracks(h, rec, s')
      && Recorded(h, Effects(h, e.sink), Taken(op, a, Pos(h, rec, s), Pos(h, rec, s')))
  {
    FirstStep(h, rec, har, envs, s, seen, budget, op);
    StepRecorded(h, rec, s, op, envs(|seen|), Effects(h, ResumeRun(h, rec, har, envs, s, seen, budget).sink));
  }

  /** The run left these records, one step after the other, and saw their answers. */
  ghost predicate Left(h: Host, rec: Recording, har: Harness, s: Resuming, seen: seq<Seen>, e: Ending, ts: seq<Taken>)
  {
    && Follows(h, har, Effects(h, e.sink), seen, ts, Pos(h, rec, s))
    && EndOf(ts, Pos(h, rec, s)) == Pos(h, rec, e.sink)
    && e.seen == seen + Sees(ts)
    && (e.finish.Some? ==> har(e.seen) == Return(e.finish.value))
  }

  lemma {:induction false} LeftCons(h: Host, rec: Recording, har: Harness, s: Resuming, s': Resuming, seen: seq<Seen>, t: Taken, e: Ending, ts: seq<Taken>)
    requires t.from == Pos(h, rec, s) && t.to == Pos(h, rec, s')
    requires har(seen) == Emit(t.op) && Recorded(h, Effects(h, e.sink), t)
    requires Left(h, rec, har, s', seen + [See(t.answer)], e, ts)
    ensures Left(h, rec, har, s, seen, e, [t] + ts)
  {
    hide Recorded;
    FollowsCons(h, har, Effects(h, e.sink), seen, t, ts);
  }

  /** A run that ends clean leaves its trace in the effects of its execution. */
  lemma {:induction false} RunFollows(h: Host, rec: Recording, har: Harness, envs: nat -> Env, s: Resuming, seen: seq<Seen>, budget: nat)
    requires Tracks(h, rec, s) && GatesAgree(rec.stream, rec.gates)
    requires var e := ResumeRun(h, rec, har, envs, s, seen, budget);
      Clean(e.sink) && CallsDistinct(Effects(h, e.sink))
    ensures var ts := Trace(h, rec, har, envs, s, seen, budget);
      Left(h, rec, har, s, seen, ResumeRun(h, rec, har, envs, s, seen, budget), ts) && |ts| <= budget
    decreases budget
  {
    hide ResumeStep;
    match har(seen)
    case Return(_) =>
      assert seen + Sees([]) == seen;
    case Emit(op) =>
      if budget == 0 {
        assert seen + Sees([]) == seen;
      } else {
        FirstRecorded(h, rec, har, envs, s, seen, budget, op);
        var (s', a) := ResumeStep(h, rec, s, op, envs(|seen|));
        var e := ResumeRun(h, rec, har, envs, s', seen + [See(a)], budget - 1);
        RunFollows(h, rec, har, envs, s', seen + [See(a)], budget - 1);
        LeftCons(h, rec, har, s, s', seen, Taken(op, a, Pos(h, rec, s), Pos(h, rec, s')), e,
                 Trace(h, rec, har, envs, s', seen + [See(a)], budget - 1));
      }
  }
}
