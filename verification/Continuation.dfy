/** Recovery over a whole session (controller.Resume in any journal a session reaches).

What is recorded of an execution is always what its harness did, as far as it goes: whatever Exec, Resume,
the repair, Approve, marks and forks wrote, each interrupted anywhere. So as long as the turns before were
repeatable, no recovery in the session's history diverges. */
module Continuation {
  import opened Api
  import opened Approval
  import opened ApprovalScan
  import opened Sinks
  import opened Evidence
  import opened Runs
  import opened Traces
  import opened Upkeep
  import opened Recovery
  import opened Parking
  import opened Crashes
  import opened Projection
  import opened Deciding
  import opened Writers
  import opened Invocations
  import opened Controller
  import opened Journeys
  import EventLog
  import Owned
  import Replays

  // ---- records that a harness explains ----

  /** These records are what the harness did, as far as they go. */
  ghost predicate Explained(h: Host, har: Harness, stream: seq<Event>)
  {
    exists all, ts :: Traced(h, har, stream, all, ts)
  }

  lemma {:induction false} NothingExplained(h: Host, har: Harness)
    ensures Explained(h, har, [])
  {
    assert Traced(h, har, [], [], []);
  }

  /** Less of it is still what the harness did. */
  lemma {:induction false} ShorterExplained(h: Host, har: Harness, stream: seq<Event>, longer: seq<Event>)
    requires Explained(h, har, longer) && stream <= longer
    ensures Explained(h, har, stream)
  {
    hide Follows;
    var all: seq<Event>, ts: seq<Taken> :| Traced(h, har, longer, all, ts);
    assert Traced(h, har, stream, all, ts);
  }

  /** A trace depends on its host through the input hash alone. */
  lemma {:induction false} FollowsSame(h: Host, h': Host, har: Harness, all: seq<Event>, seen: seq<Seen>, ts: seq<Taken>, p: nat)
    requires h.hashInput == h'.hashInput && Follows(h, har, all, seen, ts, p)
    ensures Follows(h', har, all, seen, ts, p)
    decreases |ts|
  {
    if ts != [] {
      assert Recorded(h', all, ts[0]);
      FollowsSame(h, h', har, all, seen + [See(ts[0].answer)], ts[1..], ts[0].to);
    }
  }

  lemma {:induction false} ExplainedSame(h: Host, h': Host, har: Harness, stream: seq<Event>)
    requires h.hashInput == h'.hashInput && Explained(h, har, stream)
    ensures Explained(h', har, stream)
  {
    hide Follows, FaithfulBefore;
    var all: seq<Event>, ts: seq<Taken> :| Traced(h, har, stream, all, ts);
    FollowsSame(h, h', har, all, [], ts, 0);
    assert Traced(h', har, stream, all, ts);
  }

  // ---- a gate that grows ----

  /** The streams agree on the records up to p and on the one at p. */
  predicate SameUpTo(all: seq<Event>, other: seq<Event>, p: nat)
  {
    p < |all| && p < |other| && all[..p + 1] == other[..p + 1]
  }

  /** A step that ends by p is recorded in the other stream just as well. */
  lemma {:induction false} RecordedAlike(h: Host, all: seq<Event>, other: seq<Event>, t: Taken, p: nat)
    requires SameUpTo(all, other, p) && Recorded(h, all, t) && t.from <= t.to <= p
    ensures Recorded(h, other, t)
    ensures Replays.Repeatable(all, t.op, t.answer, t.from, t.to) ==> Replays.Repeatable(other, t.op, t.answer, t.from, t.to)
  {
    forall k | 0 <= k <= p
      ensures all[k] == other[k]
    {
      assert all[k] == all[..p + 1][k] && other[k] == other[..p + 1][k];
    }
    assert all[..t.from] == all[..p + 1][..t.from] == other[..t.from];
  }

  /** A recorded gated call belongs to the step that starts with it. */
  lemma {:induction false} GateIsItsStep(h: Host, all: seq<Event>, t: Taken, p: nat)
    requires Recorded(h, all, t) && t.from <= p < t.to && p < |all| && IsGatedCall(all[p])
    ensures t.from == p && t.op.Call? && t.op.call.mediation.RequiresApproval? && MatchesCall(t.op.call, all[p].body.toolCall)
  {
    hide MatchesCall;
    if t.op.Call? && t.from == p { SameMediation(t.op.call, all[p].body.toolCall); }
  }

  /** A trace that goes past a gated call, up to that call and with its step recorded anew. */
  lemma {:induction false} Regrown(h: Host, har: Harness, all: seq<Event>, other: seq<Event>, seen: seq<Seen>, ts: seq<Taken>, q: nat, p: nat, n: nat,
                                   last: ToolCall -> Taken) returns (us: seq<Taken>)
    requires Follows(h, har, all, seen, ts, q) && q <= p < EndOf(ts, q) && SameUpTo(all, other, p) && IsGatedCall(all[p])
    requires FaithfulBefore(all, ts, p + 1) && p < n
    requires forall call: ToolCall | call.mediation.RequiresApproval? && MatchesCall(call, all[p].body.toolCall) ::
      last(call).op == Call(call) && last(call).from == p && last(call).to >= n && Recorded(h, other, last(call))
    ensures Follows(h, har, other, seen, us, q) && EndOf(us, q) >= n
    ensures FaithfulBefore(other, us, n)
    decreases |ts|
  {
    hide Went, MatchesCall, Replays.Repeatable;
    var t, rest := ts[0], ts[1..];
    WentForward(h, all, t.op, t.answer, t.from, t.to);
    if p < t.to {
      GateIsItsStep(h, all, t, p);
      var u := last(t.op.call);
      us := [u];
      LoneFollows(h, har, other, seen, u);
    } else {
      RecordedAlike(h, all, other, t, p);
      assert FaithfulBefore(all, rest, p + 1) by {
        forall k | 0 <= k < |rest| && rest[k].to < p + 1
          ensures Replays.Repeatable(all, rest[k].op, rest[k].answer, rest[k].from, rest[k].to)
        {
          assert rest[k] == ts[k + 1];
        }
      }
      var vs := Regrown(h, har, all, other, seen + [See(t.answer)], rest, t.to, p, n, last);
      us := [t] + vs;
      FollowsCons(h, har, other, seen, t, vs);
      assert Replays.Repeatable(all, t.op, t.answer, t.from, t.to);
      forall k | 0 <= k < |us| && us[k].to < n
        ensures Replays.Repeatable(other, us[k].op, us[k].answer, us[k].from, us[k].to)
      {
        if k > 0 { assert us[k] == vs[k - 1]; }
      }
    }
  }

  /** The next record of a gate that is open. */
  predicate NextOfGate(stream: seq<Event>, p: nat, e: Event)
  {
    && p + 1 <= |stream| <= p + 2 && IsGatedCall(stream[p])
    && if |stream| == p + 1 then e.kind.KApprovalRequest?
       else stream[p + 1].kind.KApprovalRequest? && e.kind.KApprovalResult? && e.body.BApprovalResult?
  }

  /** The request or the decision of a recorded gated call is explained by the call. */
  lemma {:induction false} GateGrows(h: Host, har: Harness, stream: seq<Event>, p: nat, e: Event)
    requires Explained(h, har, stream) && NextOfGate(stream, p, e)
    ensures Explained(h, har, stream + [e])
  {
    hide Follows, MatchesCall, Went, Replays.Repeatable;
    var all: seq<Event>, ts: seq<Taken> :| Traced(h, har, stream, all, ts);
    var n := |stream| + 1;
    var other := stream + [e] + RestOfGate(n - p);
    var result := LATER_RESULT.(approval := Some(other[p + 2].body.decision));
    var last := (call: ToolCall) => Taken(Call(call), Returned(result), p, p + 4);
    assert all[..p + 1] == stream[..p + 1] == other[..p + 1];
    assert AnsweredGate(other, p, result);
    forall call: ToolCall | call.mediation.RequiresApproval? && MatchesCall(call, all[p].body.toolCall)
      ensures Recorded(h, other, last(call))
    {
      WholeGate(h, other, call, result, p);
    }
    var us := Regrown(h, har, all, other, [], ts, 0, p, n, last);
    assert Traced(h, har, stream + [e], other, us);
  }

  lemma {:induction false} WholeGate(h: Host, stream: seq<Event>, call: ToolCall, result: ToolResult, p: nat)
    requires p + 4 <= |stream| && IsCall(stream[p]) && MatchesCall(call, stream[p].body.toolCall)
    requires call.mediation.RequiresApproval? && AnsweredGate(stream, p, result)
    ensures Recorded(h, stream, Taken(Call(call), Returned(result), p, p + 4))
  {
    hide MatchesCall;
  }

  // ---- a turn ----

  /** A run that does not diverge has served what was recorded before it, or has written nothing. */
  lemma {:induction false} RunReaches(h: Host, journal: seq<Entry>, rec: Recording, har: Harness, envs: nat -> Env, s: Resuming, seen: seq<Seen>, budget: nat)
    requires Upheld(h, journal, rec, s) && Clean(s) && GatesAgree(rec.stream, rec.gates)
    requires ResumeRun(h, rec, har, envs, s, seen, budget).sink.failure.None?
    ensures var t := ResumeRun(h, rec, har, envs, s, seen, budget).sink; t.i == |rec.stream| || t.live.journal == journal
    decreases budget
  {
    hide ResumeStep, EffectsOf, GatesAgree, Sound, Ahead, Fold, Partial, EntriesOf;
    if har(seen).Emit? && budget > 0 {
      var op := har(seen).op;
      var (t, a) := ResumeStep(h, rec, s, op, envs(|seen|));
      if t.failure.Some? { FailureStays(h, rec, har, envs, t, seen + [See(a)], budget - 1); }
      if Clean(t) {
        StepUpheld(h, journal, rec, s, op, envs(|seen|));
        hide Upheld;
        RunReaches(h, journal, rec, har, envs, t, seen + [See(a)], budget - 1);
      } else {
        var added, pad, last := StepBreaks(h, rec, s, Effects(h, s), op, envs(|seen|));
        LiveRunCannotDiverge(h, rec, har, envs, t, seen + [See(a)], budget - 1);
      }
    }
  }

  /** Resuming records that the harness explains never diverges. */
  lemma {:induction false} TurnContinues(h: Host, from: seq<Entry>, har: Harness, envs: nat -> Env, budget: nat)
    requires Sound(h, from) && Decided(h, from) && Explained(h, har, EffectsOf(from, h.executionId))
    ensures var e := RunOn(h, from, har, envs, budget);
      && e.sink.failure.None? && from <= e.sink.live.journal
      && (e.finish.Some? ==> e.sink.i == |EffectsOf(from, h.executionId)|)
      && (PrefixServed(h, from, e) || e.sink.live.journal == from)
  {
    hide Fold, EntriesOf, Stream, ResumeRun, Follows, GatesAgree, CallsDistinct, FaithfulBefore, Sound, Decided;
    var all: seq<Event>, ts: seq<Taken> :| Traced(h, har, EffectsOf(from, h.executionId), all, ts);
    RecoveryNeverDiverges(h, from, har, all, ts, envs, budget);
    BeginUpheld(h, from);
    AgreedSound(h, from);
    RunReaches(h, from, RecordingOf(from, h.executionId), har, envs, Begin(from), [], budget);
  }

  /** What a turn leaves, wherever it is interrupted, is explained when the steps before are repeatable. */
  lemma {:induction false} TurnExplained(h: Host, from: seq<Entry>, har: Harness, envs: nat -> Env, budget: nat, m: nat)
    requires Sound(h, from) && Decided(h, from) && Explained(h, har, EffectsOf(from, h.executionId))
    requires var final := RunOn(h, from, har, envs, budget).sink.live.journal;
      && |from| <= m <= |final|
      && FaithfulBefore(EffectsOf(final, h.executionId), CleanTraceOn(h, from, har, envs, budget), |EffectsOf(final[..m], h.executionId)|)
    ensures Explained(h, har, EffectsOf(RunOn(h, from, har, envs, budget).sink.live.journal[..m], h.executionId))
  {
    hide Fold, EffectsOf, EntriesOf, Traced, Sound, Decided, RunOn, CleanTraceOn, FaithfulBefore;
    TurnContinues(h, from, har, envs, budget);
    var e := RunOn(h, from, har, envs, budget);
    if PrefixServed(h, from, e) {
      var all, last := RunTraced(h, from, har, envs, budget, m);
    } else {
      assert e.sink.live.journal[..m] == from;
    }
  }

  /** The same of the whole turn, its closing record included. */
  lemma {:induction false} TurnLeft(h: Host, from: seq<Entry>, har: Harness, envs: nat -> Env, budget: nat, es: seq<Entry>)
    requires Sound(h, from) && Decided(h, from) && Explained(h, har, EffectsOf(from, h.executionId))
    requires from <= es <= TurnLeaves(h, from, har, envs, budget)
    requires FaithfulBefore(EffectsOf(RunOn(h, from, har, envs, budget).sink.live.journal, h.executionId),
                            CleanTraceOn(h, from, har, envs, budget), |EffectsOf(es, h.executionId)|)
    ensures Explained(h, har, EffectsOf(es, h.executionId))
  {
    hide Fold, EffectsOf, EntriesOf, Traced, Sound, Decided, RunOn, CleanTraceOn, FaithfulBefore, Explained;
    TurnContinues(h, from, har, envs, budget);
    var e := RunOn(h, from, har, envs, budget);
    var final, closing := e.sink.live.journal, Closing(h, from, e);
    if closing != [] { AppendingOne(final, closing); }
    var m := if |es| <= |final| then |es| else |final|;
    if |es| <= |final| {
      assert es == final[..|es|];
    } else {
      assert es == final + [Entry(Head(final) + 1, closing[0])] && final[..|final|] == final;
      EffectsSnoc(final, Entry(Head(final) + 1, closing[0]), h.executionId);
    }
    TurnExplained(h, from, har, envs, budget, m);
  }

  // ---- the executions of a session ----

  ghost predicate Startable(es: seq<Entry>, id: string)
  {
    Gathered(EntriesOf(es, id)).Some? && FirstIndex(es, id) <= |es|
  }

  /** What is recorded of the execution is what its harness did, started as recovery would start it. */
  ghost predicate ExecutionExplained(h: Host, hars: Start -> Harness, es: seq<Entry>, id: string)
  {
    EffectsOf(es, id) != [] ==>
      Startable(es, id) && Explained(h, hars(RebuiltStart(es, ExecutionOf(es, id))), EffectsOf(es, id))
  }

  /** An execution with effects has all its inputs. */
  lemma {:induction false} EffectsFollowInputs(own: seq<Entry>)
    requires Healthy(own) && Stream(own) != []
    ensures Fold(own).Ok? && Complete(Fold(own).value)
  {
    hide Complete;
    HealthyIsWhole(own);
    if own != [] {
      var init, e := own[..|own| - 1], own[|own| - 1];
      if Stream(init) != [] {
        EffectsFollowInputs(init);
        CompleteStays(Fold(init).value, e, Fold(own).value);
      } else {
        FirstEffect(Fold(init).value, |own| == 1, e, Fold(own).value);
      }
    }
  }

  lemma {:induction false} FirstEffect(x: Execution, first: bool, e: Entry, y: Execution)
    requires StepHealthy(x, first, e) && Step(x, first, e) == Ok(y) && IsEffect(e.event.kind) && (!first ==> Whole(x))
    ensures Complete(y)
  {
  }

  lemma {:induction false} NoRecordsNoEffects(es: seq<Entry>, id: string)
    requires EntriesOf(es, id) == []
    ensures EffectsOf(es, id) == []
  {
  }

  /** The start of an execution with effects is rebuilt the same from any longer journal. */
  lemma {:induction false} SameStart(es0: seq<Entry>, es: seq<Entry>, id: string)
    requires Healthy(EntriesOf(es0, id)) && Healthy(EntriesOf(es, id)) && es0 <= es && EffectsOf(es0, id) != []
    ensures Startable(es0, id) && Startable(es, id)
    ensures RebuiltStart(es, ExecutionOf(es, id)) == RebuiltStart(es0, ExecutionOf(es0, id))
  {
    hide Fold, EntriesOf, Healthy, Gathered, FirstIndex, Latest, Stream, Complete;
    var own := EntriesOf(es0, id);
    if own == [] { NoRecordsNoEffects(es0, id); }
    EffectsFollowInputs(own);
    StartKept(es0, es, id);
  }

  // ---- what the acts of a session need ----

  /** Once the gateway lets a recovery through, no gate of the execution is undecided. */
  lemma {:induction false} ProceedsDecided(es: seq<Entry>, h: Host)
    requires Sane(es) && Resumable(es, h.executionId) && ApprovalGateway(es, h.executionId).Proceeds?
    ensures Decided(h, es)
  {
    hide EntriesOf, Healthy, ForkSeq, Executions, HasGate, StatesOf, Fold;
    var own := EntriesOf(es, h.executionId);
    HealthyIsWhole(own);
    if IsOpen(Fold(own).value) {
      SeenExecution(es, h.executionId);
      if !HasGate(own) { GatesMeanGated(own); }
      SelectedState(es);
    }
  }

  /** The records of the gate that is open, in the effects. */
  lemma {:induction false} OpenGateAt(es: seq<Entry>, id: string)
    requires Fold(EntriesOf(es, id)).Ok? && IsOpen(Fold(EntriesOf(es, id)).value)
    ensures var g, stream := LastGate(Fold(EntriesOf(es, id)).value), EffectsOf(es, id);
      var p := |stream| - OpenLength(g);
      && (g.decision.Some? ==> g.request.Some?)
      && 0 <= p && p < |stream| && IsGatedCall(stream[p])
      && (p + 1 < |stream| ==> stream[p + 1].kind.KApprovalRequest?)
  {
    hide Fold, EntriesOf, Stream;
    FoldAgrees(EntriesOf(es, id));
    var g, stream := LastGate(Fold(EntriesOf(es, id)).value), EffectsOf(es, id);
    assert GateAt(stream, GateMap(Fold(EntriesOf(es, id)).value.gates), |stream| - OpenLength(g));
  }

  /** The request that the gateway repairs, and a decision that is committed, is the next record of its gate. */
  lemma {:induction false} RepairIsNext(es: seq<Entry>, id: string)
    requires Sane(es) && Resumable(es, id) && ApprovalGateway(es, id).Repairs?
    ensures EffectsOf(es, id) != [] && NextOfGate(EffectsOf(es, id), |EffectsOf(es, id)| - 1, ApprovalGateway(es, id).request)
    ensures ApprovalGateway(es, id).request.executionId == id
  {
    hide EntriesOf, Healthy, ForkSeq, Executions, HasGate, StatesOf, Fold, EffectsOf;
    SelectedIs(es);
    OpenGateAt(es, id);
  }

  lemma {:induction false} DecisionIsNext(es: seq<Entry>, d: ApprovalDecision)
    requires Judge(es, d).Commit?
    ensures |EffectsOf(es, d.executionId)| >= 2
    ensures NextOfGate(EffectsOf(es, d.executionId), |EffectsOf(es, d.executionId)| - 2, DecisionEvent(d))
  {
    hide EntriesOf, ForkSeq, Executions, HasGate, StatesOf, Fold, EffectsOf;
    CommitAwaits(es, d);
    OpenGateAt(es, d.executionId);
  }

  // ---- one act ----

  /** The steps of a turn whose records survived were repeatable. */
  ghost predicate StepsRepeat(es: seq<Entry>, act: Act, es': seq<Entry>)
  {
    RunsFrom(es, act).Some? && Sound(act.host, RunsFrom(es, act).value) ==>
      var from, id := RunsFrom(es, act).value, act.host.executionId;
      FaithfulBefore(EffectsOf(RunOn(act.host, from, act.har, act.envs, act.budget).sink.live.journal, id),
                     CleanTraceOn(act.host, from, act.har, act.envs, act.budget), |EffectsOf(es', id)|)
  }

  /** Records of the execution as they were, in a journal that is longer. */
  lemma {:induction false} StaysExplained(h: Host, hars: Start -> Harness, es0: seq<Entry>, es: seq<Entry>, id: string)
    requires Healthy(EntriesOf(es, id)) && es0 <= es && ExecutionExplained(h, hars, es0, id) && EntriesOf(es, id) == EntriesOf(es0, id)
    ensures ExecutionExplained(h, hars, es, id)
  {
    hide EntriesOf, Gathered, FirstIndex, RebuiltStart, Explained, Stream, Healthy;
    if EffectsOf(es, id) != [] { SameStart(es0, es, id); }
  }

  /** What is left of it in a prefix. */
  lemma {:induction false} PrefixExplained(h: Host, hars: Start -> Harness, es: seq<Entry>, m: nat, id: string)
    requires m <= |es| && Healthy(EntriesOf(es, id)) && ExecutionExplained(h, hars, es, id)
    ensures Healthy(EntriesOf(es[..m], id)) && ExecutionExplained(h, hars, es[..m], id)
  {
    hide EffectsOf, EntriesOf, Gathered, FirstIndex, RebuiltStart, Explained, Healthy;
    EntriesPrefix(es, m, id);
    var own, cut := EntriesOf(es, id), EntriesOf(es[..m], id);
    assert own[..|cut|] == cut;
    HealthyPrefix(own, |cut|);
    EffectsPrefix(es, m, id);
    if EffectsOf(es[..m], id) != [] {
      SameStart(es[..m], es, id);
      ShorterExplained(h, hars(RebuiltStart(es, ExecutionOf(es, id))), EffectsOf(es[..m], id), EffectsOf(es, id));
    }
  }

  /** One more record of its open gate. */
  lemma {:induction false} GateExplained(h: Host, hars: Start -> Harness, es: seq<Entry>, e: Entry, p: nat)
    requires ExecutionExplained(h, hars, es, e.event.executionId) && !e.event.kind.KLifecycle?
    requires Healthy(EntriesOf(es, e.event.executionId)) && Healthy(EntriesOf(es + [e], e.event.executionId))
    requires NextOfGate(EffectsOf(es, e.event.executionId), p, e.event)
    ensures ExecutionExplained(h, hars, es + [e], e.event.executionId)
  {
    hide EffectsOf, EntriesOf, Gathered, FirstIndex, RebuiltStart, Explained, Healthy;
    var id := e.event.executionId;
    EffectsSnoc(es, e, id);
    SameStart(es, es + [e], id);
    GateGrows(h, hars(RebuiltStart(es, ExecutionOf(es, id))), EffectsOf(es, id), p, e.event);
  }

  /** A first turn of a new execution. */
  lemma {:induction false} ExecExplained(h: Host, hars: Start -> Harness, es: seq<Entry>, act: Act, es': seq<Entry>)
    requires Sane(es) && Sane(es') && act.ExecTurn? && RunsFrom(es, act).Some? && es <= es' <= Writes(es, act)
    requires Tied(h, hars, es, act) && StepsRepeat(es, act, es')
    ensures ExecutionExplained(h, hars, es', act.host.executionId)
  {
    hide Sane, EffectsOf, EntriesOf, Gathered, FirstIndex, RebuiltStart, Explained, FaithfulBefore, Executions, Blocked, Opening, Appending,
         TurnLeaves, Sound, Decided, RunOn, CleanTraceOn, Healthy;
    var own, id := act.host, act.host.executionId;
    var begun := Appending(es, Opening(id, act.start, act.inputs));
    FreshIsSound(es, own, act.start, act.inputs);
    assert EffectsOf(begun, id) == [];
    if |es'| <= |begun| {
      LeavesMore(own, begun, act.har, act.envs, act.budget);
      assert es' == begun[..|es'|];
      EffectsPrefix(begun, |es'|, id);
    } else {
      LeavesMore(own, begun, act.har, act.envs, act.budget);
      SaneIsHealthy(es', id);
      StartRebuilt(es, id, act.start, act.inputs, es');
      FreshDecided(own, begun);
      NothingExplained(own, act.har);
      TurnLeft(own, begun, act.har, act.envs, act.budget, es');
      ExplainedSame(own, h, act.har, EffectsOf(es', id));
    }
  }

  lemma {:induction false} FreshDecided(h: Host, journal: seq<Entry>)
    requires Sound(h, journal) && EffectsOf(journal, h.executionId) == []
    ensures Decided(h, journal)
  {
    hide Fold, EntriesOf, Stream;
    FoldAgrees(EntriesOf(journal, h.executionId));
  }

  /** A recovery that the gateway lets through. */
  lemma {:induction false} ResumeExplained(h: Host, hars: Start -> Harness, es: seq<Entry>, act: Act, es': seq<Entry>)
    requires Sane(es) && Sane(es') && act.ResumeTurn? && RunsFrom(es, act).Some? && es <= es' <= Writes(es, act)
    requires Tied(h, hars, es, act) && StepsRepeat(es, act, es') && ExecutionExplained(h, hars, es, act.host.executionId)
    ensures ExecutionExplained(h, hars, es', act.host.executionId)
  {
    hide Sane, EffectsOf, EntriesOf, Gathered, FirstIndex, RebuiltStart, Explained, FaithfulBefore, Executions,
         TurnLeaves, Sound, Decided, RunOn, CleanTraceOn, Healthy, Resumable, ApprovalGateway;
    var own, id := act.host, act.host.executionId;
    ResumableIsCurrent(es, own);
    ResumableGathers(es, id);
    ProceedsDecided(es, own);
    assert act.har == hars(RebuiltStart(es, ExecutionOf(es, id)));
    if EffectsOf(es, id) == [] { NothingExplained(own, act.har); } else { ExplainedSame(h, own, act.har, EffectsOf(es, id)); }
    TurnLeft(own, es, act.har, act.envs, act.budget, es');
    if EffectsOf(es', id) != [] {
      ResumableStart(es, es', own);
      ExplainedSame(own, h, act.har, EffectsOf(es', id));
    }
  }

  /** The start of an execution that can be resumed is rebuilt the same later. */
  lemma {:induction false} ResumableStart(es: seq<Entry>, es': seq<Entry>, h: Host)
    requires Sane(es) && Sane(es') && es <= es' && Resumable(es, h.executionId)
    ensures Startable(es, h.executionId) && Startable(es', h.executionId)
    ensures RebuiltStart(es', ExecutionOf(es', h.executionId)) == RebuiltStart(es, ExecutionOf(es, h.executionId))
  {
    hide Sane, EntriesOf, Gathered, FirstIndex, RebuiltStart, Resumable, Fold, Healthy, Latest;
    ResumableIsCurrent(es, h);
    SaneIsHealthy(es', h.executionId);
    StartKept(es, es', h.executionId);
  }

  /** A request or a decision that an act appends, unless it was interrupted before. */
  lemma {:induction false} AnswerExplained(h: Host, hars: Start -> Harness, es: seq<Entry>, event: Event, p: nat, es': seq<Entry>)
    requires Sane(es) && Sane(es') && es <= es' <= Appending(es, [event])
    requires ExecutionExplained(h, hars, es, event.executionId) && NextOfGate(EffectsOf(es, event.executionId), p, event)
    ensures ExecutionExplained(h, hars, es', event.executionId)
  {
    hide EntriesOf, EffectsOf, Sane, ExecutionExplained, Head;
    AppendingOne(es, [event]);
    var e := Entry(Head(es) + 1, event);
    SaneIsHealthy(es, event.executionId);
    SaneIsHealthy(es', event.executionId);
    if es' != es {
      assert es' == es + [e];
      GateExplained(h, hars, es, e, p);
    }
  }

  /** Every act of the session keeps what is recorded explained, however it is interrupted. */
  lemma {:induction false} ActExplains(h: Host, hars: Start -> Harness, es: seq<Entry>, act: Act, es': seq<Entry>, id: string)
    requires Sane(es) && Leads(es, act, es') && Tied(h, hars, es, act) && StepsRepeat(es, act, es')
    requires ExecutionExplained(h, hars, es, id)
    ensures ExecutionExplained(h, hars, es', id)
  {
    hide Sane, EntriesOf, EffectsOf, ExecutionExplained, StepsRepeat, Tied, TurnLeaves, Opening, Appending, Resumable, ApprovalGateway, Judge, Blocked, Sound, Executions,
         Healthy, Journeys.Completes;
    LeadsSane(es, act, es');
    SaneIsHealthy(es, id);
    SaneIsHealthy(es', id);
    if act.ForkAt? {
      var m := ForkPoint(es, act, es');
      PrefixExplained(h, hars, es, m, id);
      EntriesNext(es[..m], Entry(m + 1, EventLog.ForkEvent(act.atSeq)), id);
      StaysExplained(h, hars, es[..m], es', id);
    } else if Subject(act) != id || es' == es {
      LeadsAdds(es, act, es');
      OthersLeave(es, es', id);
      StaysExplained(h, hars, es, es', id);
    } else {
      match act
      case ExecTurn(_, _, _, _, _, _) => ExecExplained(h, hars, es, act, es');
      case ResumeTurn(own, _, _, _) =>
        if ApprovalGateway(es, id).Repairs? {
          RepairIsNext(es, id);
          AnswerExplained(h, hars, es, ApprovalGateway(es, id).request, |EffectsOf(es, id)| - 1, es');
        } else {
          ResumeExplained(h, hars, es, act, es');
        }
      case Decide(d) =>
        DecisionIsNext(es, d);
        AnswerExplained(h, hars, es, DecisionEvent(d), |EffectsOf(es, id)| - 2, es');
      case Mark(_) =>
        MarkExplained(h, hars, es, act, es', id);
    }
  }

  lemma {:induction false} MarkExplained(h: Host, hars: Start -> Harness, es: seq<Entry>, act: Act, es': seq<Entry>, id: string)
    requires act.Mark? && es <= es' <= Writes(es, act) && ExecutionExplained(h, hars, es, id) && Healthy(EntriesOf(es', id))
    ensures ExecutionExplained(h, hars, es', id)
  {
    hide EntriesOf, EffectsOf, ExecutionExplained, Healthy, Head;
    if es' != es {
      var event := Event("", KLifecycle, BLifecycle(act.lifecycle), NO_IDENTITY);
      AppendingOne(es, [event]);
      assert es' == es + [Entry(Head(es) + 1, event)];
      EntriesNext(es, Entry(Head(es) + 1, event), id);
      StaysExplained(h, hars, es, es', id);
    }
  }

  /** A turn that ended its execution and is repeated by replay step by step leaves nothing that a recovery
  could stumble over, wherever it is cut. */
  lemma {:induction false} FinishedTurnRepeats(es: seq<Entry>, act: Act, id: string, es': seq<Entry>)
    requires Journeys.Completes(es, act, id) && TurnFaithful(es, act)
    ensures StepsRepeat(es, act, es')
  {
    hide Fold, EntriesOf, Stream, ResumeRun, Trace, CleanTrace;
    var from, h := RunsFrom(es, act).value, act.host;
    CleanTraceIsTrace(h, RecordingOf(from, h.executionId), act.har, act.envs, Begin(from), [], act.budget);
  }

  // ---- a session ----

  lemma {:induction false} JourneyExplained(h: Host, hars: Start -> Harness, path: seq<seq<Entry>>, acts: seq<Act>, n: nat, id: string)
    requires Journey(path, acts) && n < |path|
    requires forall k | 0 <= k < n :: Tied(h, hars, path[k], acts[k]) && StepsRepeat(path[k], acts[k], path[k + 1])
    ensures ExecutionExplained(h, hars, path[n], id)
  {
    hide Sane, Leads, Tied, StepsRepeat, EffectsOf, Explained, Startable, RebuiltStart;
    if n == 0 {
      Owned.NoEffects(id);
    } else {
      JourneyExplained(h, hars, path, acts, n - 1, id);
      WritersNeverWedge(path, acts, n - 1);
      ActExplains(h, hars, path[n - 1], acts[n - 1], path[n], id);
    }
  }

  /** Take any journal a session reaches by Exec, Resume, the repair, Approve, lifecycle marks and forks, each
  interrupted anywhere, with one deterministic harness. As long as the steps of the turns before whose
  records survived were repeatable, a turn that gets to run there, first or recovered, in any environment,
  never diverges: it loses nothing that is recorded, and has been served all of it by the time its harness
  returns. */
  lemma {:induction false} JourneyNeverDiverges(h: Host, hars: Start -> Harness, path: seq<seq<Entry>>, acts: seq<Act>, n: nat)
    requires Journey(path, acts) && n < |acts| && RunsFrom(path[n], acts[n]).Some?
    requires Tied(h, hars, path[n], acts[n])
    requires forall k | 0 <= k < n :: Tied(h, hars, path[k], acts[k]) && StepsRepeat(path[k], acts[k], path[k + 1])
    ensures var act, from := acts[n], RunsFrom(path[n], acts[n]).value;
      && Sound(act.host, from)
      && var e := RunOn(act.host, from, act.har, act.envs, act.budget);
         && e.sink.failure.None? && from <= e.sink.live.journal
         && (e.finish.Some? ==> e.sink.i == |EffectsOf(from, act.host.executionId)|)
  {
    hide Sane, Leads, StepsRepeat, EffectsOf, EntriesOf, Gathered, FirstIndex, RebuiltStart, Explained, Resumable, ApprovalGateway, Blocked, Executions, Opening, Appending,
         Sound, Decided, RunOn;
    var es, act := path[n], acts[n];
    var own, from := act.host, RunsFrom(es, act).value;
    WritersNeverWedge(path, acts, n);
    if act.ExecTurn? {
      FreshIsSound(es, own, act.start, act.inputs);
      FreshDecided(own, from);
      NothingExplained(own, act.har);
    } else {
      ResumableIsCurrent(es, own);
      ResumableGathers(es, own.executionId);
      ProceedsDecided(es, own);
      JourneyExplained(h, hars, path, acts, n, own.executionId);
      if EffectsOf(es, own.executionId) == [] { NothingExplained(own, act.har); } else { ExplainedSame(h, own, act.har, EffectsOf(es, own.executionId)); }
    }
    TurnContinues(own, from, act.har, act.envs, act.budget);
  }
}
