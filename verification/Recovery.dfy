/** Crash, resume, replay (controller.Resume, controller.Replay).

The records of a run may be cut anywhere: the process that wrote them crashed, lost its fence, or
parked. A resumed run serves the records that are left to the same harness and then goes live. It
never diverges when the steps that lie before the cut are repeatable, and then it has served every
record that was left. */
module Recovery {
  import opened Api
  import opened Approval
  import opened Sinks
  import opened Evidence
  import opened Runs
  import opened Traces
  import opened Replays
  import opened Upkeep
  import ApprovalScan

  // ---- once live, always live ----

  /** Past the recorded prefix nothing can diverge. */
  lemma {:induction false} LiveCannotDiverge(h: Host, rec: Recording, s: Resuming, op: Op, env: Env)
    requires s.failure.None? && s.i == |rec.stream|
    ensures var t := ResumeStep(h, rec, s, op, env).0; t.failure.None? && t.i == s.i
  {
    hide LiveModel, LiveOutput, LiveCall, LiveReport, LiveAccount;
  }

  lemma {:induction false} LiveRunCannotDiverge(h: Host, rec: Recording, har: Harness, envs: nat -> Env, s: Resuming, seen: seq<Seen>, budget: nat)
    requires s.failure.None? && s.i == |rec.stream|
    ensures var t := ResumeRun(h, rec, har, envs, s, seen, budget).sink; t.failure.None? && t.i == |rec.stream|
    decreases budget
  {
    hide ResumeStep;
    match har(seen)
    case Return(_) =>
    case Emit(op) =>
      if budget > 0 {
        var r := ResumeStep(h, rec, s, op, envs(|seen|));
        LiveCannotDiverge(h, rec, s, op, envs(|seen|));
        LiveRunCannotDiverge(h, rec, har, envs, r.0, seen + [See(r.1)], budget - 1);
      }
  }

  // ---- serving what is left ----

  /** Every gate that is left has its decision. */
  ghost predicate AllDecided(stream: seq<Event>)
  {
    forall p | 0 <= p < |stream| && IsGatedCall(stream[p]) :: p + 2 < |stream|
  }

  /** What a step does when its records are left: the same answer again if they end before the cut,
  or the end of what is left. */
  ghost predicate Serves(n: nat, t: Taken, s: Resuming, r: (Resuming, Answer))
  {
    && r.0.failure.None?
    && if t.to < n then r.0.i == t.to && See(r.1) == See(t.answer) && r.0.live.(calls := s.live.calls) == s.live
       else r.0.i == n
  }

  lemma {:induction false} PlainServes(h: Host, rec: Recording, s: Resuming, all: seq<Event>, t: Taken, env: Env)
    requires Clean(s) && rec.stream <= all && s.i < |rec.stream|
    requires Went(h, all, t.op, t.answer, t.from, t.to) && t.from == s.i && !t.op.Call?
    requires SameGates(s.live.calls, CallsIn(all[..s.i]))
    requires t.to < |rec.stream| ==> Repeatable(all, t.op, t.answer, t.from, t.to)
    ensures Serves(|rec.stream|, t, s, ResumeStep(h, rec, s, t.op, env))
  {
  }

  lemma {:induction false} OrdinaryServes(h: Host, rec: Recording, s: Resuming, all: seq<Event>, call: ToolCall, t: Taken, env: Env)
    requires Clean(s) && rec.stream <= all && s.i < |rec.stream|
    requires t.op == Call(call) && CallWent(all, call, t.answer, t.from, t.to) && t.from == s.i < t.to
    requires !call.mediation.RequiresApproval?
    requires t.to < |rec.stream| ==> Repeatable(all, t.op, t.answer, t.from, t.to)
    ensures Serves(|rec.stream|, t, s, ResumeStep(h, rec, s, t.op, env))
  {
    hide ExecCall;
  }

  lemma {:induction false} RefusalServes(h: Host, rec: Recording, s: Resuming, all: seq<Event>, call: ToolCall, t: Taken, env: Env)
    requires Clean(s) && rec.stream <= all && s.i < |rec.stream|
    requires t.op == Call(call) && t.answer.Failed? && t.from == s.i == t.to
    requires Repeatable(all, t.op, t.answer, t.from, t.to)
    ensures Serves(|rec.stream|, t, s, ResumeStep(h, rec, s, t.op, env))
  {
  }

  lemma {:induction false} GateServed(h: Host, rec: Recording, s: Resuming, all: seq<Event>, call: ToolCall, t: Taken, env: Env)
    requires Clean(s) && rec.stream <= all && s.i < |rec.stream|
    requires t.op == Call(call) && CallWent(all, call, t.answer, t.from, t.to) && t.from == s.i < t.to
    requires call.mediation.RequiresApproval? && GatesAgree(rec.stream, rec.gates) && AllDecided(rec.stream)
    ensures Serves(|rec.stream|, t, s, ResumeStep(h, rec, s, t.op, env))
  {
    hide CompleteApproval;
    assert GateAt(rec.stream, rec.gates, s.i);
  }

  lemma {:induction false} StepServes(h: Host, rec: Recording, s: Resuming, all: seq<Event>, t: Taken, env: Env)
    requires Clean(s) && rec.stream <= all && s.i < |rec.stream| && t.from == s.i
    requires SameGates(s.live.calls, CallsIn(all[..s.i]))
    requires Went(h, all, t.op, t.answer, t.from, t.to)
    requires GatesAgree(rec.stream, rec.gates) && AllDecided(rec.stream)
    requires t.to < |rec.stream| ==> Repeatable(all, t.op, t.answer, t.from, t.to)
    ensures Serves(|rec.stream|, t, s, ResumeStep(h, rec, s, t.op, env))
  {
    hide ResumeStep, Serves;
    match t.op
    case Call(call) =>
      if t.to == t.from { RefusalServes(h, rec, s, all, call, t, env); }
      else if call.mediation.RequiresApproval? { GateServed(h, rec, s, all, call, t, env); }
      else { OrdinaryServes(h, rec, s, all, call, t, env); }
    case _ => PlainServes(h, rec, s, all, t, env);
  }

  /** The steps whose records end before n are repeatable. */
  predicate FaithfulBefore(all: seq<Event>, ts: seq<Taken>, n: nat)
  {
    forall k | 0 <= k < |ts| && ts[k].to < n :: Repeatable(all, ts[k].op, ts[k].answer, ts[k].from, ts[k].to)
  }

  /** The run saw again what the steps before n had answered. */
  ghost predicate SawAgain(seen: seq<Seen>, e: Ending, ts: seq<Taken>, n: nat)
  {
    forall k | 0 <= k < |ts| && ts[k].to < n && |seen| + k < |e.seen| :: e.seen[|seen| + k] == See(ts[k].answer)
  }

  /** A run being served the records before the cut. */
  ghost predicate Serving(h: Host, rec: Recording, har: Harness, all: seq<Event>, s: Resuming, seen: seq<Seen>, ts: seq<Taken>)
  {
    && rec.stream <= all && GatesAgree(rec.stream, rec.gates) && AllDecided(rec.stream)
    && Tracks(h, rec, s) && Clean(s)
    && (s.i < |rec.stream| ==>
          && Follows(h, har, all, seen, ts, s.i) && EndOf(ts, s.i) >= |rec.stream|
          && FaithfulBefore(all, ts, |rec.stream|))
  }

  lemma {:induction false} ServingStep(h: Host, rec: Recording, har: Harness, all: seq<Event>, s: Resuming, seen: seq<Seen>, ts: seq<Taken>, env: Env)
    requires Serving(h, rec, har, all, s, seen, ts) && s.i < |rec.stream|
    ensures ts != [] && har(seen) == Emit(ts[0].op)
    ensures var r := ResumeStep(h, rec, s, ts[0].op, env);
      && Serves(|rec.stream|, ts[0], s, r)
      && (r.0.i < |rec.stream| ==> Serving(h, rec, har, all, r.0, seen + [See(r.1)], ts[1..]))
  {
    hide ResumeStep, Went, Effects;
    var t := ts[0];
    assert Effects(h, s) == rec.stream;
    assert all[..s.i] == rec.stream[..s.i];
    StepServes(h, rec, s, all, t, env);
    var r := ResumeStep(h, rec, s, t.op, env);
    if r.0.i < |rec.stream| {
      StepTracks(h, rec, s, t.op, env);
      assert ts == [t] + ts[1..];
      assert FaithfulBefore(all, ts[1..], |rec.stream|) by {
        forall k | 0 <= k < |ts[1..]| && ts[1..][k].to < |rec.stream|
          ensures Repeatable(all, ts[1..][k].op, ts[1..][k].answer, ts[1..][k].from, ts[1..][k].to)
        {
          assert ts[1..][k] == ts[k + 1];
        }
      }
    }
  }

  /** The records of a trace come in order. */
  lemma {:induction false} FollowsForward(h: Host, har: Harness, all: seq<Event>, seen: seq<Seen>, ts: seq<Taken>, p: nat)
    requires Follows(h, har, all, seen, ts, p)
    ensures forall k | 0 <= k < |ts| :: ts[k].to >= p && (k > 0 ==> ts[k].to >= ts[0].to)
    decreases |ts|
  {
    hide CallWent;
    if ts != [] {
      var t, rest := ts[0], ts[1..];
      assert t.to >= p by { WentForward(h, all, t.op, t.answer, p, t.to); }
      FollowsForward(h, har, all, seen + [See(t.answer)], rest, t.to);
      forall k | 0 < k < |ts|
        ensures ts[k].to >= t.to
      {
        assert ts[k] == rest[k - 1];
      }
    }
  }

  lemma {:induction false} WentForward(h: Host, stream: seq<Event>, op: Op, a: Answer, p: nat, q: nat)
    requires Went(h, stream, op, a, p, q)
    ensures p <= q <= |stream|
  {
  }

  lemma {:induction false} SawAgainCons(seen: seq<Seen>, e: Ending, ts: seq<Taken>, n: nat, a: Answer)
    requires ts != [] && seen + [See(a)] <= e.seen
    requires ts[0].to < n ==> See(a) == See(ts[0].answer)
    requires SawAgain(seen + [See(a)], e, ts[1..], n)
    ensures SawAgain(seen, e, ts, n)
  {
    forall k | 0 <= k < |ts| && ts[k].to < n && |seen| + k < |e.seen|
      ensures e.seen[|seen| + k] == See(ts[k].answer)
    {
      if k == 0 {
        assert e.seen[|seen|] == (seen + [See(a)])[|seen|];
      } else {
        assert ts[k] == ts[1..][k - 1];
        assert |seen + [See(a)]| + (k - 1) == |seen| + k;
      }
    }
  }

  /** A run that is served what is left of a trace never diverges, sees again what it saw before the
  cut, and has served all of it by the time it returns. */
  lemma {:induction false} RunServes(h: Host, rec: Recording, har: Harness, envs: nat -> Env, all: seq<Event>, s: Resuming,
                                     seen: seq<Seen>, ts: seq<Taken>, budget: nat)
    requires Serving(h, rec, har, all, s, seen, ts) && s.i < |rec.stream|
    ensures var e := ResumeRun(h, rec, har, envs, s, seen, budget);
      && e.sink.failure.None?
      && (e.finish.Some? ==> e.sink.i == |rec.stream|)
      && SawAgain(seen, e, ts, |rec.stream|)
    decreases budget
  {
    hide ResumeStep, Serving;
    var env := envs(|seen|);
    ServingStep(h, rec, har, all, s, seen, ts, env);
    ServingFacts(h, rec, har, all, s, seen, ts);
    if budget > 0 {
      var t := ts[0];
      var (s', a) := ResumeStep(h, rec, s, t.op, env);
      var seen' := seen + [See(a)];
      var e := ResumeRun(h, rec, har, envs, s', seen', budget - 1);
      assert e == ResumeRun(h, rec, har, envs, s, seen, budget);
      RunKeepsSeen(h, rec, har, envs, s', seen', budget - 1);
      if s'.i < |rec.stream| {
        RunServes(h, rec, har, envs, all, s', seen', ts[1..], budget - 1);
        SawAgainCons(seen, e, ts, |rec.stream|, a);
      } else {
        LiveRunCannotDiverge(h, rec, har, envs, s', seen', budget - 1);
        FollowsForward(h, har, all, seen, ts, s.i);
      }
    }
  }

  lemma {:induction false} ServingFacts(h: Host, rec: Recording, har: Harness, all: seq<Event>, s: Resuming, seen: seq<Seen>, ts: seq<Taken>)
    requires Serving(h, rec, har, all, s, seen, ts) && s.i < |rec.stream|
    ensures s.failure.None? && Follows(h, har, all, seen, ts, s.i)
  {
  }

  // ---- what the controller does with an execution ----

  /** Runs the harness over the journal of an execution: from nothing, or resuming what it recorded. */
  function RunOn(h: Host, journal: seq<Entry>, har: Harness, envs: nat -> Env, budget: nat): Ending
    requires Sound(h, journal)
  {
    ResumeRun(h, RecordingOf(journal, h.executionId), har, envs, Begin(journal), [], budget)
  }

  function TraceOn(h: Host, journal: seq<Entry>, har: Harness, envs: nat -> Env, budget: nat): seq<Taken>
    requires Sound(h, journal)
  {
    Trace(h, RecordingOf(journal, h.executionId), har, envs, Begin(journal), [], budget)
  }

  /** Replays the journal of an execution to the harness. */
  function ReplayOn(h: Host, journal: seq<Entry>, har: Harness, budget: nat): ReplayEnding
    requires Sound(h, journal)
  {
    ReplayRun(h, RecordingOf(journal, h.executionId), har, Served(0, [], None, Guard(false, None), map[]), [], budget)
  }

  /** The harness returned, nothing stopped the sink, and the recorded prefix was served: the run ends
  with an END record. */
  ghost predicate Finished(h: Host, journal: seq<Entry>, e: Ending)
  {
    Clean(e.sink) && e.finish.Some? && e.sink.i == |EffectsOf(journal, h.executionId)|
  }

  /** The records a run left are those of its trace. */
  lemma {:induction false} RunLeaves(h: Host, journal: seq<Entry>, har: Harness, envs: nat -> Env, budget: nat)
    requires Sound(h, journal) && Finished(h, journal, RunOn(h, journal, har, envs, budget))
    ensures var e := RunOn(h, journal, har, envs, budget);
      var ts := TraceOn(h, journal, har, envs, budget);
      var final := e.sink.live.journal;
      && Sound(h, final) && Settled(RecordingOf(final, h.executionId))
      && journal <= final
      && Follows(h, har, EffectsOf(final, h.executionId), [], ts, 0)
      && EndOf(ts, 0) == |EffectsOf(final, h.executionId)|
      && e.seen == Sees(ts) && |ts| <= budget
      && har(e.seen) == Return(e.finish.value)
  {
    hide Fold, EntriesOf, Stream, ResumeRun, Trace, Follows, GatesAgree, CallsDistinct, AllAnswered;
    var rec := RecordingOf(journal, h.executionId);
    var s := Begin(journal);
    BeginUpheld(h, journal);
    Agreed(h, journal);
    RunUpheld(h, journal, rec, har, envs, s, [], budget);
    var e := RunOn(h, journal, har, envs, budget);
    EndsSettled(h, journal, rec, e.sink);
    RunFollows(h, rec, har, envs, s, [], budget);
    RunGrows(h, rec, har, envs, s, [], budget);
    assert [] + Sees(TraceOn(h, journal, har, envs, budget)) == Sees(TraceOn(h, journal, har, envs, budget));
  }

  /** Replaying what a run left repeats it, answer for answer and without a divergence, iff every step
  of the run is repeatable. It then consumes every record and sees the harness return the same way. */
  lemma {:induction false} ReplayRepeatsRun(h: Host, journal: seq<Entry>, har: Harness, envs: nat -> Env, budget: nat)
    requires Sound(h, journal) && Finished(h, journal, RunOn(h, journal, har, envs, budget))
    ensures var e := RunOn(h, journal, har, envs, budget);
      var final := e.sink.live.journal;
      && Sound(h, final)
      && var y := ReplayOn(h, final, har, budget);
      && (Saw(y, e.seen) <==> Faithful(EffectsOf(final, h.executionId), TraceOn(h, journal, har, envs, budget)))
      && (Saw(y, e.seen) ==> y.sink.i == |EffectsOf(final, h.executionId)| && y.finish == e.finish)
  {
    hide Fold, EntriesOf, Stream, ResumeRun, Trace, ReplayRun, Follows, Settled, Faithful;
    RunLeaves(h, journal, har, envs, budget);
    var final := RunOn(h, journal, har, envs, budget).sink.live.journal;
    var rec := RecordingOf(final, h.executionId);
    var ts := TraceOn(h, journal, har, envs, budget);
    assert rec.stream[..0] == [];
    assert [] + Sees(ts) == Sees(ts);
    TraceRepeats(h, rec, har, Served(0, [], None, Guard(false, None), map[]), [], ts, 0, budget);
  }

  // ---- cutting a journal ----

  /** What a scan accepts it accepts cut short; the effects are cut short with it. */
  lemma {:induction false} ScanPrefix(es: seq<Entry>, k: nat)
    requires k <= |es| && Fold(es).Ok?
    ensures Fold(es[..k]).Ok? && Stream(es[..k]) <= Stream(es)
    ensures !Fold(es).value.completed ==> !Fold(es[..k]).value.completed
  {
    if k < |es| {
      var init := es[..|es| - 1];
      assert init[..k] == es[..k];
      ScanPrefix(init, k);
    } else {
      assert es[..k] == es;
    }
  }

  lemma {:induction false} CutSound(h: Host, journal: seq<Entry>, m: nat)
    requires Sound(h, journal) && m <= |journal|
    ensures Sound(h, journal[..m]) && EffectsOf(journal[..m], h.executionId) <= EffectsOf(journal, h.executionId)
  {
    hide Fold, EntriesOf, Stream;
    var es, cut := EntriesOf(journal, h.executionId), EntriesOf(journal[..m], h.executionId);
    ApprovalScan.EntriesPrefix(journal, m, h.executionId);
    ScanPrefix(es, |cut|);
    assert es[..|cut|] == cut;
  }

  /** The scan accepts the journal and no gate waits for its decision. */
  predicate Decided(h: Host, journal: seq<Entry>)
  {
    match Fold(EntriesOf(journal, h.executionId))
    case Err(_) => false
    case Ok(x) => IsOpen(x) ==> LastGate(x).decision.Some?
  }

  lemma {:induction false} DecidedGates(h: Host, journal: seq<Entry>)
    requires Sound(h, journal) && Decided(h, journal)
    ensures AllDecided(EffectsOf(journal, h.executionId))
  {
    hide Fold, EntriesOf, Stream;
    Agreed(h, journal);
    var x, stream := Scanned(journal, h.executionId), EffectsOf(journal, h.executionId);
    forall p | 0 <= p < |stream| && IsGatedCall(stream[p])
      ensures p + 2 < |stream|
    {
      if IsOpen(x) && p != |stream| - OpenLength(LastGate(x)) { OpenIsLast(stream, x, p); }
    }
  }

  // ---- recovery ----

  /** Resuming what is left of a trace, in any environment, never diverges; the harness sees again what
  was answered before the cut; nothing that was recorded is lost; and when the harness returns, every
  record that was left has been served. */
  lemma {:induction false} RecoveryNeverDiverges(h: Host, cut: seq<Entry>, har: Harness, all: seq<Event>, ts: seq<Taken>, envs: nat -> Env, budget: nat)
    requires Sound(h, cut) && Decided(h, cut) && EffectsOf(cut, h.executionId) <= all
    requires Follows(h, har, all, [], ts, 0) && EndOf(ts, 0) >= |EffectsOf(cut, h.executionId)|
    requires FaithfulBefore(all, ts, |EffectsOf(cut, h.executionId)|)
    ensures var e := RunOn(h, cut, har, envs, budget);
      && e.sink.failure.None?
      && cut <= e.sink.live.journal
      && Sound(h, e.sink.live.journal)
      && SawAgain([], e, ts, |EffectsOf(cut, h.executionId)|)
      && (e.finish.Some? ==> e.sink.i == |EffectsOf(cut, h.executionId)|)
  {
    hide Fold, EntriesOf, Stream, ResumeRun, Follows, GatesAgree, CallsDistinct, FaithfulBefore;
    var rec := RecordingOf(cut, h.executionId);
    var s := Begin(cut);
    BeginUpheld(h, cut);
    Agreed(h, cut);
    DecidedGates(h, cut);
    RunUpheld(h, cut, rec, har, envs, s, [], budget);
    RunGrows(h, rec, har, envs, s, [], budget);
    if rec.stream == [] {
      LiveRunCannotDiverge(h, rec, har, envs, s, [], budget);
      FollowsForward(h, har, all, [], ts, 0);
    } else {
      RunServes(h, rec, har, envs, all, s, [], ts, budget);
    }
  }

  // ---- when nothing fails, usage decides ----

  /** What the harness accounted for right after a step. */
  function AccountedAfter(ts: seq<Taken>, k: nat): Usage
  {
    if k + 1 < |ts| && ts[k + 1].op.Account? then ts[k + 1].op.usage else NO_USAGE
  }

  /** Each model answer's usage is accounted for next, or is zero with nothing accounted for next. */
  predicate UsageAccounted(ts: seq<Taken>)
  {
    forall k | 0 <= k < |ts| && ts[k].answer.Completion? :: ts[k].answer.response.usage == AccountedAfter(ts, k)
  }

  predicate NoneFailed(ts: seq<Taken>)
  {
    forall k | 0 <= k < |ts| :: !ts[k].answer.Failed?
  }

  lemma {:induction false} FollowsAt(h: Host, har: Harness, all: seq<Event>, seen: seq<Seen>, ts: seq<Taken>, p: nat, k: nat)
    requires Follows(h, har, all, seen, ts, p) && k < |ts|
    ensures Recorded(h, all, ts[k])
    ensures k + 1 < |ts| ==> Recorded(h, all, ts[k + 1]) && ts[k + 1].from == ts[k].to
    ensures k + 1 == |ts| ==> ts[k].to == EndOf(ts, p)
    decreases k
  {
    hide Recorded;
    var rest := ts[1..];
    if k > 0 {
      FollowsAt(h, har, all, seen + [See(ts[0].answer)], rest, ts[0].to, k - 1);
      assert ts[k] == rest[k - 1] && (k + 1 < |ts| ==> ts[k + 1] == rest[k]);
    } else if |ts| > 1 {
      assert rest[0] == ts[1];
    }
  }

  lemma {:induction false} UsageIsAccounted(h: Host, har: Harness, all: seq<Event>, ts: seq<Taken>, k: nat)
    requires Follows(h, har, all, [], ts, 0) && EndOf(ts, 0) == |all| && NoneFailed(ts)
    requires k < |ts|
    ensures UsageAt(all, ts[k].to) == AccountedAfter(ts, k)
  {
    FollowsAt(h, har, all, [], ts, 0, k);
    assert !ts[k].answer.Failed?;
    if k + 1 < |ts| { assert !ts[k + 1].answer.Failed?; }
  }

  /** When no operation of a run failed, it is replayed as it went iff its usage is accounted for. */
  lemma {:induction false} UsageDecides(h: Host, har: Harness, all: seq<Event>, ts: seq<Taken>)
    requires Follows(h, har, all, [], ts, 0) && EndOf(ts, 0) == |all| && NoneFailed(ts)
    ensures Faithful(all, ts) <==> UsageAccounted(ts)
  {
    hide Follows;
    forall k | 0 <= k < |ts|
      ensures Repeatable(all, ts[k].op, ts[k].answer, ts[k].from, ts[k].to) <==>
        (ts[k].answer.Completion? ==> ts[k].answer.response.usage == AccountedAfter(ts, k))
    {
      UsageIsAccounted(h, har, all, ts, k);
      FollowsAt(h, har, all, [], ts, 0, k);
      assert !ts[k].answer.Failed?;
    }
  }

  /** The same, for a run and its replay. */
  lemma {:induction false} NonFailingRunReplays(h: Host, journal: seq<Entry>, har: Harness, envs: nat -> Env, budget: nat)
    requires Sound(h, journal) && Finished(h, journal, RunOn(h, journal, har, envs, budget))
    requires NoneFailed(TraceOn(h, journal, har, envs, budget))
    ensures var e := RunOn(h, journal, har, envs, budget);
      && Sound(h, e.sink.live.journal)
      && (Saw(ReplayOn(h, e.sink.live.journal, har, budget), e.seen) <==> UsageAccounted(TraceOn(h, journal, har, envs, budget)))
  {
    hide Fold, EntriesOf, Stream, ResumeRun, Trace, ReplayRun, Follows, Sound, Settled, Faithful, UsageAccounted, NoneFailed;
    RunLeaves(h, journal, har, envs, budget);
    ReplayRepeatsRun(h, journal, har, envs, budget);
    UsageDecides(h, har, EffectsOf(RunOn(h, journal, har, envs, budget).sink.live.journal, h.executionId), TraceOn(h, journal, har, envs, budget));
  }

  // ---- runs that do not replay ----

  /** Asks the model once and returns. */
  function AskOnce(req: ModelRequest): Harness
  {
    (seen: seq<Seen>) => if seen == [] then Emit(Model(req)) else Return(Completed)
  }

  /** Asks the model, and when that fails emits a text of its own. */
  function AskOrSay(req: ModelRequest, text: string): Harness
  {
    (seen: seq<Seen>) => if seen == [] then Emit(Model(req)) else if |seen| == 1 then Emit(Output(text)) else Return(Completed)
  }

  lemma {:induction false} EmptySound(h: Host)
    ensures Sound(h, []) && EffectsOf([], h.executionId) == []
  {
  }

  /** A usage that the harness does not report is lost: a run that asks once and returns replays as it
  went iff the model's usage was zero. */
  lemma {:induction false} UnreportedUsageIsLost(h: Host, req: ModelRequest, resp: ModelResponse, env: Env)
    requires env.model == Some(resp) && env.room >= 2
    ensures Sound(h, [])
    ensures var e := RunOn(h, [], AskOnce(req), _ => env, 1);
      && Finished(h, [], e) && Sound(h, e.sink.live.journal)
      && (Saw(ReplayOn(h, e.sink.live.journal, AskOnce(req), 1), e.seen) <==> resp.usage == NO_USAGE)
  {
    hide Fold, EntriesOf, Stream;
    EmptySound(h);
    var har, envs := AskOnce(req), _ => env;
    var rec, s := RecordingOf([], h.executionId), Begin([]);
    var r := ResumeStep(h, rec, s, Model(req), env);
    assert ResumeRun(h, rec, har, envs, r.0, [See(r.1)], 0) == Ending([See(r.1)], r.0, Some(Completed));
    assert [] + [See(r.1)] == [See(r.1)];
    var t := Taken(Model(req), r.1, Pos(h, rec, s), Pos(h, rec, r.0));
    assert TraceOn(h, [], har, envs, 1) == [t];
    assert t.answer == Completion(resp);
    assert RunOn(h, [], har, envs, 1).sink == r.0;
    assert NoneFailed([t]);
    assert UsageAccounted([t]) <==> resp.usage == NO_USAGE by { assert [t][0].answer.Completion?; }
    NonFailingRunReplays(h, [], har, envs, 1);
  }

  lemma {:induction false} TwoSteps(h: Host, req: ModelRequest, text: string, env: Env, env': Env)
    requires env.model.None? && env.room >= 1 && env'.room >= 1
    ensures Sound(h, [])
    ensures var rec := RecordingOf([], h.executionId);
      var (s, a) := ResumeStep(h, rec, Begin([]), Model(req), env);
      var (t, b) := ResumeStep(h, rec, s, Output(text), env');
      && a.Failed? && b.Accepted? && Clean(s) && Clean(t) && t.i == 0
  {
    hide Fold, EntriesOf, Stream;
    EmptySound(h);
  }

  /** A failed model call that the harness answers with a text of its own is misread: the text is taken
  for the model's answer, so no such run replays as it went. */
  lemma {:induction false} HandledFailureIsMisread(h: Host, req: ModelRequest, text: string, env: Env, env': Env)
    requires env.model.None? && env.room >= 1 && env'.room >= 1
    ensures Sound(h, [])
    ensures var e := RunOn(h, [], AskOrSay(req, text), k => if k == 0 then env else env', 2);
      && Finished(h, [], e) && Sound(h, e.sink.live.journal)
      && !Saw(ReplayOn(h, e.sink.live.journal, AskOrSay(req, text), 2), e.seen)
  {
    hide Fold, EntriesOf, Stream, ResumeStep;
    EmptySound(h);
    TwoSteps(h, req, text, env, env');
    var har, envs := AskOrSay(req, text), k => if k == 0 then env else env';
    var rec := RecordingOf([], h.executionId);
    var (s, a) := ResumeStep(h, rec, Begin([]), Model(req), env);
    var (t, b) := ResumeStep(h, rec, s, Output(text), env');
    var first, second := Taken(Model(req), a, Pos(h, rec, Begin([])), Pos(h, rec, s)), Taken(Output(text), b, Pos(h, rec, s), Pos(h, rec, t));
    var seen := [] + [See(a)] + [See(b)];
    assert ResumeRun(h, rec, har, envs, t, seen, 0) == Ending(seen, t, Some(Completed));
    assert ResumeRun(h, rec, har, envs, s, [] + [See(a)], 1) == Ending(seen, t, Some(Completed));
    assert RunOn(h, [], har, envs, 2) == Ending(seen, t, Some(Completed));
    assert Trace(h, rec, har, envs, s, [] + [See(a)], 1) == [second] + Trace(h, rec, har, envs, t, seen, 0);
    assert TraceOn(h, [], har, envs, 2) == [first, second];
    Misread(h, har, envs, first, second);
  }

  lemma {:induction false} Misread(h: Host, har: Harness, envs: nat -> Env, first: Taken, second: Taken)
    requires Sound(h, []) && Finished(h, [], RunOn(h, [], har, envs, 2))
    requires TraceOn(h, [], har, envs, 2) == [first, second]
    requires first.op.Model? && first.answer.Failed? && second.op.Output?
    ensures var e := RunOn(h, [], har, envs, 2);
      Sound(h, e.sink.live.journal) && !Saw(ReplayOn(h, e.sink.live.journal, har, 2), e.seen)
  {
    hide Fold, EntriesOf, Stream, ResumeRun, Trace, ReplayRun, Sound, Settled;
    RunLeaves(h, [], har, envs, 2);
    ReplayRepeatsRun(h, [], har, envs, 2);
    var all := EffectsOf(RunOn(h, [], har, envs, 2).sink.live.journal, h.executionId);
    FollowsAt(h, har, all, [], [first, second], 0, 0);
    assert !Repeatable(all, [first, second][0].op, [first, second][0].answer, [first, second][0].from, [first, second][0].to);
  }
}
