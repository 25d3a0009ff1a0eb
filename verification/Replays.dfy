/** When replaying a journal repeats the run that wrote it (controller.Replay against Exec and Resume).

A run that resumes a recorded prefix, or starts with none, leaves a journal. Replaying that journal
to the same harness repeats the run, answer for answer, exactly when every one of its steps is
Repeatable. */
module Replays {
  import opened Api
  import opened Approval
  import opened Sinks
  import opened Evidence
  import opened Runs
  import opened Traces

  // ---- when replay gives back what a run saw ----

  /** The call is refused by a replay that has stream next, without consuming anything. */
  predicate RefusedOnReplay(stream: seq<Event>, i: nat, call: ToolCall)
  {
    || KeylessRefused(Recording(stream, map[]), i, call)
    || FallbackRefused(Recording(stream, map[]), i, call)
    || (!NextIs(stream, i, KToolCall) && MediationFault(call.mediation).Some?)
  }

  /** A replay that has consumed from effects up to index p gives the answer back, having gone to q.

  A served completion carries the usage recorded right after it, whatever the provider reported. A
  failed model call must not be followed by an output, nor a failed tool call by a tool result: the
  next record would be taken for its answer. A call refused without a record must be refused again
  by what is recorded next. */
  predicate Repeatable(stream: seq<Event>, op: Op, a: Answer, p: nat, q: nat)
  {
    match op
    case Model(_) =>
      if a.Completion? then a.response.usage == UsageAt(stream, q) else !NextIs(stream, q, KOutput)
    case Call(call) =>
      if a.Returned? then true
      else if q == p then RefusedOnReplay(stream, p, call)
      else !NextIs(stream, q, KToolResult)
    case _ => true
  }

  /** The replay answered as the run did, and did not notice a divergence. */
  predicate SameAnswer(a: Answer, r: (Served, Answer))
  {
    r.0.failure.None? && See(r.1) == See(a)
  }

  // ---- where a replay stands ----

  ghost predicate SameGates(a: map<string, bool>, b: map<string, bool>)
  {
    forall id :: Gated(a, id) <==> Gated(b, id)
  }

  lemma {:induction false} SameGatesSet(a: map<string, bool>, b: map<string, bool>, id: string)
    requires SameGates(a, b)
    ensures SameGates(a[id := true], b[id := true])
  {
    var a', b' := a[id := true], b[id := true];
    forall k
      ensures Gated(a', k) <==> Gated(b', k)
    {
      assert Gated(a, k) <==> Gated(b, k);
    }
  }

  /** What a finished execution leaves to serve: every gate of it is whole. */
  ghost predicate Settled(rec: Recording)
  {
    CallsDistinct(rec.stream) && GatesAgree(rec.stream, rec.gates) && AllAnswered(rec.stream)
  }

  /** The replay sink has served the records before p and nothing else. */
  ghost predicate At(stream: seq<Event>, p: nat, r: Served)
  {
    && p <= |stream| && r.i == p
    && r.failure.None? && r.guard == Guard(false, None)
    && SameGates(r.calls, CallsIn(stream[..p]))
  }

  // ---- one step ----

  lemma {:induction false} ModelRepeats(h: Host, rec: Recording, r: Served, req: ModelRequest, a: Answer, p: nat, q: nat)
    requires Settled(rec) && At(rec.stream, p, r) && Went(h, rec.stream, Model(req), a, p, q)
    ensures var t := ServeStep(h, rec, r, Model(req));
      && (SameAnswer(a, t) <==> Repeatable(rec.stream, Model(req), a, p, q))
      && (SameAnswer(a, t) ==> At(rec.stream, q, t.0))
  {
    CallsAcross(rec.stream, p, q);
  }

  lemma {:induction false} PlainRepeats(h: Host, rec: Recording, r: Served, op: Op, a: Answer, p: nat, q: nat)
    requires Settled(rec) && At(rec.stream, p, r) && Went(h, rec.stream, op, a, p, q)
    requires op.Output? || op.Account? || op.Report?
    ensures var t := ServeStep(h, rec, r, op); SameAnswer(a, t) && At(rec.stream, q, t.0)
  {
    CallsAcross(rec.stream, p, q);
  }

  lemma {:induction false} GateRepeats(h: Host, rec: Recording, r: Served, call: ToolCall, a: Answer, p: nat, q: nat)
    requires Settled(rec) && At(rec.stream, p, r) && CallWent(rec.stream, call, a, p, q)
    requires a.Returned? && call.mediation.RequiresApproval?
    ensures var t := ServeStep(h, rec, r, Call(call)); SameAnswer(a, t) && At(rec.stream, q, t.0)
  {
    assert GateAt(rec.stream, rec.gates, p);
    CallsAcross(rec.stream, p, q);
    SameGatesSet(r.calls, CallsIn(rec.stream[..p]), call.id);
  }

  lemma {:induction false} OrdinaryRepeats(h: Host, rec: Recording, r: Served, call: ToolCall, a: Answer, p: nat, q: nat)
    requires Settled(rec) && At(rec.stream, p, r) && CallWent(rec.stream, call, a, p, q)
    requires q > p && !call.mediation.RequiresApproval?
    ensures var t := ServeStep(h, rec, r, Call(call));
      && (SameAnswer(a, t) <==> Repeatable(rec.stream, Call(call), a, p, q))
      && (SameAnswer(a, t) ==> At(rec.stream, q, t.0))
  {
    GatedNotAgain(rec.stream, p);
    CallsAcross(rec.stream, p, q);
  }

  lemma {:induction false} RefusalRepeats(h: Host, rec: Recording, r: Served, call: ToolCall, a: Answer, p: nat)
    requires Settled(rec) && At(rec.stream, p, r)
    requires a.Failed? && NotHere(rec.stream, p, call)
    ensures var t := ServeStep(h, rec, r, Call(call));
      && (SameAnswer(a, t) <==> Repeatable(rec.stream, Call(call), a, p, p))
      && (SameAnswer(a, t) ==> At(rec.stream, p, t.0))
  {
  }

  /** A replay that stands where the run stood repeats its next step iff that step is repeatable. */
  lemma {:induction false} StepRepeats(h: Host, rec: Recording, r: Served, op: Op, a: Answer, p: nat, q: nat)
    requires Settled(rec) && At(rec.stream, p, r) && Went(h, rec.stream, op, a, p, q)
    requires op.Call? && a.Failed? && q == p ==> NotHere(rec.stream, p, op.call)
    ensures var t := ServeStep(h, rec, r, op);
      && (SameAnswer(a, t) <==> Repeatable(rec.stream, op, a, p, q))
      && (SameAnswer(a, t) ==> At(rec.stream, q, t.0))
  {
    match op
    case Model(req) => ModelRepeats(h, rec, r, req, a, p, q);
    case Call(call) =>
      if q == p { RefusalRepeats(h, rec, r, call, a, p); }
      else if call.mediation.RequiresApproval? { GateRepeats(h, rec, r, call, a, p, q); }
      else { OrdinaryRepeats(h, rec, r, call, a, p, q); }
    case _ => PlainRepeats(h, rec, r, op, a, p, q);
  }

  // ---- whole runs ----

  /** Every step of the trace is repeatable over the records the run left. */
  predicate Faithful(stream: seq<Event>, ts: seq<Taken>)
  {
    forall k | 0 <= k < |ts| :: Repeatable(stream, ts[k].op, ts[k].answer, ts[k].from, ts[k].to)
  }

  lemma {:induction false} FailureSticks(h: Host, rec: Recording, r: Served, op: Op)
    requires r.failure.Some?
    ensures ServeStep(h, rec, r, op).0 == r
  {
  }

  lemma {:induction false} ReplayKeeps(h: Host, rec: Recording, har: Harness, r: Served, seen: seq<Seen>, budget: nat)
    ensures var y := ReplayRun(h, rec, har, r, seen, budget);
      && seen <= y.seen
      && (r.failure.Some? ==> y.sink.failure.Some?)
    decreases budget
  {
    hide ServeStep;
    match har(seen)
    case Return(_) =>
    case Emit(op) =>
      if budget > 0 {
        var t := ServeStep(h, rec, r, op);
        if r.failure.Some? { FailureSticks(h, rec, r, op); }
        ReplayKeeps(h, rec, har, t.0, seen + [See(t.1)], budget - 1);
      }
  }

  lemma {:induction false} FaithfulCons(stream: seq<Event>, ts: seq<Taken>)
    requires ts != []
    ensures Faithful(stream, ts) <==>
      Repeatable(stream, ts[0].op, ts[0].answer, ts[0].from, ts[0].to) && Faithful(stream, ts[1..])
  {
    if Faithful(stream, ts[1..]) {
      forall k | 1 <= k < |ts|
        ensures Repeatable(stream, ts[k].op, ts[k].answer, ts[k].from, ts[k].to)
      {
        assert ts[k] == ts[1..][k - 1];
      }
    }
  }

  /** The replay of these records saw exactly this, and noticed no divergence. */
  predicate Saw(y: ReplayEnding, seen: seq<Seen>)
  {
    y.sink.failure.None? && y.seen == seen
  }

  /** Once a replay answers differently it never sees what the run saw. */
  lemma {:induction false} Differs(h: Host, rec: Recording, har: Harness, y: (Served, Answer), seen: seq<Seen>, a: Answer, budget: nat, later: seq<Seen>)
    requires !SameAnswer(a, y)
    ensures !Saw(ReplayRun(h, rec, har, y.0, seen + [See(y.1)], budget), seen + [See(a)] + later)
  {
    ReplayKeeps(h, rec, har, y.0, seen + [See(y.1)], budget);
    assert (seen + [See(a)] + later)[|seen|] == See(a) && (seen + [See(y.1)])[|seen|] == See(y.1);
  }

  lemma {:induction false} SeesCons(seen: seq<Seen>, ts: seq<Taken>)
    requires ts != []
    ensures seen + Sees(ts) == seen + [See(ts[0].answer)] + Sees(ts[1..])
  {
  }

  /** The replay of a trace that the stream records sees what the run saw, and no divergence, iff every
  step is repeatable; it then stands where the trace ends and the harness returns as it did. */
  lemma {:induction false} TraceRepeats(h: Host, rec: Recording, har: Harness, r: Served, seen: seq<Seen>, ts: seq<Taken>, p: nat, budget: nat)
    requires Settled(rec) && At(rec.stream, p, r) && Follows(h, har, rec.stream, seen, ts, p)
    requires har(seen + Sees(ts)).Return? && |ts| <= budget
    ensures var y := ReplayRun(h, rec, har, r, seen, budget);
      && (Saw(y, seen + Sees(ts)) <==> Faithful(rec.stream, ts))
      && (Faithful(rec.stream, ts) ==> y.sink.i == EndOf(ts, p) && y.finish == Some(har(seen + Sees(ts)).finish))
    decreases budget
  {
    hide ServeStep, Went, Repeatable;
    if ts == [] {
      assert seen + Sees(ts) == seen;
    } else {
      var t, rest := ts[0], ts[1..];
      SeesCons(seen, ts);
      FaithfulCons(rec.stream, ts);
      StepRepeats(h, rec, r, t.op, t.answer, p, t.to);
      var y := ServeStep(h, rec, r, t.op);
      assert ReplayRun(h, rec, har, r, seen, budget) == ReplayRun(h, rec, har, y.0, seen + [See(y.1)], budget - 1);
      if SameAnswer(t.answer, y) {
        TraceRepeats(h, rec, har, y.0, seen + [See(t.answer)], rest, t.to, budget - 1);
      } else {
        Differs(h, rec, har, y, seen, t.answer, budget - 1, Sees(rest));
      }
    }
  }

  // ---- soundness ----

  /** What a replay went through, step by step. */
  function ReplayTrace(h: Host, rec: Recording, har: Harness, r: Served, seen: seq<Seen>, budget: nat): seq<Taken>
    decreases budget
  {
    match har(seen)
    case Return(_) => []
    case Emit(op) =>
      if budget == 0 then []
      else
        var t := ServeStep(h, rec, r, op);
        [Taken(op, t.1, r.i, t.0.i)] + ReplayTrace(h, rec, har, t.0, seen + [See(t.1)], budget - 1)
  }

  lemma {:induction false} ServedCallMatches(h: Host, rec: Recording, r: Served, call: ToolCall)
    requires Settled(rec) && At(rec.stream, r.i, r)
    requires ServeStep(h, rec, r, Call(call)).0.failure.None?
    ensures var (t, a) := ServeStep(h, rec, r, Call(call));
      && CallWent(rec.stream, call, a, r.i, t.i)
      && (a.Failed? && t.i == r.i ==> NotHere(rec.stream, r.i, call))
      && Repeatable(rec.stream, Call(call), a, r.i, t.i)
  {
    if r.i < |rec.stream| && IsGatedCall(rec.stream[r.i]) { assert GateAt(rec.stream, rec.gates, r.i); }
  }

  /** A served operation that is no divergence matches the records it consumed. */
  lemma {:induction false} ServedMatches(h: Host, rec: Recording, r: Served, op: Op)
    requires Settled(rec) && At(rec.stream, r.i, r)
    requires ServeStep(h, rec, r, op).0.failure.None?
    ensures var (t, a) := ServeStep(h, rec, r, op);
      && Recorded(h, rec.stream, Taken(op, a, r.i, t.i))
      && Repeatable(rec.stream, op, a, r.i, t.i)
      && At(rec.stream, t.i, t)
  {
    var (t, a) := ServeStep(h, rec, r, op);
    if op.Call? { ServedCallMatches(h, rec, r, op.call); }
    StepRepeats(h, rec, r, op, a, r.i, t.i);
  }

  /** If a replay ends without a divergence, every operation of it matches the records it consumed,
  position by position: also when the harness ignored errors along the way. */
  lemma {:induction false} ReplaySound(h: Host, rec: Recording, har: Harness, r: Served, seen: seq<Seen>, budget: nat)
    requires Settled(rec) && At(rec.stream, r.i, r)
    requires ReplayRun(h, rec, har, r, seen, budget).sink.failure.None?
    ensures var y := ReplayRun(h, rec, har, r, seen, budget);
      var ts := ReplayTrace(h, rec, har, r, seen, budget);
      && Follows(h, har, rec.stream, seen, ts, r.i)
      && Faithful(rec.stream, ts)
      && EndOf(ts, r.i) == y.sink.i
      && y.seen == seen + Sees(ts)
      && |ts| <= budget
      && (y.finish.Some? ==> har(y.seen) == Return(y.finish.value))
    decreases budget
  {
    hide ServeStep, Recorded, Repeatable, Settled;
    match har(seen)
    case Return(_) =>
      assert seen + Sees([]) == seen;
    case Emit(op) =>
      if budget == 0 {
        assert seen + Sees([]) == seen;
      } else {
        var (t, a) := ServeStep(h, rec, r, op);
        ReplayKeeps(h, rec, har, t, seen + [See(a)], budget - 1);
        ServedMatches(h, rec, r, op);
        ReplaySound(h, rec, har, t, seen + [See(a)], budget - 1);
        var rest := ReplayTrace(h, rec, har, t, seen + [See(a)], budget - 1);
        FollowsCons(h, har, rec.stream, seen, Taken(op, a, r.i, t.i), rest);
        assert ([Taken(op, a, r.i, t.i)] + rest)[1..] == rest;
        FaithfulCons(rec.stream, [Taken(op, a, r.i, t.i)] + rest);
      }
  }

  // ---- the texts a replay returns ----

  /** The texts of the outputs of a stream, in order. */
  function OutputTexts(stream: seq<Event>): seq<string>
  {
    if stream == [] then []
    else
      var e := stream[|stream| - 1];
      OutputTexts(stream[..|stream| - 1]) + if e.kind.KOutput? && e.body.BMessage? then [Text(e.body.message.parts)] else []
  }

  ghost predicate OutputsHaveMessages(stream: seq<Event>)
  {
    forall k | 0 <= k < |stream| && stream[k].kind.KOutput? :: stream[k].body.BMessage?
  }

  lemma {:induction false} OutputTextsNext(stream: seq<Event>, p: nat)
    requires p < |stream|
    ensures OutputTexts(stream[..p + 1]) ==
      OutputTexts(stream[..p]) + if stream[p].kind.KOutput? && stream[p].body.BMessage? then [Text(stream[p].body.message.parts)] else []
  {
    assert stream[..p + 1][..p] == stream[..p];
  }

  lemma {:induction false} StepOutputs(h: Host, rec: Recording, r: Served, op: Op)
    requires r.i <= |rec.stream| && OutputsHaveMessages(rec.stream) && r.outputs == OutputTexts(rec.stream[..r.i])
    requires ServeStep(h, rec, r, op).0.failure.None?
    ensures var t := ServeStep(h, rec, r, op).0; t.i <= |rec.stream| && t.outputs == OutputTexts(rec.stream[..t.i])
  {
    hide OutputTexts, MatchesCall, ReceiptServes, KeylessRefused, FallbackRefused, MediationFault, ClaimsReceipt, GuardFault;
    var t := ServeStep(h, rec, r, op).0;
    if r.i < t.i { OutputTextsNext(rec.stream, r.i); }
    if r.i + 1 < t.i { OutputTextsNext(rec.stream, r.i + 1); }
    if r.i + 2 < t.i { OutputTextsNext(rec.stream, r.i + 2); }
    if r.i + 3 < t.i { OutputTextsNext(rec.stream, r.i + 3); }
  }

  /** A replay without a divergence has returned the texts of the outputs it consumed, in order. */
  lemma {:induction false} ReplayOutputs(h: Host, rec: Recording, har: Harness, r: Served, seen: seq<Seen>, budget: nat)
    requires r.i <= |rec.stream| && OutputsHaveMessages(rec.stream) && r.outputs == OutputTexts(rec.stream[..r.i])
    requires ReplayRun(h, rec, har, r, seen, budget).sink.failure.None?
    ensures var t := ReplayRun(h, rec, har, r, seen, budget).sink;
      t.i <= |rec.stream| && t.outputs == OutputTexts(rec.stream[..t.i])
    decreases budget
  {
    hide ServeStep, OutputTexts;
    match har(seen)
    case Return(_) =>
    case Emit(op) =>
      if budget > 0 {
        var t := ServeStep(h, rec, r, op);
        ReplayKeeps(h, rec, har, t.0, seen + [See(t.1)], budget - 1);
        StepOutputs(h, rec, r, op);
        ReplayOutputs(h, rec, har, t.0, seen + [See(t.1)], budget - 1);
      }
  }
}
