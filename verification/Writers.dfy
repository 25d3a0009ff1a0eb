/** Writers never wedge the log.

Every journal that turns, recoveries, decisions, lifecycle marks and forks can leave, each of them
stopped after any record it writes, is one the next writer can start from: its approval evidence scans,
and at most one gate that the session owns is open. */
module Writers {
  import opened Api
  import opened Approval
  import opened Sinks
  import opened Evidence
  import opened Runs
  import opened Upkeep
  import opened Projection
  import opened ApprovalScan
  import opened Deciding
  import EventLog
  import Recovery

  // ---- well-formed executions ----

  /** A record that a writer may add: the start marker first, then exactly the inputs it counts, then
  anything the scan accepts. */
  predicate StepHealthy(x: Execution, first: bool, e: Entry)
  {
    && Step(x, first, e).Ok?
    && if first then
         e.event.kind.KExecutionStart? && e.event.body.BStart? && e.event.body.start.inputCount.Some? &&
         e.event.body.start.inputCount.value >= 0
       else
         && x.start.Some? && x.start.value.inputCount.Some?
         && var n := x.start.value.inputCount.value;
         if e.event.kind.KInput? then e.event.body.BMessage? && x.inputRecords < n else x.inputRecords == n
  }

  predicate Healthy(own: seq<Entry>)
  {
    own == [] ||
    (Healthy(own[..|own| - 1]) && Fold(own[..|own| - 1]).Ok? &&
     StepHealthy(Fold(own[..|own| - 1]).value, |own| == 1, own[|own| - 1]))
  }

  /** Its inputs are counted, none is missing its message, and all are there before anything else is. */
  predicate Whole(x: Execution)
  {
    && x.start.Some? && x.start.value.inputCount.Some?
    && x.inputRecords == |x.inputs| <= x.start.value.inputCount.value
  }

  predicate Complete(x: Execution)
  {
    Whole(x) && x.inputRecords == x.start.value.inputCount.value
  }

  lemma {:induction false} HealthyIsWhole(own: seq<Entry>)
    requires Healthy(own)
    ensures Fold(own).Ok?
    ensures own != [] ==> Whole(Fold(own).value)
    ensures HasGate(own) ==> Complete(Fold(own).value)
  {
    if own != [] { HealthyIsWhole(own[..|own| - 1]); }
  }

  lemma {:induction false} HealthyNotRejected(id: string, own: seq<Entry>)
    requires Healthy(own) && (own != [] ==> id != "")
    ensures !Rejected(id, own)
  {
    hide Fold, Healthy;
    HealthyIsWhole(own);
  }

  lemma {:induction false} HealthySnoc(own: seq<Entry>, e: Entry)
    ensures Healthy(own + [e]) <==> Healthy(own) && Fold(own).Ok? && StepHealthy(Fold(own).value, own == [], e)
  {
    assert (own + [e])[..|own|] == own;
  }

  // ---- well-formed journals ----

  function Latest(es: seq<Entry>): string
  {
    if Executions(es) == [] then "" else Executions(es)[|Executions(es)| - 1]
  }

  /** A gate of this execution is open, and no fork marker follows it. */
  predicate OwnsOpen(es: seq<Entry>, id: string)
  {
    var r := Fold(EntriesOf(es, id));
    r.Ok? && IsOpen(r.value) && LastGate(r.value).num >= ForkSeq(es)
  }

  ghost predicate Sane(es: seq<Entry>)
  {
    && Contiguous(es)
    && EntriesOf(es, "") == []
    && (forall id :: Healthy(EntriesOf(es, id)))
    && (forall id | OwnsOpen(es, id) :: id == Latest(es))
  }

  lemma {:induction false} LatestSnoc(es: seq<Entry>, e: Entry)
    ensures Latest(es + [e]) ==
      if e.event.kind.KLifecycle? || e.event.executionId in Executions(es) then Latest(es) else e.event.executionId
  {
    hide Executions;
    ScanNext(es, e);
  }

  /** A record of the latest execution, or the first record of a new one when the latest owns no open gate. */
  lemma {:induction false} RecordSane(es: seq<Entry>, e: Entry)
    requires Sane(es) && e.num == |es| + 1 && !e.event.kind.KLifecycle? && e.event.executionId != ""
    requires var own := EntriesOf(es, e.event.executionId);
      && StepHealthy(Fold(own).value, own == [], e)
      && if own == [] then !OwnsOpen(es, Latest(es)) else e.event.executionId == Latest(es)
    ensures Sane(es + [e])
  {
    hide EntriesOf, Fold, Executions, ForkSeq, Healthy, StepHealthy, Latest;
    var id := e.event.executionId;
    LatestSnoc(es, e);
    ScanNext(es, e);
    SeenExecution(es, id);
    HealthyIsWhole(EntriesOf(es, id));
    HealthySnoc(EntriesOf(es, id), e);
    EntriesNext(es, e, "");
    forall k
      ensures Healthy(EntriesOf(es + [e], k))
      ensures OwnsOpen(es + [e], k) ==> k == Latest(es + [e])
    {
      EntriesNext(es, e, k);
      assert k != id ==> (OwnsOpen(es + [e], k) <==> OwnsOpen(es, k));
    }
  }

  lemma {:induction false} MarkSane(es: seq<Entry>, e: Entry)
    requires Sane(es) && e.num == |es| + 1 && e.event.kind.KLifecycle? && !IsFork(e.event)
    ensures Sane(es + [e])
  {
    hide EntriesOf, Fold, Executions, ForkSeq, Healthy, Latest;
    LatestSnoc(es, e);
    ScanNext(es, e);
    EntriesNext(es, e, "");
    forall k
      ensures Healthy(EntriesOf(es + [e], k))
      ensures OwnsOpen(es + [e], k) ==> k == Latest(es + [e])
    {
      EntriesNext(es, e, k);
      if OwnsOpen(es + [e], k) { assert OwnsOpen(es, k); }
    }
  }

  lemma {:induction false} HealthyPrefix(own: seq<Entry>, n: nat)
    requires n <= |own| && Healthy(own)
    ensures Healthy(own[..n])
  {
    if n < |own| {
      assert own[..|own| - 1][..n] == own[..n];
      HealthyPrefix(own[..|own| - 1], n);
    } else {
      assert own[..n] == own;
    }
  }

  /** A fork keeps a prefix and inherits every gate in it. */
  lemma {:induction false} ForkSane(es: seq<Entry>, n: nat, e: Entry)
    requires Sane(es) && n <= |es| && e.num == n + 1 && IsFork(e.event)
    ensures Sane(es[..n] + [e])
  {
    hide EntriesOf, Fold, Executions, ForkSeq, Healthy, Latest;
    var cut := es[..n];
    ScanNext(cut, e);
    EntriesPrefix(es, n, "");
    EntriesNext(cut, e, "");
    forall k
      ensures Healthy(EntriesOf(cut + [e], k))
      ensures !OwnsOpen(cut + [e], k)
    {
      EntriesNext(cut, e, k);
      EntriesPrefix(es, n, k);
      var own := EntriesOf(cut, k);
      assert EntriesOf(es, k)[..|own|] == own;
      HealthyPrefix(EntriesOf(es, k), |own|);
      HealthyIsWhole(own);
      if IsOpen(Fold(own).value) { OwnNums(cut, k, |Fold(own).value.gates| - 1); }
    }
  }

  // ---- what a sane journal promises ----

  /** The scan succeeds. */
  lemma {:induction false} SaneScans(es: seq<Entry>)
    requires Sane(es)
    ensures ScanOf(es).Ok?
  {
    hide EntriesOf, Executions, Healthy, StatesOf, Rejected;
    StatesIffNoneRejected(es, Executions(es));
    forall id | id in Executions(es)
      ensures !Rejected(id, EntriesOf(es, id))
    {
      HealthyNotRejected(id, EntriesOf(es, id));
    }
  }

  /** A gate is left unanswered only while it is the last of its execution. */
  lemma {:induction false} EarlierAnswered(own: seq<Entry>)
    requires Fold(own).Ok?
    ensures var gs := Fold(own).value.gates; forall k | 0 <= k < |gs| - 1 :: gs[k].receipt.Some?
  {
    if own != [] {
      EarlierAnswered(own[..|own| - 1]);
      AnsweredStays(Fold(own[..|own| - 1]).value, |own| == 1, own[|own| - 1], Fold(own).value);
    }
  }

  lemma {:induction false} AnsweredStays(x: Execution, first: bool, e: Entry, y: Execution)
    requires Step(x, first, e) == Ok(y)
    requires forall k | 0 <= k < |x.gates| - 1 :: x.gates[k].receipt.Some?
    ensures forall k | 0 <= k < |y.gates| - 1 :: y.gates[k].receipt.Some?
  {
  }

  lemma {:induction false} SelectedState(es: seq<Entry>)
    requires ScanOf(es).Ok? && Executions(es) != []
    requires var own := EntriesOf(es, Latest(es)); HasGate(own) && Fold(own).Ok? && Fold(own).value.gates != []
    ensures var id := Latest(es);
      var x := Fold(EntriesOf(es, id)).value;
      ScanOf(es).value.selected == Some(StateOf(id, x, |x.gates| - 1, Head(es), ForkSeq(es)))
  {
    hide EntriesOf, Executions, StatesOf, HasGate, Fold, ForkSeq, ValidateInputs, Rejected;
    var id := Latest(es);
    NotRejected(es, id);
    RejectedMeans(id, EntriesOf(es, id));
  }

  /** Of all the gates a scan finds, at most one is owned and unanswered: the selected one. */
  lemma {:induction false} OneOpenGate(es: seq<Entry>, st: ApprovalState)
    requires Sane(es) && ScanOf(es).Ok? && st in ScanOf(es).value.states
    requires !st.inherited && st.gate.receipt.None?
    ensures ScanOf(es).value.selected == Some(st)
  {
    hide EntriesOf, Executions, Healthy, StatesOf, HasGate, Fold, ForkSeq, ValidateInputs;
    StatesPublish(es, Executions(es), st);
    var id :| id in Executions(es) && Publishes(es, id, st);
    var x := Fold(EntriesOf(es, id)).value;
    var k :| 0 <= k < |x.gates| && st == StateOf(id, x, k, Head(es), ForkSeq(es));
    EarlierAnswered(EntriesOf(es, id));
    assert k == |x.gates| - 1;
    assert OwnsOpen(es, id);
    SelectedState(es);
  }

  // ---- what a turn writes ----

  /** Appends events in order. */
  function Appending(es: seq<Entry>, events: seq<Event>): seq<Entry>
    decreases |events|
  {
    if events == [] then es else Appending(es + [Entry(Head(es) + 1, events[0])], events[1..])
  }

  /** The start marker of an invocation and its inputs. */
  function Opening(id: string, start: ExecutionStart, inputs: seq<Message>): seq<Event>
  {
    [Event(id, KExecutionStart, BStart(start.(inputCount := Some(|inputs|))), NO_IDENTITY)] +
    seq(|inputs|, k requires 0 <= k < |inputs| => Event(id, KInput, BMessage(inputs[k]), NO_IDENTITY))
  }

  /** Records added after a journal, all of them sane wherever the writer stops. */
  ghost predicate SaneFrom(es: seq<Entry>, longer: seq<Entry>)
  {
    es <= longer && forall m | |es| <= m <= |longer| :: Sane(longer[..m])
  }

  lemma {:induction false} SaneFromSnoc(es: seq<Entry>, longer: seq<Entry>, e: Entry)
    requires SaneFrom(es, longer) && Sane(longer + [e])
    ensures SaneFrom(es, longer + [e])
  {
    hide Sane;
    var l := longer + [e];
    forall m | |es| <= m <= |l|
      ensures Sane(l[..m])
    {
      if m <= |longer| { assert l[..m] == longer[..m]; } else { assert l[..m] == l; }
    }
  }

  lemma {:induction false} SaneFromTrans(a: seq<Entry>, b: seq<Entry>, c: seq<Entry>)
    requires SaneFrom(a, b) && SaneFrom(b, c)
    ensures SaneFrom(a, c)
  {
    hide Sane;
    forall m | |a| <= m <= |c|
      ensures Sane(c[..m])
    {
      if m <= |b| { assert c[..m] == b[..m]; }
    }
  }

  lemma {:induction false} SaneIs(es: seq<Entry>)
    requires Sane(es)
    ensures SaneFrom(es, es)
  {
    assert es[..|es|] == es;
  }

  /** An execution whose inputs are being committed: its start marker and the first n of them. */
  ghost predicate Opened(es: seq<Entry>, id: string, start: ExecutionStart, inputs: seq<Message>, n: nat)
  {
    && n <= |inputs| && Sane(es) && id != "" && Latest(es) == id
    && EntriesOf(es, id) != []
    && Fold(EntriesOf(es, id)) == Ok(FRESH.(start := Some(start.(inputCount := Some(|inputs|))), inputRecords := n, inputs := inputs[..n]))
  }

  lemma {:induction false} StartSane(es: seq<Entry>, id: string, start: ExecutionStart, inputs: seq<Message>)
    requires Sane(es) && id != "" && id !in Executions(es) && !OwnsOpen(es, Latest(es))
    ensures Opened(es + [Entry(Head(es) + 1, Opening(id, start, inputs)[0])], id, start, inputs, 0)
  {
    hide Executions, ForkSeq, Healthy, Latest, OwnsOpen, EntriesOf;
    var e := Entry(Head(es) + 1, Opening(id, start, inputs)[0]);
    SeenExecution(es, id);
    assert Fold([]) == Ok(FRESH);
    RecordSane(es, e);
    LatestSnoc(es, e);
    EntriesNext(es, e, id);
    FoldSnoc([], e);
    assert inputs[..0] == [] && [] + [e] == [e];
  }

  lemma {:induction false} InputSane(es: seq<Entry>, id: string, start: ExecutionStart, inputs: seq<Message>, n: nat)
    requires Opened(es, id, start, inputs, n) && n < |inputs|
    ensures Opened(es + [Entry(Head(es) + 1, Event(id, KInput, BMessage(inputs[n]), NO_IDENTITY))], id, start, inputs, n + 1)
  {
    hide Executions, ForkSeq, Healthy, Latest, OwnsOpen, EntriesOf, Fold;
    var e := Entry(Head(es) + 1, Event(id, KInput, BMessage(inputs[n]), NO_IDENTITY));
    RecordSane(es, e);
    LatestSnoc(es, e);
    SeenLatest(es, id);
    EntriesNext(es, e, id);
    FoldSnoc(EntriesOf(es, id), e);
    assert inputs[..n + 1] == inputs[..n] + [inputs[n]];
  }

  lemma {:induction false} SeenLatest(es: seq<Entry>, id: string)
    requires Latest(es) == id && id != ""
    ensures id in Executions(es)
  {
  }

  // ---- what a sink writes ----

  /** An OUTPUT record carries its message. */
  predicate Worded(e: Event)
  {
    e.kind.KOutput? ==> e.body.BMessage?
  }

  /** The journal was extended with effects of the execution, numbered on. */
  ghost predicate Grown(h: Host, a: seq<Entry>, b: seq<Entry>)
  {
    && a <= b
    && (forall k | |a| <= k < |b| :: Of(b[k], h.executionId) && IsEffect(b[k].event.kind) && Worded(b[k].event))
    && (Contiguous(a) ==> Contiguous(b))
  }

  lemma {:induction false} GrownTrans(h: Host, a: seq<Entry>, b: seq<Entry>, c: seq<Entry>)
    requires Grown(h, a, b) && Grown(h, b, c)
    ensures Grown(h, a, c)
  {
    forall k | |a| <= k < |c|
      ensures Of(c[k], h.executionId) && IsEffect(c[k].event.kind) && Worded(c[k].event)
    {
      if k < |b| { assert c[k] == b[k]; }
    }
  }

  lemma {:induction false} PutGrown(h: Host, s: Live, kind: Kind, body: Body, room: nat)
    requires IsEffect(kind) && Worded(Event(h.executionId, kind, body, NO_IDENTITY))
    ensures Grown(h, s.journal, Put(s, h.executionId, kind, body, room).journal)
  {
  }

  lemma {:induction false} CompleteModelGrown(h: Host, s: Live, env: Env)
    ensures Grown(h, s.journal, CompleteModel(h, s, env).0.journal)
  {
    hide Grown;
    if env.model.Some? { PutGrown(h, s.(modelRuns := s.modelRuns + 1), KOutput, BMessage(env.model.value.message), env.room); }
    GrownItself(h, s.journal);
  }

  lemma {:induction false} GrownItself(h: Host, a: seq<Entry>)
    ensures Grown(h, a, a)
  {
  }

  lemma {:induction false} PlainGrown(h: Host, s: Live, op: Op, env: Env)
    requires !op.Call?
    ensures Grown(h, s.journal, LiveOp(h, s, op, env).0.journal)
  {
    hide Grown, CompleteModel, Put;
    GrownItself(h, s.journal);
    match op
    case Model(req) =>
      var body := BModelCall(ModelCall(req.model, h.hashInput(req), env.callId));
      PutGrown(h, s, KModelCall, body, env.room);
      var called := Put(s, h.executionId, KModelCall, body, env.room);
      if !called.fenced {
        RoomLeft(s, h.executionId, KModelCall, body, env.room);
        CompleteModelGrown(h, called, env.(room := env.room - 1));
        GrownTrans(h, s.journal, called.journal, LiveModel(h, s, req, env).0.journal);
      }
    case Output(delta) => PutGrown(h, s, KOutput, BMessage(TextMessage("assistant", delta)), env.room);
    case Report(r) => PutGrown(h, s, KToolResult, BResult(r), env.room);
    case Account(u) => PutGrown(h, s, KUsage, BUsage(u), env.room);
  }

  lemma {:induction false} RoomLeft(s: Live, id: string, kind: Kind, body: Body, room: nat)
    requires !Put(s, id, kind, body, room).fenced
    ensures room > 0
  {
  }

  lemma {:induction false} ExecGrown(h: Host, s: Live, call: ToolCall, env: Env)
    ensures Grown(h, s.journal, ExecCall(h, s, call, env).0.journal)
  {
    hide Grown, Put;
    GrownItself(h, s.journal);
    var ran := s.(invocations := s.invocations + [Invocation(call, |s.journal|)]);
    PutGrown(h, ran, KToolResult, BResult(env.tool.result.(id := call.id)), env.room);
  }

  lemma {:induction false} ParkGrown(h: Host, s: Live, call: ToolCall, env: Env)
    ensures Grown(h, s.journal, ParkCall(h, s, call, env).0.journal)
  {
    hide Grown, Put;
    GrownItself(h, s.journal);
    PutGrown(h, s, KToolCall, BToolCall(call), env.room);
    var called := Put(s, h.executionId, KToolCall, BToolCall(call), env.room);
    if !called.fenced {
      RoomLeft(s, h.executionId, KToolCall, BToolCall(call), env.room);
      var open := called.(calls := called.calls[call.id := true]);
      PutGrown(h, open, KApprovalRequest, BApproval(ApprovalRequest(call.id, "")), env.room - 1);
      var asked := Put(open, h.executionId, KApprovalRequest, BApproval(ApprovalRequest(call.id, "")), env.room - 1);
      GrownTrans(h, s.journal, called.journal, asked.journal);
    }
  }

  lemma {:induction false} LiveCallGrown(h: Host, s: Live, call: ToolCall, env: Env)
    ensures Grown(h, s.journal, LiveCall(h, s, call, env).0.journal)
  {
    hide Grown, Put, ExecCall, ParkCall;
    GrownItself(h, s.journal);
    ParkGrown(h, s, call, env);
    PutGrown(h, s, KToolCall, BToolCall(call), env.room);
    var called := Put(s, h.executionId, KToolCall, BToolCall(call), env.room);
    if !called.fenced {
      RoomLeft(s, h.executionId, KToolCall, BToolCall(call), env.room);
      var open := called.(calls := called.calls[call.id := false]);
      ExecGrown(h, open, call, env.(room := env.room - 1));
      GrownTrans(h, s.journal, called.journal, ExecCall(h, open, call, env.(room := env.room - 1)).0.journal);
    }
  }

  lemma {:induction false} ApprovalGrown(h: Host, s: Live, g: Gate, env: Env)
    requires g.request.Some? && HasDecision(g)
    ensures Grown(h, s.journal, CompleteApproval(h, s, g, env).0.journal)
  {
    hide Grown, Put, DecidedOutcome;
    GrownItself(h, s.journal);
    var decision := g.decision.value.event.body.decision;
    var ran := if decision.approved then s.(invocations := s.invocations + [Invocation(g.call, |s.journal|)]) else s;
    PutGrown(h, ran, KToolResult, BResult(ReceiptOf(g, DecidedOutcome(decision, env.tool))), env.room);
  }

  lemma {:induction false} CallGrown(h: Host, rec: Recording, s: Resuming, call: ToolCall, env: Env)
    ensures Grown(h, s.live.journal, ResumeCall(h, rec, s, call, env).0.live.journal)
  {
    hide Grown, ExecCall, LiveCall, CompleteApproval;
    GrownItself(h, s.live.journal);
    LiveCallGrown(h, s.live, call, env);
    if NextIsCall(rec.stream, s.i) {
      var recorded := rec.stream[s.i].body.toolCall;
      var live := s.live.(calls := s.live.calls[recorded.id := recorded.mediation.RequiresApproval?]);
      ExecGrown(h, live, recorded, env);
      if DecidedNext(rec, s.i + 1, recorded.id) { ApprovalGrown(h, live, rec.gates[recorded.id], env); }
    }
  }

  lemma {:induction false} OpGrown(h: Host, rec: Recording, s: Resuming, op: Op, env: Env)
    requires !op.Call?
    ensures Grown(h, s.live.journal, ResumeOp(h, rec, s, op, env).0.live.journal)
  {
    hide Grown, LiveModel, LiveOutput, LiveReport, LiveAccount, CompleteModel;
    GrownItself(h, s.live.journal);
    PlainGrown(h, s.live, op, env);
    CompleteModelGrown(h, s.live, env);
  }

  /** A step writes only effects of its execution. */
  lemma {:induction false} StepGrown(h: Host, rec: Recording, s: Resuming, op: Op, env: Env)
    ensures Grown(h, s.live.journal, ResumeStep(h, rec, s, op, env).0.live.journal)
  {
    hide Grown, ResumeOp;
    GrownItself(h, s.live.journal);
    if op.Call? {
      CallGrown(h, rec, s, op.call, env);
      CallOp(h, rec, s, op.call, env);
    } else {
      OpGrown(h, rec, s, op, env);
    }
  }

  lemma {:induction false} RunGrown(h: Host, rec: Recording, har: Harness, envs: nat -> Env, s: Resuming, seen: seq<Seen>, budget: nat)
    ensures Grown(h, s.live.journal, ResumeRun(h, rec, har, envs, s, seen, budget).sink.live.journal)
    decreases budget
  {
    hide ResumeStep, Grown;
    GrownItself(h, s.live.journal);
    match har(seen)
    case Return(_) =>
    case Emit(op) =>
      if budget > 0 {
        var r := ResumeStep(h, rec, s, op, envs(|seen|));
        StepGrown(h, rec, s, op, envs(|seen|));
        RunGrown(h, rec, har, envs, r.0, seen + [See(r.1)], budget - 1);
        GrownTrans(h, s.live.journal, r.0.live.journal, ResumeRun(h, rec, har, envs, r.0, seen + [See(r.1)], budget - 1).sink.live.journal);
      }
  }

  // ---- turns ----

  lemma {:induction false} EffectKeepsInputs(x: Execution, e: Entry, y: Execution)
    requires IsEffect(e.event.kind) && Step(x, false, e) == Ok(y) && Complete(x)
    ensures Complete(y)
  {
  }

  /** An execution that is the latest and has all its inputs. */
  ghost predicate Current(es: seq<Entry>, id: string)
  {
    && Sane(es) && id != "" && Latest(es) == id && EntriesOf(es, id) != []
    && Fold(EntriesOf(es, id)).Ok? && Complete(Fold(EntriesOf(es, id)).value)
  }

  /** One effect of the current execution that the scan accepts. */
  lemma {:induction false} EffectSane(es: seq<Entry>, e: Entry)
    requires Current(es, e.event.executionId) && e.num == |es| + 1 && IsEffect(e.event.kind)
    requires Fold(EntriesOf(es + [e], e.event.executionId)).Ok?
    ensures Current(es + [e], e.event.executionId)
  {
    hide Executions, ForkSeq, Healthy, Latest, OwnsOpen, EntriesOf, Fold;
    var id := e.event.executionId;
    EntriesNext(es, e, id);
    FoldSnoc(EntriesOf(es, id), e);
    var x := Fold(EntriesOf(es, id)).value;
    EffectKeepsInputs(x, e, Step(x, false, e).value);
    RecordSane(es, e);
    LatestSnoc(es, e);
    SeenLatest(es, id);
  }

  /** What a sink writes is sane wherever it stops. */
  lemma {:induction false} GrownSane(h: Host, es: seq<Entry>, longer: seq<Entry>)
    requires Current(es, h.executionId) && Grown(h, es, longer) && Fold(EntriesOf(longer, h.executionId)).Ok?
    ensures SaneFrom(es, longer) && Current(longer, h.executionId)
    decreases |longer|
  {
    hide Fold, EntriesOf, Sane, Complete, Latest;
    if |longer| == |es| {
      assert longer == es;
      assert Sane(es) && Contiguous(es) by { CurrentFacts(es, h.executionId); }
      SaneIs(es);
    } else {
      var init, e := longer[..|longer| - 1], longer[|longer| - 1];
      assert longer == init + [e];
      assert Contiguous(longer) by { CurrentFacts(es, h.executionId); }
      EntriesNext(init, e, h.executionId);
      var own := EntriesOf(init, h.executionId);
      assert (own + [e])[..|own|] == own;
      Recovery.ScanPrefix(own + [e], |own|);
      GrownSane(h, es, init);
      EffectSane(init, e);
      SaneFromSnoc(es, init, e);
    }
  }

  lemma {:induction false} CurrentFacts(es: seq<Entry>, id: string)
    requires Current(es, id)
    ensures Sane(es) && Contiguous(es)
  {
  }

  /** The record that ends a turn: END when the run finished, ERROR when it failed or diverged, and none
  when the sink was stopped, lost its fence or never returned. */
  function Closing(h: Host, journal: seq<Entry>, e: Ending): seq<Event>
  {
    if e.finish.None? || e.sink.live.guard.stop.Some? || e.sink.live.fenced then []
    else if e.sink.failure.None? && !e.sink.live.guard.closed && e.finish == Some(Completed) &&
            e.sink.i == |EffectsOf(journal, h.executionId)|
    then [Event(h.executionId, KEnd, BEnd(HarnessEnd("COMPLETED", None)), NO_IDENTITY)]
    else [Event(h.executionId, KError, BError(ErrorInfo(0, "")), NO_IDENTITY)]
  }

  /** The journal a turn leaves when nothing interrupts it. */
  ghost function TurnLeaves(h: Host, journal: seq<Entry>, har: Harness, envs: nat -> Env, budget: nat): seq<Entry>
    requires Sound(h, journal)
  {
    var e := Recovery.RunOn(h, journal, har, envs, budget);
    Appending(e.sink.live.journal, Closing(h, journal, e))
  }

  lemma {:induction false} ClosingSane(h: Host, journal: seq<Entry>, e: Ending, event: Event)
    requires Current(e.sink.live.journal, h.executionId)
    requires Closing(h, journal, e) == [event]
    requires event.kind.KEnd? ==> !IsOpen(Fold(EntriesOf(e.sink.live.journal, h.executionId)).value)
    ensures Sane(e.sink.live.journal + [Entry(Head(e.sink.live.journal) + 1, event)])
  {
    hide EntriesOf, Fold, Latest, Healthy, ForkSeq, Executions, OwnsOpen, Recovery.RunOn;
    var es := e.sink.live.journal;
    assert Head(es) == |es|;
    RecordSane(es, Entry(Head(es) + 1, event));
  }

  /** A turn over an execution that is current leaves a sane journal, wherever it is interrupted. */
  lemma {:induction false} TurnSane(h: Host, journal: seq<Entry>, har: Harness, envs: nat -> Env, budget: nat)
    requires Current(journal, h.executionId) && Sound(h, journal)
    ensures SaneFrom(journal, TurnLeaves(h, journal, har, envs, budget))
  {
    hide EntriesOf, Fold, Latest, Healthy, ForkSeq, Executions, OwnsOpen, ResumeRun, EffectsOf, Sane, Current, Upheld, Sound;
    TurnUpheld(h, journal, har, envs, budget);
    var e := Recovery.RunOn(h, journal, har, envs, budget);
    var es := e.sink.live.journal;
    GrownSane(h, journal, es);
    var closing := Closing(h, journal, e);
    if closing != [] {
      ClosingSane(h, journal, e, closing[0]);
      SaneFromSnoc(journal, es, Entry(Head(es) + 1, closing[0]));
      assert Appending(es, closing) == es + [Entry(Head(es) + 1, closing[0])] by { AppendingOne(es, closing); }
    }
  }

  lemma {:induction false} AppendingOne(es: seq<Entry>, events: seq<Event>)
    requires |events| == 1
    ensures Appending(es, events) == es + [Entry(Head(es) + 1, events[0])]
  {
    assert events[1..] == [];
  }

  /** What the run of a turn leaves: effects the scan accepts, and no open gate when it ends with END. */
  lemma {:induction false} TurnUpheld(h: Host, journal: seq<Entry>, har: Harness, envs: nat -> Env, budget: nat)
    requires Sound(h, journal)
    ensures var e := Recovery.RunOn(h, journal, har, envs, budget);
      var es := e.sink.live.journal;
      && Grown(h, journal, es) && Fold(EntriesOf(es, h.executionId)).Ok?
      && (Clean(e.sink) && e.sink.i == |EffectsOf(journal, h.executionId)| ==> !IsOpen(Fold(EntriesOf(es, h.executionId)).value))
  {
    hide EntriesOf, Fold, ResumeRun, Stream, Grown;
    var rec, s := RecordingOf(journal, h.executionId), Begin(journal);
    BeginUpheld(h, journal);
    RunUpheld(h, journal, rec, har, envs, s, [], budget);
    RunGrown(h, rec, har, envs, s, [], budget);
    var e := ResumeRun(h, rec, har, envs, s, [], budget);
    if Clean(e.sink) && e.sink.i == |rec.stream| { LiveIsClosed(h, journal, rec, e.sink); }
  }

  // ---- opening an invocation ----

  lemma {:induction false} InputsSane(es: seq<Entry>, id: string, start: ExecutionStart, inputs: seq<Message>, n: nat)
    requires Opened(es, id, start, inputs, n)
    ensures var rest := seq(|inputs| - n, k requires 0 <= k < |inputs| - n => Event(id, KInput, BMessage(inputs[n + k]), NO_IDENTITY));
      SaneFrom(es, Appending(es, rest)) && Opened(Appending(es, rest), id, start, inputs, |inputs|)
    decreases |inputs| - n
  {
    hide Opened, Sane;
    OpenedSane(es, id, start, inputs, n);
    var rest := seq(|inputs| - n, k requires 0 <= k < |inputs| - n => Event(id, KInput, BMessage(inputs[n + k]), NO_IDENTITY));
    if n == |inputs| {
      SaneIs(es);
    } else {
      InputSane(es, id, start, inputs, n);
      var next := es + [Entry(Head(es) + 1, rest[0])];
      OpenedSane(next, id, start, inputs, n + 1);
      InputsSane(next, id, start, inputs, n + 1);
      var tail := seq(|inputs| - (n + 1), k requires 0 <= k < |inputs| - (n + 1) => Event(id, KInput, BMessage(inputs[n + 1 + k]), NO_IDENTITY));
      assert rest[1..] == tail;
      SaneIs(es);
      SaneFromSnoc(es, es, Entry(Head(es) + 1, rest[0]));
      SaneFromTrans(es, next, Appending(next, tail));
    }
  }

  lemma {:induction false} OpenedSane(es: seq<Entry>, id: string, start: ExecutionStart, inputs: seq<Message>, n: nat)
    requires Opened(es, id, start, inputs, n)
    ensures Sane(es) && n <= |inputs|
  {
  }

  lemma {:induction false} OpenedCurrent(es: seq<Entry>, h: Host, start: ExecutionStart, inputs: seq<Message>)
    requires Opened(es, h.executionId, start, inputs, |inputs|)
    ensures Current(es, h.executionId) && Sound(h, es)
  {
    hide Fold, EntriesOf, Latest, Sane;
  }

  /** Committing a start marker and its inputs, as far as it gets, leaves a sane journal; all of it makes
  the invocation current. */
  lemma {:induction false} OpeningSane(es: seq<Entry>, h: Host, start: ExecutionStart, inputs: seq<Message>)
    requires Sane(es) && h.executionId != "" && h.executionId !in Executions(es) && !OwnsOpen(es, Latest(es))
    ensures var begun := Appending(es, Opening(h.executionId, start, inputs));
      SaneFrom(es, begun) && Current(begun, h.executionId) && Sound(h, begun)
  {
    hide Opened, Sane, Latest, Executions, OwnsOpen, Current, Sound;
    var id := h.executionId;
    var all := Opening(id, start, inputs);
    StartSane(es, id, start, inputs);
    var next := es + [Entry(Head(es) + 1, all[0])];
    OpenedSane(next, id, start, inputs, 0);
    InputsSane(next, id, start, inputs, 0);
    var rest := seq(|inputs| - 0, k requires 0 <= k < |inputs| - 0 => Event(id, KInput, BMessage(inputs[0 + k]), NO_IDENTITY));
    assert all[1..] == rest;
    SaneIs(es);
    SaneFromSnoc(es, es, Entry(Head(es) + 1, all[0]));
    SaneFromTrans(es, next, Appending(next, rest));
    OpenedCurrent(Appending(next, rest), h, start, inputs);
  }

  // ---- the writers of a session ----

  datatype Act =
    | ExecTurn(host: Host, start: ExecutionStart, inputs: seq<Message>, har: Harness, envs: nat -> Env, budget: nat)
    | ResumeTurn(host: Host, har: Harness, envs: nat -> Env, budget: nat)
    | Decide(decision: ApprovalDecision)
    | Mark(lifecycle: Lifecycle)
    | ForkAt(atSeq: int)

  /** A new turn is refused while the session owns an unanswered gate. */
  predicate Blocked(es: seq<Entry>)
  {
    match ScanOf(es)
    case Err(_) => true
    case Ok(scan) => scan.selected.Some? && !scan.selected.value.inherited && scan.selected.value.gate.receipt.None?
  }

  /** What recovery does first about the last gate of the execution it resumes. */
  datatype Gateway = Refused | Repairs(request: Event) | Parks | Proceeds

  function ApprovalGateway(es: seq<Entry>, id: string): Gateway
  {
    match ScanOf(es)
    case Err(_) => Refused
    case Ok(scan) =>
      if scan.selected.None? || scan.selected.value.executionId != id || scan.selected.value.gate.receipt.Some? then Proceeds
      else
        var st := scan.selected.value;
        if st.inherited then Refused
        else if st.gate.request.None? then
          Repairs(Event(id, KApprovalRequest, BApproval(ApprovalRequest(st.gate.call.id, "")), NO_IDENTITY))
        else if st.gate.decision.None? then Parks
        else Proceeds
  }

  /** The execution recovery selects: the latest, when it has not ended and its inputs are all there. */
  predicate Resumable(es: seq<Entry>, id: string)
  {
    && es != [] && id == Latest(es) && id in Executions(es)
    && match Fold(EntriesOf(es, id))
       case Err(_) => false
       case Ok(x) => !x.completed && ValidateInputs(x).None?
  }

  /** All that one act of a writer can write. An act may be interrupted after any of it. */
  ghost function Writes(es: seq<Entry>, act: Act): seq<Entry>
  {
    match act
    case ExecTurn(h, start, inputs, har, envs, budget) =>
      if h.executionId == "" || h.executionId in Executions(es) || Blocked(es) then es
      else
        var begun := Appending(es, Opening(h.executionId, start, inputs));
        if Sound(h, begun) then TurnLeaves(h, begun, har, envs, budget) else begun
    case ResumeTurn(h, har, envs, budget) =>
      if !Resumable(es, h.executionId) then es
      else
        (match ApprovalGateway(es, h.executionId)
         case Repairs(request) => Appending(es, [request])
         case Proceeds => if Sound(h, es) then TurnLeaves(h, es, har, envs, budget) else es
         case _ => es)
    case Decide(d) => if Judge(es, d).Commit? then Appending(es, [DecisionEvent(d)]) else es
    case Mark(lifecycle) =>
      if lifecycle.kind.Fork? then es else Appending(es, [Event("", KLifecycle, BLifecycle(lifecycle), NO_IDENTITY)])
    case ForkAt(_) => es
  }

  /** The journal may become this one: what an act wrote before it ended or was interrupted, or, in a
  child, a forked prefix with its marker. */
  ghost predicate Leads(es: seq<Entry>, act: Act, es': seq<Entry>)
  {
    if act.ForkAt? then
      exists n | 0 <= n <= |es| :: es' == es[..n] + [Entry(n + 1, EventLog.ForkEvent(act.atSeq))]
    else es <= es' <= Writes(es, act)
  }

  /** A request for the last gate of the latest execution, or a decision of it, is a sane record. */
  lemma {:induction false} AnswerSane(es: seq<Entry>, event: Event)
    requires Sane(es) && event.executionId == Latest(es) && (event.kind.KApprovalRequest? || event.kind.KApprovalResult?)
    requires var own := EntriesOf(es, event.executionId);
      HasGate(own) && Fold(own).Ok? && Step(Fold(own).value, false, Entry(|es| + 1, event)).Ok?
    ensures SaneFrom(es, Appending(es, [event]))
  {
    hide EntriesOf, Fold, Latest, Healthy, ForkSeq, Executions, OwnsOpen, HasGate;
    var id := event.executionId;
    assert Head(es) == |es|;
    HealthyIsWhole(EntriesOf(es, id));
    NoneHasNoGate();
    var e := Entry(|es| + 1, event);
    StepCompleted(Fold(EntriesOf(es, id)).value, e);
    RecordSane(es, e);
    AppendingOne(es, [event]);
    SaneIs(es);
    SaneFromSnoc(es, es, e);
  }

  lemma {:induction false} DecideSane(es: seq<Entry>, d: ApprovalDecision)
    requires Sane(es) && Judge(es, d).Commit?
    ensures SaneFrom(es, Appending(es, [DecisionEvent(d)]))
  {
    hide EntriesOf, Fold, Healthy, ForkSeq, Executions, OwnsOpen, HasGate, Sane, ScanOf;
    CommitAwaits(es, d);
    AnswerSane(es, DecisionEvent(d));
  }

  lemma {:induction false} RepairSane(es: seq<Entry>, id: string)
    requires Sane(es) && Resumable(es, id) && ApprovalGateway(es, id).Repairs?
    ensures SaneFrom(es, Appending(es, [ApprovalGateway(es, id).request]))
  {
    hide EntriesOf, Fold, Healthy, ForkSeq, Executions, OwnsOpen, HasGate, Sane, StatesOf;
    SelectedIs(es);
    AnswerSane(es, ApprovalGateway(es, id).request);
  }

  /** A new turn is blocked exactly while the latest execution owns an unanswered gate. */
  lemma {:induction false} BlockedIff(es: seq<Entry>)
    requires Sane(es)
    ensures Blocked(es) <==> OwnsOpen(es, Latest(es))
  {
    hide EntriesOf, Fold, Healthy, ForkSeq, Executions, HasGate, StatesOf;
    var own := EntriesOf(es, Latest(es));
    SaneScans(es);
    HealthyIsWhole(own);
    SeenExecution(es, Latest(es));
    if OwnsOpen(es, Latest(es)) {
      if own == [] { FoldNone(); }
      if !HasGate(own) { GatesMeanGated(own); }
      SelectedState(es);
    } else if Blocked(es) {
      SelectedIs(es);
      SelectedState(es);
    }
  }

  lemma {:induction false} FoldNone()
    ensures Fold([]) == Ok(FRESH)
  {
  }

  lemma {:induction false} ResumableIsCurrent(es: seq<Entry>, h: Host)
    requires Sane(es) && Resumable(es, h.executionId)
    ensures Current(es, h.executionId) && Sound(h, es)
  {
    hide EntriesOf, Fold, Healthy, ForkSeq, Executions, OwnsOpen;
    SeenExecution(es, h.executionId);
    HealthyIsWhole(EntriesOf(es, h.executionId));
  }

  lemma {:induction false} WritesSane(es: seq<Entry>, act: Act)
    requires Sane(es)
    ensures SaneFrom(es, Writes(es, act))
  {
    hide Sane, Resumable, Blocked, Sound, Current, Judge, ApprovalGateway, TurnLeaves, Opening, SaneFrom, OwnsOpen, Appending;
    SaneIs(es);
    match act
    case ExecTurn(h, start, inputs, har, envs, budget) =>
      if !(h.executionId == "" || h.executionId in Executions(es) || Blocked(es)) {
        BlockedIff(es);
        OpeningSane(es, h, start, inputs);
        var begun := Appending(es, Opening(h.executionId, start, inputs));
        TurnSane(h, begun, har, envs, budget);
        SaneFromTrans(es, begun, TurnLeaves(h, begun, har, envs, budget));
      }
    case ResumeTurn(h, har, envs, budget) =>
      if Resumable(es, h.executionId) {
        ResumableIsCurrent(es, h);
        if ApprovalGateway(es, h.executionId).Repairs? { RepairSane(es, h.executionId); }
        TurnSane(h, es, har, envs, budget);
      }
    case Decide(d) =>
      if Judge(es, d).Commit? { DecideSane(es, d); }
    case Mark(lifecycle) =>
      if !lifecycle.kind.Fork? { MarkedSane(es, Event("", KLifecycle, BLifecycle(lifecycle), NO_IDENTITY)); }
    case ForkAt(_) =>
  }

  lemma {:induction false} MarkedSane(es: seq<Entry>, event: Event)
    requires Sane(es) && event.kind.KLifecycle? && !IsFork(event)
    ensures SaneFrom(es, Appending(es, [event]))
  {
    hide Healthy, EntriesOf, Latest, OwnsOpen;
    assert Head(es) == |es|;
    MarkSane(es, Entry(|es| + 1, event));
    AppendingOne(es, [event]);
    SaneIs(es);
    SaneFromSnoc(es, es, Entry(|es| + 1, event));
  }

  /** Every act keeps the journal sane, however it is interrupted. */
  lemma {:induction false} LeadsSane(es: seq<Entry>, act: Act, es': seq<Entry>)
    requires Sane(es) && Leads(es, act, es')
    ensures Sane(es')
  {
    hide Sane, Writes;
    if act.ForkAt? {
      var n :| 0 <= n <= |es| && es' == es[..n] + [Entry(n + 1, EventLog.ForkEvent(act.atSeq))];
      ForkSane(es, n, Entry(n + 1, EventLog.ForkEvent(act.atSeq)));
    } else {
      WritesSane(es, act);
      assert es' == Writes(es, act)[..|es'|];
    }
  }

  /** The journals a session goes through. */
  ghost predicate Journey(path: seq<seq<Entry>>, acts: seq<Act>)
  {
    && |path| == |acts| + 1 && path[0] == []
    && forall k | 0 <= k < |acts| :: Leads(path[k], acts[k], path[k + 1])
  }

  lemma {:induction false} EmptySane()
    ensures Sane([])
  {
  }

  /** Every journal a session reaches scans, and a scan of it finds at most one owned gate unanswered: the
  last gated call of the latest execution. */
  lemma {:induction false} WritersNeverWedge(path: seq<seq<Entry>>, acts: seq<Act>, n: nat)
    requires Journey(path, acts) && n < |path|
    ensures Sane(path[n]) && ScanOf(path[n]).Ok?
    ensures forall st | st in ScanOf(path[n]).value.states && !st.inherited && st.gate.receipt.None? ::
      ScanOf(path[n]).value.selected == Some(st)
  {
    hide Sane, Leads, ScanOf;
    if n == 0 {
      EmptySane();
    } else {
      WritersNeverWedge(path, acts, n - 1);
      LeadsSane(path[n - 1], acts[n - 1], path[n]);
    }
    SaneScans(path[n]);
    forall st | st in ScanOf(path[n]).value.states && !st.inherited && st.gate.receipt.None?
      ensures ScanOf(path[n]).value.selected == Some(st)
    {
      OneOpenGate(path[n], st);
    }
  }
}
