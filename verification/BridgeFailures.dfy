/** A run that fails over the remote bridge (harnesswire/harnesswire.go).

The host's sink may answer an operation with an error, and the serving process refuses some operations by
itself. Either way the host is given the operations of the harness up to there and no more, and its run fails. */
module BridgeFailures {
  import opened Api
  import opened Sinks
  import opened Runs
  import opened Bridge

  /** The serving process refuses the operation by itself and sends nothing for it. */
  predicate Refuses(ids: Ids, op: Op)
  {
    || (op.Call? && op.call.mediation.RequiresApproval? && (ids.session == "" || op.call.id == ""))
    || (op.Report? && ClaimsReceipt(op.result))
  }

  /** The park names this execution and this call. */
  predicate ParksCall(ids: Ids, call: ToolCall, a: Answer)
  {
    && a.Failed? && a.fault.Parked? && call.mediation.RequiresApproval? && ids.session != "" && call.id != ""
    && a.fault.ref.executionId == ids.executionId && a.fault.ref.toolCallId == call.id && a.fault.ref.requestSeq > 0
  }

  /** The host gives up on this answer: it is no answer to the operation, breaks the receipt rules, or is an error
  that is not the park of this very call. */
  predicate Rejects(ids: Ids, op: Op, a: Answer)
  {
    match op
    case Model(_) => !a.Completion?
    case Call(call) =>
      if !a.Returned? then !ParksCall(ids, call, a)
      else if call.mediation.RequiresApproval? then !ValidReceipt(call.id, a.result.approval, a.result)
      else ClaimsReceipt(a.result)
    case _ => !a.Accepted?
  }

  /** The first p operations of the harness succeed, and it makes another. */
  ghost predicate Reaches(har: Harness, sink: HostSink, ids: Ids, p: nat)
  {
    && (forall k: nat | k < p :: SucceedsAt(har, sink, ids, k))
    && har(Direct(har, sink, p).seen).Emit? && |Direct(har, sink, p).ops| == p
  }

  /** And that one the host's sink fails. */
  ghost predicate FailsFirst(har: Harness, sink: HostSink, ids: Ids, p: nat)
  {
    && Reaches(har, sink, ids, p)
    && var d := Direct(har, sink, p);
       && !Refuses(ids, har(d.seen).op)
       && Rejects(ids, har(d.seen).op, sink(CrossAll(d.ops + [har(d.seen).op])))
  }

  /** Or the serving process refuses it. */
  ghost predicate RefusedFirst(har: Harness, sink: HostSink, ids: Ids, p: nat)
  {
    Reaches(har, sink, ids, p) && Refuses(ids, har(Direct(har, sink, p).seen).op)
  }

  /** The failing operation has not been sent. */
  ghost predicate Before(har: Harness, sink: HostSink, s: State, p: nat)
  {
    InStep(har, sink, s) && Emitted(s) <= p
  }

  /** It is on its way to the host, behind the operations before it. */
  ghost predicate OnItsWay(s: State, ops: seq<Op>)
  {
    && s.client.Serving? && |s.ops| < |ops| && s.ops == CrossAll(ops[..|s.ops|])
    && |s.up| >= |ops| - |s.ops|
    && forall j | 0 <= j < |ops| - |s.ops| :: s.up[j] == FrameOf(|s.ops| + j, ops[|s.ops| + j])
  }

  ghost predicate GaveUp(s: State, ops: seq<Op>)
  {
    s.client == Done(RunFailed) && s.ops == CrossAll(ops)
  }

  lemma {:induction false} ServerAppends(har: Harness, ids: Ids, s: State)
    ensures var t := ServerStep(har, ids, s); t.client == s.client && t.ops == s.ops && s.up <= t.up
  {
    hide FrameOf, ValidReceipt, ClaimsReceipt;
  }

  lemma {:induction false} SendsAnyFrame(har: Harness, ids: Ids, s: State, op: Op)
    requires s.server.wait.Idle? && !s.server.done && s.server.parked.None? && !s.server.failed && har(s.server.seen) == Emit(op)
    requires !Refuses(ids, op)
    ensures ServerStep(har, ids, s).up == s.up + [FrameOf(|s.server.seen|, op)]
  {
    hide FrameOf;
  }

  /** What is known before the failing operation is sent. */
  lemma {:induction false} BeforeFacts(har: Harness, sink: HostSink, ids: Ids, s: State, p: nat)
    requires Before(har, sink, s, p) && Reaches(har, sink, ids, p)
    ensures !s.server.done && s.client.Serving? && s.server.parked.None? && !s.server.failed
    ensures |s.ops| <= Emitted(s) == |Direct(har, sink, Emitted(s)).ops|
    ensures s.ops == CrossAll(Direct(har, sink, Emitted(s)).ops[..|s.ops|])
    ensures UpFlow(har, s, Direct(har, sink, Emitted(s)).ops)
    ensures s.server.wait.Idle? ==> s.server.seen == Direct(har, sink, Emitted(s)).seen && Emitted(s) == |s.server.seen|
    ensures s.down != [] ==> |s.ops| == Emitted(s) == |s.server.seen| + 1
    ensures !s.server.wait.Idle? && s.down == [] ==> |s.ops| < Emitted(s)
  {
    DirectNext(har, sink, p);
    if Emitted(s) < p { DirectAt(har, sink, p, Emitted(s)); }
    hide Direct, CrossAll, FrameOf;
  }

  lemma {:induction false} SentIsOnItsWay(har: Harness, sink: HostSink, ids: Ids, s: State, p: nat)
    requires Before(har, sink, s, p) && FailsFirst(har, sink, ids, p) && s.server.wait.Idle? && Emitted(s) == p
    ensures OnItsWay(ServerStep(har, ids, s), Direct(har, sink, p + 1).ops)
  {
    BeforeFacts(har, sink, ids, s, p);
    ServerAppends(har, ids, s);
    DirectNext(har, sink, p);
    var op := har(s.server.seen).op;
    SendsAnyFrame(har, ids, s, op);
    hide ServerStep, FrameOf, Direct, CrossOp, Rejects, Refuses, InStep;
    var ops := Direct(har, sink, p).ops;
    assert (ops + [op])[..|s.ops|] == ops[..|s.ops|];
  }

  lemma {:induction false} BeforeServer(har: Harness, sink: HostSink, ids: Ids, s: State, p: nat)
    requires Before(har, sink, s, p) && FailsFirst(har, sink, ids, p)
    ensures var t := ServerStep(har, ids, s);
      Before(har, sink, t, p) || OnItsWay(t, Direct(har, sink, p + 1).ops)
  {
    BeforeFacts(har, sink, ids, s, p);
    if s.server.wait.Idle? && Emitted(s) == p {
      SentIsOnItsWay(har, sink, ids, s, p);
    } else {
      SendsOne(har, ids, s);
      WaitsEmitNothing(har, ids, s);
      hide ServerStep, InStep, SucceedsAt, Emitted, Direct;
      ServerKeeps(har, sink, ids, s, ApprovalRef("", "", 0));
    }
  }

  lemma {:induction false} WaitsEmitNothing(har: Harness, ids: Ids, s: State)
    ensures !s.server.wait.Idle? ==> Emitted(ServerStep(har, ids, s)) == Emitted(s)
  {
    hide FrameOf, ValidReceipt, ClaimsReceipt;
  }

  lemma {:induction false} BeforeClient(har: Harness, sink: HostSink, ids: Ids, s: State, p: nat)
    requires Before(har, sink, s, p) && Reaches(har, sink, ids, p)
    ensures Before(har, sink, ClientStep(sink, ids, s), p)
  {
    BeforeFacts(har, sink, ids, s, p);
    ServesOne(sink, ids, s);
    assert Emitted(ClientStep(sink, ids, s)) == Emitted(s);
    hide ClientStep, InStep, SucceedsAt, Emitted, Direct;
    ClientKeeps(har, sink, ids, s);
  }

  /** The host fails on the frame of the operation its sink rejects. */
  lemma {:induction false} FailsOnFrame(sink: HostSink, ids: Ids, s: State, op: Op)
    requires s.client.Serving? && s.up != [] && s.up[0] == FrameOf(|s.ops|, op) && !Refuses(ids, op)
    requires Rejects(ids, op, sink(s.ops + [CrossOp(op)]))
    ensures var t := ClientStep(sink, ids, s); t.client == Done(RunFailed) && t.ops == s.ops + [CrossOp(op)]
  {
    FrameCarries(|s.ops|, op);
    var a := sink(s.ops + [CrossOp(op)]);
    match op {
      case Call(call) => ChecksCross(ids, call, if a.Returned? then a.result else NO_RESULT);
      case Report(r) => ChecksCross(ids, ToolCall("", "", None, ControllerMediated, ""), r);
      case _ =>
    }
  }

  const NO_RESULT := ToolResult("", None, "", "", false, "", [], 0, 0, 0, None)

  lemma {:induction false} OnItsWayServer(har: Harness, ids: Ids, s: State, ops: seq<Op>)
    requires OnItsWay(s, ops)
    ensures OnItsWay(ServerStep(har, ids, s), ops)
  {
    ServerAppends(har, ids, s);
    hide ServerStep, FrameOf, CrossAll;
  }

  /** The operations up to the failing one, each with its answer. */
  lemma {:induction false} FailingOpAt(har: Harness, sink: HostSink, ids: Ids, p: nat, k: nat)
    requires FailsFirst(har, sink, ids, p) && k <= p
    ensures var ops := Direct(har, sink, p + 1).ops;
      && |ops| == p + 1
      && (k < p ==> Succeeds(ids, ops[k], sink(CrossAll(ops[..k + 1]))))
      && (k == p ==> !Refuses(ids, ops[k]) && Rejects(ids, ops[k], sink(CrossAll(ops[..k + 1]))))
  {
    DirectNext(har, sink, p);
    DirectAt(har, sink, p + 1, k);
    var ops := Direct(har, sink, p + 1).ops;
    assert ops[..k + 1] == ops[..k] + [ops[k]];
    if k < p { assert SucceedsAt(har, sink, ids, k); }
    hide Rejects, Refuses, Succeeds, CrossAll;
  }

  lemma {:induction false} ServedOnItsWay(s: State, ops: seq<Op>, a: Answer)
    requires OnItsWay(s, ops) && |s.ops| + 1 < |ops|
    requires var op := ops[|s.ops|]; (op.Model? ==> a.Completion?) && (op.Call? ==> a.Returned?)
    ensures OnItsWay(Bridge.Served(s, ops[|s.ops|], a), ops)
  {
    hide FrameOf, CrossOp, Replies;
    var k := |s.ops|;
    assert ops[..k + 1] == ops[..k] + [ops[k]];
    assert CrossAll(ops[..k + 1]) == CrossAll(ops[..k]) + [CrossOp(ops[k])];
  }

  lemma {:induction false} NextFrame(s: State, ops: seq<Op>)
    requires OnItsWay(s, ops)
    ensures s.client.Serving? && s.up != [] && s.up[0] == FrameOf(|s.ops|, ops[|s.ops|])
    ensures s.ops + [CrossOp(ops[|s.ops|])] == CrossAll(ops[..|s.ops| + 1])
  {
    hide FrameOf, CrossOp;
  }

  lemma {:induction false} OnItsWayClient(har: Harness, sink: HostSink, ids: Ids, s: State, p: nat)
    requires FailsFirst(har, sink, ids, p) && OnItsWay(s, Direct(har, sink, p + 1).ops)
    ensures var t, ops := ClientStep(sink, ids, s), Direct(har, sink, p + 1).ops;
      (OnItsWay(t, ops) && |t.ops| == |s.ops| + 1) || GaveUp(t, ops)
  {
    var ops, k := Direct(har, sink, p + 1).ops, |s.ops|;
    NextFrame(s, ops);
    FailingOps(har, sink, ids, p);
    FailingOpAt(har, sink, ids, p, k);
    hide ClientStep, FrameOf, CrossOp, Direct, FailsFirst, OnItsWay, Rejects, Refuses, Replies;
    if k < p {
      ServesFrame(sink, ids, s, ops[k]);
      ServedOnItsWay(s, ops, sink(s.ops + [CrossOp(ops[k])]));
    } else {
      assert ops[..p + 1] == ops;
      FailsOnFrame(sink, ids, s, ops[p]);
    }
  }

  /** In every schedule of a run whose p-th operation the host's sink fails: the host is given the operations the
  harness makes in process up to that one and no more, and once it is done its run has failed. */
  lemma {:induction false} FailureCrosses(har: Harness, sink: HostSink, ids: Ids, run: seq<bool>, p: nat)
    requires FailsFirst(har, sink, ids, p)
    ensures var s, ops := After(har, sink, ids, run), Direct(har, sink, p + 1).ops;
      && |ops| == p + 1 && s.ops <= CrossAll(ops)
      && (Before(har, sink, s, p) || OnItsWay(s, ops) || GaveUp(s, ops))
      && (s.client.Done? ==> s.client.outcome == RunFailed && s.ops == CrossAll(ops))
  {
    hide Before, OnItsWay, GaveUp, ServerStep, ClientStep, FailsFirst;
    FailingOps(har, sink, ids, p);
    var ops := Direct(har, sink, p + 1).ops;
    if run == [] {
      StartsBefore(har, sink, p);
    } else {
      var s := After(har, sink, ids, run[..|run| - 1]);
      FailureCrosses(har, sink, ids, run[..|run| - 1], p);
      if Before(har, sink, s, p) {
        BeforeServer(har, sink, ids, s, p);
        BeforeClient(har, sink, ids, s, p);
      } else if OnItsWay(s, ops) {
        OnItsWayServer(har, ids, s, ops);
        OnItsWayClient(har, sink, ids, s, p);
      } else {
        StaysGivenUp(har, sink, ids, s, ops);
      }
    }
    StageMeans(har, sink, ids, After(har, sink, ids, run), p);
  }

  lemma {:induction false} FailingOps(har: Harness, sink: HostSink, ids: Ids, p: nat)
    requires FailsFirst(har, sink, ids, p)
    ensures Reaches(har, sink, ids, p) && |Direct(har, sink, p + 1).ops| == p + 1
  {
    DirectNext(har, sink, p);
  }

  lemma {:induction false} StartsBefore(har: Harness, sink: HostSink, p: nat)
    ensures Before(har, sink, BEGIN, p)
  {
    BeginInStep(har, sink);
  }

  lemma {:induction false} StaysGivenUp(har: Harness, sink: HostSink, ids: Ids, s: State, ops: seq<Op>)
    requires GaveUp(s, ops)
    ensures GaveUp(ServerStep(har, ids, s), ops) && GaveUp(ClientStep(sink, ids, s), ops)
  {
    ServerAppends(har, ids, s);
    hide ServerStep, CrossAll;
  }

  lemma {:induction false} StageMeans(har: Harness, sink: HostSink, ids: Ids, s: State, p: nat)
    requires FailsFirst(har, sink, ids, p)
    requires var ops := Direct(har, sink, p + 1).ops; Before(har, sink, s, p) || OnItsWay(s, ops) || GaveUp(s, ops)
    ensures var ops := Direct(har, sink, p + 1).ops;
      s.ops <= CrossAll(ops) && (s.client.Done? ==> s.client.outcome == RunFailed && s.ops == CrossAll(ops))
  {
    if Before(har, sink, s, p) {
      BeforeFacts(har, sink, ids, s, p);
      DirectPrefix(har, sink, Emitted(s), p + 1);
    }
    hide Direct, CrossOp, FrameOf, Rejects, Refuses, InStep, SucceedsAt;
  }

  // ---- it gets there ----

  lemma {:induction false} BeforeRound(har: Harness, sink: HostSink, ids: Ids, s: State, p: nat)
    requires Before(har, sink, s, p) && FailsFirst(har, sink, ids, p)
    ensures var t, ops := ClientStep(sink, ids, ServerStep(har, ids, s)), Direct(har, sink, p + 1).ops;
      (Before(har, sink, t, p) && Work(t) > Work(s)) || OnItsWay(t, ops) || GaveUp(t, ops)
  {
    hide ServerStep, ClientStep, InStep, Work, SucceedsAt, Direct, OnItsWay, GaveUp, Rejects, Refuses;
    var t := ServerStep(har, ids, s);
    BeforeFacts(har, sink, ids, s, p);
    BeforeServer(har, sink, ids, s, p);
    if Before(har, sink, t, p) {
      BeforeFacts(har, sink, ids, t, p);
      BeforeClient(har, sink, ids, t, p);
      if s.server.wait.Idle? && Emitted(s) == p {
        SentIsLater(har, sink, ids, s, p);
      } else {
        ServerWorks(har, sink, ids, s, ApprovalRef("", "", 0));
        ClientWorks(har, sink, ids, t);
      }
    } else {
      OnItsWayClient(har, sink, ids, t, p);
    }
  }

  lemma {:induction false} SentIsLater(har: Harness, sink: HostSink, ids: Ids, s: State, p: nat)
    requires Before(har, sink, s, p) && FailsFirst(har, sink, ids, p) && s.server.wait.Idle? && Emitted(s) == p
    ensures Emitted(ServerStep(har, ids, s)) > p
  {
    BeforeFacts(har, sink, ids, s, p);
    hide InStep, FrameOf, Direct, Rejects, UpFlow;
  }

  lemma {:induction false} FailureRounds(har: Harness, sink: HostSink, ids: Ids, n: nat, p: nat)
    requires FailsFirst(har, sink, ids, p)
    ensures var s, ops := After(har, sink, ids, Rounds(n)), Direct(har, sink, p + 1).ops;
      (Before(har, sink, s, p) && Work(s) >= n) || (OnItsWay(s, ops) && |s.ops| + 4 * p + 3 >= n) || GaveUp(s, ops)
  {
    hide Before, OnItsWay, GaveUp, ServerStep, ClientStep, FailsFirst, Work, Direct;
    if n == 0 {
      StartsBefore(har, sink, p);
    } else {
      FailureRounds(har, sink, ids, n - 1, p);
      AfterRound(har, sink, ids, n - 1);
      var s, ops := After(har, sink, ids, Rounds(n - 1)), Direct(har, sink, p + 1).ops;
      if Before(har, sink, s, p) && Work(s) >= n - 1 {
        BeforeBound(har, sink, ids, s, p);
        BeforeRound(har, sink, ids, s, p);
      } else if OnItsWay(s, ops) && |s.ops| + 4 * p + 3 >= n - 1 {
        OnItsWayServer(har, ids, s, ops);
        ServerAppends(har, ids, s);
        OnItsWayClient(har, sink, ids, ServerStep(har, ids, s), p);
      } else {
        StaysGivenUp(har, sink, ids, s, ops);
        StaysGivenUp(har, sink, ids, ServerStep(har, ids, s), ops);
      }
    }
  }

  lemma {:induction false} BeforeBound(har: Harness, sink: HostSink, ids: Ids, s: State, p: nat)
    requires Before(har, sink, s, p) && FailsFirst(har, sink, ids, p)
    ensures Work(s) <= 4 * p + 2
  {
    BeforeFacts(har, sink, ids, s, p);
    WorkBound(s);
    hide Work, Emitted, InStep;
  }

  /** And after a bounded number of rounds it is done: given everything up to the failing operation, and failed. */
  lemma {:induction false} FailureFinishes(har: Harness, sink: HostSink, ids: Ids, p: nat)
    requires FailsFirst(har, sink, ids, p)
    ensures var s := After(har, sink, ids, Rounds(5 * p + 4));
      s.client == Done(RunFailed) && s.ops == CrossAll(Direct(har, sink, p + 1).ops)
  {
    hide After, Rounds, Direct, Work, Before, FailsFirst, FrameOf, CrossAll;
    var s := After(har, sink, ids, Rounds(5 * p + 4));
    FailureRounds(har, sink, ids, 5 * p + 4, p);
    FailingOps(har, sink, ids, p);
    if Before(har, sink, s, p) { BeforeBound(har, sink, ids, s, p); }
  }

  // ---- an operation that the serving process refuses ----

  /** The serving process has refused the operation after these: it sends nothing more but a failed END. */
  ghost predicate Refused(s: State, ops: seq<Op>)
  {
    && s.client.Serving? && |s.ops| <= |ops| && s.ops == CrossAll(ops[..|s.ops|])
    && s.server.failed && s.server.parked.None? && s.server.wait.Idle?
    && |s.up| == |ops| - |s.ops| + (if s.server.done then 1 else 0)
    && (forall j | 0 <= j < |ops| - |s.ops| :: s.up[j] == FrameOf(|s.ops| + j, ops[|s.ops| + j]))
    && (s.server.done ==> s.up[|s.up| - 1] == UEnd(HarnessFailed))
  }

  lemma {:induction false} RefusedServer(har: Harness, ids: Ids, s: State, ops: seq<Op>)
    requires Refused(s, ops)
    ensures Refused(ServerStep(har, ids, s), ops)
  {
    hide FrameOf, CrossAll;
  }

  lemma {:induction false} SendRefuses(har: Harness, sink: HostSink, ids: Ids, s: State, p: nat)
    requires Before(har, sink, s, p) && RefusedFirst(har, sink, ids, p) && s.server.wait.Idle? && Emitted(s) == p
    ensures Refused(ServerStep(har, ids, s), Direct(har, sink, p).ops)
  {
    BeforeFacts(har, sink, ids, s, p);
    hide FrameOf, Direct, CrossAll, InStep, ClaimsReceipt;
  }

  lemma {:induction false} BeforeRefusal(har: Harness, sink: HostSink, ids: Ids, s: State, p: nat)
    requires Before(har, sink, s, p) && RefusedFirst(har, sink, ids, p)
    ensures var t := ServerStep(har, ids, s); Before(har, sink, t, p) || Refused(t, Direct(har, sink, p).ops)
  {
    BeforeFacts(har, sink, ids, s, p);
    if s.server.wait.Idle? && Emitted(s) == p {
      SendRefuses(har, sink, ids, s, p);
    } else {
      SendsOne(har, ids, s);
      WaitsEmitNothing(har, ids, s);
      hide ServerStep, InStep, SucceedsAt, Emitted, Direct, Refuses;
      ServerKeeps(har, sink, ids, s, ApprovalRef("", "", 0));
    }
  }

  lemma {:induction false} RefusedClient(har: Harness, sink: HostSink, ids: Ids, s: State, p: nat)
    requires RefusedFirst(har, sink, ids, p) && Refused(s, Direct(har, sink, p).ops)
    ensures var t, ops := ClientStep(sink, ids, s), Direct(har, sink, p).ops;
      Refused(t, ops) || GaveUp(t, ops)
  {
    var ops, k := Direct(har, sink, p).ops, |s.ops|;
    if k < p {
      SucceedsBefore(har, sink, ids, p, k);
      assert ops[..k + 1] == ops[..k] + [ops[k]];
      assert s.ops + [CrossOp(ops[k])] == CrossAll(ops[..k + 1]);
      ServesFrame(sink, ids, s, ops[k]);
      hide ClientStep, FrameOf, CrossOp, Direct, Replies;
    } else {
      assert ops[..k] == ops;
      hide FrameOf, CrossAll, Direct;
    }
  }

  lemma {:induction false} SucceedsBefore(har: Harness, sink: HostSink, ids: Ids, p: nat, k: nat)
    requires Reaches(har, sink, ids, p) && k < p
    ensures var ops := Direct(har, sink, p).ops; |ops| == p && Succeeds(ids, ops[k], sink(CrossAll(ops[..k + 1])))
  {
    DirectAt(har, sink, p, k);
    var ops := Direct(har, sink, p).ops;
    assert ops[..k + 1] == ops[..k] + [ops[k]];
    assert SucceedsAt(har, sink, ids, k);
    hide Succeeds, CrossAll;
  }

  /** In every schedule of a run whose p-th operation the serving process refuses: the host is given the operations
  before it and no more, and once it is done its run has failed, whatever the harness made of the refusal. */
  lemma {:induction false} RefusalCrosses(har: Harness, sink: HostSink, ids: Ids, run: seq<bool>, p: nat)
    requires RefusedFirst(har, sink, ids, p)
    ensures var s, ops := After(har, sink, ids, run), Direct(har, sink, p).ops;
      && (Before(har, sink, s, p) || Refused(s, ops) || GaveUp(s, ops))
      && s.ops <= CrossAll(ops) && (s.client.Done? ==> s.client.outcome == RunFailed && s.ops == CrossAll(ops))
  {
    hide Before, Refused, GaveUp, ServerStep, ClientStep, Refuses;
    var ops := Direct(har, sink, p).ops;
    if run == [] {
      StartsBefore(har, sink, p);
    } else {
      var s := After(har, sink, ids, run[..|run| - 1]);
      RefusalCrosses(har, sink, ids, run[..|run| - 1], p);
      if Before(har, sink, s, p) {
        BeforeRefusal(har, sink, ids, s, p);
        BeforeClient(har, sink, ids, s, p);
      } else if Refused(s, ops) {
        RefusedServer(har, ids, s, ops);
        RefusedClient(har, sink, ids, s, p);
      } else {
        StaysGivenUp(har, sink, ids, s, ops);
      }
    }
    RefusalMeans(har, sink, ids, After(har, sink, ids, run), p);
  }

  lemma {:induction false} RefusalMeans(har: Harness, sink: HostSink, ids: Ids, s: State, p: nat)
    requires Reaches(har, sink, ids, p)
    requires var ops := Direct(har, sink, p).ops; Before(har, sink, s, p) || Refused(s, ops) || GaveUp(s, ops)
    ensures var ops := Direct(har, sink, p).ops;
      s.ops <= CrossAll(ops) && (s.client.Done? ==> s.client.outcome == RunFailed && s.ops == CrossAll(ops))
  {
    if Before(har, sink, s, p) {
      BeforeFacts(har, sink, ids, s, p);
      DirectPrefix(har, sink, Emitted(s), p);
    }
    hide Direct, CrossOp, FrameOf, InStep, SucceedsAt;
  }

  // ---- whatever the other end sends ----

  /** What happens to the serving process: it takes a step, a frame arrives, or the stream closes. */
  datatype Peer = Steps | Sends(frame: Down) | Hangs

  function PeerStep(har: Harness, ids: Ids, s: State, p: Peer): State
  {
    match p
    case Steps => ServerStep(har, ids, s)
    case Sends(frame) => s.(down := s.down + [frame])
    case Hangs => s.(client := Done(RunFailed))
  }

  function PeerRun(har: Harness, ids: Ids, ps: seq<Peer>): State
  {
    if ps == [] then BEGIN else PeerStep(har, ids, PeerRun(har, ids, ps[..|ps| - 1]), ps[|ps| - 1])
  }

  /** What a harness may be given for an operation, or a failure: for an ordinary call a result of that call which
  is no receipt, for a gated one a receipt of that call with its decision. */
  predicate Fitting(op: Op, x: Seen)
  {
    match op
    case Model(_) => x.SawCompletion? || x.SawFailure?
    case Call(call) =>
      x.SawFailure? ||
      (x.SawResult? &&
       if call.mediation.RequiresApproval? then ValidReceipt(call.id, x.result.approval, x.result)
       else x.result.id == call.id && !ClaimsReceipt(x.result))
    case _ => x.SawAccepted? || x.SawFailure?
  }

  /** The wait is for the operation at hand. */
  ghost predicate WaitFits(har: Harness, server: Server)
  {
    match server.wait
    case Idle => true
    case ForModel(k) => k == |server.seen| && har(server.seen).Emit? && har(server.seen).op.Model?
    case ForCall(call) => har(server.seen) == Emit(Call(call))
    case ForReceipt(call, d) => har(server.seen) == Emit(Call(call)) && call.mediation.RequiresApproval?
  }

  ghost predicate AllFitting(har: Harness, server: Server)
  {
    forall k | 0 <= k < |server.seen| ::
      && har(server.seen[..k]).Emit? && Fitting(har(server.seen[..k]).op, server.seen[k])
      && (server.seen[k].SawFailure? && !har(server.seen[..k]).op.Model? ==> server.failed || server.parked.Some?)
  }

  ghost predicate EndFits(har: Harness, s: State)
  {
    && (UEnd(Completed) in s.up ==> s.server.done && !s.server.failed && s.server.parked.None? && har(s.server.seen) == Return(Completed))
    && (s.server.done ==> s.server.wait.Idle?)
  }

  ghost predicate Guarded(har: Harness, s: State)
  {
    WaitFits(har, s.server) && AllFitting(har, s.server) && EndFits(har, s)
  }

  lemma {:induction false} OneMoreFits(har: Harness, server: Server, next: Server, x: Seen)
    requires AllFitting(har, server) && har(server.seen).Emit? && Fitting(har(server.seen).op, x)
    requires next.seen == server.seen + [x] && (server.failed ==> next.failed) && (server.parked.Some? ==> next.parked.Some?)
    requires x.SawFailure? && !har(server.seen).op.Model? ==> next.failed || next.parked.Some?
    ensures AllFitting(har, next)
  {
    forall k | 0 <= k < |next.seen|
      ensures
        && har(next.seen[..k]).Emit? && Fitting(har(next.seen[..k]).op, next.seen[k])
        && (next.seen[k].SawFailure? && !har(next.seen[..k]).op.Model? ==> next.failed || next.parked.Some?)
    {
      assert next.seen[..k] == server.seen[..k];
      if k == |server.seen| { assert server.seen[..k] == server.seen; }
    }
    hide Fitting;
  }

  /** A frame that is waited for is what fits the operation, the first half of it, or a failure. */
  ghost predicate Gives(har: Harness, server: Server, next: Server)
  {
    && next.done == server.done && (server.failed ==> next.failed) && (server.parked.Some? ==> next.parked.Some?)
    && (next.seen == server.seen ==> next == server.(wait := next.wait) && next.wait.ForReceipt? && WaitFits(har, next))
    && (next.seen != server.seen ==>
          next.wait.Idle? && har(server.seen).Emit? &&
          exists x :: next.seen == server.seen + [x] && FitsNext(har(server.seen).op, x, next))
  }

  predicate FitsNext(op: Op, x: Seen, next: Server)
  {
    Fitting(op, x) && (x.SawFailure? && !op.Model? ==> next.failed || next.parked.Some?)
  }

  lemma {:induction false} DecodedResult(w: Codec.WireResult, id: string, d: ApprovalResult)
    ensures Codec.DecodeResult(w).id == w.id
    ensures var r := Codec.DecodeResult(w); ValidReceipt(id, Some(d), r) ==> ValidReceipt(id, Some(d), r.(approval := Some(d)))
  {
  }

  lemma {:induction false} SawGives(har: Harness, s: State, t: State, x: Seen)
    requires har(s.server.seen).Emit? && FitsNext(har(s.server.seen).op, x, t.server)
    requires t.server == Saw(s, x).server.(failed := t.server.failed, parked := t.server.parked)
    requires (s.server.failed ==> t.server.failed) && (s.server.parked.Some? ==> t.server.parked.Some?)
    ensures Gives(har, s.server, t.server)
  {
    assert t.server.seen == s.server.seen + [x];
    hide FitsNext;
  }

  lemma {:induction false} ReceiveGives(har: Harness, ids: Ids, s: State, frame: Down)
    requires WaitFits(har, s.server) && !s.server.wait.Idle?
    ensures Receive(ids, s, frame).up == s.up && Gives(har, s.server, Receive(ids, s, frame).server)
  {
    hide Codec.DecodeMessage, Codec.DecodeResult, ValidReceipt, ClaimsReceipt, Gives;
    var t := Receive(ids, s, frame);
    match s.server.wait
    case ForModel(_) => SawGives(har, s, t, t.server.seen[|s.server.seen|]);
    case ForCall(call) =>
      if frame.DTool? { DecodedResult(frame.result, call.id, ApprovalResult("", false, "", 0)); }
      if t.server.seen == s.server.seen {
        WaitGives(har, s, t);
      } else {
        SawGives(har, s, t, t.server.seen[|s.server.seen|]);
      }
    case ForReceipt(call, d) =>
      if frame.DTool? { DecodedResult(frame.result, call.id, d); }
      SawGives(har, s, t, t.server.seen[|s.server.seen|]);
  }

  lemma {:induction false} WaitGives(har: Harness, s: State, t: State)
    requires t.server == s.server.(wait := t.server.wait) && t.server.wait.ForReceipt? && WaitFits(har, t.server)
    ensures Gives(har, s.server, t.server)
  {
  }

  lemma {:induction false} ReceiveFits(har: Harness, ids: Ids, s: State, frame: Down)
    requires Guarded(har, s) && !s.server.wait.Idle?
    ensures Guarded(har, Receive(ids, s, frame))
  {
    hide Receive, Fitting;
    ReceiveGives(har, ids, s, frame);
    var t := Receive(ids, s, frame);
    if t.server.seen != s.server.seen {
      var x :| t.server.seen == s.server.seen + [x] && FitsNext(har(s.server.seen).op, x, t.server);
      OneMoreFits(har, s.server, t.server, x);
    }
    hide AllFitting;
  }

  lemma {:induction false} SendFits(har: Harness, ids: Ids, s: State, op: Op)
    requires Guarded(har, s) && s.server.wait.Idle? && !s.server.done && har(s.server.seen) == Emit(op)
    ensures Guarded(har, Send(ids, s, op))
    ensures Guarded(har, Fail(s))
  {
    var t := Send(ids, s, op);
    assert UEnd(Completed) !in t.up;
    if |t.server.seen| > |s.server.seen| { OneMoreFits(har, s.server, t.server, t.server.seen[|s.server.seen|]); }
    OneMoreFits(har, s.server, Fail(s).server, SawFailure);
    hide AllFitting;
  }

  lemma {:induction false} PeerStepFits(har: Harness, ids: Ids, s: State, p: Peer)
    requires Guarded(har, s)
    ensures Guarded(har, PeerStep(har, ids, s, p))
  {
    if p.Steps? && !s.server.done {
      if !s.server.wait.Idle? {
        if s.down != [] {
          assert Guarded(har, s.(down := s.down[1..]));
          ReceiveFits(har, ids, s.(down := s.down[1..]), s.down[0]);
        } else if s.client.Done? {
          OneMoreFits(har, s.server, Hangup(s).server, SawFailure);
        }
      } else {
        match har(s.server.seen)
        case Return(_) =>
        case Emit(op) =>
          SendFits(har, ids, s, op);
          if s.server.parked.Some? || s.server.failed { OneMoreFits(har, s.server, Saw(s, SawFailure).server, SawFailure); }
      }
    }
    hide AllFitting, Receive, Send;
  }

  /** Whatever frames arrive at the serving process, in whatever order, and whenever the stream closes: its harness
  is only ever given what fits its operations, or a failure; and when a COMPLETED end is sent the harness has
  completed, nothing was refused or parked, and every call was answered with its own result or receipt. */
  lemma {:induction false} PeerCannotMislead(har: Harness, ids: Ids, ps: seq<Peer>)
    ensures var s := PeerRun(har, ids, ps);
      && (forall k | 0 <= k < |s.server.seen| :: har(s.server.seen[..k]).Emit? && Fitting(har(s.server.seen[..k]).op, s.server.seen[k]))
      && (UEnd(Completed) in s.up ==>
            && har(s.server.seen) == Return(Completed)
            && forall k | 0 <= k < |s.server.seen| && har(s.server.seen[..k]).op.Call? :: s.server.seen[k].SawResult?)
  {
    PeerGuarded(har, ids, ps);
    hide PeerRun;
  }

  lemma {:induction false} PeerGuarded(har: Harness, ids: Ids, ps: seq<Peer>)
    ensures Guarded(har, PeerRun(har, ids, ps))
  {
    hide Guarded, PeerStep;
    if ps != [] {
      PeerGuarded(har, ids, ps[..|ps| - 1]);
      PeerStepFits(har, ids, PeerRun(har, ids, ps[..|ps| - 1]), ps[|ps| - 1]);
    } else {
      BeginGuarded(har);
    }
  }

  lemma {:induction false} BeginGuarded(har: Harness)
    ensures Guarded(har, BEGIN)
  {
  }
}
