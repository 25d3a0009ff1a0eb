/** What a scan says of a journal, in terms of its records (controller/approval.go).

Every gated call of the journal has one published state, which names the records that answer it, whether its
execution has ended, and whether a fork follows it; nothing else is published. */
module Findings {
  import opened Api
  import opened Approval
  import opened Evidence
  import opened ApprovalScan
  import opened Deciding
  import opened Projection

  predicate OpenedBy(e: Entry, g: Gate)
  {
    IsGatedCall(e.event) && e.num == g.num && e.event.body.toolCall == g.call
  }

  /** The record requests, decides or answers a call of this identity. */
  predicate Asks(e: Event, id: string)
  {
    e.kind == KApprovalRequest && e.body.BApproval? && e.body.request.toolCallId == id
  }

  predicate Decides(e: Event, id: string)
  {
    e.kind == KApprovalResult && e.body.BApprovalResult? && e.body.decision.toolCallId == id
  }

  predicate Answered(e: Event, id: string)
  {
    e.kind == KToolResult && e.body.BResult? && e.body.result.id == id
  }

  predicate Ascending(own: seq<Entry>)
  {
    forall i, j | 0 <= i < j < |own| :: own[i].num < own[j].num
  }

  /** The gate is that of a gated call among the records; its request, decision and receipt are the records that
  request, decide and answer that call. */
  ghost predicate Means(own: seq<Entry>, g: Gate)
  {
    && (exists e | e in own :: OpenedBy(e, g))
    && (forall e | e in own :: g.request == Some(e) <==> Asks(e.event, g.call.id))
    && (forall e | e in own :: g.decision == Some(e) <==> Decides(e.event, g.call.id))
    && (forall e | e in own && e.num > g.num :: g.receipt == Some(e) <==> Answered(e.event, g.call.id))
    && (g.request.Some? ==> g.request.value in own)
    && (g.decision.Some? ==> g.decision.value in own)
    && (g.receipt.Some? ==> g.receipt.value in own && g.receipt.value.num > g.num)
  }

  ghost predicate AllMean(own: seq<Entry>, gates: seq<Gate>)
  {
    forall k | 0 <= k < |gates| :: Means(own, gates[k])
  }

  /** Every gated call among the records has its gate; the gates are of different calls, all of them known, and so
  is every call that was requested or decided. */
  ghost predicate AllKnown(own: seq<Entry>, x: Execution)
  {
    && (forall k | 0 <= k < |x.gates| :: Gated(x.calls, x.gates[k].call.id))
    && (forall j, k | 0 <= j < k < |x.gates| :: x.gates[j].call.id != x.gates[k].call.id && x.gates[j].num < x.gates[k].num)
    && (forall e | e in own && IsGatedCall(e.event) :: exists k :: 0 <= k < |x.gates| && OpenedBy(e, x.gates[k]))
    && (forall e, id | e in own && (Asks(e.event, id) || Decides(e.event, id)) :: id in x.calls)
  }

  /** A record that answers no gate leaves what a gate means. */
  lemma {:induction false} MeansStill(own: seq<Entry>, e: Entry, g: Gate)
    requires Means(own, g) && !Asks(e.event, g.call.id) && !Decides(e.event, g.call.id) && !Answered(e.event, g.call.id)
    requires e !in own
    ensures Means(own + [e], g)
  {
    var f :| f in own && OpenedBy(f, g);
    assert f in own + [e];
    hide Asks, Decides, Answered, OpenedBy;
  }

  /** A record that opens a gate. */
  lemma {:induction false} MeansOpened(own: seq<Entry>, e: Entry, g: Gate)
    requires OpenedBy(e, g) && g == Gate(g.call, e.num, None, None, None)
    requires forall f | f in own :: f.num < e.num && !Asks(f.event, g.call.id) && !Decides(f.event, g.call.id)
    ensures Means(own + [e], g)
  {
    assert e in own + [e];
  }

  /** The record the open gate waited for. */
  lemma {:induction false} MeansFilled(own: seq<Entry>, x: Execution, e: Entry)
    requires x.gates != [] && Waiting(x, e.event.kind) && AnswerBody(e.event.kind, e.event.body) && Binds(LastGate(x), e.event.body)
    requires Means(own, LastGate(x)) && e !in own && e.num > LastGate(x).num
    ensures Means(own + [e], Filled(LastGate(x), e))
  {
    var f :| f in own && OpenedBy(f, LastGate(x));
    assert f in own + [e] && e in own + [e];
    hide OpenedBy;
  }

  function Filled(g: Gate, e: Entry): Gate
  {
    match e.event.kind
    case KApprovalRequest => g.(request := Some(e))
    case KApprovalResult => g.(decision := Some(e))
    case _ => g.(receipt := Some(e))
  }

  /** A record opens a gate for a call not known before. */
  ghost predicate Opens(x: Execution, e: Entry, y: Execution)
  {
    && IsGatedCall(e.event) && e.event.body.toolCall.id !in x.calls
    && y.calls == x.calls[e.event.body.toolCall.id := true]
    && y.gates == x.gates + [Gate(e.event.body.toolCall, e.num, None, None, None)]
  }

  /** Or it is what the open gate waited for. */
  ghost predicate Fills(x: Execution, e: Entry, y: Execution)
  {
    && x.gates != [] && Waiting(x, e.event.kind) && AnswerBody(e.event.kind, e.event.body) && Binds(LastGate(x), e.event.body)
    && y.calls == x.calls && y.gates == x.gates[|x.gates| - 1 := Filled(LastGate(x), e)]
  }

  /** Or it leaves the gates alone. */
  ghost predicate Passes(x: Execution, e: Entry, y: Execution)
  {
    && !IsGatedCall(e.event) && y.gates == x.gates
    && (forall id :: !Asks(e.event, id) && !Decides(e.event, id))
    && (forall id | Gated(x.calls, id) :: !Answered(e.event, id))
    && (forall id :: id in x.calls ==> id in y.calls)
    && (forall id :: Gated(x.calls, id) ==> Gated(y.calls, id))
  }

  lemma {:induction false} StepMoves(x: Execution, first: bool, e: Entry, y: Execution)
    requires Step(x, first, e) == Ok(y)
    ensures Opens(x, e, y) || Fills(x, e, y) || Passes(x, e, y)
  {
    ScanAccepts(x, first, e);
    ScanTakes(x, first, e, y);
    hide Step, Binds;
    if IsGatedCall(e.event) {
      assert Opens(x, e, y);
    } else if Waiting(x, e.event.kind) {
      assert Fills(x, e, y);
    } else {
      assert Passes(x, e, y);
    }
  }

  lemma {:induction false} KnownOpens(own: seq<Entry>, x: Execution, e: Entry, y: Execution)
    requires AllKnown(own, x) && Opens(x, e, y) && forall k | 0 <= k < |x.gates| :: x.gates[k].num < e.num
    ensures AllKnown(own + [e], y)
  {
    forall f | f in own + [e] && IsGatedCall(f.event)
      ensures exists k :: 0 <= k < |y.gates| && OpenedBy(f, y.gates[k])
    {
      if f in own {
        var k :| 0 <= k < |x.gates| && OpenedBy(f, x.gates[k]);
        assert y.gates[k] == x.gates[k];
      } else {
        assert OpenedBy(f, y.gates[|x.gates|]);
      }
    }
    hide OpenedBy;
  }

  lemma {:induction false} KnownStays(own: seq<Entry>, x: Execution, e: Entry, y: Execution)
    requires AllKnown(own, x) && (Fills(x, e, y) || Passes(x, e, y))
    ensures AllKnown(own + [e], y)
  {
    assert |y.gates| == |x.gates| && forall k | 0 <= k < |x.gates| :: y.gates[k].call == x.gates[k].call && y.gates[k].num == x.gates[k].num;
    forall f | f in own + [e] && IsGatedCall(f.event)
      ensures exists k :: 0 <= k < |y.gates| && OpenedBy(f, y.gates[k])
    {
      var k :| 0 <= k < |x.gates| && OpenedBy(f, x.gates[k]);
      assert OpenedBy(f, y.gates[k]);
    }
    hide OpenedBy, Binds;
  }

  lemma {:induction false} MeanOpens(own: seq<Entry>, x: Execution, e: Entry, y: Execution)
    requires AllMean(own, x.gates) && AllKnown(own, x) && Opens(x, e, y)
    requires forall f | f in own :: f.num < e.num
    ensures AllMean(own + [e], y.gates)
  {
    assert e !in own;
    MeansOpened(own, e, y.gates[|x.gates|]);
    forall k | 0 <= k < |x.gates|
      ensures Means(own + [e], y.gates[k])
    {
      MeansStill(own, e, x.gates[k]);
    }
    hide Means, AllKnown;
  }

  lemma {:induction false} MeanFills(own: seq<Entry>, x: Execution, e: Entry, y: Execution)
    requires AllMean(own, x.gates) && AllKnown(own, x) && Fills(x, e, y)
    requires forall f | f in own :: f.num < e.num
    ensures AllMean(own + [e], y.gates)
  {
    hide Means, Filled;
    var n := |x.gates| - 1;
    BeforeNext(own, e, x.gates[n]);
    MeansFilled(own, x, e);
    forall k | 0 <= k < n
      ensures Means(own + [e], x.gates[k])
    {
      assert x.gates[k].call.id != LastGate(x).call.id;
      MeansStill(own, e, x.gates[k]);
    }
  }

  lemma {:induction false} MeanPasses(own: seq<Entry>, x: Execution, e: Entry, y: Execution)
    requires AllMean(own, x.gates) && AllKnown(own, x) && Passes(x, e, y)
    requires forall f | f in own :: f.num < e.num
    ensures AllMean(own + [e], y.gates)
  {
    hide Means;
    forall k | 0 <= k < |x.gates|
      ensures Means(own + [e], x.gates[k])
    {
      MeansStill(own, e, x.gates[k]);
    }
  }

  lemma {:induction false} AllBefore(own: seq<Entry>, gates: seq<Gate>, e: Entry)
    requires AllMean(own, gates) && forall f | f in own :: f.num < e.num
    ensures forall k | 0 <= k < |gates| :: gates[k].num < e.num
  {
    hide Means;
    forall k | 0 <= k < |gates|
      ensures gates[k].num < e.num
    {
      BeforeNext(own, e, gates[k]);
    }
  }

  lemma {:induction false} BeforeNext(own: seq<Entry>, e: Entry, g: Gate)
    requires Means(own, g) && forall f | f in own :: f.num < e.num
    ensures g.num < e.num
  {
    var f :| f in own && OpenedBy(f, g);
  }

  lemma {:induction false} FoldMeans(own: seq<Entry>)
    requires Fold(own).Ok? && Ascending(own)
    ensures AllMean(own, Fold(own).value.gates) && AllKnown(own, Fold(own).value)
  {
    hide AllMean, AllKnown, Step, Opens, Fills, Passes;
    if own != [] {
      var init, e := own[..|own| - 1], own[|own| - 1];
      FoldMeans(init);
      assert own == init + [e];
      var x, y := Fold(init).value, Fold(own).value;
      StepMoves(x, |own| == 1, e, y);
      if Opens(x, e, y) {
        AllBefore(init, x.gates, e);
        KnownOpens(init, x, e, y);
        MeanOpens(init, x, e, y);
      } else {
        KnownStays(init, x, e, y);
        if Fills(x, e, y) { MeanFills(init, x, e, y); } else { MeanPasses(init, x, e, y); }
      }
    } else {
      NoneMean();
    }
  }

  lemma {:induction false} NoneMean()
    ensures AllMean([], []) && AllKnown([], FRESH)
  {
  }

  // ---- the marker and the end of an execution ----

  ghost predicate Bounds(own: seq<Entry>, x: Execution)
  {
    && (x.completed <==> exists e | e in own :: e.event.kind == KEnd)
    && (forall e | e in own && e.event.kind == KExecutionStart :: e.event.body.BStart? && x.start == Some(e.event.body.start))
    && (x.start.Some? ==> exists e | e in own :: e.event.kind == KExecutionStart)
  }

  lemma {:induction false} FoldBounds(own: seq<Entry>)
    requires Fold(own).Ok?
    ensures Bounds(own, Fold(own).value)
  {
    if own != [] {
      var init, e := own[..|own| - 1], own[|own| - 1];
      FoldBounds(init);
      var x, y := Fold(init).value, Fold(own).value;
      ScanAccepts(x, |own| == 1, e);
      ScanTakes(x, |own| == 1, e, y);
      hide Step, Fold, Binds, AnswerBody, Waiting;
      assert own == init + [e] && e in own;
      if exists f :: f in own && f.event.kind == KEnd {
        var f :| f in own && f.event.kind == KEnd;
        assert f in init || f == e;
      }
      if x.start.Some? {
        var f :| f in init && f.event.kind == KExecutionStart;
        assert f in own;
      }
      if x.completed {
        var f :| f in init && f.event.kind == KEnd;
        assert f in own;
      }
    }
  }

  // ---- a journal ----

  lemma {:induction false} OwnAre(es: seq<Entry>, id: string)
    requires Contiguous(es)
    ensures forall e :: e in EntriesOf(es, id) <==> e in es && Of(e, id)
    ensures Ascending(EntriesOf(es, id))
  {
    if es != [] {
      var init := es[..|es| - 1];
      OwnAre(init, id);
      OwnEntries(init, id);
      assert es == init + [es[|es| - 1]];
    }
  }

  /** Where the last fork marker is. */
  lemma {:induction false} ForkAfter(es: seq<Entry>, n: nat)
    requires Contiguous(es)
    ensures n < ForkSeq(es) <==> exists e | e in es :: e.num > n && IsFork(e.event)
  {
    if es != [] {
      var init, last := es[..|es| - 1], es[|es| - 1];
      ForkAfter(init, n);
      assert es == init + [last] && last in es;
      if n < ForkSeq(init) {
        var e :| e in init && e.num > n && IsFork(e.event);
        assert e in es;
      }
      if IsFork(last.event) && n >= last.num { assert forall e | e in es :: e.num <= last.num; }
    }
  }

  predicate Within(es: seq<Entry>, id: string, r: Option<Entry>)
  {
    r.Some? ==> r.value in es && r.value.event.executionId == id
  }

  /** The state is that of a gated call in the journal: the records of the execution that request, decide and
  answer it, the execution's start marker, whether it has ended, and whether a fork follows the call. */
  ghost predicate Finds(es: seq<Entry>, st: ApprovalState)
  {
    var id, g := st.executionId, st.gate;
    && id != "" && st.head == |es|
    && (exists e | e in es :: e.event.executionId == id && OpenedBy(e, g))
    && (forall e | e in es && e.event.executionId == id ::
          && (g.request == Some(e) <==> Asks(e.event, g.call.id))
          && (g.decision == Some(e) <==> Decides(e.event, g.call.id))
          && (e.num > g.num ==> (g.receipt == Some(e) <==> Answered(e.event, g.call.id)))
          && (e.event.kind == KExecutionStart ==> e.event.body.BStart? && st.invocation == Some(e.event.body.start)))
    && Within(es, id, g.request) && Within(es, id, g.decision) && Within(es, id, g.receipt)
    && (g.receipt.Some? ==> g.receipt.value.num > g.num)
    && (st.invocation.Some? ==> exists e | e in es :: e.event.executionId == id && e.event.kind == KExecutionStart)
    && (st.completed <==> exists e | e in es :: e.event.executionId == id && e.event.kind == KEnd)
    && (st.inherited <==> exists e | e in es :: e.num > g.num && IsFork(e.event))
  }

  lemma {:induction false} PublishedFinds(es: seq<Entry>, id: string, st: ApprovalState)
    requires Contiguous(es) && Publishes(es, id, st)
    ensures st.executionId == id && Finds(es, st)
  {
    var own := EntriesOf(es, id);
    OwnAre(es, id);
    FoldMeans(own);
    FoldBounds(own);
    hide Fold, EntriesOf, HasGate, ValidateInputs, Asks, Decides, Answered, AllKnown;
    var x := Fold(own).value;
    var k :| 0 <= k < |x.gates| && st == StateOf(id, x, k, Head(es), ForkSeq(es));
    var e :| e in own && OpenedBy(e, x.gates[k]);
    ForkAfter(es, e.num);
    FindsFrom(es, id, own, x, k, st);
  }

  lemma {:induction false} FindsFrom(es: seq<Entry>, id: string, own: seq<Entry>, x: Execution, k: nat, st: ApprovalState)
    requires forall e :: e in own <==> e in es && Of(e, id)
    requires k < |x.gates| && Means(own, x.gates[k]) && Bounds(own, x) && id != "" && Contiguous(es)
    requires st == StateOf(id, x, k, Head(es), ForkSeq(es))
    requires x.gates[k].num < ForkSeq(es) <==> exists e | e in es :: e.num > x.gates[k].num && IsFork(e.event)
    ensures Finds(es, st)
  {
  }

  /** The execution whose first record comes last. */
  ghost predicate StartsLast(es: seq<Entry>, id: string)
  {
    exists k :: 0 <= k < |es| && StartsAt(es, id, k)
  }

  ghost predicate StartsAt(es: seq<Entry>, id: string, k: nat)
    requires k < |es|
  {
    && Of(es[k], id) && (forall j | 0 <= j < k :: !Of(es[j], id))
    && forall m | k < m < |es| && !es[m].event.kind.KLifecycle? :: exists j | 0 <= j <= k :: Of(es[j], es[m].event.executionId)
  }

  lemma {:induction false} SeenIs(es: seq<Entry>, id: string)
    ensures id in Executions(es) <==> exists j | 0 <= j < |es| :: Of(es[j], id)
  {
    if es != [] {
      var init, e := es[..|es| - 1], es[|es| - 1];
      SeenIs(init, id);
      if id in Executions(init) {
        var j :| 0 <= j < |init| && Of(init[j], id);
        assert Of(es[j], id);
      }
      if Of(e, id) { assert Of(es[|es| - 1], id); }
      if exists j :: 0 <= j < |es| && Of(es[j], id) {
        var j :| 0 <= j < |es| && Of(es[j], id);
        assert j < |init| ==> Of(init[j], id);
      }
    }
  }

  lemma {:induction false} LatestStarts(es: seq<Entry>)
    requires Executions(es) != []
    ensures StartsLast(es, Executions(es)[|Executions(es)| - 1])
  {
    var init, e := es[..|es| - 1], es[|es| - 1];
    var id := Executions(es)[|Executions(es)| - 1];
    assert es == init + [e];
    SeenIs(init, e.event.executionId);
    if Executions(es) == Executions(init) {
      LatestStarts(init);
      var k :| 0 <= k < |init| && StartsAt(init, id, k);
      StartsStill(init, e, id, k);
    } else {
      assert StartsAt(es, id, |init|);
    }
  }

  lemma {:induction false} StartsStill(es: seq<Entry>, e: Entry, id: string, k: nat)
    requires k < |es| && StartsAt(es, id, k) && (e.event.kind.KLifecycle? || exists j | 0 <= j < |es| :: Of(es[j], e.event.executionId))
    ensures StartsAt(es + [e], id, k)
  {
    var all := es + [e];
    forall m | k < m < |all| && !all[m].event.kind.KLifecycle?
      ensures exists j | 0 <= j <= k :: Of(all[j], all[m].event.executionId)
    {
      var n := m;
      if m == |es| {
        var j :| 0 <= j < |es| && Of(es[j], e.event.executionId);
        n := j;
      }
      if n <= k {
        assert Of(all[n], all[m].event.executionId);
      } else {
        var j :| 0 <= j <= k && Of(es[j], es[n].event.executionId);
        assert Of(all[j], all[m].event.executionId);
      }
    }
  }

  /** The selected state is that of the last gated call of the execution whose first record comes last. */
  ghost predicate Selects(es: seq<Entry>, states: seq<ApprovalState>, selected: Option<ApprovalState>)
  {
    match selected
    case Some(st) =>
      && st in states && StartsLast(es, st.executionId)
      && forall e | e in es && e.event.executionId == st.executionId && IsGatedCall(e.event) :: e.num <= st.gate.num
    case None =>
      forall e | e in es && IsGatedCall(e.event) :: !StartsLast(es, e.event.executionId)
  }

  lemma {:induction false} StartsOnce(es: seq<Entry>, id: string, id': string)
    requires StartsLast(es, id) && StartsLast(es, id')
    ensures id == id'
  {
    var k :| 0 <= k < |es| && StartsAt(es, id, k);
    var k' :| 0 <= k' < |es| && StartsAt(es, id', k');
    assert Of(es[k], es[k].event.executionId) && Of(es[k'], es[k'].event.executionId);
  }

  lemma {:induction false} OwnGates(es: seq<Entry>, id: string)
    requires Contiguous(es) && ScanOf(es).Ok? && HasGate(EntriesOf(es, id))
    ensures var own := EntriesOf(es, id);
      && id != "" && Fold(own).Ok? && ValidateInputs(Fold(own).value).None? && AllKnown(own, Fold(own).value)
      && forall e :: e in own <==> e in es && Of(e, id)
  {
    hide Fold, EntriesOf, HasGate, ValidateInputs, ScanOf, Rejected, AllMean, AllKnown;
    NotRejected(es, id);
    RejectedMeans(id, EntriesOf(es, id));
    OwnAre(es, id);
    FoldMeans(EntriesOf(es, id));
  }

  /** A gated call of an execution that scans is published. */
  lemma {:induction false} GatedIsPublished(es: seq<Entry>, e: Entry)
    requires Contiguous(es) && ScanOf(es).Ok? && e in es && IsGatedCall(e.event)
    ensures exists st | st in ScanOf(es).value.states :: st.executionId == e.event.executionId && OpenedBy(e, st.gate)
  {
    hide Fold, EntriesOf, HasGate, ValidateInputs, Executions, StatesOf, OpenedBy, Selected, Head, ForkSeq;
    var id := e.event.executionId;
    var own := EntriesOf(es, id);
    GatedHasGate(es, e);
    OwnGates(es, id);
    assert Of(e, id);
    var x := Fold(own).value;
    var k :| 0 <= k < |x.gates| && OpenedBy(e, x.gates[k]);
    hide AllKnown;
    var st := StateOf(id, x, k, Head(es), ForkSeq(es));
    assert Publishes(es, id, st);
    PublishedIsSeen(es, id, st);
    StatesPublish(es, Executions(es), st);
  }

  lemma {:induction false} GatedHasGate(es: seq<Entry>, e: Entry)
    requires e in es && IsGatedCall(e.event)
    ensures HasGate(EntriesOf(es, e.event.executionId)) && EntriesOf(es, e.event.executionId) != []
  {
    var init, last := es[..|es| - 1], es[|es| - 1];
    assert es == init + [last];
    var own := EntriesOf(init, e.event.executionId);
    if e in init { GatedHasGate(init, e); }
    if Of(last, e.event.executionId) { assert (own + [last])[..|own|] == own; }
  }

  lemma {:induction false} PublishedOnce(es: seq<Entry>, id: string, st: ApprovalState, st': ApprovalState)
    requires Contiguous(es) && Publishes(es, id, st) && Publishes(es, id, st') && st.gate.num == st'.gate.num
    ensures st == st'
  {
    OwnAre(es, id);
    FoldMeans(EntriesOf(es, id));
    hide Fold, EntriesOf, HasGate, ValidateInputs, AllMean, Ascending;
  }

  lemma {:induction false} SelectedSelects(es: seq<Entry>)
    requires Contiguous(es) && ScanOf(es).Ok?
    ensures Selects(es, ScanOf(es).value.states, ScanOf(es).value.selected)
  {
    hide EntriesOf, HasGate, ScanOf, StartsLast, Executions, IsGatedCall;
    if ScanOf(es).value.selected.Some? {
      SelectedIsLast(es);
      LatestStarts(es);
    } else {
      forall e | e in es && IsGatedCall(e.event)
        ensures !StartsLast(es, e.event.executionId)
      {
        if StartsLast(es, e.event.executionId) {
          GatedHasGate(es, e);
          SeenExecution(es, e.event.executionId);
          LatestStarts(es);
          StartsOnce(es, e.event.executionId, Executions(es)[|Executions(es)| - 1]);
          GatedIsSelected(es, e);
        }
      }
    }
  }

  lemma {:induction false} SelectedIsLast(es: seq<Entry>)
    requires Contiguous(es) && ScanOf(es).Ok? && ScanOf(es).value.selected.Some?
    ensures var st := ScanOf(es).value.selected.value;
      && Executions(es) != [] && st.executionId == Executions(es)[|Executions(es)| - 1] && st in ScanOf(es).value.states
      && forall e | e in es && e.event.executionId == st.executionId && IsGatedCall(e.event) :: e.num <= st.gate.num
  {
    hide Fold, EntriesOf, HasGate, ValidateInputs, StatesOf, Executions, Selected, Head, ForkSeq;
    SelectedIs(es);
    var id := Executions(es)[|Executions(es)| - 1];
    var st := ScanOf(es).value.selected.value;
    var own := EntriesOf(es, id);
    var x := Fold(own).value;
    OwnGates(es, id);
    forall e | e in es && e.event.executionId == id && IsGatedCall(e.event)
      ensures e.num <= st.gate.num
    {
      assert Of(e, id) && e in own;
      var k :| 0 <= k < |x.gates| && OpenedBy(e, x.gates[k]);
    }
    hide AllKnown;
    assert st == StateOf(id, x, |x.gates| - 1, Head(es), ForkSeq(es));
    assert Publishes(es, id, st);
    StatesPublish(es, Executions(es), st);
  }

  lemma {:induction false} GatedIsSelected(es: seq<Entry>, e: Entry)
    requires Contiguous(es) && ScanOf(es).Ok? && e in es && IsGatedCall(e.event)
    requires Executions(es) != [] && Executions(es)[|Executions(es)| - 1] == e.event.executionId
    ensures ScanOf(es).value.selected.Some?
  {
    var id := e.event.executionId;
    var own := EntriesOf(es, id);
    GatedHasGate(es, e);
    OwnGates(es, id);
    hide Fold, EntriesOf, HasGate, ValidateInputs, StatesOf, Executions, ForkSeq, Head;
    assert Of(e, id) && Fold(own).value.gates != [];
  }

  /** For every journal that scans: the scan publishes one state for each gated call of the journal and no other,
  each is what the journal records of that call, and the selected one is that of the last gated call of the
  latest execution. */
  lemma {:induction false} ScanFinds(es: seq<Entry>)
    requires Contiguous(es) && ScanOf(es).Ok?
    ensures var scan := ScanOf(es).value;
      && scan.head == |es|
      && (forall st | st in scan.states :: Finds(es, st))
      && (forall e | e in es && IsGatedCall(e.event) ::
            exists st | st in scan.states :: st.executionId == e.event.executionId && OpenedBy(e, st.gate))
      && (forall st, st' | st in scan.states && st' in scan.states && st.gate.num == st'.gate.num :: st == st')
      && Selects(es, scan.states, scan.selected)
  {
    var scan := ScanOf(es).value;
    hide EntriesOf, Executions, StatesOf, Publishes, Selects, Finds, OpenedBy, Selected, ForkSeq;
    SelectedSelects(es);
    forall e | e in es && IsGatedCall(e.event)
      ensures exists st | st in scan.states :: st.executionId == e.event.executionId && OpenedBy(e, st.gate)
    {
      GatedIsPublished(es, e);
    }
    forall st | st in scan.states
      ensures Finds(es, st) && Publishes(es, st.executionId, st)
    {
      StatesPublish(es, Executions(es), st);
      var id :| id in Executions(es) && Publishes(es, id, st);
      PublishedFinds(es, id, st);
    }
    forall st, st' | st in scan.states && st' in scan.states && st.gate.num == st'.gate.num
      ensures st == st'
    {
      SameCall(es, st, st');
      PublishedOnce(es, st.executionId, st, st');
    }
  }

  lemma {:induction false} SameCall(es: seq<Entry>, st: ApprovalState, st': ApprovalState)
    requires Contiguous(es) && Finds(es, st) && Finds(es, st') && st.gate.num == st'.gate.num
    ensures st.executionId == st'.executionId
  {
    var e :| e in es && e.event.executionId == st.executionId && OpenedBy(e, st.gate);
    var e' :| e' in es && e'.event.executionId == st'.executionId && OpenedBy(e', st'.gate);
  }

  // ---- what is pending ----

  /** The last gated call of the execution that started last, with the record that requests its approval; nothing
  decides or answers it, and no fork follows it. */
  ghost predicate Awaits(es: seq<Entry>, call: Entry, request: Entry, ref: ApprovalRef)
  {
    && call in es && IsGatedCall(call.event) && call.event.executionId == ref.executionId && call.event.body.toolCall.id == ref.toolCallId
    && request in es && request.event.executionId == ref.executionId && Asks(request.event, ref.toolCallId) && request.num == ref.requestSeq
    && StartsLast(es, ref.executionId)
    && (forall e | e in es && e.event.executionId == ref.executionId ::
          && (IsGatedCall(e.event) ==> e.num <= call.num)
          && !Decides(e.event, ref.toolCallId)
          && (e.num > call.num ==> !Answered(e.event, ref.toolCallId)))
    && (forall e | e in es && IsFork(e.event) :: e.num <= call.num)
  }

  lemma {:induction false} PendingAwaits(es: seq<Entry>)
    requires Contiguous(es) && ScanOf(es).Ok? && Pending(es).Some?
    ensures exists call, request :: Awaits(es, call, request, Pending(es).value)
  {
    hide ScanOf, StartsLast, Finds, IsGatedCall;
    ScanFinds(es);
    StateAwaits(es, ScanOf(es).value.selected.value);
  }

  lemma {:induction false} StateAwaits(es: seq<Entry>, st: ApprovalState)
    requires Finds(es, st) && StartsLast(es, st.executionId)
    requires forall e | e in es && e.event.executionId == st.executionId && IsGatedCall(e.event) :: e.num <= st.gate.num
    requires !st.inherited && st.gate.request.Some? && st.gate.decision.None? && st.gate.receipt.None?
    ensures exists call, request :: Awaits(es, call, request, ApprovalRef(st.executionId, st.gate.call.id, st.gate.request.value.num))
  {
    var call :| call in es && call.event.executionId == st.executionId && OpenedBy(call, st.gate);
    hide StartsLast, Asks, Decides, Answered, IsGatedCall;
    assert Awaits(es, call, st.gate.request.value, ApprovalRef(st.executionId, st.gate.call.id, st.gate.request.value.num));
  }

  lemma {:induction false} AwaitsPending(es: seq<Entry>, call: Entry, request: Entry, ref: ApprovalRef)
    requires Contiguous(es) && ScanOf(es).Ok? && Awaits(es, call, request, ref)
    ensures Pending(es) == Some(ref)
  {
    hide ScanOf, StartsLast, Asks, Decides, Answered, Finds;
    ScanFinds(es);
    var scan := ScanOf(es).value;
    assert scan.selected.Some?;
    var st := scan.selected.value;
    StartsOnce(es, st.executionId, ref.executionId);
    AwaitedState(es, st, call, request, ref);
  }

  lemma {:induction false} AwaitedState(es: seq<Entry>, st: ApprovalState, call: Entry, request: Entry, ref: ApprovalRef)
    requires Contiguous(es) && Finds(es, st) && Awaits(es, call, request, ref) && st.executionId == ref.executionId
    requires call.num <= st.gate.num
    ensures st.gate.call.id == ref.toolCallId && st.gate.request == Some(request)
    ensures !st.inherited && st.gate.decision.None? && st.gate.receipt.None?
  {
    var own :| own in es && own.event.executionId == st.executionId && OpenedBy(own, st.gate);
    assert own.num == call.num && own == call;
    hide Asks, Decides, Answered, StartsLast, OpenedBy, IsGatedCall;
  }

  /** What a scan finds pending, and a listing reports, is exactly what the journal still waits for. */
  lemma {:induction false} PendingIff(es: seq<Entry>, ref: ApprovalRef)
    requires Contiguous(es) && ScanOf(es).Ok?
    ensures Pending(es) == Some(ref) <==> exists call, request :: Awaits(es, call, request, ref)
  {
    hide ScanOf, Pending, Awaits;
    if Pending(es) == Some(ref) { PendingAwaits(es); }
    if exists call, request :: Awaits(es, call, request, ref) {
      var call, request :| Awaits(es, call, request, ref);
      AwaitsPending(es, call, request, ref);
    }
  }
}
