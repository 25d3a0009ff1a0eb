/** Deciding a requested approval (controller.Approve).

A decision is judged against one scan of the journal. It is committed only while its request is the
pending one; afterwards the same decision is answered with the record that was committed, and any
other one for that request is refused. */
module Deciding {
  import opened Api
  import opened Approval
  import opened Projection
  import opened ApprovalScan
  import EventLog

  datatype ApprovalDecision = ApprovalDecision(
    executionId: string,
    toolCallId: string,
    requestSeq: int,
    approved: bool,
    reason: string,
    identity: Identity)

  /** What is to be done about a decision. */
  datatype Verdict = Corrupt(error: ScanError) | Refuse | Again(record: Entry) | Commit(head: int)

  predicate Addresses(d: ApprovalDecision, st: ApprovalState)
  {
    && st.executionId == d.executionId
    && st.gate.call.id == d.toolCallId
    && st.gate.request.Some?
    && st.gate.request.value.num == d.requestSeq
  }

  function Find(states: seq<ApprovalState>, d: ApprovalDecision): Option<ApprovalState>
  {
    if states == [] then None
    else if Addresses(d, states[0]) then Some(states[0])
    else Find(states[1..], d)
  }

  /** The committed decision says the same. */
  predicate SameDecision(committed: Event, d: ApprovalDecision)
  {
    && committed.body.BApprovalResult?
    && committed.body.decision.approved == d.approved
    && committed.body.decision.reason == d.reason
    && committed.actor == d.identity
  }

  function Judge(es: seq<Entry>, d: ApprovalDecision): Verdict
  {
    if d.executionId == "" || d.toolCallId == "" || d.requestSeq <= 0 then Refuse
    else
      match ScanOf(es)
      case Err(e) => Corrupt(e)
      case Ok(scan) =>
        match Find(scan.states, d)
        case None => Refuse
        case Some(st) =>
          if st.inherited then Refuse
          else if st.gate.decision.Some? then
            if SameDecision(st.gate.decision.value.event, d) then Again(st.gate.decision.value) else Refuse
          else if scan.selected != Some(st) || st.completed || st.gate.receipt.Some? then Refuse
          else Commit(scan.head)
  }

  function DecisionEvent(d: ApprovalDecision): Event
  {
    Event(d.executionId, KApprovalResult, BApprovalResult(ApprovalResult(d.toolCallId, d.approved, d.reason, d.requestSeq)), d.identity)
  }

  // ---- the states of a scan ----

  /** The scan of an execution publishes this state. */
  ghost predicate Publishes(es: seq<Entry>, id: string, st: ApprovalState)
  {
    var own := EntriesOf(es, id);
    && HasGate(own) && id != "" && Fold(own).Ok? && ValidateInputs(Fold(own).value).None?
    && exists k | 0 <= k < |Fold(own).value.gates| ::
      st == StateOf(id, Fold(own).value, k, Head(es), ForkSeq(es))
  }

  function StateOf(id: string, x: Execution, k: nat, head: int, fork: int): ApprovalState
    requires k < |x.gates|
  {
    ApprovalState(id, x.start, x.gates[k], head, x.gates[k].num < fork, x.completed)
  }

  lemma {:induction false} InspectPublishes(es: seq<Entry>, id: string, st: ApprovalState)
    requires HasGate(EntriesOf(es, id)) && Inspect(id, EntriesOf(es, id), Head(es), ForkSeq(es)).Ok?
    ensures st in Inspect(id, EntriesOf(es, id), Head(es), ForkSeq(es)).value <==> Publishes(es, id, st)
  {
    hide HasGate, Fold, EntriesOf, ValidateInputs, Head, ForkSeq;
    var own := EntriesOf(es, id);
    var x := Fold(own).value;
    var states := Inspect(id, own, Head(es), ForkSeq(es)).value;
    assert forall k | 0 <= k < |x.gates| :: states[k] == StateOf(id, x, k, Head(es), ForkSeq(es));
  }

  lemma {:induction false} StatesPublish(es: seq<Entry>, ids: seq<string>, st: ApprovalState)
    requires StatesOf(es, ids).Ok?
    ensures st in StatesOf(es, ids).value <==> exists id :: id in ids && Publishes(es, id, st)
  {
    hide HasGate, EntriesOf, Inspect, Publishes, Head, ForkSeq;
    if ids != [] {
      var init, id := ids[..|ids| - 1], ids[|ids| - 1];
      assert ids == init + [id];
      StatesPublish(es, init, st);
      if HasGate(EntriesOf(es, id)) {
        InspectPublishes(es, id, st);
      } else if Publishes(es, id, st) {
        PublishesGated(es, id, st);
      }
      if st in StatesOf(es, init).value {
        var k :| k in init && Publishes(es, k, st);
        assert k in ids;
      }
    }
  }

  lemma {:induction false} PublishesGated(es: seq<Entry>, id: string, st: ApprovalState)
    requires Publishes(es, id, st)
    ensures HasGate(EntriesOf(es, id)) && st.executionId == id
  {
  }

  /** No two gates of an execution have the same call identity, and all their identities are known. */
  lemma {:induction false} GatesDistinct(own: seq<Entry>)
    requires Fold(own).Ok?
    ensures var x := Fold(own).value;
      && (forall k | 0 <= k < |x.gates| :: x.gates[k].call.id in x.calls)
      && (forall j, k | 0 <= j < k < |x.gates| :: x.gates[j].call.id != x.gates[k].call.id)
  {
    if own != [] {
      GatesDistinct(own[..|own| - 1]);
      StepDistinct(Fold(own[..|own| - 1]).value, |own| == 1, own[|own| - 1], Fold(own).value);
    }
  }

  /** A record leaves the calls of the gates alone and opens at most one gate, for a call not known before. */
  lemma {:induction false} StepCalls(x: Execution, first: bool, e: Entry, y: Execution)
    requires Step(x, first, e) == Ok(y)
    ensures |x.gates| <= |y.gates| <= |x.gates| + 1
    ensures forall k | 0 <= k < |x.gates| :: y.gates[k].call == x.gates[k].call
    ensures forall id | id in x.calls :: id in y.calls
    ensures |y.gates| > |x.gates| ==> var id := y.gates[|x.gates|].call.id; id !in x.calls && id in y.calls
  {
    hide Step;
    StepGates(x, first, e, y);
  }

  lemma {:induction false} StepDistinct(x: Execution, first: bool, e: Entry, y: Execution)
    requires Step(x, first, e) == Ok(y)
    requires forall k | 0 <= k < |x.gates| :: x.gates[k].call.id in x.calls
    requires forall j, k | 0 <= j < k < |x.gates| :: x.gates[j].call.id != x.gates[k].call.id
    ensures forall k | 0 <= k < |y.gates| :: y.gates[k].call.id in y.calls
    ensures forall j, k | 0 <= j < k < |y.gates| :: y.gates[j].call.id != y.gates[k].call.id
  {
    hide Step;
    StepCalls(x, first, e, y);
  }

  /** A request addresses at most one published state. */
  lemma {:induction false} AddressedOnce(es: seq<Entry>, d: ApprovalDecision, st: ApprovalState, st': ApprovalState)
    requires Publishes(es, d.executionId, st) && Publishes(es, d.executionId, st')
    requires Addresses(d, st) && Addresses(d, st')
    ensures st == st'
  {
    hide Fold, EntriesOf, HasGate, ValidateInputs;
    GatesDistinct(EntriesOf(es, d.executionId));
  }

  lemma {:induction false} FindFinds(states: seq<ApprovalState>, d: ApprovalDecision)
    ensures Find(states, d).Some? ==> Find(states, d).value in states && Addresses(d, Find(states, d).value)
    ensures Find(states, d).None? ==> forall st | st in states :: !Addresses(d, st)
  {
    if states != [] {
      FindFinds(states[1..], d);
      assert states == [states[0]] + states[1..];
    }
  }

  /** What a scan finds for a decision is the published state it addresses, if there is one. */
  lemma {:induction false} FindIs(es: seq<Entry>, d: ApprovalDecision, st: ApprovalState)
    requires ScanOf(es).Ok? && Addresses(d, st)
    ensures Find(ScanOf(es).value.states, d) == Some(st) <==> Publishes(es, d.executionId, st)
  {
    hide Publishes, Find, Fold, EntriesOf, HasGate, Executions, Addresses, StatesOf;
    var states := ScanOf(es).value.states;
    FindFinds(states, d);
    StatesPublish(es, Executions(es), st);
    if Find(states, d) == Some(st) {
      var id :| id in Executions(es) && Publishes(es, id, st);
      PublishesGated(es, id, st);
      AddressesSame(d, st);
    }
    if Publishes(es, d.executionId, st) {
      PublishedIsSeen(es, d.executionId, st);
      assert st in states;
      var found := Find(states, d).value;
      StatesPublish(es, Executions(es), found);
      var id :| id in Executions(es) && Publishes(es, id, found);
      PublishesGated(es, id, found);
      AddressesSame(d, found);
      AddressedOnce(es, d, st, found);
    }
  }

  lemma {:induction false} AddressesSame(d: ApprovalDecision, st: ApprovalState)
    requires Addresses(d, st)
    ensures st.executionId == d.executionId
  {
  }

  lemma {:induction false} PublishedIsSeen(es: seq<Entry>, id: string, st: ApprovalState)
    requires Publishes(es, id, st)
    ensures id in Executions(es)
  {
    hide Fold, EntriesOf, ValidateInputs;
    SeenExecution(es, id);
    assert !HasGate([]);
  }

  // ---- evidence grows, and is never taken back ----

  /** Records that answer a gate stay what they are. */
  predicate Keeps(before: Option<Entry>, after: Option<Entry>)
  {
    before.Some? ==> after == before
  }

  predicate GateKeeps(g: Gate, g': Gate)
  {
    g'.call == g.call && g'.num == g.num && Keeps(g.request, g'.request) && Keeps(g.decision, g'.decision) && Keeps(g.receipt, g'.receipt)
  }

  ghost predicate GatesKeep(gs: seq<Gate>, gs': seq<Gate>)
  {
    |gs| <= |gs'| && forall k | 0 <= k < |gs| :: GateKeeps(gs[k], gs'[k])
  }

  lemma {:induction false} StepKeepsGates(x: Execution, first: bool, e: Entry, y: Execution)
    requires Step(x, first, e) == Ok(y)
    ensures GatesKeep(x.gates, y.gates)
  {
    hide Step;
    StepGates(x, first, e, y);
  }

  lemma {:induction false} KeepsTwice(a: seq<Gate>, b: seq<Gate>, c: seq<Gate>)
    requires GatesKeep(a, b) && GatesKeep(b, c)
    ensures GatesKeep(a, c)
  {
    forall k | 0 <= k < |a|
      ensures GateKeeps(a[k], c[k])
    {
      assert GateKeeps(a[k], b[k]) && GateKeeps(b[k], c[k]);
    }
  }

  lemma {:induction false} ScanKeepsGates(own: seq<Entry>, n: nat)
    requires n <= |own| && Fold(own).Ok?
    ensures Fold(own[..n]).Ok? && GatesKeep(Fold(own[..n]).value.gates, Fold(own).value.gates)
    ensures HasGate(own[..n]) ==> HasGate(own)
  {
    if n == |own| {
      assert own[..n] == own;
    } else {
      var init := own[..|own| - 1];
      assert init[..n] == own[..n];
      ScanKeepsGates(init, n);
      StepKeepsGates(Fold(init).value, |own| == 1, own[|own| - 1], Fold(own).value);
      KeepsTwice(Fold(own[..n]).value.gates, Fold(init).value.gates, Fold(own).value.gates);
    }
  }

  lemma {:induction false} NotRejected(es: seq<Entry>, id: string)
    requires ScanOf(es).Ok?
    ensures !Rejected(id, EntriesOf(es, id))
  {
    hide EntriesOf, StatesOf, Executions;
    StatesIffNoneRejected(es, Executions(es));
    SeenExecution(es, id);
    if id !in Executions(es) { assert !HasGate(EntriesOf(es, id)); }
  }

  /** The published state of a gate of an execution. */
  lemma {:induction false} GateIsPublished(es: seq<Entry>, id: string, k: nat)
    requires ScanOf(es).Ok? && HasGate(EntriesOf(es, id))
    requires Fold(EntriesOf(es, id)).Ok? && k < |Fold(EntriesOf(es, id)).value.gates|
    ensures Publishes(es, id, StateOf(id, Fold(EntriesOf(es, id)).value, k, Head(es), ForkSeq(es)))
  {
    hide EntriesOf, StatesOf, Executions, HasGate, Fold;
    NotRejected(es, id);
    RejectedMeans(id, EntriesOf(es, id));
  }

  /** A gate that has its request and its decision: the very same decision is answered with that record,
  unless the gate was inherited; any other decision for the request is refused. */
  lemma {:induction false} DecidedVerdict(es: seq<Entry>, d: ApprovalDecision, k: nat)
    requires ScanOf(es).Ok? && HasGate(EntriesOf(es, d.executionId)) && d.executionId != "" && d.toolCallId != "" && d.requestSeq > 0
    requires Fold(EntriesOf(es, d.executionId)).Ok? && k < |Fold(EntriesOf(es, d.executionId)).value.gates|
    requires var g := Fold(EntriesOf(es, d.executionId)).value.gates[k];
      g.call.id == d.toolCallId && g.request.Some? && g.request.value.num == d.requestSeq && g.decision.Some?
    ensures var g := Fold(EntriesOf(es, d.executionId)).value.gates[k];
      Judge(es, d) == if g.num >= ForkSeq(es) && SameDecision(g.decision.value.event, d) then Again(g.decision.value) else Refuse
  {
    hide EntriesOf, StatesOf, Executions, HasGate, Fold, Find, Publishes;
    GateIsPublished(es, d.executionId, k);
    FindIs(es, d, StateOf(d.executionId, Fold(EntriesOf(es, d.executionId)).value, k, Head(es), ForkSeq(es)));
  }

  // ---- committing a decision ----

  /** What a committed decision meets: the last gate of the latest execution, requested and unanswered. */
  ghost predicate Awaits(es: seq<Entry>, d: ApprovalDecision)
  {
    var own := EntriesOf(es, d.executionId);
    && ScanOf(es).Ok? && HasGate(own) && Fold(own).Ok? && IsOpen(Fold(own).value)
    && var g := LastGate(Fold(own).value);
       && g.call.id == d.toolCallId && g.num >= ForkSeq(es)
       && g.request.Some? && g.request.value.num == d.requestSeq && g.decision.None?
  }

  lemma {:induction false} SelectedIs(es: seq<Entry>)
    requires ScanOf(es).Ok? && ScanOf(es).value.selected.Some?
    ensures Executions(es) != []
    ensures var id := Executions(es)[|Executions(es)| - 1];
      var own := EntriesOf(es, id);
      && HasGate(own) && Fold(own).Ok? && Fold(own).value.gates != []
      && ScanOf(es).value.selected.value == StateOf(id, Fold(own).value, |Fold(own).value.gates| - 1, Head(es), ForkSeq(es))
  {
    hide EntriesOf, StatesOf, HasGate, Fold, ForkSeq, Head, Executions, ValidateInputs;
  }

  lemma {:induction false} CommitAwaits(es: seq<Entry>, d: ApprovalDecision)
    requires Judge(es, d).Commit?
    ensures Awaits(es, d) && Judge(es, d) == Commit(Head(es))
    ensures Executions(es) != [] && d.executionId == Executions(es)[|Executions(es)| - 1]
  {
    hide EntriesOf, StatesOf, HasGate, Fold, Executions;
    FindFinds(ScanOf(es).value.states, d);
    SelectedIs(es);
  }

  /** A committed decision keeps the scan valid, and is final: it is answered again from now on. */
  lemma {:induction false} CommitDecides(es: seq<Entry>, d: ApprovalDecision)
    requires Contiguous(es) && Judge(es, d).Commit?
    ensures var e := Entry(Head(es) + 1, DecisionEvent(d));
      && ScanOf(es + [e]).Ok?
      && Judge(es + [e], d) == Again(e)
  {
    hide EntriesOf, StatesOf, HasGate, Fold, Executions, Rejected;
    CommitAwaits(es, d);
    var e, id := Entry(Head(es) + 1, DecisionEvent(d)), d.executionId;
    var own := EntriesOf(es, id);
    var x := Fold(own).value;
    EntriesNext(es, e, id);
    FoldSnoc(own, e);
    assert Fold(own + [e]) == Ok(WithLast(x, LastGate(x).(decision := Some(e))));
    NotRejected(es, id);
    HasGateNext(own, e);
    StaysValid(id, own, e);
    StillScans(es, e);
    ScanNext(es, e);
    assert LastGate(WithLast(x, LastGate(x).(decision := Some(e)))).call == LastGate(x).call;
    DecidedVerdict(es + [e], d, |x.gates| - 1);
  }

  /** A record that only fills in the open gate leaves its execution valid. */
  lemma {:induction false} StaysValid(id: string, own: seq<Entry>, e: Entry)
    requires !Rejected(id, own) && HasGate(own) && Fold(own).Ok? && Fold(own + [e]).Ok?
    requires var x, y := Fold(own).value, Fold(own + [e]).value;
      y.start == x.start && y.inputs == x.inputs && y.inputRecords == x.inputRecords && y.completed == x.completed
    ensures !Rejected(id, own + [e])
  {
    hide HasGate, Fold;
  }

  /** A record that keeps its execution valid keeps the whole scan valid. */
  lemma {:induction false} StillScans(es: seq<Entry>, e: Entry)
    requires ScanOf(es).Ok? && !e.event.kind.KLifecycle?
    requires !Rejected(e.event.executionId, EntriesOf(es, e.event.executionId) + [e])
    ensures ScanOf(es + [e]).Ok?
  {
    hide EntriesOf, StatesOf, Executions, Rejected;
    StatesIffNoneRejected(es + [e], Executions(es + [e]));
    forall id | id in Executions(es + [e])
      ensures !Rejected(id, EntriesOf(es + [e], id))
    {
      EntriesNext(es, e, id);
      NotRejected(es, id);
    }
  }

  /** Only a request that a scan finds pending can be decided, and any decision of it can. */
  lemma {:induction false} CommitIffPending(es: seq<Entry>, d: ApprovalDecision)
    requires Contiguous(es) && d.executionId != "" && d.toolCallId != "" && d.requestSeq > 0
    ensures Judge(es, d).Commit? <==> Pending(es) == Some(ApprovalRef(d.executionId, d.toolCallId, d.requestSeq))
  {
    hide EntriesOf, StatesOf, HasGate, Fold, Executions, Rejected, ForkSeq, Find, Publishes;
    if Judge(es, d).Commit? {
      CommitAwaits(es, d);
      NotRejected(es, d.executionId);
      RejectedMeans(d.executionId, EntriesOf(es, d.executionId));
      SelectedPending(es);
    }
    if Pending(es) == Some(ApprovalRef(d.executionId, d.toolCallId, d.requestSeq)) {
      SelectedIs(es);
      var own := EntriesOf(es, d.executionId);
      var k := |Fold(own).value.gates| - 1;
      GateIsPublished(es, d.executionId, k);
      FindIs(es, d, StateOf(d.executionId, Fold(own).value, k, Head(es), ForkSeq(es)));
      OpenIsRunning(own);
    }
  }

  /** An execution with an open gate has not ended. */
  lemma {:induction false} OpenIsRunning(own: seq<Entry>)
    requires Fold(own).Ok? && IsOpen(Fold(own).value)
    ensures !Fold(own).value.completed
  {
    if own != [] {
      var x := Fold(own[..|own| - 1]).value;
      if IsOpen(x) { OpenIsRunning(own[..|own| - 1]); }
    }
  }

  lemma {:induction false} ForkLater(es: seq<Entry>, n: nat)
    requires Contiguous(es) && n <= |es|
    ensures ForkSeq(es) == ForkSeq(es[..n]) || ForkSeq(es) > n
  {
    if n < |es| {
      assert es[..|es| - 1][..n] == es[..n];
      ForkLater(es[..|es| - 1], n);
    } else {
      assert es[..n] == es;
    }
  }

  /** Once a decision is committed, the journal may go on in any way the scan accepts: the same decision
  is answered with the record that was committed, unless the journal was forked since, and every other
  decision of that request is refused. So a request gets at most one decision. */
  lemma {:induction false} DecisionIsFinal(es: seq<Entry>, d: ApprovalDecision, later: seq<Entry>, d': ApprovalDecision)
    requires Contiguous(es) && Judge(es, d).Commit?
    requires es + [Entry(Head(es) + 1, DecisionEvent(d))] <= later && Contiguous(later) && ScanOf(later).Ok?
    requires d'.executionId == d.executionId && d'.toolCallId == d.toolCallId && d'.requestSeq == d.requestSeq
    ensures Judge(later, d') ==
      if d' == d && ForkSeq(later) == ForkSeq(es) then Again(Entry(Head(es) + 1, DecisionEvent(d))) else Refuse
  {
    hide EntriesOf, StatesOf, HasGate, Fold, Executions, Rejected, ForkSeq, Find, Publishes;
    CommitAwaits(es, d);
    var e, id := Entry(Head(es) + 1, DecisionEvent(d)), d.executionId;
    var own, n := EntriesOf(es, id), |es| + 1;
    var x := Fold(own).value;
    var k := |x.gates| - 1;
    EntriesNext(es, e, id);
    FoldSnoc(own, e);
    assert Fold(own + [e]) == Ok(WithLast(x, LastGate(x).(decision := Some(e))));
    assert later[..n] == es + [e];
    EntriesPrefix(later, n, id);
    var now := EntriesOf(later, id);
    assert now[..|own| + 1] == own + [e];
    NotRejected(later, id);
    HasGateNext(own, e);
    GrownGate(id, own + [e], now, k);
    JudgedHere(es, d);
    DecidedVerdict(later, d', k);
    ForkLater(later, |es|);
    assert later[..|es|] == es;
    OwnedAfterFork(es, id, LastGate(x));
    OwnNums(es, id, k);
  }

  lemma {:induction false} JudgedHere(es: seq<Entry>, d: ApprovalDecision)
    requires Judge(es, d).Commit?
    ensures d.executionId != "" && d.toolCallId != "" && d.requestSeq > 0
  {
  }

  lemma {:induction false} OwnNums(es: seq<Entry>, id: string, k: nat)
    requires Contiguous(es) && Fold(EntriesOf(es, id)).Ok? && k < |Fold(EntriesOf(es, id)).value.gates|
    ensures Fold(EntriesOf(es, id)).value.gates[k].num <= |es|
  {
    hide EntriesOf, Fold;
    GatesFrom(EntriesOf(es, id));
    OwnEntries(es, id);
    var g := Fold(EntriesOf(es, id)).value.gates[k];
    assert g in Fold(EntriesOf(es, id)).value.gates;
    var e :| e in EntriesOf(es, id) && Opens(e, g);
  }

  lemma {:induction false} GrownGate(id: string, own: seq<Entry>, now: seq<Entry>, k: nat)
    requires own <= now && HasGate(own) && Fold(own).Ok? && k < |Fold(own).value.gates|
    requires !Rejected(id, now)
    ensures HasGate(now) && Fold(now).Ok? && k < |Fold(now).value.gates| && GateKeeps(Fold(own).value.gates[k], Fold(now).value.gates[k])
  {
    hide HasGate, Fold;
    assert now[..|own|] == own;
    GateStays(now, |own|);
    RejectedMeans(id, now);
    ScanKeepsGates(now, |own|);
  }

  lemma {:induction false} GateStays(own: seq<Entry>, n: nat)
    requires n <= |own| && HasGate(own[..n])
    ensures HasGate(own)
  {
    if n < |own| {
      assert own[..|own| - 1][..n] == own[..n];
      GateStays(own[..|own| - 1], n);
    } else {
      assert own[..n] == own;
    }
  }

  // ---- the operation ----

  datatype ApproveError = NotDecidable | BadLog(scan: ScanError) | NotAppended(append: EventLog.LogError)

  /** The record with an entry's sequence number. */
  method RecordOf(records: seq<EventLog.Record>, e: Entry) returns (r: EventLog.Record)
    requires EventLog.Numbered(records) && e in EventLog.Entries(records)
    ensures r in records && Entry(r.num, r.event) == e
  {
    r := records[e.num - 1];
  }

  lemma {:induction false} ScanHead(es: seq<Entry>)
    requires ScanOf(es).Ok?
    ensures ScanOf(es).value.head == Head(es)
  {
  }

  lemma {:induction false} FindNext(states: seq<ApprovalState>, d: ApprovalDecision)
    ensures Find(states, d) ==
      if states == [] then None else if Addresses(d, states[0]) then Some(states[0]) else Find(states[1..], d)
  {
  }

  /** Commits a decision of the pending request. Neither a refusal nor a retry writes anything or mints
  a fence. */
  method Approve(log: EventLog.Log, d: ApprovalDecision) returns (r: Result<EventLog.Record, ApproveError>)
    requires EventLog.Numbered(log.records)
    modifies log
    ensures var verdict := Judge(old(EventLog.Entries(log.records)), d);
      && (verdict.Corrupt? ==> r == Err(BadLog(verdict.error)))
      && (verdict.Refuse? ==> r == Err(NotDecidable))
      && (verdict.Again? ==> r.Ok? && r.value in old(log.records) && Entry(r.value.num, r.value.event) == verdict.record)
      && (verdict.Commit? ==>
            if r.Err? then r == Err(NotAppended(EventLog.Encoding))
            else r.value.fence == log.fence && Entry(r.value.num, r.value.event) == Entry(verdict.head + 1, DecisionEvent(d)))
    ensures var commits := Judge(old(EventLog.Entries(log.records)), d).Commit?;
      && log.fence == old(log.fence) + (if commits then 1 else 0)
      && log.records == old(log.records) + (if commits && r.Ok? then [r.value] else [])
  {
    hide ScanOf, Bounded, Find, SameDecision, Addresses, EventLog.From';
    if d.executionId == "" || d.toolCallId == "" || d.requestSeq <= 0 {
      return Err(NotDecidable);
    }
    var records := log.Read(1);
    var es := EventLog.Entries(records);
    BoundedIs(es, 0, |es|);
    assert es[..|es|] == es;
    var scanned := ScanRecords(es, 0);
    if scanned.Err? {
      return Err(BadLog(scanned.error));
    }
    var scan := scanned.value;
    var i := 0;
    while i < |scan.states| && !Addresses(d, scan.states[i])
      invariant i <= |scan.states| && unchanged(log)
      invariant Find(scan.states, d) == Find(scan.states[i..], d)
    {
      FindNext(scan.states[i..], d);
      i := i + 1;
    }
    FindNext(scan.states[i..], d);
    if i == |scan.states| || scan.states[i].inherited {
      return Err(NotDecidable);
    }
    var target := scan.states[i];
    assert Find(scan.states, d) == Some(target);
    if target.gate.decision.Some? {
      if !SameDecision(target.gate.decision.value.event, d) {
        return Err(NotDecidable);
      }
      StateInLog(es, d, target);
      var record := RecordOf(records, target.gate.decision.value);
      return Ok(record);
    }
    if scan.selected != Some(target) || target.completed || target.gate.receipt.Some? {
      return Err(NotDecidable);
    }
    ScanHead(es);
    var fence := log.NewFence();
    var a := log.Append(scan.head, fence, DecisionEvent(d));
    match a {
      case Err(e) => return Err(NotAppended(e));
      case Ok(record) => return Ok(record);
    }
  }

  lemma {:induction false} DecisionsFrom(own: seq<Entry>)
    requires Fold(own).Ok?
    ensures forall g | g in Fold(own).value.gates && g.decision.Some? :: g.decision.value in own
  {
    if own != [] {
      var init := own[..|own| - 1];
      DecisionsFrom(init);
      assert forall e | e in init :: e in own;
      DecisionOrigin(Fold(init).value, |own| == 1, own[|own| - 1], Fold(own).value);
      assert own[|own| - 1] in own;
    }
  }

  lemma {:induction false} DecisionOrigin(x: Execution, first: bool, e: Entry, y: Execution)
    requires Step(x, first, e) == Ok(y)
    ensures forall g | g in y.gates && g.decision.Some? :: g.decision.value == e || exists g' :: g' in x.gates && g'.decision == g.decision
  {
    hide Step;
    StepGates(x, first, e, y);
    forall g | g in y.gates && g.decision.Some?
      ensures g.decision.value == e || exists g' :: g' in x.gates && g'.decision == g.decision
    {
      var k :| 0 <= k < |y.gates| && y.gates[k] == g;
      if k < |x.gates| { assert x.gates[k] in x.gates; }
    }
  }

  lemma {:induction false} EntriesInLog(es: seq<Entry>, id: string)
    ensures forall e | e in EntriesOf(es, id) :: e in es
  {
    if es != [] { EntriesInLog(es[..|es| - 1], id); }
  }

  /** The decision of a state a scan found is a record of the journal. */
  lemma {:induction false} StateInLog(es: seq<Entry>, d: ApprovalDecision, st: ApprovalState)
    requires ScanOf(es).Ok? && Find(ScanOf(es).value.states, d) == Some(st) && st.gate.decision.Some?
    ensures st.gate.decision.value in es
  {
    hide EntriesOf, StatesOf, Executions, HasGate, Fold, Find;
    FindFinds(ScanOf(es).value.states, d);
    FindIs(es, d, st);
    DecisionsFrom(EntriesOf(es, d.executionId));
    EntriesInLog(es, d.executionId);
  }
}
