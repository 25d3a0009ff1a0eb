/** What the controller makes of a journal before it runs anything, in terms of the records
(controller/executions.go, controller/controller.go, controller/resume.go).

Which journals can be replayed, which execution is recovered, when a new turn is refused, and what recovery does
about a gate first. */
module Readings {
  import opened Api
  import opened Approval
  import opened Evidence
  import opened Projection
  import opened Findings
  import opened Writers
  import opened Invocations
  import opened Controller
  import ApprovalScan

  // ---- one execution ----

  /** Only the first record is a start marker. */
  predicate MarkedFirst(own: seq<Entry>)
  {
    forall i | 0 <= i < |own| && own[i].event.kind == KExecutionStart :: i == 0 && own[i].event.body.BStart?
  }

  predicate HasStart(own: seq<Entry>)
  {
    own != [] && own[0].event.kind == KExecutionStart && own[0].event.body.BStart?
  }

  predicate HasEnd(own: seq<Entry>)
  {
    exists i | 0 <= i < |own| :: own[i].event.kind == KEnd
  }

  /** Where the inputs are. */
  function InputsAt(own: seq<Entry>): set<nat>
  {
    set i: nat | i < |own| && own[i].event.kind == KInput
  }

  predicate AllWorded(own: seq<Entry>)
  {
    forall i | 0 <= i < |own| && own[i].event.kind == KInput :: own[i].event.body.BMessage?
  }

  /** As many inputs as the start marker counts, each with its message. Records without a marker have no count. */
  predicate HasInputs(own: seq<Entry>)
  {
    HasStart(own) ==> own[0].event.body.start.inputCount == Some(|InputsAt(own)|) && AllWorded(own)
  }

  /** A start marker that counts more inputs than are recorded, of an execution that has not ended. */
  predicate LacksInputs(own: seq<Entry>)
  {
    && HasStart(own) && !HasEnd(own) && AllWorded(own) && own[0].event.body.start.inputCount.Some?
    && |InputsAt(own)| < own[0].event.body.start.inputCount.value
  }

  lemma {:induction false} InputsSnoc(own: seq<Entry>, e: Entry)
    ensures |InputsAt(own + [e])| == |InputsAt(own)| + if e.event.kind == KInput then 1 else 0
    ensures AllWorded(own + [e]) <==> AllWorded(own) && (e.event.kind == KInput ==> e.event.body.BMessage?)
    ensures HasEnd(own + [e]) <==> HasEnd(own) || e.event.kind == KEnd
    ensures MarkedFirst(own + [e]) <==>
      MarkedFirst(own) && (e.event.kind == KExecutionStart ==> own == [] && e.event.body.BStart?)
  {
    var all := own + [e];
    assert all[|own|] == e;
    assert InputsAt(all) == InputsAt(own) + if e.event.kind == KInput then {|own|} else {};
    assert forall i | 0 <= i < |own| :: all[i] == own[i];
    if HasEnd(own) {
      var i :| 0 <= i < |own| && own[i].event.kind == KEnd;
      assert all[i].event.kind == KEnd;
    }
  }

  /** What was gathered from the records, once none of them is a misplaced start marker. */
  ghost predicate Reads(own: seq<Entry>, c: Gathering)
  {
    && (c.completed <==> HasEnd(own))
    && c.inputRecords == |InputsAt(own)| >= |c.inputs|
    && (c.inputRecords == |c.inputs| <==> AllWorded(own))
    && c.start == if HasStart(own) then Some(own[0].event.body.start) else None
  }

  lemma {:induction false} TakeReads(own: seq<Entry>, c: Gathering, e: Entry)
    requires Reads(own, c) && Take(c, own == [], e.event).Some?
    ensures Reads(own + [e], Take(c, own == [], e.event).value)
  {
    InputsSnoc(own, e);
    var all := own + [e];
    assert HasStart(all) <==> HasStart(own) || (own == [] && e.event.kind == KExecutionStart);
    assert own != [] ==> all[0] == own[0];
    hide InputsAt, AllWorded, HasEnd, MarkedFirst, HasStart;
  }

  lemma {:induction false} GatheredIs(own: seq<Entry>)
    ensures Gathered(own).Some? <==> MarkedFirst(own)
    ensures Gathered(own).Some? ==> Reads(own, Gathered(own).value)
  {
    hide Gathered, InputsAt, AllWorded, HasEnd, MarkedFirst, HasStart, Reads, Take;
    if own != [] {
      var init, e := own[..|own| - 1], own[|own| - 1];
      assert own == init + [e];
      GatheredIs(init);
      GatheredNext(init, e);
      InputsSnoc(init, e);
      if Gathered(init).Some? {
        TakesMarker(Gathered(init).value, init == [], e.event);
        if Gathered(own).Some? { TakeReads(init, Gathered(init).value, e); }
      }
    } else {
      NoneRead();
    }
  }

  lemma {:induction false} TakesMarker(c: Gathering, first: bool, ev: Event)
    ensures Take(c, first, ev).Some? <==> (ev.kind == KExecutionStart ==> first && ev.body.BStart?)
  {
  }

  lemma {:induction false} NoneRead()
    ensures Gathered([]) == Some(NO_RECORDS) && MarkedFirst([]) && Reads([], NO_RECORDS)
  {
    assert InputsAt([]) == {};
  }

  /** An execution can be neither replayed nor recovered iff it has no identity, a start marker that is not its
  first record, or has ended without the inputs its marker counts. */
  lemma {:induction false} BrokenIff(es: seq<Entry>, id: string)
    ensures var own := EntriesOf(es, id);
      Broken(es, id) <==> id == "" || !MarkedFirst(own) || (HasEnd(own) && !HasInputs(own))
  {
    GatheredIs(EntriesOf(es, id));
    hide EntriesOf, Gathered, InputsAt, AllWorded, HasEnd, MarkedFirst;
  }

  /** Its inputs are in order, or still to come, or wrong. */
  lemma {:induction false} InputErrorIs(own: seq<Entry>)
    requires Gathered(own).Some?
    ensures InputError(Gathered(own).value).None? <==> HasInputs(own)
    ensures InputError(Gathered(own).value) == Some(Incomplete) <==> LacksInputs(own)
  {
    GatheredIs(own);
    hide Gathered, InputsAt, AllWorded, HasEnd, MarkedFirst;
  }

  // ---- what is recovered ----

  /** Recovery has an execution to pick up iff the journal can be read, and the execution that started last has its
  inputs and has not ended. */
  lemma {:induction false} PickableIff(es: seq<Entry>)
    ensures Pickable(es) <==>
      && ScanOf(es).Ok? && (forall id | id in Executions(es) :: !Broken(es, id))
      && exists id :: StartsLast(es, id) && HasInputs(EntriesOf(es, id)) && !HasEnd(EntriesOf(es, id))
  {
    hide EntriesOf, ScanOf, Gathered, HasInputs, HasEnd, InputError, Executions, StartsLast, Broken;
    var id := Latest(es);
    GatheredIs(EntriesOf(es, id));
    if Executions(es) != [] {
      LatestStarts(es);
      if Gathered(EntriesOf(es, id)).Some? { InputErrorIs(EntriesOf(es, id)); }
      if !Broken(es, id) { BrokenIff(es, id); }
      forall other | StartsLast(es, other)
        ensures other == id
      {
        StartsOnce(es, other, id);
      }
      hide Latest;
    } else {
      forall other
        ensures !StartsLast(es, other)
      {
        NoneStarts(es, other);
      }
    }
  }

  lemma {:induction false} NoneStarts(es: seq<Entry>, id: string)
    requires Executions(es) == []
    ensures !StartsLast(es, id)
  {
    SeenIs(es, id);
  }

  // ---- the gate at hand ----

  /** The last gated call of an execution. */
  ghost predicate LastCall(es: seq<Entry>, id: string, call: Entry)
  {
    && call in es && IsGatedCall(call.event) && call.event.executionId == id
    && forall e | e in es && IsGatedCall(e.event) && e.event.executionId == id :: e.num <= call.num
  }

  /** A record of the execution requests the call, decides it, or answers it after it was made. */
  ghost predicate Requested(es: seq<Entry>, call: Entry)
    requires IsGatedCall(call.event)
  {
    exists e | e in es :: e.event.executionId == call.event.executionId && Asks(e.event, call.event.body.toolCall.id)
  }

  ghost predicate WasDecided(es: seq<Entry>, call: Entry)
    requires IsGatedCall(call.event)
  {
    exists e | e in es :: e.event.executionId == call.event.executionId && Decides(e.event, call.event.body.toolCall.id)
  }

  ghost predicate WasAnswered(es: seq<Entry>, call: Entry)
    requires IsGatedCall(call.event)
  {
    exists e | e in es :: e.event.executionId == call.event.executionId && e.num > call.num && Answered(e.event, call.event.body.toolCall.id)
  }

  ghost predicate ForkFollows(es: seq<Entry>, call: Entry)
  {
    exists e | e in es :: e.num > call.num && IsFork(e.event)
  }

  /** The state found for a call says which records there are. */
  lemma {:induction false} FoundState(es: seq<Entry>, st: ApprovalState, call: Entry)
    requires Contiguous(es) && Finds(es, st) && call in es && OpenedBy(call, st.gate)
    ensures call.event.executionId == st.executionId && st.gate.call == call.event.body.toolCall
    ensures st.gate.request.Some? <==> Requested(es, call)
    ensures st.gate.decision.Some? <==> WasDecided(es, call)
    ensures st.gate.receipt.Some? <==> WasAnswered(es, call)
    ensures st.inherited <==> ForkFollows(es, call)
  {
    var own :| own in es && own.event.executionId == st.executionId && OpenedBy(own, st.gate);
    assert own == call;
    hide Asks, Decides, Answered;
  }

  /** When it scans a journal, the state selected of an execution is that of its last gated call, if the execution
  is the one that started last. */
  lemma {:induction false} SelectedCall(es: seq<Entry>, id: string, call: Entry)
    requires Contiguous(es) && ScanOf(es).Ok? && StartsLast(es, id) && LastCall(es, id, call)
    ensures var selected := ScanOf(es).value.selected;
      selected.Some? && Finds(es, selected.value) && OpenedBy(call, selected.value.gate) && selected.value.executionId == id
  {
    hide ScanOf, StartsLast, IsGatedCall, Asks, Decides, Answered;
    ScanFinds(es);
    assert ScanOf(es).value.selected.Some?;
    var st := ScanOf(es).value.selected.value;
    StartsOnce(es, st.executionId, id);
    var own :| own in es && own.event.executionId == st.executionId && OpenedBy(own, st.gate);
    assert IsGatedCall(own.event) by { OpenedIsGated(own, st.gate); }
    assert own.num == call.num && own == call;
  }

  lemma {:induction false} OpenedIsGated(e: Entry, g: Gate)
    requires OpenedBy(e, g)
    ensures IsGatedCall(e.event) && e.num == g.num
  {
  }

  ghost predicate LeftOpen(es: seq<Entry>, id: string, call: Entry)
  {
    LastCall(es, id, call) && !WasAnswered(es, call) && !ForkFollows(es, call)
  }

  /** Any journal that scans refuses a new turn iff the last gated call of the execution that started last has no
  answer and no fork follows it. */
  lemma {:induction false} BlockedMeans(es: seq<Entry>)
    requires Contiguous(es) && ScanOf(es).Ok?
    ensures Blocked(es) <==> exists id, call :: StartsLast(es, id) && LeftOpen(es, id, call)
  {
    hide ScanOf, StartsLast, LastCall, WasAnswered, ForkFollows;
    if Blocked(es) {
      var st := ScanOf(es).value.selected.value;
      var call := CallOfSelected(es);
      assert StartsLast(es, st.executionId) && LeftOpen(es, st.executionId, call);
    }
    if exists id, call :: StartsLast(es, id) && LeftOpen(es, id, call) {
      var id, call :| StartsLast(es, id) && LeftOpen(es, id, call);
      SelectedCall(es, id, call);
      assert call in es by { LastCallIn(es, id, call); }
      FoundState(es, ScanOf(es).value.selected.value, call);
    }
  }

  lemma {:induction false} LastCallIn(es: seq<Entry>, id: string, call: Entry)
    requires LastCall(es, id, call)
    ensures call in es && IsGatedCall(call.event) && call.event.executionId == id
  {
  }

  lemma {:induction false} CallOfSelected(es: seq<Entry>) returns (call: Entry)
    requires Contiguous(es) && ScanOf(es).Ok? && ScanOf(es).value.selected.Some?
    ensures var st := ScanOf(es).value.selected.value;
      && StartsLast(es, st.executionId) && LastCall(es, st.executionId, call)
      && (st.gate.receipt.Some? <==> WasAnswered(es, call)) && (st.inherited <==> ForkFollows(es, call))
  {
    hide ScanOf, StartsLast, Asks, Decides, Answered, WasAnswered, ForkFollows, Requested, WasDecided;
    ScanFinds(es);
    var st := ScanOf(es).value.selected.value;
    assert Finds(es, st);
    var own :| own in es && own.event.executionId == st.executionId && OpenedBy(own, st.gate);
    OpenedIsGated(own, st.gate);
    FoundState(es, st, own);
    hide Finds;
    call := own;
  }

  /** What recovery does first about an execution that started last, by the records of its last gated call. With
  the call answered it goes on. Otherwise an inherited call refuses it, a call without its request has that one
  written, a call without a decision parks, and a decided one is gone on with. */
  lemma {:induction false} GatewayMeans(es: seq<Entry>, id: string, call: Entry)
    requires Contiguous(es) && ScanOf(es).Ok? && StartsLast(es, id) && LastCall(es, id, call)
    ensures ApprovalGateway(es, id) ==
      if WasAnswered(es, call) then Proceeds
      else if ForkFollows(es, call) then Refused
      else if !Requested(es, call) then
        Repairs(Event(id, KApprovalRequest, BApproval(ApprovalRequest(call.event.body.toolCall.id, "")), NO_IDENTITY))
      else if !WasDecided(es, call) then Parks
      else Proceeds
  {
    SelectedCall(es, id, call);
    LastCallIn(es, id, call);
    FoundState(es, ScanOf(es).value.selected.value, call);
    hide ScanOf, StartsLast, LastCall, WasAnswered, ForkFollows, Requested, WasDecided, Finds;
  }

  /** Without a gated call it goes on. */
  lemma {:induction false} UngatedProceeds(es: seq<Entry>, id: string)
    requires Contiguous(es) && ScanOf(es).Ok? && StartsLast(es, id) && forall call :: !LastCall(es, id, call)
    ensures ApprovalGateway(es, id) == Proceeds
  {
    hide ScanOf, StartsLast, LastCall, WasAnswered, ForkFollows;
    if ScanOf(es).value.selected.Some? {
      var call := CallOfSelected(es);
      StartsOnce(es, ScanOf(es).value.selected.value.executionId, id);
    }
  }
}
