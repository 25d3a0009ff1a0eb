/** Scanning a journal for approval evidence, and deciding a request (controller/approval.go). */
module ApprovalScan {
  import opened Api
  import opened Approval

  // ---- the scan, as it reads the records ----

  lemma {:induction false} FoldFails(es: seq<Entry>, n: nat)
    requires n <= |es| && Fold(es[..n]).Err?
    ensures Fold(es) == Fold(es[..n])
  {
    if n == |es| {
      assert es[..n] == es;
    } else {
      var init := es[..|es| - 1];
      assert init[..n] == es[..n];
      FoldFails(init, n);
    }
  }

  lemma {:induction false} FoldNext(es: seq<Entry>, n: nat)
    requires n < |es| && Fold(es[..n]).Ok?
    ensures Fold(es[..n + 1]) == Step(Fold(es[..n]).value, n == 0, es[n])
  {
    assert es[..n + 1][..n] == es[..n];
  }

  /** Folds the records of one execution and publishes the states of its gated calls. */
  method InspectExecution(id: string, es: seq<Entry>, head: int, fork: int) returns (r: Result<seq<ApprovalState>, ScanError>)
    ensures r == Inspect(id, es, head, fork)
  {
    if id == "" {
      return Err(InvalidLog);
    }
    var x := FRESH;
    assert es[..0] == [];
    for i := 0 to |es|
      invariant Fold(es[..i]) == Ok(x)
    {
      FoldNext(es, i);
      match Step(x, i == 0, es[i]) {
        case Err(e) =>
          FoldFails(es, i + 1);
          return Err(e);
        case Ok(y) =>
          x := y;
      }
    }
    assert es[..|es|] == es;
    match ValidateInputs(x) {
      case Some(e) =>
        return Err(e);
      case None =>
        return Ok(Publish(id, x, head, fork));
    }
  }

  /** The records of one execution as the scan collects them. */
  datatype Collected = Collected(id: string, records: seq<Entry>, gated: bool)

  ghost predicate Groups(es: seq<Entry>, executions: seq<Collected>, byId: map<string, nat>)
  {
    && |executions| == |Executions(es)|
    && (forall k | 0 <= k < |executions| ::
          && executions[k].id == Executions(es)[k]
          && executions[k].records == EntriesOf(es, executions[k].id)
          && executions[k].gated == HasGate(executions[k].records))
    && (forall id :: id in byId <==> id in Executions(es))
    && (forall id | id in byId :: byId[id] < |executions| && executions[byId[id]].id == id)
    && (forall j, k | 0 <= j < k < |executions| :: executions[j].id != executions[k].id)
    && (forall id | id !in Executions(es) :: EntriesOf(es, id) == [])
  }

  lemma {:induction false} EntriesNext(es: seq<Entry>, e: Entry, id: string)
    ensures EntriesOf(es + [e], id) == if Of(e, id) then EntriesOf(es, id) + [e] else EntriesOf(es, id)
  {
    assert (es + [e])[..|es|] == es;
  }

  lemma {:induction false} ScanNext(es: seq<Entry>, e: Entry)
    ensures Executions(es + [e]) ==
      if e.event.kind.KLifecycle? || e.event.executionId in Executions(es) then Executions(es) else Executions(es) + [e.event.executionId]
    ensures ForkSeq(es + [e]) == (if IsFork(e.event) then e.num else ForkSeq(es))
    ensures Head(es + [e]) == e.num
  {
    assert (es + [e])[..|es|] == es;
  }

  lemma {:induction false} HasGateNext(own: seq<Entry>, e: Entry)
    ensures HasGate(own + [e]) == (HasGate(own) || IsGateEvidence(e.event))
  {
    assert (own + [e])[..|own|] == own;
  }

  /** One more record of an execution that was seen before. */
  lemma {:induction false} GroupsOld(es: seq<Entry>, e: Entry, executions: seq<Collected>, byId: map<string, nat>, c: Collected)
    requires Groups(es, executions, byId) && !e.event.kind.KLifecycle? && e.event.executionId in byId
    requires var was := executions[byId[e.event.executionId]];
      c == Collected(e.event.executionId, was.records + [e], was.gated || IsGateEvidence(e.event))
    ensures Groups(es + [e], executions[byId[e.event.executionId] := c], byId)
  {
    hide EntriesOf, Executions, HasGate, IsGateEvidence;
    ScanNext(es, e);
    EntriesNext(es, e, c.id);
    HasGateNext(EntriesOf(es, e.event.executionId), e);
    var k := byId[e.event.executionId];
    var executions' := executions[k := c];
    assert c.records == EntriesOf(es + [e], c.id) && c.gated == HasGate(c.records);
    forall j | 0 <= j < |executions'|
      ensures executions'[j].id == executions[j].id
      ensures executions'[j].records == EntriesOf(es + [e], executions'[j].id)
      ensures executions'[j].gated == HasGate(executions'[j].records)
    {
      if j == k {
        assert executions'[j] == c;
      } else {
        assert executions'[j] == executions[j] && !Of(e, executions[j].id);
        EntriesNext(es, e, executions[j].id);
      }
    }
    UnseenStay(es, e);
  }

  /** The first record of an execution. */
  lemma {:induction false} GroupsNew(es: seq<Entry>, e: Entry, executions: seq<Collected>, byId: map<string, nat>)
    requires Groups(es, executions, byId) && !e.event.kind.KLifecycle? && e.event.executionId !in byId
    ensures Groups(es + [e], executions + [Collected(e.event.executionId, [e], IsGateEvidence(e.event))],
                   byId[e.event.executionId := |executions|])
  {
    hide EntriesOf, Executions, HasGate, IsGateEvidence;
    var id := e.event.executionId;
    var group := Collected(id, [e], IsGateEvidence(e.event));
    var executions' := executions + [group];
    ScanNext(es, e);
    assert id !in Executions(es);
    assert Executions(es + [e]) == Executions(es) + [id];
    FirstRecord(es, e);
    forall k | 0 <= k < |executions'|
      ensures executions'[k].id == Executions(es + [e])[k]
      ensures executions'[k].records == EntriesOf(es + [e], executions'[k].id)
      ensures executions'[k].gated == HasGate(executions'[k].records)
    {
      if k < |executions| {
        assert executions'[k] == executions[k] && executions[k].id in Executions(es);
        EntriesNext(es, e, executions[k].id);
      } else {
        assert executions'[k] == group;
      }
    }
    UnseenStay(es, e);
  }

  lemma {:induction false} FirstRecord(es: seq<Entry>, e: Entry)
    requires EntriesOf(es, e.event.executionId) == []
    ensures Of(e, e.event.executionId) ==> EntriesOf(es + [e], e.event.executionId) == [e]
    ensures HasGate([e]) == IsGateEvidence(e.event)
  {
    NoneHasNoGate();
    HasGateNext([], e);
    assert [] + [e] == [e];
    EntriesNext(es, e, e.event.executionId);
  }

  lemma {:induction false} UnseenStay(es: seq<Entry>, e: Entry)
    requires forall id | id !in Executions(es) :: EntriesOf(es, id) == []
    ensures forall id | id !in Executions(es + [e]) :: EntriesOf(es + [e], id) == []
  {
    hide Executions, EntriesOf;
    ScanNext(es, e);
    forall id | id !in Executions(es + [e])
      ensures EntriesOf(es + [e], id) == []
    {
      EntriesNext(es, e, id);
    }
  }

  /** Collects one record of an execution. */
  method Collect(executions: seq<Collected>, byId: map<string, nat>, e: Entry, ghost es: seq<Entry>)
    returns (executions': seq<Collected>, byId': map<string, nat>)
    requires Groups(es, executions, byId) && !e.event.kind.KLifecycle?
    ensures Groups(es + [e], executions', byId')
  {
    hide Executions, EntriesOf, HasGate;
    executions', byId' := executions, byId;
    var id := e.event.executionId;
    if id !in byId' {
      GroupsNew(es, e, executions, byId);
      byId' := byId'[id := |executions'|];
      executions' := executions' + [Collected(id, [e], IsGateEvidence(e.event))];
    } else {
      var c := executions'[byId'[id]];
      GroupsOld(es, e, executions, byId, Collected(id, c.records + [e], c.gated || IsGateEvidence(e.event)));
      executions' := executions'[byId'[id] := Collected(id, c.records + [e], c.gated || IsGateEvidence(e.event))];
    }
  }

  lemma {:induction false} NoneHasNoGate()
    ensures !HasGate([])
  {
  }

  lemma {:induction false} EntriesPrefix(journal: seq<Entry>, m: nat, id: string)
    requires m <= |journal|
    ensures EntriesOf(journal[..m], id) <= EntriesOf(journal, id)
  {
    if m < |journal| {
      var init := journal[..|journal| - 1];
      assert init[..m] == journal[..m];
      EntriesPrefix(init, m, id);
    } else {
      assert journal[..m] == journal;
    }
  }

  predicate Beyond(e: Entry, through: int)
  {
    through > 0 && e.num > through
  }

  lemma {:induction false} BoundedIs(es: seq<Entry>, through: int, n: nat)
    requires n <= |es| && (n < |es| ==> Beyond(es[n], through))
    requires forall i | 0 <= i < n :: !Beyond(es[i], through)
    ensures Bounded(es, through) == es[..n]
  {
    if n > 0 {
      assert !Beyond(es[0], through);
      BoundedIs(es[1..], through, n - 1);
      assert es[..n] == [es[0]] + es[1..][..n - 1];
    }
  }

  /** Publishes the states of the collected executions, in order. */
  method PublishStates(executions: seq<Collected>, byId: map<string, nat>, head: int, fork: int, ghost es: seq<Entry>)
    returns (r: Result<Scan, ScanError>)
    requires Groups(es, executions, byId) && head == Head(es) && fork == ForkSeq(es)
    ensures r == ScanOf(es)
  {
    hide EntriesOf, HasGate, Inspect, Executions, StatesOf, Groups;
    GroupFacts(es, executions, byId);
    StatesOfNone(es);
    ghost var ids := Executions(es);
    var states: seq<ApprovalState> := [];
    var selected: Option<ApprovalState> := None;
    assert ids[..0] == [];
    for i := 0 to |executions|
      invariant StatesOf(es, ids[..i]) == Ok(states)
      invariant i < |executions| ==> selected == None
      invariant i == |executions| ==> selected == Selected(es)
    {
      var c := executions[i];
      StatesNext(es, ids, i);
      if c.gated {
        var own := InspectExecution(c.id, c.records, head, fork);
        match own {
          case Err(e) =>
            StatesFail(es, ids, i + 1);
            return Err(e);
          case Ok(more) =>
            states := states + more;
            if i == |executions| - 1 && |more| > 0 {
              selected := Some(more[|more| - 1]);
            }
        }
      }
    }
    assert ids[..|ids|] == ids;
    r := Ok(Scan(head, states, selected));
  }

  lemma {:induction false} GroupFacts(es: seq<Entry>, executions: seq<Collected>, byId: map<string, nat>)
    requires Groups(es, executions, byId)
    ensures |executions| == |Executions(es)|
    ensures forall k | 0 <= k < |executions| ::
      && executions[k].id == Executions(es)[k]
      && executions[k].records == EntriesOf(es, executions[k].id)
      && executions[k].gated == HasGate(executions[k].records)
  {
    hide Executions, EntriesOf, HasGate;
  }

  lemma {:induction false} StatesOfNone(es: seq<Entry>)
    ensures StatesOf(es, []) == Ok([])
    ensures Executions(es) == [] ==> Selected(es) == None
  {
  }

  lemma {:induction false} StatesNext(es: seq<Entry>, ids: seq<string>, i: nat)
    requires i < |ids| && StatesOf(es, ids[..i]).Ok?
    ensures StatesOf(es, ids[..i + 1]) ==
      if !HasGate(EntriesOf(es, ids[i])) then StatesOf(es, ids[..i])
      else match Inspect(ids[i], EntriesOf(es, ids[i]), Head(es), ForkSeq(es))
        case Err(e) => Err(e)
        case Ok(own) => Ok(StatesOf(es, ids[..i]).value + own)
  {
    hide HasGate, EntriesOf, Inspect;
    assert ids[..i + 1][..i] == ids[..i];
  }

  lemma {:induction false} StatesFail(es: seq<Entry>, ids: seq<string>, n: nat)
    requires n <= |ids| && StatesOf(es, ids[..n]).Err?
    ensures StatesOf(es, ids) == StatesOf(es, ids[..n])
  {
    if n == |ids| {
      assert ids[..n] == ids;
    } else {
      var init := ids[..|ids| - 1];
      assert init[..n] == ids[..n];
      StatesFail(es, init, n);
    }
  }

  /** Scans a journal up to a cursor, or all of it. */
  method ScanRecords(records: seq<Entry>, through: int) returns (r: Result<Scan, ScanError>)
    ensures r == ScanOf(Bounded(records, through))
  {
    hide Groups;
    var head, fork := 0, 0;
    var executions: seq<Collected>, byId: map<string, nat> := [], map[];
    var n := 0;
    assert Groups(records[..0], executions, byId) by { NothingGrouped(); }
    while n < |records| && !Beyond(records[n], through)
      invariant n <= |records|
      invariant forall i | 0 <= i < n :: !Beyond(records[i], through)
      invariant head == Head(records[..n]) && fork == ForkSeq(records[..n])
      invariant Groups(records[..n], executions, byId)
    {
      var e := records[n];
      assert records[..n + 1] == records[..n] + [e];
      ScanNext(records[..n], e);
      head := e.num;
      if e.event.kind.KLifecycle? {
        if e.event.body.BLifecycle? && e.event.body.lifecycle.kind.Fork? {
          fork := e.num;
        }
        LifecycleGroups(records[..n], e, executions, byId);
      } else {
        executions, byId := Collect(executions, byId, e, records[..n]);
      }
      n := n + 1;
    }
    BoundedIs(records, through, n);
    r := PublishStates(executions, byId, head, fork, records[..n]);
  }

  lemma {:induction false} NothingGrouped()
    ensures Groups([], [], map[])
  {
  }

  lemma {:induction false} LifecycleGroups(es: seq<Entry>, e: Entry, executions: seq<Collected>, byId: map<string, nat>)
    requires Groups(es, executions, byId) && e.event.kind.KLifecycle?
    ensures Groups(es + [e], executions, byId)
  {
    hide EntriesOf, Executions, HasGate;
    ScanNext(es, e);
    forall k | 0 <= k < |executions|
      ensures EntriesOf(es + [e], executions[k].id) == EntriesOf(es, executions[k].id)
    {
      EntriesNext(es, e, executions[k].id);
    }
    UnseenStay(es, e);
  }
}
