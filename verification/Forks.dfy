/** What a fork makes of the approvals it copies (controller/controller.go, controller/approval.go).

The child of a fork repeats the parent's records up to the fork point and then marks the fork. A scan
of it finds the gates of the parent's prefix, each of them inherited. */
module Forks {
  import opened Api
  import opened Approval
  import opened ApprovalScan
  import Deciding
  import EventLog

  /** The state as a fork at this record passes it on. */
  function Passed(st: ApprovalState, at: int): ApprovalState
  {
    st.(head := at, inherited := true)
  }

  function PassedAll(states: seq<ApprovalState>, at: int): (out: seq<ApprovalState>)
    ensures |out| == |states|
  {
    seq(|states|, i requires 0 <= i < |states| => Passed(states[i], at))
  }

  /** The scan of a journal as a fork passes it on. */
  function PassedScan(scan: Result<Scan, ScanError>, at: int): Result<Scan, ScanError>
  {
    match scan
    case Err(e) => Err(e)
    case Ok(s) =>
      Ok(Scan(at, PassedAll(s.states, at), if s.selected.Some? then Some(Passed(s.selected.value, at)) else None))
  }

  lemma {:induction false} InspectPasses(es: seq<Entry>, e: Entry, id: string)
    requires Contiguous(es) && e.num == |es| + 1 && IsFork(e.event)
    ensures EntriesOf(es + [e], id) == EntriesOf(es, id)
    ensures var own := EntriesOf(es, id);
      var was, now := Inspect(id, own, Head(es), ForkSeq(es)), Inspect(id, own, Head(es + [e]), ForkSeq(es + [e]));
      if was.Err? then now == was else now == Ok(PassedAll(was.value, e.num))
  {
    EntriesNext(es, e, id);
    ScanNext(es, e);
    var own := EntriesOf(es, id);
    hide EntriesOf, ForkSeq, Head;
    if id != "" && Fold(own).Ok? && ValidateInputs(Fold(own).value).None? {
      var x := Fold(own).value;
      forall k | 0 <= k < |x.gates|
        ensures x.gates[k].num < e.num
      {
        Deciding.OwnNums(es, id, k);
      }
      hide Fold;
      assert Publish(id, x, Head(es + [e]), ForkSeq(es + [e])) == PassedAll(Publish(id, x, Head(es), ForkSeq(es)), e.num);
    }
  }

  lemma {:induction false} StatesPass(es: seq<Entry>, e: Entry, ids: seq<string>)
    requires Contiguous(es) && e.num == |es| + 1 && IsFork(e.event)
    ensures var was, now := StatesOf(es, ids), StatesOf(es + [e], ids);
      if was.Err? then now == was else now == Ok(PassedAll(was.value, e.num))
  {
    hide Inspect, EntriesOf, HasGate, Head, ForkSeq;
    if ids != [] {
      var init, id := ids[..|ids| - 1], ids[|ids| - 1];
      StatesPass(es, e, init);
      InspectPasses(es, e, id);
      if StatesOf(es, init).Ok? && HasGate(EntriesOf(es, id)) {
        var own := Inspect(id, EntriesOf(es, id), Head(es), ForkSeq(es));
        if own.Ok? {
          var before := StatesOf(es, init).value;
          assert PassedAll(before + own.value, e.num) == PassedAll(before, e.num) + PassedAll(own.value, e.num);
        }
      }
    }
  }

  /** A fork marker changes nothing in what a scan finds, or in why it fails, except that every gate
  found is now inherited. */
  lemma {:induction false} ForkInherits(es: seq<Entry>, e: Entry)
    requires Contiguous(es) && e.num == |es| + 1 && IsFork(e.event)
    ensures ScanOf(es + [e]) == PassedScan(ScanOf(es), e.num)
  {
    hide EntriesOf, Executions, StatesOf, Inspect, HasGate, Head, ForkSeq, Selected, PassedAll, Passed;
    ScanNext(es, e);
    StatesPass(es, e, Executions(es));
    SelectedPasses(es, e);
  }

  lemma {:induction false} SelectedPasses(es: seq<Entry>, e: Entry)
    requires Contiguous(es) && e.num == |es| + 1 && IsFork(e.event)
    ensures Selected(es + [e]) == if Selected(es).Some? then Some(Passed(Selected(es).value, e.num)) else None
  {
    hide EntriesOf, Executions, Inspect, HasGate, Head, ForkSeq;
    ScanNext(es, e);
    var ids := Executions(es);
    if ids != [] {
      var id := ids[|ids| - 1];
      InspectPasses(es, e, id);
      var was := Inspect(id, EntriesOf(es, id), Head(es), ForkSeq(es));
      if was.Ok? && was.value != [] {
        assert PassedAll(was.value, e.num)[|was.value| - 1] == Passed(was.value[|was.value| - 1], e.num);
      }
    }
  }

  /** The journal of the child that a fork of a valid parent leaves, in terms of the parent's: its first
  records are the parent's, number, link, hash and event, and the scan of it is the scan of the parent's
  prefix passed on. */
  lemma {:induction false} ChildInherits(h: EventLog.Hasher, parent: seq<EventLog.Record>, child: seq<EventLog.Record>, atSeq: int, fence: int)
    requires EventLog.Numbered(parent) && EventLog.Numbered(child)
    requires var copy := EventLog.Refenced(EventLog.Upto(parent, atSeq), fence);
      && |child| == |copy| + 1 && child[..|copy|] == copy && child[|copy|].event == EventLog.ForkEvent(atSeq)
    ensures var n := |EventLog.Upto(parent, atSeq)|;
      && n <= |parent| && n < |child|
      && (forall i | 0 <= i < n :: EventLog.SameContent(child[i], parent[i]))
      && ScanOf(EventLog.Entries(child)) == PassedScan(ScanOf(EventLog.Entries(parent[..n])), n + 1)
  {
    EventLog.UptoStops(parent, atSeq);
    var n := |EventLog.Upto(parent, atSeq)|;
    var es := EventLog.Entries(parent[..n]);
    assert EventLog.Upto(parent, atSeq) == parent[..n];
    forall i | 0 <= i < n
      ensures child[i] == parent[i].(fence := fence)
    {
      assert child[i] == child[..n][i];
    }
    assert EventLog.Entries(child) == es + [Entry(n + 1, EventLog.ForkEvent(atSeq))];
    ForkInherits(es, Entry(n + 1, EventLog.ForkEvent(atSeq)));
  }
}
