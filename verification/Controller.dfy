/** The controller (controller/controller.go, controller/resume.go): one journal, written live by Exec,
served back by Replay, and served and extended by Resume. */
module Controller {
  import opened Api
  import opened Approval
  import opened Sinks
  import opened Matching
  import opened SinkObjects
  import opened Parking
  import opened Evidence
  import opened Runs
  import opened Upkeep
  import opened ApprovalScan
  import opened Projection
  import opened Deciding
  import opened Writers
  import opened Invocations
  import opened Inherited
  import opened Owned
  import opened Traces
  import Alike
  import Recovery
  import Replays

  // ---- a live turn is a recovery of nothing ----

  /** How far a live turn got. */
  datatype LiveEnding = LiveEnding(seen: seq<Seen>, sink: Live, finish: Option<Finish>)

  function LiveRun(h: Host, har: Harness, envs: nat -> Env, s: Live, seen: seq<Seen>, budget: nat): LiveEnding
    decreases budget
  {
    match har(seen)
    case Return(f) => LiveEnding(seen, s, Some(f))
    case Emit(op) =>
      if budget == 0 then LiveEnding(seen, s, None)
      else
        var r := LiveStep(h, s, op, envs(|seen|));
        LiveRun(h, har, envs, r.0, seen + [See(r.1)], budget - 1)
  }

  const NOTHING_RECORDED := Recording([], map[])

  /** An operation on the live sink does what it does on a resume sink that has nothing to serve. */
  lemma {:induction false} LiveIsResume(h: Host, s: Live, op: Op, env: Env)
    ensures var live, resumed := LiveStep(h, s, op, env), ResumeStep(h, NOTHING_RECORDED, Resuming(s, 0, None), op, env);
      resumed.0 == Resuming(live.0, 0, None) && See(resumed.1) == See(live.1)
  {
    hide LiveModel, LiveOutput, LiveAccount, ParkCall, ExecCall;
  }

  /** A turn that Exec runs is a recovery with nothing recorded. */
  lemma {:induction false} LiveRunIsResumeRun(h: Host, har: Harness, envs: nat -> Env, s: Live, seen: seq<Seen>, budget: nat)
    ensures var e := LiveRun(h, har, envs, s, seen, budget);
      ResumeRun(h, NOTHING_RECORDED, har, envs, Resuming(s, 0, None), seen, budget) == Ending(e.seen, Resuming(e.sink, 0, None), e.finish)
    decreases budget
  {
    hide LiveStep, ResumeStep;
    match har(seen)
    case Return(_) =>
    case Emit(op) =>
      if budget > 0 {
        LiveIsResume(h, s, op, envs(|seen|));
        var r := LiveStep(h, s, op, envs(|seen|));
        LiveRunIsResumeRun(h, har, envs, r.0, seen + [See(r.1)], budget - 1);
      }
  }

  // ---- running a harness on a sink ----

  method RunLive(sink: LiveSink, har: Harness, envs: nat -> Env, budget: nat) returns (seen: seq<Seen>, finish: Option<Finish>)
    modifies sink
    ensures LiveEnding(seen, sink.State(), finish) == LiveRun(sink.host, har, envs, old(sink.State()), [], budget)
  {
    hide LiveStep;
    seen, finish := [], None;
    var left: nat := budget;
    while true
      invariant left <= budget
      invariant LiveRun(sink.host, har, envs, old(sink.State()), [], budget) == LiveRun(sink.host, har, envs, sink.State(), seen, left)
      decreases left
    {
      match har(seen) {
        case Return(f) =>
          return seen, Some(f);
        case Emit(op) =>
          if left == 0 {
            return seen, None;
          }
          var a := sink.Do(op, envs(|seen|));
          seen := seen + [See(a)];
          left := left - 1;
      }
    }
  }

  method RunResumed(sink: ResumeSink, har: Harness, envs: nat -> Env, budget: nat) returns (seen: seq<Seen>, finish: Option<Finish>)
    modifies sink, sink.live
    ensures Ending(seen, sink.State(), finish) == ResumeRun(sink.live.host, sink.rec, har, envs, old(sink.State()), [], budget)
  {
    hide ResumeStep;
    seen, finish := [], None;
    var left: nat := budget;
    while true
      invariant left <= budget
      invariant ResumeRun(sink.live.host, sink.rec, har, envs, old(sink.State()), [], budget) ==
                ResumeRun(sink.live.host, sink.rec, har, envs, sink.State(), seen, left)
      decreases left
    {
      match har(seen) {
        case Return(f) =>
          return seen, Some(f);
        case Emit(op) =>
          if left == 0 {
            return seen, None;
          }
          var a := sink.Do(op, envs(|seen|));
          seen := seen + [See(a)];
          left := left - 1;
      }
    }
  }

  method RunReplayed(sink: ReplaySink, har: Harness, budget: nat) returns (seen: seq<Seen>, finish: Option<Finish>)
    modifies sink
    ensures ReplayEnding(seen, sink.State(), finish) == ReplayRun(sink.host, sink.rec, har, old(sink.State()), [], budget)
  {
    hide ServeStep;
    seen, finish := [], None;
    var left: nat := budget;
    while true
      invariant left <= budget
      invariant ReplayRun(sink.host, sink.rec, har, old(sink.State()), [], budget) == ReplayRun(sink.host, sink.rec, har, sink.State(), seen, left)
      decreases left
    {
      match har(seen) {
        case Return(f) =>
          return seen, Some(f);
        case Emit(op) =>
          if left == 0 {
            return seen, None;
          }
          var a := sink.Do(op);
          seen := seen + [See(a)];
          left := left - 1;
      }
    }
  }

  // ---- the gates a sink is given ----

  /** The scanned gates of one execution, by call. */
  function EvidenceOf(states: seq<ApprovalState>, id: string): map<string, Gate>
  {
    if states == [] then map[]
    else
      var last := states[|states| - 1];
      var rest := EvidenceOf(states[..|states| - 1], id);
      if last.executionId == id then rest[last.gate.call.id := last.gate] else rest
  }

  lemma {:induction false} EvidenceConcat(a: seq<ApprovalState>, b: seq<ApprovalState>, id: string)
    ensures EvidenceOf(a + b, id) == EvidenceOf(a, id) + EvidenceOf(b, id)
    decreases |b|
  {
    if b == [] {
      assert a + b == a;
    } else {
      var init := b[..|b| - 1];
      assert (a + b)[..|a + b| - 1] == a + init;
      EvidenceConcat(a, init, id);
    }
  }

  lemma {:induction false} PublishEvidence(of: string, x: Execution, head: int, fork: int, id: string, n: nat)
    requires n <= |x.gates|
    ensures EvidenceOf(Publish(of, x, head, fork)[..n], id) == if id == of then GateMap(x.gates[..n]) else map[]
  {
    var states := Publish(of, x, head, fork);
    if n > 0 {
      PublishEvidence(of, x, head, fork, id, n - 1);
      assert states[..n][..n - 1] == states[..n - 1] && x.gates[..n][..n - 1] == x.gates[..n - 1];
    }
  }

  lemma {:induction false} OwnEvidence(of: string, own: seq<Entry>, head: int, fork: int, id: string)
    requires Inspect(of, own, head, fork).Ok?
    ensures Fold(own).Ok?
    ensures EvidenceOf(Inspect(of, own, head, fork).value, id) == if id == of then GateMap(Fold(own).value.gates) else map[]
  {
    hide Fold, EvidenceOf, GateMap, ValidateInputs;
    var x := Fold(own).value;
    PublishEvidence(of, x, head, fork, id, |x.gates|);
    assert Publish(of, x, head, fork)[..|x.gates|] == Publish(of, x, head, fork);
    assert x.gates[..|x.gates|] == x.gates;
  }

  predicate Distinct(ids: seq<string>)
  {
    forall j, k | 0 <= j < k < |ids| :: ids[j] != ids[k]
  }

  /** The gates a scan finds for an execution are those its own records give. */
  lemma {:induction false} StatesEvidence(es: seq<Entry>, ids: seq<string>, id: string)
    requires StatesOf(es, ids).Ok? && Distinct(ids)
    ensures id in ids && HasGate(EntriesOf(es, id)) ==>
      Fold(EntriesOf(es, id)).Ok? && EvidenceOf(StatesOf(es, ids).value, id) == GateMap(Fold(EntriesOf(es, id)).value.gates)
    ensures !(id in ids && HasGate(EntriesOf(es, id))) ==> EvidenceOf(StatesOf(es, ids).value, id) == map[]
  {
    hide EntriesOf, HasGate, Inspect, Fold, GateMap;
    if ids != [] {
      var init, last := ids[..|ids| - 1], ids[|ids| - 1];
      StatesEvidence(es, init, id);
      assert ids == init + [last];
      assert last !in init;
      if HasGate(EntriesOf(es, last)) {
        var own := Inspect(last, EntriesOf(es, last), Head(es), ForkSeq(es));
        OwnEvidence(last, EntriesOf(es, last), Head(es), ForkSeq(es), id);
        EvidenceConcat(StatesOf(es, init).value, own.value, id);
      }
    }
  }

  lemma {:induction false} ExecutionsDistinct(es: seq<Entry>)
    ensures Distinct(Executions(es))
  {
    if es != [] {
      ExecutionsDistinct(es[..|es| - 1]);
      var before, ids := Executions(es[..|es| - 1]), Executions(es);
      if ids != before {
        forall j, k | 0 <= j < k < |ids|
          ensures ids[j] != ids[k]
        {
          assert ids[j] in before;
        }
      }
    }
  }

  /** What a sink is served from: the effects of the execution and its scanned gates. */
  function ServedFrom(es: seq<Entry>, id: string): Recording
    requires ScanOf(es).Ok?
  {
    Recording(EffectsOf(es, id), EvidenceOf(ScanOf(es).value.states, id))
  }

  /** For an execution whose records scan, that is the recording the results on runs speak of. */
  lemma {:induction false} ServedFromRecording(es: seq<Entry>, id: string)
    requires ScanOf(es).Ok? && Fold(EntriesOf(es, id)).Ok?
    ensures ServedFrom(es, id) == RecordingOf(es, id)
  {
    hide EntriesOf, HasGate, Fold, EvidenceOf, Executions;
    var own := EntriesOf(es, id);
    ExecutionsDistinct(es);
    StatesEvidence(es, Executions(es), id);
    SeenExecution(es, id);
    if !(id in Executions(es) && HasGate(own)) {
      NoneHasNoGate();
      GatesMeanGated(own);
    }
  }

  // ---- the operations ----

  /** Replays one recorded execution to its harness. */
  function ReplayOne(es: seq<Entry>, h: Host, hars: Start -> Harness, budget: nat, id: string): ReplayEnding
    requires ScanOf(es).Ok? && Gathered(EntriesOf(es, id)).Some? && FirstIndex(es, id) <= |es|
  {
    ReplayRun(h.(executionId := id), ServedFrom(es, id), hars(RebuiltStart(es, ExecutionOf(es, id))),
              Served(0, [], None, Guard(false, None), map[]), [], budget)
  }

  /** The harness returned, nothing diverged, and every record was consumed. */
  predicate Reproduced(y: ReplayEnding, n: nat)
  {
    y.sink.failure.None? && y.finish == Some(Completed) && y.sink.i == n
  }

  /** The texts the ended executions among these reproduce, in order; None when one of them does not. */
  function ReplayAll(es: seq<Entry>, h: Host, hars: Start -> Harness, budget: nat, ids: seq<string>): Option<seq<string>>
    requires ScanOf(es).Ok? && forall id | id in ids :: Gathered(EntriesOf(es, id)).Some? && FirstIndex(es, id) <= |es|
  {
    if ids == [] then Some([])
    else
      var id := ids[|ids| - 1];
      match ReplayAll(es, h, hars, budget, ids[..|ids| - 1])
      case None => None
      case Some(before) =>
        if !Gathered(EntriesOf(es, id)).value.completed then Some(before)
        else
          var y := ReplayOne(es, h, hars, budget, id);
          if Reproduced(y, |EffectsOf(es, id)|) then Some(before + y.sink.outputs) else None
  }

  lemma {:induction false} ReplayAllFails(es: seq<Entry>, h: Host, hars: Start -> Harness, budget: nat, ids: seq<string>, n: nat)
    requires ScanOf(es).Ok? && forall id | id in ids :: Gathered(EntriesOf(es, id)).Some? && FirstIndex(es, id) <= |es|
    requires n <= |ids| && ReplayAll(es, h, hars, budget, ids[..n]).None?
    ensures ReplayAll(es, h, hars, budget, ids).None?
  {
    hide ReplayOne, Reproduced;
    if n < |ids| {
      assert ids[..|ids| - 1][..n] == ids[..n];
      ReplayAllFails(es, h, hars, budget, ids[..|ids| - 1], n);
    } else {
      assert ids[..n] == ids;
    }
  }

  /** How a turn came out. */
  datatype Outcome =
    | NotRun             // nothing was run
    | ParkedAt(ref: ApprovalRef)
    | Faulted(fault: Fault)
    | HarnessError
    | Ended
    | Unfinished         // the harness did not return within its budget

  /** The outcome of a run by how its sink and its harness ended. */
  function OutcomeOf(e: Ending, stream: nat): Outcome
  {
    if e.finish.None? then Unfinished
    else if e.sink.live.guard.stop.Some? then
      (match e.sink.live.guard.stop.value case Parked(ref) => ParkedAt(ref) case fault => Faulted(fault))
    else if e.sink.failure.Some? then Faulted(e.sink.failure.value)
    else if e.finish == Some(HarnessFailed) then HarnessError
    else if e.sink.i != stream then Faulted(Divergence)
    else if e.sink.live.fenced then Faulted(Superseded)
    else Ended
  }

  /** What a turn reports and how it closes its journal, by how its harness returned and how its sink ended.

  It ended iff its harness completed, nothing stopped the sink or diverged, all that was recorded before was
  served, and the fence held; that, and only that, is closed with END. It is parked iff the sink was stopped by
  that park, whose call and request are then the last two records. A harness error is reported iff the harness
  failed and nothing was stopped or diverged. A turn that failed is closed with ERROR, unless it was stopped or
  its fence is lost. */
  ghost predicate Reports(h: Host, recorded: nat, e: Ending, after: seq<Entry>, r: Outcome)
  {
    var sink, final := e.sink, e.sink.live.journal;
    var stop := sink.live.guard.stop;
    && !r.NotRun?
    && (r.Unfinished? <==> e.finish.None?)
    && (r.ParkedAt? <==> e.finish.Some? && stop.Some? && stop.value.Parked?)
    && (r.ParkedAt? ==> r.ref == stop.value.ref && ParkNames(h, final, r.ref))
    && (r.HarnessError? <==> e.finish == Some(HarnessFailed) && stop.None? && sink.failure.None?)
    && (r.Ended? <==> e.finish == Some(Completed) && stop.None? && sink.failure.None? && sink.i == recorded && !sink.live.fenced)
    && (r.Faulted? ==>
          r.fault == if stop.Some? then stop.value else if sink.failure.Some? then sink.failure.value
                     else if sink.i != recorded then Divergence else Superseded)
    && (r.Ended? <==>
          after == final + [Entry(Head(final) + 1, Event(h.executionId, KEnd, BEnd(HarnessEnd("COMPLETED", None)), NO_IDENTITY))])
    && (!r.Ended? ==>
          after == if e.finish.None? || stop.Some? || sink.live.fenced then final
                   else final + [Entry(Head(final) + 1, Event(h.executionId, KError, BError(ErrorInfo(0, "")), NO_IDENTITY))])
  }

  lemma {:induction false} OutcomeReports(h: Host, before: seq<Entry>, e: Ending, recorded: nat)
    requires recorded == |EffectsOf(before, h.executionId)| && !e.sink.live.guard.closed
    requires IsParked(e.sink) ==> ParkNames(h, e.sink.live.journal, e.sink.live.guard.stop.value.ref)
    ensures Reports(h, recorded, e, Appending(e.sink.live.journal, Closing(h, before, e)), OutcomeOf(e, recorded))
  {
    hide EffectsOf, ParkNames;
    var final, closing := e.sink.live.journal, Closing(h, before, e);
    assert Appending(final, []) == final;
    if closing != [] {
      AppendingOne(final, closing);
      assert (final + [Entry(Head(final) + 1, closing[0])])[|final|].event == closing[0];
    }
    var end := Entry(Head(final) + 1, Event(h.executionId, KEnd, BEnd(HarnessEnd("COMPLETED", None)), NO_IDENTITY));
    assert (final + [end])[|final|] == end && final + [end] != final;
    assert e.finish.Some? ==> e.finish.value.Completed? || e.finish.value.HarnessFailed?;
    hide Appending, Head;
  }

  /** The run of a turn ends with no open sink, and with any park recorded. */
  lemma {:induction false} RunReports(h: Host, before: seq<Entry>, rec: Recording, har: Harness, envs: nat -> Env, budget: nat)
    requires |rec.stream| == |EffectsOf(before, h.executionId)|
    ensures var e := ResumeRun(h, rec, har, envs, Begin(before), [], budget);
      Reports(h, |rec.stream|, e, Appending(e.sink.live.journal, Closing(h, before, e)), OutcomeOf(e, |rec.stream|))
  {
    hide ResumeRun, EffectsOf, Closing, OutcomeOf, Reports;
    RunLeavesOpen(h, rec, har, envs, Begin(before), [], budget);
    RunParksRecorded(h, rec, har, envs, Begin(before), [], budget);
    OutcomeReports(h, before, ResumeRun(h, rec, har, envs, Begin(before), [], budget), |rec.stream|);
  }

  ghost predicate Readable(es: seq<Entry>)
  {
    ScanOf(es).Ok? && forall id | id in Executions(es) :: !Broken(es, id)
  }

  /** There is an execution to recover: the journal can be read, and its last execution has not ended and
  has all its inputs. */
  ghost predicate Pickable(es: seq<Entry>)
  {
    && Readable(es) && Executions(es) != []
    && var c := Gathered(EntriesOf(es, Latest(es)));
    c.Some? && !c.value.completed && InputError(c.value).None?
  }

  /** The run of a recovery that goes on to the harness. */
  ghost function Recovered(es: seq<Entry>, h: Host, hars: Start -> Harness, envs: nat -> Env, budget: nat): Ending
    requires Pickable(es) && FirstIndex(es, Latest(es)) <= |es|
  {
    var id := Latest(es);
    ResumeRun(h.(executionId := id), ServedFrom(es, id), hars(RebuiltStart(es, ExecutionOf(es, id))), envs, Begin(es), [], budget)
  }

  class Controller {
    var journal: seq<Entry>

    constructor (journal: seq<Entry>)
      ensures this.journal == journal
    {
      this.journal := journal;
    }

    method Commit(event: Event)
      modifies this
      ensures journal == Appending(old(journal), [event])
    {
      AppendingOne(journal, [event]);
      journal := journal + [Entry(Head(journal) + 1, event)];
    }

    /** Commits the start marker and then each input. */
    method Open(id: string, start: ExecutionStart, inputs: seq<Message>)
      modifies this
      ensures journal == Appending(old(journal), Opening(id, start, inputs))
    {
      ghost var all := Opening(id, start, inputs);
      Commit(Event(id, KExecutionStart, BStart(start.(inputCount := Some(|inputs|))), NO_IDENTITY));
      assert all[..1] == [all[0]];
      for i := 0 to |inputs|
        invariant journal == Appending(old(journal), all[..i + 1])
      {
        ghost var before := journal;
        Commit(Event(id, KInput, BMessage(inputs[i]), NO_IDENTITY));
        assert all[..i + 2] == all[..i + 1] + [all[i + 1]];
        AppendingSnoc(old(journal), all[..i + 1], all[i + 1]);
        AppendingOne(before, [all[i + 1]]);
      }
      assert all[..|inputs| + 1] == all;
    }

    /** Ends a turn: END when it finished, ERROR when it failed, nothing when it was stopped. */
    method Finish(h: Host, ghost before: seq<Entry>, ghost e: Ending, stream: nat, sink: Live, i: nat, failure: Option<Fault>,
                  finish: Option<Runs.Finish>) returns (r: Outcome)
      requires e == Ending(e.seen, Resuming(sink, i, failure), finish) && stream == |EffectsOf(before, h.executionId)|
      requires !sink.guard.closed
      modifies this
      ensures journal == Appending(sink.journal, Closing(h, before, e)) && r == OutcomeOf(e, stream)
    {
      journal := sink.journal;
      if finish.None? {
        return Unfinished;
      }
      if sink.guard.stop.Some? {
        match sink.guard.stop.value {
          case Parked(ref) => return ParkedAt(ref);
          case fault => return Faulted(fault);
        }
      }
      if failure.None? && finish == Some(Completed) && i == stream {
        if sink.fenced {
          return Faulted(Superseded);
        }
        Commit(Event(h.executionId, KEnd, BEnd(HarnessEnd("COMPLETED", None)), NO_IDENTITY));
        return Ended;
      }
      if !sink.fenced {
        Commit(Event(h.executionId, KError, BError(ErrorInfo(0, "")), NO_IDENTITY));
      }
      if failure.Some? {
        return Faulted(failure.value);
      }
      match finish.value {
        case HarnessFailed => return HarnessError;
        case Completed => return Faulted(Divergence);
      }
    }

    /** Runs one live turn under a fresh identity. It is refused while the journal is invalid or owns an
    unanswered gate; otherwise it writes what a turn writes. */
    method Exec(h: Host, start: ExecutionStart, inputs: seq<Message>, hars: Start -> Harness, envs: nat -> Env, budget: nat)
      returns (r: Outcome)
      requires h.executionId != "" && h.executionId !in Executions(journal)
      modifies this
      ensures r.NotRun? <==> old(Blocked(journal))
      ensures journal == Writes(old(journal), ExecTurn(h, start, inputs, hars(ExecStart(old(journal), h.executionId, start, inputs)), envs, budget))
      ensures !r.NotRun? ==>
        var es := old(journal);
        var begun := Appending(es, Opening(h.executionId, start, inputs));
        && Sound(h, begun)
        && var e := Recovery.RunOn(h, begun, hars(ExecStart(es, h.executionId, start, inputs)), envs, budget);
           r == OutcomeOf(e, 0) && Reports(h, 0, e, journal, r)
    {
      hide Reports, ParkNames, Fold, EntriesOf, StatesOf, ResumeRun, LiveRun, Closing, OutcomeOf, EffectsOf, Opening, Appending;
      ghost var es := journal;
      AllBounded(journal);
      var scan := ScanRecords(journal, 0);
      if scan.Err? || (scan.value.selected.Some? && !scan.value.selected.value.inherited && scan.value.selected.value.gate.receipt.None?) {
        return NotRun;
      }
      var given := ExecStart(journal, h.executionId, start, inputs);
      Open(h.executionId, start, inputs);
      ghost var begun := journal;
      FreshIsSound(es, h, start, inputs);
      var sink := new LiveSink(h, journal);
      var seen, finish := RunLive(sink, hars(given), envs, budget);
      LiveRunIsResumeRun(h, hars(given), envs, Begin(begun).live, [], budget);
      ghost var e := Recovery.RunOn(h, begun, hars(given), envs, budget);
      RunLeavesOpen(h, NOTHING_RECORDED, hars(given), envs, Begin(begun), [], budget);
      RunReports(h, begun, NOTHING_RECORDED, hars(given), envs, budget);
      r := Finish(h, begun, e, 0, sink.State(), 0, None, finish);
      if r.NotRun? { WasRun(e, 0); }
    }

    /** The execution recovery picks up, with the scan of the journal; nothing when the journal is invalid,
    or has no unfinished last execution with all its inputs. */
    method Pick() returns (r: Option<(RecordedExecution, Scan)>)
      ensures r.Some? ==>
        && ScanOf(journal) == Ok(r.value.1) && Executions(journal) != []
        && Gathered(EntriesOf(journal, Latest(journal))).Some?
        && r.value.0 == ExecutionOf(journal, Latest(journal))
      ensures r.Some? <==> Pickable(journal)
    {
      hide Fold, EntriesOf, StatesOf, EffectsOf, Executions, Gathered, FirstIndex, Broken, InputError;
      AllBounded(journal);
      var recorded := RecordedExecutions(journal);
      if recorded.Err? {
        return None;
      }
      var scan := ScanRecords(journal, 0);
      if scan.Err? {
        return None;
      }
      var pending := PendingExecution(recorded.value);
      if pending.Err? || pending.value.None? {
        return None;
      }
      return Some((pending.value.value, scan.value));
    }

    /** Answers the last gate of the execution before anything is run: an inherited one refuses recovery,
    a missing request is repaired, and an undecided one parks. */
    method AnswerGate(id: string, scan: Scan) returns (r: Option<Outcome>)
      requires ScanOf(journal) == Ok(scan)
      modifies this
      ensures var gateway := old(ApprovalGateway(journal, id));
        && (r.None? <==> gateway.Proceeds?)
        && (r == Some(NotRun) <==> gateway.Refused?)
        && (gateway.Repairs? ==> r == Some(ParkedAt(ApprovalRef(id, gateway.request.body.request.toolCallId, old(Head(journal)) + 1))))
        && (gateway.Parks? ==> old(Pending(journal)).Some? && r == Some(ParkedAt(old(Pending(journal)).value)))
        && journal == if gateway.Repairs? then Appending(old(journal), [gateway.request]) else old(journal)
    {
      hide ScanOf, Appending;
      var state := scan.selected;
      if state.None? || state.value.executionId != id || state.value.gate.receipt.Some? {
        return None;
      }
      if state.value.inherited {
        return Some(NotRun);
      }
      if state.value.gate.request.None? {
        var request := Event(id, KApprovalRequest, BApproval(ApprovalRequest(state.value.gate.call.id, "")), NO_IDENTITY);
        AppendingOne(journal, [request]);
        Commit(request);
        return Some(ParkedAt(ApprovalRef(id, state.value.gate.call.id, Head(journal))));
      }
      if state.value.gate.decision.None? {
        return Some(ParkedAt(ApprovalRef(id, state.value.gate.call.id, state.value.gate.request.value.num)));
      }
      return None;
    }

    /** Runs the harness over a recorded execution and ends its turn. */
    method Recover(own: Host, rec: Recording, har: Harness, envs: nat -> Env, budget: nat) returns (r: Outcome)
      requires |rec.stream| == |EffectsOf(journal, own.executionId)|
      modifies this
      ensures !r.NotRun?
      ensures var e := ResumeRun(own, rec, har, envs, Begin(old(journal)), [], budget);
        && journal == Appending(e.sink.live.journal, Closing(own, old(journal), e)) && r == OutcomeOf(e, |rec.stream|)
        && Reports(own, |rec.stream|, e, journal, r)
    {
      hide Reports, ResumeRun, Closing, OutcomeOf, EffectsOf, Appending;
      var sink := new ResumeSink(own, journal, rec);
      var seen, finish := RunResumed(sink, har, envs, budget);
      ghost var e := Ending(seen, sink.State(), finish);
      RunLeavesOpen(own, rec, har, envs, Begin(journal), [], budget);
      RunReports(own, journal, rec, har, envs, budget);
      r := Finish(own, journal, e, |rec.stream|, sink.live.State(), sink.i, sink.failure, finish);
      WasRun(e, |rec.stream|);
    }

    /** Recovers the last execution when it has not ended. It is refused, changing nothing, when there is
    none to recover, when its gate was inherited, or when it left a call unanswered before a fork; it
    answers an undecided gate without running anything; otherwise it writes what the turn writes. */
    method Resume(h: Host, hars: Start -> Harness, envs: nat -> Env, budget: nat) returns (r: Outcome)
      modifies this
      ensures r.NotRun? ==> journal == old(journal)
      ensures var es := old(journal);
        var gateway := ApprovalGateway(es, Latest(es));
        r.NotRun? <==> !Pickable(es) || gateway.Refused? || (gateway.Proceeds? && Inherits(es, Latest(es)))
      ensures var es := old(journal);
        !r.NotRun? ==>
          match ApprovalGateway(es, Latest(es))
          case Repairs(request) =>
            && journal == Appending(es, [request])
            && r == ParkedAt(ApprovalRef(Latest(es), request.body.request.toolCallId, Head(es) + 1))
          case Proceeds =>
            && FirstIndex(es, Latest(es)) <= |es|
            && var e := Recovered(es, h, hars, envs, budget);
            && journal == Appending(e.sink.live.journal, Closing(h.(executionId := Latest(es)), es, e))
            && r == OutcomeOf(e, |EffectsOf(es, Latest(es))|)
            && Reports(h.(executionId := Latest(es)), |EffectsOf(es, Latest(es))|, e, journal, r)
          case _ => journal == es && Pending(es).Some? && r == ParkedAt(Pending(es).value)
    {
      hide Reports, Fold, EntriesOf, ScanOf, ResumeRun, Closing, OutcomeOf, Stream, Appending, Executions, Gathered, FirstIndex, Unanswered,
           ApprovalGateway, EvidenceOf, Latest, Readable, InputError;
      ghost var es, id := journal, Latest(journal);
      var picked := Pick();
      if picked.None? {
        return NotRun;
      }
      var (x, scan) := picked.value;
      StartWithin(journal, x.id);
      var answer := AnswerGate(x.id, scan);
      if answer.Some? {
        return answer.value;
      }
      var unresolved := CountInherited(EventsOf(journal[x.start..]), x.id);
      if unresolved > 0 {
        return NotRun;
      }
      var own := h.(executionId := x.id);
      GatheredStream(EntriesOf(es, x.id));
      r := Recover(own, Recording(x.records.stream, EvidenceOf(scan.states, x.id)), hars(RebuiltStart(journal, x)), envs, budget);
    }

    /** Re-runs every ended execution over its records, writing nothing, and returns the texts they put
    out. It succeeds iff the journal is readable and in every one of them the harness's operations match
    the records, position by position and to the last one. */
    method Replay(h: Host, hars: Start -> Harness, budget: nat) returns (r: Option<seq<string>>)
      ensures !Readable(journal) ==> r.None?
      ensures Readable(journal) ==>
        && (forall id | id in Executions(journal) :: Gathered(EntriesOf(journal, id)).Some? && FirstIndex(journal, id) <= |journal|)
        && r == ReplayAll(journal, h, hars, budget, Executions(journal))
        && (r.Some? <==>
            forall id | id in Executions(journal) && Gathered(EntriesOf(journal, id)).value.completed :: Matched(journal, h, hars, budget, id))
    {
      hide Fold, Stream, Inspect, EntriesOf, StatesOf, Executions, Gathered, FirstIndex, Broken, Reproduced, ReplayRun, HasGate, InputError,
           EffectsOf, Head, ForkSeq, Latest, Bounded, ServedFrom, RebuiltStart, Matched;
      AllBounded(journal);
      var recorded := RecordedExecutions(journal);
      if recorded.Err? {
        return None;
      }
      var scan := ScanRecords(journal, 0);
      if scan.Err? {
        return None;
      }
      ReadableGathers(journal);
      ghost var ids := Executions(journal);
      ReplaySucceedsIff(journal, h, hars, budget, ids);
      var outputs: seq<string> := [];
      assert ids[..0] == [];
      for k := 0 to |recorded.value|
        invariant ReplayAll(journal, h, hars, budget, ids[..k]) == Some(outputs)
      {
        var x := recorded.value[k];
        assert ids[..k + 1][..k] == ids[..k] && ids[k] in ids;
        if x.records.completed {
          ServedGathered(journal, x.id);
          var sink := new ReplaySink(h.(executionId := x.id), Recording(x.records.stream, EvidenceOf(scan.value.states, x.id)));
          var seen, finish := RunReplayed(sink, hars(RebuiltStart(journal, x)), budget);
          ghost var y := ReplayEnding(seen, sink.State(), finish);
          assert y == ReplayOne(journal, h, hars, budget, x.id);
          if sink.failure.Some? || finish != Some(Completed) || sink.i != |x.records.stream| {
            assert !Reproduced(y, |x.records.stream|) by { NotReproduced(y, |x.records.stream|); }
            ReplayAllFails(journal, h, hars, budget, ids, k + 1);
            return None;
          }
          assert Reproduced(y, |x.records.stream|) by { IsReproduced(y, |x.records.stream|); }
          outputs := outputs + sink.outputs;
        }
      }
      assert ids[..|ids|] == ids;
      return Some(outputs);
    }
  }

  lemma {:induction false} ServedGathered(es: seq<Entry>, id: string)
    requires ScanOf(es).Ok? && Gathered(EntriesOf(es, id)).Some?
    ensures var c := Gathered(EntriesOf(es, id)).value;
      c.stream == EffectsOf(es, id) && Recording(c.stream, EvidenceOf(ScanOf(es).value.states, id)) == ServedFrom(es, id)
  {
    hide EntriesOf, ScanOf, Gathered, EvidenceOf;
    GatheredStream(EntriesOf(es, id));
  }

  lemma {:induction false} NotReproduced(y: ReplayEnding, n: nat)
    requires y.sink.failure.Some? || y.finish != Some(Completed) || y.sink.i != n
    ensures !Reproduced(y, n)
  {
  }

  lemma {:induction false} IsReproduced(y: ReplayEnding, n: nat)
    requires y.sink.failure.None? && y.finish == Some(Completed) && y.sink.i == n
    ensures Reproduced(y, n)
  {
  }

  lemma {:induction false} ReadableGathers(es: seq<Entry>)
    requires Readable(es)
    ensures forall id | id in Executions(es) :: Gathered(EntriesOf(es, id)).Some? && FirstIndex(es, id) <= |es|
  {
    hide EntriesOf, Executions, FirstIndex, Gathered;
    forall id | id in Executions(es)
      ensures Gathered(EntriesOf(es, id)).Some? && FirstIndex(es, id) <= |es|
    {
      assert !Broken(es, id);
      StartWithin(es, id);
    }
  }

  lemma {:induction false} SoundForAny(es: seq<Entry>, a: Host, b: Host)
    requires a.executionId == b.executionId
    ensures Sound(a, es) <==> Sound(b, es)
  {
  }

  lemma {:induction false} GatheredStream(own: seq<Entry>)
    ensures Gathered(own).Some? ==> Gathered(own).value.stream == Stream(own)
  {
    if own != [] { GatheredStream(own[..|own| - 1]); }
  }

  /** An execution that ended had all its inputs. */
  lemma {:induction false} HealthyEnds(own: seq<Entry>)
    requires Healthy(own)
    ensures Fold(own).Ok? && (Fold(own).value.completed ==> Complete(Fold(own).value))
  {
    HealthyIsWhole(own);
    if own != [] {
      HealthyEnds(own[..|own| - 1]);
      EndsComplete(Fold(own[..|own| - 1]).value, |own| == 1, own[|own| - 1]);
    }
  }

  lemma {:induction false} EndsComplete(x: Execution, first: bool, e: Entry)
    requires StepHealthy(x, first, e) && (x.completed ==> Complete(x)) && (!first ==> Whole(x)) && (first ==> x == FRESH)
    ensures Step(x, first, e).value.completed ==> Complete(Step(x, first, e).value)
  {
  }

  /** What recovery collects and scans of a sane journal is what the results on runs speak of. */
  lemma {:induction false} SanePicks(es: seq<Entry>)
    requires Sane(es)
    ensures ScanOf(es).Ok? && forall id | id in Executions(es) :: !Broken(es, id)
    ensures var id := Latest(es);
      id in Executions(es) ==>
        && Gathered(EntriesOf(es, id)).Some? && Fold(EntriesOf(es, id)).Ok?
        && var c := Gathered(EntriesOf(es, id)).value;
           && (Resumable(es, id) <==> !c.completed && InputError(c).None?)
           && Recording(c.stream, EvidenceOf(ScanOf(es).value.states, id)) == RecordingOf(es, id)
           && (Resumable(es, id) ==> Sound(Host(_ => "", id, "", false, Stateless), es))
    ensures Latest(es) !in Executions(es) ==> !Resumable(es, Latest(es))
  {
    hide Fold, EntriesOf, StatesOf, Executions, Gathered, Healthy, HasGate;
    SaneScans(es);
    forall id | id in Executions(es)
      ensures !Broken(es, id)
    {
      SeenExecution(es, id);
      HealthyEnds(EntriesOf(es, id));
      GatheredAgrees(EntriesOf(es, id));
      if Fold(EntriesOf(es, id)).value.completed { CompleteIsValid(EntriesOf(es, id)); }
    }
    var id := Latest(es);
    if id in Executions(es) {
      SomeExecution(es, id);
      HealthyEnds(EntriesOf(es, id));
      GatheredAgrees(EntriesOf(es, id));
      ServedFromRecording(es, id);
    }
  }

  lemma {:induction false} SomeExecution(es: seq<Entry>, id: string)
    requires id in Executions(es)
    ensures es != []
  {
  }

  lemma {:induction false} CompleteIsValid(own: seq<Entry>)
    requires Fold(own).Ok? && Complete(Fold(own).value)
    ensures ValidateInputs(Fold(own).value).None?
  {
    hide Fold;
  }

  lemma {:induction false} WasRun(e: Ending, n: nat)
    ensures !OutcomeOf(e, n).NotRun?
  {
  }

  lemma {:induction false} AllBounded(es: seq<Entry>)
    ensures Bounded(es, 0) == es
  {
    BoundedIs(es, 0, |es|);
    assert es[..|es|] == es;
  }

  /** On a well-formed journal a recovery is a turn of the session's writers, its run is the one the results
  on runs speak of, and it drives no intent that was recorded before a fork. */
  lemma {:induction false} SaneResume(es: seq<Entry>, h: Host, hars: Start -> Harness, envs: nat -> Env, budget: nat)
    requires Sane(es)
    ensures Pickable(es) <==> Resumable(es, Latest(es))
    ensures Pickable(es) && ApprovalGateway(es, Latest(es)).Proceeds? && !Inherits(es, Latest(es)) ==>
      var own := h.(executionId := Latest(es));
      && FirstIndex(es, Latest(es)) <= |es| && Sound(own, es)
      && var har := hars(RebuiltStart(es, ExecutionOf(es, Latest(es))));
      var e := Recovered(es, h, hars, envs, budget);
      && e == Recovery.RunOn(own, es, har, envs, budget)
      && Appending(e.sink.live.journal, Closing(own, es, e)) == Writes(es, ResumeTurn(own, har, envs, budget))
      && OnlyOwned(own, es, e.sink.live)
  {
    hide Fold, EntriesOf, StatesOf, EffectsOf, Sane, Executions, Resumable, Gathered, FirstIndex, ResumeRun, Closing, Appending,
         Inherits, ApprovalGateway, EvidenceOf, OnlyOwned, Broken, InputError;
    SanePicks(es);
    StartWithin(es, Latest(es));
    SeenLatestOf(es);
    if Pickable(es) && ApprovalGateway(es, Latest(es)).Proceeds? && !Inherits(es, Latest(es)) {
      var own := h.(executionId := Latest(es));
      GatheredStream(EntriesOf(es, Latest(es)));
      SoundForAny(es, Host(_ => "", Latest(es), "", false, Stateless), own);
      RecoveryDrivesOwned(own, es, hars(RebuiltStart(es, ExecutionOf(es, Latest(es)))), envs, budget);
    }
  }

  lemma {:induction false} SeenLatestOf(es: seq<Entry>)
    ensures Latest(es) in Executions(es) ==> Executions(es) != []
    ensures Executions(es) != [] ==> Latest(es) in Executions(es)
  {
  }

  /** A new invocation has nothing recorded, whatever else the journal holds. */
  lemma {:induction false} FreshIsSound(es: seq<Entry>, h: Host, start: ExecutionStart, inputs: seq<Message>)
    requires h.executionId !in Executions(es)
    ensures var begun := Appending(es, Opening(h.executionId, start, inputs));
      Sound(h, begun) && RecordingOf(begun, h.executionId) == NOTHING_RECORDED
  {
    FoldOpening(es, h.executionId, start, inputs, |inputs| + 1);
    var all := Opening(h.executionId, start, inputs);
    assert all[..|inputs| + 1] == all;
  }

  lemma {:induction false} FoldOpening(es: seq<Entry>, id: string, start: ExecutionStart, inputs: seq<Message>, m: nat)
    requires id !in Executions(es) && 1 <= m <= |inputs| + 1
    ensures var begun := Appending(es, Opening(id, start, inputs)[..m]);
      && EntriesOf(begun, id) != []
      && Fold(EntriesOf(begun, id)) ==
         Ok(FRESH.(start := Some(start.(inputCount := Some(|inputs|))), inputRecords := m - 1, inputs := inputs[..m - 1]))
      && EffectsOf(begun, id) == []
  {
    hide Executions, EntriesOf, Fold, Appending, EffectsOf;
    var all := Opening(id, start, inputs);
    var shorter := Appending(es, all[..m - 1]);
    assert all[..m] == all[..m - 1] + [all[m - 1]];
    AppendingSnoc(es, all[..m - 1], all[m - 1]);
    var e := Entry(Head(shorter) + 1, all[m - 1]);
    EntriesNext(shorter, e, id);
    EffectsSnoc(shorter, e, id);
    FoldSnoc(EntriesOf(shorter, id), e);
    if m == 1 {
      NoAppending(es);
      SeenExecution(es, id);
      NoEffects(es, id);
      FoldNone();
      assert [] + [e] == [e] && inputs[..0] == [] && all[..0] == [];
    } else {
      FoldOpening(es, id, start, inputs, m - 1);
      assert inputs[..m - 1] == inputs[..m - 2] + [inputs[m - 2]];
    }
  }

  lemma {:induction false} NoAppending(es: seq<Entry>)
    ensures Appending(es, []) == es
  {
  }

  lemma {:induction false} NoEffects(es: seq<Entry>, id: string)
    requires EntriesOf(es, id) == []
    ensures EffectsOf(es, id) == []
  {
  }

  // ---- what Exec and Resume wrote, Replay reproduces ----

  /** Records of other executions, and lifecycle records, leave an execution as it is. */
  lemma {:induction false} OthersLeave(journal: seq<Entry>, longer: seq<Entry>, id: string)
    requires journal <= longer && forall k | |journal| <= k < |longer| :: !Of(longer[k], id)
    ensures EntriesOf(longer, id) == EntriesOf(journal, id)
    decreases |longer|
  {
    if |longer| > |journal| {
      var init := longer[..|longer| - 1];
      assert longer == init + [longer[|longer| - 1]];
      OthersLeave(journal, init, id);
      EntriesNext(init, longer[|longer| - 1], id);
    } else {
      assert longer == journal;
    }
  }

  /** The END of a turn changes neither the effects nor the gates of its execution. */
  lemma {:induction false} EndKeepsRecording(h: Host, journal: seq<Entry>, e: Entry)
    requires Sound(h, journal) && !IsOpen(Scanned(journal, h.executionId)) && Of(e, h.executionId) && e.event.kind.KEnd?
    ensures Fold(EntriesOf(journal + [e], h.executionId)).Ok?
    ensures RecordingOf(journal + [e], h.executionId) == RecordingOf(journal, h.executionId)
    ensures Scanned(journal + [e], h.executionId).completed
  {
    hide Fold, EntriesOf, EffectsOf;
    EntriesNext(journal, e, h.executionId);
    FoldSnoc(EntriesOf(journal, h.executionId), e);
    EffectsSnoc(journal, e, h.executionId);
  }

  /** A turn that ended: what its execution is served from, ever after, is what its run left. */
  lemma {:induction false} EndedTurn(h: Host, journal: seq<Entry>, har: Harness, envs: nat -> Env, budget: nat, es: seq<Entry>)
    requires Sound(h, journal)
    requires var e := Recovery.RunOn(h, journal, har, envs, budget);
      && Recovery.Finished(h, journal, e) && e.finish == Some(Completed)
      && var left := TurnLeaves(h, journal, har, envs, budget);
         left <= es && (forall k | |left| <= k < |es| :: !Of(es[k], h.executionId)) && ScanOf(es).Ok?
    ensures var final := Recovery.RunOn(h, journal, har, envs, budget).sink.live.journal;
      && Sound(h, final)
      && Fold(EntriesOf(es, h.executionId)).Ok?
      && Fold(EntriesOf(es, h.executionId)).value.completed
      && ServedFrom(es, h.executionId) == RecordingOf(final, h.executionId)
  {
    hide Fold, EntriesOf, Stream, ResumeRun, Upheld, ScanOf, Sound, Clean;
    var e := Recovery.RunOn(h, journal, har, envs, budget);
    var final := e.sink.live.journal;
    Recovery.RunLeaves(h, journal, har, envs, budget);
    TurnUpheld(h, journal, har, envs, budget);
    CleanEnds(h, journal, e);
    var closing := Closing(h, journal, e);
    var left := TurnLeaves(h, journal, har, envs, budget);
    AppendingOne(final, closing);
    EndKeepsRecording(h, final, Entry(Head(final) + 1, closing[0]));
    OthersLeave(left, es, h.executionId);
    ServedFromRecording(es, h.executionId);
  }

  lemma {:induction false} CleanEnds(h: Host, journal: seq<Entry>, e: Ending)
    requires Recovery.Finished(h, journal, e) && e.finish == Some(Completed)
    ensures Closing(h, journal, e) == [Event(h.executionId, KEnd, BEnd(HarnessEnd("COMPLETED", None)), NO_IDENTITY)]
  {
    hide EffectsOf;
  }

  /** A turn of an execution that ended with END, and a later journal that holds nothing more of it. */
  ghost predicate TurnEnded(h: Host, journal: seq<Entry>, har: Harness, envs: nat -> Env, budget: nat, es: seq<Entry>)
  {
    && Sound(h, journal)
    && var e := Recovery.RunOn(h, journal, har, envs, budget);
    && Recovery.Finished(h, journal, e) && e.finish == Some(Completed)
    && var left := TurnLeaves(h, journal, har, envs, budget);
    && left <= es && (forall k | |left| <= k < |es| :: !Of(es[k], h.executionId))
    && Sane(es) && ScanOf(es).Ok?
  }

  /** An ended turn, replayed with the start it was given, is repeated answer for answer iff each of its
  steps is repeatable; it is then reproduced. */
  lemma {:induction false} EndedTurnReplays(h: Host, journal: seq<Entry>, hars: Start -> Harness, st: Start, envs: nat -> Env, budget: nat, es: seq<Entry>)
    requires TurnEnded(h, journal, hars(st), envs, budget, es)
    requires Gathered(EntriesOf(es, h.executionId)).Some? && FirstIndex(es, h.executionId) <= |es|
    requires RebuiltStart(es, ExecutionOf(es, h.executionId)) == st
    ensures var e := Recovery.RunOn(h, journal, hars(st), envs, budget);
      var y := ReplayOne(es, h, hars, budget, h.executionId);
      && (Replays.Saw(y, e.seen) <==>
          Replays.Faithful(EffectsOf(e.sink.live.journal, h.executionId), Recovery.TraceOn(h, journal, hars(st), envs, budget)))
      && (Replays.Saw(y, e.seen) ==> Reproduced(y, |EffectsOf(es, h.executionId)|))
  {
    hide Fold, EntriesOf, Stream, ResumeRun, ReplayRun, Trace, TurnLeaves, Replays.Faithful, ScanOf, Sound, Sane, Gathered, FirstIndex;
    EndedTurn(h, journal, hars(st), envs, budget, es);
    Recovery.ReplayRepeatsRun(h, journal, hars(st), envs, budget);
    Recovery.RunLeaves(h, journal, hars(st), envs, budget);
    assert h.(executionId := h.executionId) == h;
  }

  /** Exec, then anything else the session does, then Replay. */
  lemma {:induction false} ExecThenReplay(es0: seq<Entry>, h: Host, start: ExecutionStart, inputs: seq<Message>, hars: Start -> Harness,
                                          envs: nat -> Env, budget: nat, es: seq<Entry>)
    requires h.executionId !in Executions(es0)
    requires TurnEnded(h, Appending(es0, Opening(h.executionId, start, inputs)), hars(ExecStart(es0, h.executionId, start, inputs)), envs, budget, es)
    ensures Gathered(EntriesOf(es, h.executionId)).Some? && FirstIndex(es, h.executionId) <= |es|
    ensures var begun := Appending(es0, Opening(h.executionId, start, inputs));
      var har := hars(ExecStart(es0, h.executionId, start, inputs));
      var e := Recovery.RunOn(h, begun, har, envs, budget);
      var y := ReplayOne(es, h, hars, budget, h.executionId);
      && (Replays.Saw(y, e.seen) <==>
          Replays.Faithful(EffectsOf(e.sink.live.journal, h.executionId), Recovery.TraceOn(h, begun, har, envs, budget)))
      && (Replays.Saw(y, e.seen) ==> Reproduced(y, |EffectsOf(es, h.executionId)|))
  {
    hide Fold, EntriesOf, Stream, ResumeRun, ReplayRun, Trace, Appending, Opening, TurnLeaves, Replays.Faithful, Executions, ScanOf, Sound, Sane, Gathered, FirstIndex;
    var id := h.executionId;
    var begun := Appending(es0, Opening(id, start, inputs));
    var st := ExecStart(es0, id, start, inputs);
    LeavesMore(h, begun, hars(st), envs, budget);
    SaneIsHealthy(es, id);
    StartRebuilt(es0, id, start, inputs, es);
    EndedTurnReplays(h, begun, hars, st, envs, budget, es);
  }

  /** Resume of an interrupted execution, then anything else the session does, then Replay. */
  lemma {:induction false} ResumeThenReplay(es0: seq<Entry>, h: Host, hars: Start -> Harness, envs: nat -> Env, budget: nat, es: seq<Entry>)
    requires Sane(es0) && Resumable(es0, h.executionId) && ScanOf(es0).Ok?
    requires Gathered(EntriesOf(es0, h.executionId)).Some? && FirstIndex(es0, h.executionId) <= |es0|
    requires TurnEnded(h, es0, hars(RebuiltStart(es0, ExecutionOf(es0, h.executionId))), envs, budget, es)
    ensures Gathered(EntriesOf(es, h.executionId)).Some? && FirstIndex(es, h.executionId) <= |es|
    ensures var har := hars(RebuiltStart(es0, ExecutionOf(es0, h.executionId)));
      var e := Recovery.RunOn(h, es0, har, envs, budget);
      var y := ReplayOne(es, h, hars, budget, h.executionId);
      && (Replays.Saw(y, e.seen) <==>
          Replays.Faithful(EffectsOf(e.sink.live.journal, h.executionId), Recovery.TraceOn(h, es0, har, envs, budget)))
      && (Replays.Saw(y, e.seen) ==> Reproduced(y, |EffectsOf(es, h.executionId)|))
  {
    hide Fold, EntriesOf, Stream, ResumeRun, ReplayRun, Trace, TurnLeaves, Replays.Faithful, ScanOf, Sound, Sane, Gathered, FirstIndex, Resumable;
    var id := h.executionId;
    var st := RebuiltStart(es0, ExecutionOf(es0, id));
    LeavesMore(h, es0, hars(st), envs, budget);
    SaneIsHealthy(es, id);
    ResumableIsCurrent(es0, h);
    assert EntriesOf(es0, id) != [] && Complete(Fold(EntriesOf(es0, id)).value);
    StartKept(es0, es, id);
    EndedTurnReplays(h, es0, hars, st, envs, budget, es);
  }

  /** The start of an execution that has its inputs is rebuilt the same from any longer journal. */
  lemma {:induction false} StartKept(es0: seq<Entry>, es: seq<Entry>, id: string)
    requires es0 <= es && Healthy(EntriesOf(es, id)) && EntriesOf(es0, id) != []
    requires Fold(EntriesOf(es0, id)).Ok? && Complete(Fold(EntriesOf(es0, id)).value)
    ensures FirstIndex(es0, id) <= |es0| && FirstIndex(es, id) <= |es|
    ensures Gathered(EntriesOf(es0, id)).Some? && Gathered(EntriesOf(es, id)).Some?
    ensures RebuiltStart(es, ExecutionOf(es, id)) == RebuiltStart(es0, ExecutionOf(es0, id))
  {
    hide Fold, EntriesOf, Healthy, Gathered, FirstIndex;
    StartWithin(es0, id);
    StartWithin(es, id);
    assert es[..|es0|] == es0;
    FirstIndexKept(es, |es0|, id);
    EntriesPrefix(es, |es0|, id);
    var own, now := EntriesOf(es0, id), EntriesOf(es, id);
    assert now[..|own|] == own;
    HealthyIsWhole(now);
    GatheredAgrees(own);
    GatheredAgrees(now);
    InputsKept(now, |own|);
    assert EventsOf(es[..FirstIndex(es, id)]) == EventsOf(es0[..FirstIndex(es0, id)]);
  }

  lemma {:induction false} SaneIsHealthy(es: seq<Entry>, id: string)
    requires Sane(es)
    ensures Healthy(EntriesOf(es, id))
  {
    hide Healthy, EntriesOf;
  }

  lemma {:induction false} LeavesMore(h: Host, journal: seq<Entry>, har: Harness, envs: nat -> Env, budget: nat)
    requires Sound(h, journal)
    ensures journal <= TurnLeaves(h, journal, har, envs, budget)
  {
    hide Fold, EntriesOf, Stream, ResumeRun;
    var e := Recovery.RunOn(h, journal, har, envs, budget);
    RunGrows(h, RecordingOf(journal, h.executionId), har, envs, Begin(journal), [], budget);
    AppendingSnoc(e.sink.live.journal, Closing(h, journal, e), Event("", KUnspecified, NoBody, NO_IDENTITY));
  }

  // ---- what a successful replay means ----

  /** Without gate evidence among the records no call of them is gated. */
  lemma {:induction false} NoneGated(own: seq<Entry>)
    requires !HasGate(own)
    ensures forall p | 0 <= p < |Stream(own)| :: !IsGatedCall(Stream(own)[p])
  {
    if own != [] { NoneGated(own[..|own| - 1]); }
  }

  /** What an ended execution of a journal that scans is replayed from is settled: each gated call has its
  request, its decision and its receipt right after it, and the gates served are those records. */
  lemma {:induction false} EndedIsSettled(es: seq<Entry>, id: string)
    requires ScanOf(es).Ok? && Gathered(EntriesOf(es, id)).Some? && Gathered(EntriesOf(es, id)).value.completed
    ensures Replays.Settled(ServedFrom(es, id))
  {
    hide EntriesOf, HasGate, Fold, Gathered, EvidenceOf, ScanOf, GateMap, CallsIn;
    var own := EntriesOf(es, id);
    NotRejected(es, id);
    RejectedMeans(id, own);
    if HasGate(own) {
      ServedFromRecording(es, id);
      FoldAgrees(own);
      GatheredAgrees(own);
      if IsOpen(Fold(own).value) { OpenIsRunning(own); }
    } else {
      NoneGated(own);
    }
  }

  /** The replay of an execution starts at the first record. */
  lemma {:induction false} StartsAtFirst(stream: seq<Event>)
    ensures Replays.At(stream, 0, Served(0, [], None, Guard(false, None), map[]))
  {
    assert stream[..0] == [];
  }

  /** The operation is the one its records are of: a model call of the same input, an output of the same text, the
  same usage, the same call with its result, or with the request, decision and receipt of its gate. */
  ghost predicate AtItsRecords(h: Host, stream: seq<Event>, t: Taken)
  {
    && t.from <= t.to <= |stream|
    && match t.op
       case Model(req) =>
         && t.from < t.to && stream[t.from].kind == KModelCall && stream[t.from].body.BModelCall?
         && stream[t.from].body.modelCall.inputHash == h.hashInput(req)
         && if !t.answer.Completion? then t.to == t.from + 1
            else
              && t.to == t.from + 2 && stream[t.from + 1].kind == KOutput
              && t.answer.response.message ==
                 if stream[t.from + 1].body.BMessage? then stream[t.from + 1].body.message else Message("", [])
       case Output(_) => t.to == t.from + 1 && ServedBy(t.op, stream[t.from])
       case Account(_) => t.to == t.from + 1 && ServedBy(t.op, stream[t.from])
       case Report(r) => if Claims(r) then t.to == t.from else t.to == t.from + 1 && ServedBy(t.op, stream[t.from])
       case Call(call) =>
         if t.to == t.from then t.answer.Failed?
         else
           && stream[t.from].kind == KToolCall && stream[t.from].body.BToolCall?
           && SameRequest(call, stream[t.from].body.toolCall)
           && if !t.answer.Returned? then t.answer.Failed? && t.to == t.from + 1 && call.mediation == ControllerMediated
              else if call.mediation == ControllerMediated then
                t.to == t.from + 2 && stream[t.from + 1].kind == KToolResult && stream[t.from + 1].body == BResult(t.answer.result) &&
                t.answer.result.id == call.id
              else
                && t.to == t.from + 4
                && stream[t.from + 1].kind == KApprovalRequest && stream[t.from + 2].kind == KApprovalResult
                && stream[t.from + 3].kind == KToolResult && stream[t.from + 3].body.BResult? && stream[t.from + 2].body.BApprovalResult?
                && t.answer.result == stream[t.from + 3].body.result.(approval := Some(stream[t.from + 2].body.decision))
  }

  lemma {:induction false} RecordedAtItsRecords(h: Host, stream: seq<Event>, t: Taken)
    requires Recorded(h, stream, t)
    ensures AtItsRecords(h, stream, t)
  {
    if t.op.Call? && t.from < |stream| && IsCall(stream[t.from]) { MatchIsSameRequest(t.op.call, stream[t.from].body.toolCall); }
    if t.op.Report? { ClaimsIs(t.op.result); }
    if t.from < |stream| && stream[t.from].body.BResult? { ClaimsIs(stream[t.from].body.result); }
    hide MatchesCall, ClaimsReceipt, Claims, Alike.LikeContent;
  }

  lemma {:induction false} FollowsRecords(h: Host, har: Harness, stream: seq<Event>, seen: seq<Seen>, ts: seq<Taken>, p: nat)
    requires Follows(h, har, stream, seen, ts, p)
    ensures forall k | 0 <= k < |ts| :: AtItsRecords(h, stream, ts[k]) && ts[k].from == if k == 0 then p else ts[k - 1].to
    decreases |ts|
  {
    hide AtItsRecords, Recorded;
    if ts != [] {
      RecordedAtItsRecords(h, stream, ts[0]);
      FollowsRecords(h, har, stream, seen + [See(ts[0].answer)], ts[1..], ts[0].to);
      forall k | 0 < k < |ts|
        ensures AtItsRecords(h, stream, ts[k]) && ts[k].from == ts[k - 1].to
      {
        assert ts[k] == ts[1..][k - 1];
        if k > 1 { assert ts[k - 1] == ts[1..][k - 2]; }
      }
    }
  }

  /** These operations are those of the execution's harness, given the answers they got: each of them matches
  the records it stands at and is answered from them, every record belongs to one, and the harness returns. */
  ghost predicate Matches(es: seq<Entry>, h: Host, hars: Start -> Harness, id: string, ts: seq<Taken>)
    requires Gathered(EntriesOf(es, id)).Some? && FirstIndex(es, id) <= |es|
  {
    var har, stream := hars(RebuiltStart(es, ExecutionOf(es, id))), EffectsOf(es, id);
    && Follows(h.(executionId := id), har, stream, [], ts, 0)
    && (forall k | 0 <= k < |ts| ::
          AtItsRecords(h.(executionId := id), stream, ts[k]) && ts[k].from == if k == 0 then 0 else ts[k - 1].to)
    && Replays.Faithful(stream, ts)
    && EndOf(ts, 0) == |stream|
    && har(Sees(ts)) == Return(Completed)
  }

  ghost predicate Matched(es: seq<Entry>, h: Host, hars: Start -> Harness, budget: nat, id: string)
    requires Gathered(EntriesOf(es, id)).Some? && FirstIndex(es, id) <= |es|
  {
    exists ts :: |ts| <= budget && Matches(es, h, hars, id, ts)
  }

  /** An ended execution is reproduced iff its harness's operations match its records, position by position,
  from the first record to the last. */
  lemma {:induction false} ReproducedIffMatches(es: seq<Entry>, h: Host, hars: Start -> Harness, budget: nat, id: string)
    requires ScanOf(es).Ok? && Gathered(EntriesOf(es, id)).Some? && FirstIndex(es, id) <= |es|
    requires Gathered(EntriesOf(es, id)).value.completed
    ensures Reproduced(ReplayOne(es, h, hars, budget, id), |EffectsOf(es, id)|) <==> Matched(es, h, hars, budget, id)
  {
    hide EntriesOf, HasGate, Fold, Gathered, EvidenceOf, ScanOf, FirstIndex, EffectsOf, Replays.Settled, Replays.Faithful, Replays.At, Recorded, RebuiltStart, AtItsRecords;
    var own, rec, har := h.(executionId := id), ServedFrom(es, id), hars(RebuiltStart(es, ExecutionOf(es, id)));
    var first := Served(0, [], None, Guard(false, None), map[]);
    EndedIsSettled(es, id);
    StartsAtFirst(rec.stream);
    if Reproduced(ReplayOne(es, h, hars, budget, id), |rec.stream|) {
      Replays.ReplaySound(own, rec, har, first, [], budget);
      var ts := Replays.ReplayTrace(own, rec, har, first, [], budget);
      FollowsRecords(own, har, rec.stream, [], ts, 0);
      assert [] + Sees(ts) == Sees(ts);
      assert |ts| <= budget && Matches(es, h, hars, id, ts);
    }
    if ts :| |ts| <= budget && Matches(es, h, hars, id, ts) {
      assert [] + Sees(ts) == Sees(ts);
      Replays.TraceRepeats(own, rec, har, first, [], ts, 0, budget);
    }
  }

  lemma {:induction false} AllReproduced(es: seq<Entry>, h: Host, hars: Start -> Harness, budget: nat, ids: seq<string>)
    requires ScanOf(es).Ok? && forall id | id in ids :: Gathered(EntriesOf(es, id)).Some? && FirstIndex(es, id) <= |es|
    ensures ReplayAll(es, h, hars, budget, ids).Some? <==>
      forall id | id in ids && Gathered(EntriesOf(es, id)).value.completed ::
        Reproduced(ReplayOne(es, h, hars, budget, id), |EffectsOf(es, id)|)
  {
    hide Gathered, FirstIndex, EntriesOf, EffectsOf, ReplayOne, Reproduced;
    if ids != [] {
      var init := ids[..|ids| - 1];
      assert ids == init + [ids[|ids| - 1]];
      assert forall k | k in init :: k in ids;
      AllReproduced(es, h, hars, budget, init);
    }
  }

  /** A replay of the journal succeeds iff in each of its ended executions the harness's operations match the
  records, position by position and to the last one. */
  lemma {:induction false} ReplaySucceedsIff(es: seq<Entry>, h: Host, hars: Start -> Harness, budget: nat, ids: seq<string>)
    requires ScanOf(es).Ok? && forall id | id in ids :: Gathered(EntriesOf(es, id)).Some? && FirstIndex(es, id) <= |es|
    ensures ReplayAll(es, h, hars, budget, ids).Some? <==>
      forall id | id in ids && Gathered(EntriesOf(es, id)).value.completed :: Matched(es, h, hars, budget, id)
  {
    hide Gathered, FirstIndex, EntriesOf, EffectsOf, ReplayOne, Reproduced, Matched;
    AllReproduced(es, h, hars, budget, ids);
    forall id | id in ids && Gathered(EntriesOf(es, id)).value.completed
      ensures Reproduced(ReplayOne(es, h, hars, budget, id), |EffectsOf(es, id)|) <==> Matched(es, h, hars, budget, id)
    {
      ReproducedIffMatches(es, h, hars, budget, id);
    }
  }

  /** The recorded texts of the ended executions among these, in order. */
  function TextsOf(es: seq<Entry>, ids: seq<string>): seq<string>
    requires forall id | id in ids :: Gathered(EntriesOf(es, id)).Some?
  {
    if ids == [] then []
    else
      var id := ids[|ids| - 1];
      TextsOf(es, ids[..|ids| - 1]) +
      if Gathered(EntriesOf(es, id)).value.completed then Replays.OutputTexts(EffectsOf(es, id)) else []
  }

  /** A replay that succeeds returns exactly the recorded texts of the ended executions, in order. */
  lemma {:induction false} ReplayReturnsTexts(es: seq<Entry>, h: Host, hars: Start -> Harness, budget: nat, ids: seq<string>)
    requires ScanOf(es).Ok? && forall id | id in ids :: Gathered(EntriesOf(es, id)).Some? && FirstIndex(es, id) <= |es|
    requires forall id | id in ids :: Replays.OutputsHaveMessages(EffectsOf(es, id))
    ensures ReplayAll(es, h, hars, budget, ids).Some? ==> ReplayAll(es, h, hars, budget, ids).value == TextsOf(es, ids)
  {
    hide Gathered, FirstIndex, EntriesOf, EffectsOf, ReplayRun, Replays.OutputTexts, Replays.OutputsHaveMessages;
    if ids != [] && ReplayAll(es, h, hars, budget, ids).Some? {
      var init, id := ids[..|ids| - 1], ids[|ids| - 1];
      assert forall k | k in init :: k in ids;
      ReplayReturnsTexts(es, h, hars, budget, init);
      if Gathered(EntriesOf(es, id)).value.completed {
        var y := ReplayOne(es, h, hars, budget, id);
        var rec := ServedFrom(es, id);
        assert rec.stream[..0] == [] && rec.stream[..|rec.stream|] == rec.stream;
        assert Replays.OutputTexts([]) == [] by { NoTexts(); }
        Replays.ReplayOutputs(h.(executionId := id), rec, hars(RebuiltStart(es, ExecutionOf(es, id))),
                              Served(0, [], None, Guard(false, None), map[]), [], budget);
      }
    }
  }

  lemma {:induction false} NoTexts()
    ensures Replays.OutputTexts([]) == []
  {
  }
}
