/** The invocations a journal records (controller/executions.go), and the start each was given.

Replay and recovery both rebuild what Exec had: who ran, on what history, with what inputs. */
module Invocations {
  import opened Api
  import opened Approval
  import opened Sinks
  import opened Evidence
  import opened ApprovalScan
  import opened Projection
  import opened Writers
  import opened Runs

  /** What the records of one invocation say, as replay and recovery collect it. */
  datatype Gathering = Gathering(
    start: Option<ExecutionStart>,
    inputRecords: nat,
    inputs: seq<Message>,
    stream: seq<Event>,
    completed: bool)

  const NO_RECORDS := Gathering(None, 0, [], [], false)

  function Take(c: Gathering, first: bool, ev: Event): Option<Gathering>
  {
    match ev.kind
    case KExecutionStart => if first && ev.body.BStart? then Some(c.(start := Some(ev.body.start))) else None
    case KInput =>
      Some(c.(inputRecords := c.inputRecords + 1,
              inputs := if ev.body.BMessage? then c.inputs + [ev.body.message] else c.inputs))
    case KEnd => Some(c.(completed := true))
    case _ => Some(if IsEffect(ev.kind) then c.(stream := c.stream + [ev]) else c)
  }

  /** The records of one execution, collected; None when its start marker is misplaced. */
  function Gathered(own: seq<Entry>): Option<Gathering>
  {
    if own == [] then Some(NO_RECORDS)
    else
      match Gathered(own[..|own| - 1])
      case None => None
      case Some(c) => Take(c, |own| == 1, own[|own| - 1].event)
  }

  function InputError(c: Gathering): Option<ScanError>
  {
    InputsError(c.start, c.inputRecords, c.inputs, c.completed)
  }

  datatype RecordedExecution = RecordedExecution(id: string, start: nat, records: Gathering)

  /** An execution whose records can be neither replayed nor recovered. */
  predicate Broken(es: seq<Entry>, id: string)
  {
    id == "" ||
    match Gathered(EntriesOf(es, id))
    case None => true
    case Some(c) => c.completed && InputError(c).Some?
  }

  /** How many records precede the first one of an execution. */
  function FirstIndex(es: seq<Entry>, id: string): nat
  {
    if es == [] then 0
    else
      var init := es[..|es| - 1];
      if EntriesOf(init, id) != [] then FirstIndex(init, id) else if Of(es[|es| - 1], id) then |init| else |es|
  }

  function ExecutionOf(es: seq<Entry>, id: string): RecordedExecution
    requires Gathered(EntriesOf(es, id)).Some?
  {
    RecordedExecution(id, FirstIndex(es, id), Gathered(EntriesOf(es, id)).value)
  }

  lemma {:induction false} GatheredNext(own: seq<Entry>, e: Entry)
    ensures Gathered(own + [e]) == if Gathered(own).None? then None else Take(Gathered(own).value, own == [], e.event)
  {
    assert (own + [e])[..|own|] == own;
  }

  lemma {:induction false} FirstIndexNext(es: seq<Entry>, e: Entry, id: string)
    ensures FirstIndex(es + [e], id) ==
      if EntriesOf(es, id) != [] then FirstIndex(es, id) else if Of(e, id) then |es| else |es| + 1
    ensures EntriesOf(es, id) == [] ==> FirstIndex(es, id) == |es|
  {
    assert (es + [e])[..|es|] == es;
    NotYet(es, id);
  }

  lemma {:induction false} NotYet(es: seq<Entry>, id: string)
    ensures EntriesOf(es, id) == [] ==> FirstIndex(es, id) == |es|
  {
    if es != [] { NotYet(es[..|es| - 1], id); }
  }

  lemma {:induction false} GatheredPrefix(own: seq<Entry>, n: nat)
    requires n <= |own| && Gathered(own).Some?
    ensures Gathered(own[..n]).Some?
  {
    if n < |own| {
      assert own[..|own| - 1][..n] == own[..n];
      GatheredPrefix(own[..|own| - 1], n);
    } else {
      assert own[..n] == own;
    }
  }

  /** What the loop has collected from the records it has read. */
  ghost predicate Gathers(es: seq<Entry>, order: seq<string>, table: map<string, RecordedExecution>)
  {
    && order == Executions(es)
    && (forall id :: id in table <==> id in order)
    && (forall id | id in table :: id != "" && Gathered(EntriesOf(es, id)).Some? && table[id] == ExecutionOf(es, id))
  }

  /** A record that cannot be collected makes the whole journal invalid. */
  lemma {:induction false} BrokenStays(es: seq<Entry>, n: nat, id: string)
    requires n <= |es| && EntriesOf(es[..n], id) != [] && (id == "" || Gathered(EntriesOf(es[..n], id)).None?)
    ensures id in Executions(es) && Broken(es, id)
  {
    EntriesPrefix(es, n, id);
    var own := EntriesOf(es, id);
    SeenExecution(es, id);
    if id != "" && Gathered(own).Some? {
      assert own[..|EntriesOf(es[..n], id)|] == EntriesOf(es[..n], id);
      GatheredPrefix(own, |EntriesOf(es[..n], id)|);
    }
  }

  lemma {:induction false} GathersOne(es: seq<Entry>, e: Entry, order: seq<string>, table: map<string, RecordedExecution>, r: RecordedExecution)
    requires Gathers(es, order, table) && !e.event.kind.KLifecycle? && e.event.executionId != ""
    requires var id := e.event.executionId;
      && Gathered(EntriesOf(es, id) + [e]).Some?
      && r == RecordedExecution(id, if id in table then table[id].start else |es|, Gathered(EntriesOf(es, id) + [e]).value)
    ensures Gathers(es + [e], if e.event.executionId in table then order else order + [e.event.executionId], table[e.event.executionId := r])
  {
    hide Executions, EntriesOf, Gathered, FirstIndex;
    var id := e.event.executionId;
    var table' := table[id := r];
    ScanNext(es, e);
    EntriesNext(es, e, id);
    FirstIndexNext(es, e, id);
    SeenExecution(es, id);
    forall k | k in table'
      ensures Gathered(EntriesOf(es + [e], k)).Some? && table'[k] == ExecutionOf(es + [e], k)
    {
      EntriesNext(es, e, k);
      FirstIndexNext(es, e, k);
      SeenExecution(es, k);
    }
  }

  lemma {:induction false} GathersLifecycle(es: seq<Entry>, e: Entry, order: seq<string>, table: map<string, RecordedExecution>)
    requires Gathers(es, order, table) && e.event.kind.KLifecycle?
    ensures Gathers(es + [e], order, table)
  {
    hide Executions, EntriesOf, Gathered, FirstIndex;
    ScanNext(es, e);
    forall k | k in table
      ensures Gathered(EntriesOf(es + [e], k)).Some? && table[k] == ExecutionOf(es + [e], k)
    {
      EntriesNext(es, e, k);
      FirstIndexNext(es, e, k);
      SeenExecution(es, k);
    }
  }

  /** Groups a journal by execution, in first-seen order, and checks the inputs of every finished one. It
  succeeds iff none is broken. */
  method RecordedExecutions(es: seq<Entry>) returns (r: Result<seq<RecordedExecution>, ScanError>)
    ensures r.Ok? <==> forall id | id in Executions(es) :: !Broken(es, id)
    ensures r.Err? ==> r.error == InvalidLog
    ensures r.Ok? ==>
      && |r.value| == |Executions(es)|
      && forall k | 0 <= k < |r.value| ::
           Gathered(EntriesOf(es, Executions(es)[k])).Some? && r.value[k] == ExecutionOf(es, Executions(es)[k])
  {
    hide Executions, EntriesOf, Gathered, FirstIndex;
    var order: seq<string>, table: map<string, RecordedExecution> := [], map[];
    assert Gathers(es[..0], order, table) by { NothingGathered(); }
    for i := 0 to |es|
      invariant Gathers(es[..i], order, table)
    {
      var e := es[i];
      assert es[..i + 1] == es[..i] + [e];
      if e.event.kind.KLifecycle? {
        GathersLifecycle(es[..i], e, order, table);
      } else {
        var id := e.event.executionId;
        EntriesNext(es[..i], e, id);
        if id == "" {
          BrokenStays(es, i + 1, id);
          return Err(InvalidLog);
        }
        SeenExecution(es[..i], id);
        GatheredNext(EntriesOf(es[..i], id), e);
        var before := if id in table then table[id] else RecordedExecution(id, i, NO_RECORDS);
        NoneGathered();
        var after := Take(before.records, id !in table, e.event);
        if after.None? {
          BrokenStays(es, i + 1, id);
          return Err(InvalidLog);
        }
        var known := id in table;
        GathersOne(es[..i], e, order, table, before.(records := after.value));
        table := table[id := before.(records := after.value)];
        if !known {
          order := order + [id];
        }
      }
    }
    assert es[..|es|] == es;
    var out: seq<RecordedExecution> := [];
    for k := 0 to |order|
      invariant |out| == k
      invariant forall j | 0 <= j < k :: out[j] == table[order[j]] && !Broken(es, order[j])
    {
      var c := table[order[k]];
      if c.records.completed && InputError(c.records).Some? {
        assert Broken(es, order[k]);
        return Err(InvalidLog);
      }
      out := out + [c];
    }
    r := Ok(out);
  }

  lemma {:induction false} NothingGathered()
    ensures Gathers([], [], map[])
  {
  }

  lemma {:induction false} NoneGathered()
    ensures Gathered([]) == Some(NO_RECORDS)
  {
  }

  /** The execution recovery would pick up: the last one, unless it has ended. */
  method PendingExecution(executions: seq<RecordedExecution>) returns (r: Result<Option<RecordedExecution>, ScanError>)
    ensures r == if executions == [] || executions[|executions| - 1].records.completed then Ok(None)
                 else match InputError(executions[|executions| - 1].records)
                   case Some(e) => Err(e)
                   case None => Ok(Some(executions[|executions| - 1]))
  {
    if |executions| == 0 || executions[|executions| - 1].records.completed {
      return Ok(None);
    }
    var execution := executions[|executions| - 1];
    match InputError(execution.records) {
      case Some(e) => return Err(e);
      case None => return Ok(Some(execution));
    }
  }

  // ---- each effect in one execution, in order ----

  /** An effect stands in the stream of its own execution right after the effects recorded before it, and
  in no other stream. */
  lemma {:induction false} EffectPlaced(es: seq<Entry>, i: nat, id: string)
    requires i < |es| && !es[i].event.kind.KLifecycle? && IsEffect(es[i].event.kind)
    ensures var before, after := EffectsOf(es[..i], id), EffectsOf(es[..i + 1], id);
      && after == (if id == es[i].event.executionId then before + [es[i].event] else before)
      && after <= EffectsOf(es, id)
  {
    assert es[..i + 1] == es[..i] + [es[i]];
    EffectsSnoc(es[..i], es[i], id);
    EffectsPrefix(es, i + 1, id);
  }

  ghost predicate Reads(c: Gathering, x: Execution, stream: seq<Event>)
  {
    c.start == x.start && c.inputRecords == x.inputRecords && c.inputs == x.inputs && c.completed == x.completed && c.stream == stream
  }

  lemma {:induction false} TakeAgrees(c: Gathering, x: Execution, stream: seq<Event>, first: bool, e: Entry, y: Execution)
    requires Reads(c, x, stream) && Step(x, first, e) == Ok(y)
    ensures Take(c, first, e.event).Some?
    ensures Reads(Take(c, first, e.event).value, y, if IsEffect(e.event.kind) then stream + [e.event] else stream)
  {
  }

  /** Collecting the records of an execution that scans gives what the scan gives. */
  lemma {:induction false} GatheredAgrees(own: seq<Entry>)
    requires Fold(own).Ok?
    ensures Gathered(own).Some? && Reads(Gathered(own).value, Fold(own).value, Stream(own))
    ensures InputError(Gathered(own).value) == ValidateInputs(Fold(own).value)
  {
    hide Step, Take;
    if own != [] {
      var init := own[..|own| - 1];
      GatheredAgrees(init);
      TakeAgrees(Gathered(init).value, Fold(init).value, Stream(init), |own| == 1, own[|own| - 1], Fold(own).value);
    }
  }

  // ---- the start an invocation was given ----

  /** What a harness is started with. */
  datatype Start = Start(executionId: string, history: seq<Event>, inputs: seq<Message>, config: seq<byte>, resumeFromSeq: int)

  function EventsOf(es: seq<Entry>): (events: seq<Event>)
    ensures |events| == |es|
  {
    seq(|es|, i requires 0 <= i < |es| => es[i].event)
  }

  /** What Exec starts the harness with. */
  function ExecStart(es: seq<Entry>, id: string, start: ExecutionStart, inputs: seq<Message>): Start
  {
    Start(id, EventsOf(es), inputs, start.config, start.resumeFromSeq)
  }

  /** What replay and recovery start it with. */
  function RebuiltStart(es: seq<Entry>, r: RecordedExecution): Start
    requires r.start <= |es|
  {
    Start(r.id, EventsOf(es[..r.start]), r.records.inputs,
          if r.records.start.Some? then r.records.start.value.config else [],
          if r.records.start.Some? then r.records.start.value.resumeFromSeq else 0)
  }

  lemma {:induction false} AppendingSnoc(es: seq<Entry>, events: seq<Event>, e: Event)
    ensures Appending(es, events + [e]) == Appending(es, events) + [Entry(Head(Appending(es, events)) + 1, e)]
    ensures es <= Appending(es, events)
    decreases |events|
  {
    if events == [] {
      assert [e][1..] == [];
    } else {
      assert (events + [e])[1..] == events[1..] + [e];
      AppendingSnoc(es + [Entry(Head(es) + 1, events[0])], events[1..], e);
    }
  }

  lemma {:induction false} NothingAppended(es: seq<Entry>, events: seq<Event>)
    ensures Appending(es, events[..0]) == es
  {
  }

  /** The m-th record of an invocation, collected after those before it. */
  lemma {:induction false} OpeningTaken(id: string, start: ExecutionStart, inputs: seq<Message>, m: nat)
    requires 1 <= m <= |inputs| + 1
    ensures var marker, e := start.(inputCount := Some(|inputs|)), Opening(id, start, inputs)[m - 1];
      && e.executionId == id && !e.kind.KLifecycle?
      && (m == 1 ==> Take(NO_RECORDS, true, e) == Some(Gathering(Some(marker), 0, inputs[..0], [], false)))
      && (m > 1 ==> Take(Gathering(Some(marker), m - 2, inputs[..m - 2], [], false), false, e) ==
                    Some(Gathering(Some(marker), m - 1, inputs[..m - 1], [], false)))
  {
    assert inputs[..0] == [];
    if m > 1 { assert inputs[..m - 1] == inputs[..m - 2] + [inputs[m - 2]]; }
  }

  /** The first m records of an invocation, and what they collect to. */
  lemma {:induction false} OpeningGathered(es: seq<Entry>, id: string, start: ExecutionStart, inputs: seq<Message>, m: nat)
    requires id !in Executions(es) && 1 <= m <= |inputs| + 1
    ensures var begun := Appending(es, Opening(id, start, inputs)[..m]);
      && es <= begun
      && EntriesOf(begun, id) != []
      && Gathered(EntriesOf(begun, id)) ==
         Some(Gathering(Some(start.(inputCount := Some(|inputs|))), m - 1, inputs[..m - 1], [], false))
      && FirstIndex(begun, id) == |es|
  {
    hide Executions, EntriesOf, FirstIndex, Gathered, Appending, Take;
    var all := Opening(id, start, inputs);
    var shorter := Appending(es, all[..m - 1]);
    assert all[..m] == all[..m - 1] + [all[m - 1]];
    AppendingSnoc(es, all[..m - 1], all[m - 1]);
    var e := Entry(Head(shorter) + 1, all[m - 1]);
    EntriesNext(shorter, e, id);
    FirstIndexNext(shorter, e, id);
    GatheredNext(EntriesOf(shorter, id), e);
    OpeningTaken(id, start, inputs, m);
    if m == 1 {
      assert shorter == es by { NothingAppended(es, all); }
      SeenExecution(es, id);
      NoneGathered();
    } else {
      OpeningGathered(es, id, start, inputs, m - 1);
    }
  }

  lemma {:induction false} FirstIndexKept(es: seq<Entry>, n: nat, id: string)
    requires n <= |es| && EntriesOf(es[..n], id) != []
    ensures FirstIndex(es, id) == FirstIndex(es[..n], id) && EntriesOf(es, id) != []
  {
    if n < |es| {
      assert es[..|es| - 1][..n] == es[..n];
      FirstIndexKept(es[..|es| - 1], n, id);
    } else {
      assert es[..n] == es;
    }
  }

  lemma {:induction false} CompleteStays(x: Execution, e: Entry, y: Execution)
    requires StepHealthy(x, false, e) && Step(x, false, e) == Ok(y) && Complete(x)
    ensures Complete(y) && y.start == x.start && y.inputs == x.inputs
  {
  }

  /** Once an execution has its inputs, a well-formed journal changes neither its marker nor its inputs. */
  lemma {:induction false} InputsKept(own: seq<Entry>, n: nat)
    requires 0 < n <= |own| && Healthy(own) && Fold(own[..n]).Ok? && Complete(Fold(own[..n]).value)
    ensures Fold(own).Ok? && Complete(Fold(own).value)
    ensures Fold(own).value.start == Fold(own[..n]).value.start && Fold(own).value.inputs == Fold(own[..n]).value.inputs
  {
    hide Step, Complete;
    if n < |own| {
      var init := own[..|own| - 1];
      assert init[..n] == own[..n];
      InputsKept(init, n);
      CompleteStays(Fold(init).value, own[|own| - 1], Fold(own).value);
    } else {
      assert own[..n] == own;
    }
  }

  lemma {:induction false} OpeningPrefixes(es: seq<Entry>, begun: seq<Entry>, longer: seq<Entry>, id: string)
    requires es <= begun <= longer
    ensures longer[..|es|] == es && longer[..|begun|] == begun
    ensures EntriesOf(begun, id) <= EntriesOf(longer, id)
  {
    EntriesPrefix(longer, |begun|, id);
  }

  /** The start that replay and recovery rebuild, at any later time, is the one Exec gave. */
  lemma {:induction false} StartRebuilt(es: seq<Entry>, id: string, start: ExecutionStart, inputs: seq<Message>, longer: seq<Entry>)
    requires id !in Executions(es)
    requires Appending(es, Opening(id, start, inputs)) <= longer && Healthy(EntriesOf(longer, id))
    ensures Gathered(EntriesOf(longer, id)).Some? && FirstIndex(longer, id) <= |longer|
    ensures RebuiltStart(longer, ExecutionOf(longer, id)) == ExecStart(es, id, start, inputs)
    ensures var given := RebuiltStart(longer, ExecutionOf(longer, id));
      && given.executionId == id && given.inputs == inputs
      && given.config == start.config && given.resumeFromSeq == start.resumeFromSeq
      && |given.history| == |es| && forall k | 0 <= k < |es| :: given.history[k] == es[k].event
  {
    hide Executions, EntriesOf, FirstIndex, Gathered, Fold, Healthy, Appending;
    var all := Opening(id, start, inputs);
    var begun := Appending(es, all);
    assert all[..|inputs| + 1] == all && inputs[..|inputs|] == inputs;
    OpeningGathered(es, id, start, inputs, |inputs| + 1);
    OpeningPrefixes(es, begun, longer, id);
    FirstIndexKept(longer, |begun|, id);
    var own, now := EntriesOf(begun, id), EntriesOf(longer, id);
    assert now[..|own|] == own;
    HealthyPrefix(now, |own|);
    HealthyIsWhole(own);
    HealthyIsWhole(now);
    GatheredAgrees(own);
    GatheredAgrees(now);
    InputsKept(now, |own|);
  }
}
